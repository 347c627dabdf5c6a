/** aws_inventory.py, export half: `write_excel` builds a `Summary` sheet (a
    header, one row per summary entry, each column as wide as its longest
    cell plus two) and one detail sheet per `(account, region, service)`
    slot, whose header is the union of the item dicts' keys and whose rows
    align each item under it. */
module InventoryExcel {
  import opened Wrappers
  import opened PyDict
  import opened Text
  import opened Cloud
  import opened Inventory

  /** A worksheet: its title and its rows of cells, as appended. */
  datatype Sheet = Sheet(title: string, rows: seq<seq<Value>>)

  // ---------------------------------------------------------------- sheet titles

  /** Excel's limit on sheet-title length, applied by `sheet_name[:31]`. */
  const MAX_TITLE: nat := 31

  /** `f"{service}_{account_id[-4:]}_{region.replace('-', '')}"` */
  function SheetName(service: string, id: string, region: string): string {
    service + "_" + Suffix(id, 4) + "_" + RemoveAll(region, '-')
  }

  function SheetTitle(service: string, id: string, region: string): string {
    Take(SheetName(service, id, region), MAX_TITLE)
  }

  /** The title is at most 31 characters, a prefix of the full name, and
      the full name itself when that fits. */
  lemma TitleBounds(service: string, id: string, region: string)
    ensures |SheetTitle(service, id, region)| <= MAX_TITLE
    ensures SheetTitle(service, id, region) <= SheetName(service, id, region)
    ensures |SheetName(service, id, region)| <= MAX_TITLE ==> SheetTitle(service, id, region) == SheetName(service, id, region)
  {
  }

  /** A name is cut only when service and region together are long: the
      account part is at most four characters. */
  lemma TitleUncut(service: string, id: string, region: string)
    requires |service| + |region| <= MAX_TITLE - 6
    ensures SheetTitle(service, id, region) == SheetName(service, id, region)
    ensures |SheetName(service, id, region)| <= |service| + |region| + 6
  {
  }

  lemma RegionsShort()
    ensures forall r :: r in REGIONS ==> |r| <= 13
  {
  }

  /** No title this program builds is ever cut: its services have three
      letters and its longest region thirteen characters. */
  lemma TitlesNeverCut(id: string, service: string, region: string)
    requires service in ["EC2", "EFS", "RDS", "S3"]
    requires region in REGIONS || region == GLOBAL
    ensures SheetTitle(service, id, region) == SheetName(service, id, region)
  {
    RegionsShort();
    TitleUncut(service, id, region);
  }

  // ---------------------------------------------------------------- detail header and rows

  /** Every key of every item, item by item. */
  function AllKeys(items: seq<Record>): (ks: seq<string>)
    ensures forall k :: k in ks <==> exists i :: 0 <= i < |items| && k in items[i].keys
    decreases |items|
  {
    if |items| == 0 then []
    else
      var rest := AllKeys(items[1..]);
      assert forall k :: (exists i :: 1 <= i < |items| && k in items[i].keys) <==> k in rest by {
        forall k | k in rest ensures exists i :: 1 <= i < |items| && k in items[i].keys {
          var j :| 0 <= j < |items[1..]| && k in items[1..][j].keys;
          assert k in items[j + 1].keys;
        }
      }
      items[0].keys + rest
  }

  /** `set().union(*(d.keys() for d in items))`, enumerated once per key in
      order of first appearance. */
  function KeyUnion(items: seq<Record>): (ks: seq<string>)
    ensures NoDup(ks)
    ensures forall k :: k in ks <==> exists i :: 0 <= i < |items| && k in items[i].keys
  {
    Dedup(AllKeys(items))
  }

  /** `[item.get(k, "") for k in keys]` */
  function ItemRow(item: Record, header: seq<string>): (row: seq<Value>)
    ensures |row| == |header|
  {
    seq(|header|, j requires 0 <= j < |header| => GetOr(item, header[j], Str("")))
  }

  /** The header row's cells. */
  function HeaderRow(header: seq<string>): (row: seq<Value>)
    ensures |row| == |header|
  {
    seq(|header|, j requires 0 <= j < |header| => Str(header[j]))
  }

  /** A header is a duplicate-free enumeration of the items' key union. The
      program's `list(set)` picks one by hash order; every lemma below holds
      for any of them. */
  ghost predicate IsUnionHeader(h: seq<string>, items: seq<Record>) {
    NoDup(h) && forall k :: k in h <==> exists i :: 0 <= i < |items| && k in items[i].keys
  }

  /** Against any union header, an item's row holds each of its values under
      that value's key, once, and `""` under every key it lacks. */
  lemma RowAligned(items: seq<Record>, h: seq<string>, i: nat)
    requires IsUnionHeader(h, items) && i < |items|
    ensures forall j :: 0 <= j < |h| && h[j] !in items[i].keys ==> ItemRow(items[i], h)[j] == Str("")
    ensures forall j :: 0 <= j < |h| && h[j] in items[i].keys ==> Some(ItemRow(items[i], h)[j]) == Get(items[i], h[j])
    ensures forall k :: k in items[i].keys ==>
      exists j :: 0 <= j < |h| && h[j] == k && Some(ItemRow(items[i], h)[j]) == Get(items[i], k)
  {
    var item := items[i];
    forall k | k in item.keys
      ensures exists j :: 0 <= j < |h| && h[j] == k && Some(ItemRow(item, h)[j]) == Get(item, k)
    {
      assert k in items[i].keys;
      assert k in h;
      var j :| 0 <= j < |h| && h[j] == k;
      assert Some(ItemRow(item, h)[j]) == Get(item, k);
    }
  }

  /** The sheet of one slot: no rows when the slot is empty, else the header
      and one aligned row per item. */
  function DetailSheet(id: string, region: string, service: string, items: Slot): Sheet {
    var title := SheetTitle(service, id, region);
    if |items| == 0 then Sheet(title, [])
    else
      var h := KeyUnion(items);
      Sheet(title, [HeaderRow(h)] + seq(|items|, i requires 0 <= i < |items| => ItemRow(items[i], h)))
  }

  /** A non-empty slot's sheet is a union header over one row per item,
      each aligned with that header. */
  lemma DetailSheetAligned(id: string, region: string, service: string, items: Slot)
    requires |items| > 0
    ensures var rows := DetailSheet(id, region, service, items).rows;
      |rows| == |items| + 1 &&
      exists h :: IsUnionHeader(h, items) && rows[0] == HeaderRow(h) &&
        forall i :: 1 <= i < |rows| ==> rows[i] == ItemRow(items[i - 1], h)
  {
    var h := KeyUnion(items);
    assert IsUnionHeader(h, items);
  }

  /** The row has a cell holding `v`. */
  predicate HasCell(row: seq<Value>, v: Value) {
    exists j :: 0 <= j < |row| && row[j] == v
  }

  /** Against any union header, an item's row holds each of its values. */
  lemma RowHolds(items: seq<Record>, h: seq<string>, i: nat, k: string, v: Value)
    requires IsUnionHeader(h, items) && i < |items|
    requires Get(items[i], k) == Some(v)
    ensures HasCell(ItemRow(items[i], h), v)
  {
    RowAligned(items, h, i);
    assert k in items[i].keys;
  }

  /** When every item holds the value `vals[i]` under `k`, every item row
      of the slot's sheet carries it. */
  lemma SheetRowsHold(id: string, region: string, service: string, items: Slot, k: string, vals: seq<Value>)
    requires |vals| == |items|
    requires forall i :: 0 <= i < |items| ==> Get(items[i], k) == Some(vals[i])
    ensures var rows := DetailSheet(id, region, service, items).rows;
      |rows| == (if |items| == 0 then 0 else |items| + 1) &&
      forall i :: 1 <= i < |rows| ==> HasCell(rows[i], vals[i - 1])
  {
    if |items| > 0 {
      var h := KeyUnion(items);
      var rows := DetailSheet(id, region, service, items).rows;
      forall i | 1 <= i < |rows|
        ensures HasCell(rows[i], vals[i - 1])
      {
        assert rows[i] == ItemRow(items[i - 1], h);
        RowHolds(items, h, i - 1, k, vals[i - 1]);
      }
    }
  }

  /** Every listed volume's row carries its tag list as one cell: the rows
      handed to `ws.append` for EC2 hold list values. */
  lemma VolumeRowsHoldTags(id: string, region: string, vs: seq<Volume>)
    ensures var rows := DetailSheet(id, region, "EC2", Ec2Slot(Ok(vs))).rows;
      |rows| == (if |vs| == 0 then 0 else |vs| + 1) &&
      forall i :: 1 <= i < |rows| ==> HasCell(rows[i], TagList(vs[i - 1].tags.GetOr([])))
  {
    var tags := seq(|vs|, i requires 0 <= i < |vs| => TagList(vs[i].tags.GetOr([])));
    SheetRowsHold(id, region, "EC2", Ec2Slot(Ok(vs)), "Tags", tags);
  }

  /** A failed call's sheet: the header `error` and the message under it. */
  lemma ErrorSheet(id: string, region: string, service: string, msg: string)
    ensures DetailSheet(id, region, service, ErrorSlot(msg)).rows == [[Str("error")], [Str(msg)]]
  {
    var items := ErrorSlot(msg);
    assert AllKeys(items) == ["error"] by {
      assert items[1..] == [];
    }
    assert KeyUnion(items) == ["error"] by {
      assert ["error"][..0] == [];
    }
    assert ItemRow(items[0], ["error"]) == [Str(msg)];
    assert HeaderRow(["error"]) == [Str("error")];
  }

  // ---------------------------------------------------------------- detail traversal

  /** The innermost loop over `services.items()`. */
  function ServiceSheets(id: string, region: string, svc: Services, ks: seq<string>): seq<Sheet>
    decreases |ks|
  {
    if |ks| == 0 then []
    else [DetailSheet(id, region, ks[0], GetOr(svc, ks[0], []))] + ServiceSheets(id, region, svc, ks[1..])
  }

  /** The loop over `regions.items()`. */
  function EntrySheets(id: string, e: AccountEntry, ks: seq<string>): seq<Sheet>
    decreases |ks|
  {
    if |ks| == 0 then []
    else
      var svc := GetOr(e, ks[0], Empty());
      ServiceSheets(id, ks[0], svc, svc.keys) + EntrySheets(id, e, ks[1..])
  }

  /** The loop over `results.items()`. */
  function ResultSheets(res: Results, ks: seq<string>): seq<Sheet>
    decreases |ks|
  {
    if |ks| == 0 then []
    else
      var e := GetOr(res, ks[0], Empty());
      EntrySheets(ks[0], e, e.keys) + ResultSheets(res, ks[1..])
  }

  function DetailSheets(res: Results): seq<Sheet> {
    ResultSheets(res, res.keys)
  }

  /** The number of slots under the keys `ks` of an entry. */
  function SlotCount(e: AccountEntry, ks: seq<string>): nat
    decreases |ks|
  {
    if |ks| == 0 then 0 else |GetOr(e, ks[0], Empty()).keys| + SlotCount(e, ks[1..])
  }

  /** One detail sheet per slot, */
  lemma {:induction false} ServiceSheetsCount(id: string, region: string, svc: Services, ks: seq<string>)
    ensures |ServiceSheets(id, region, svc, ks)| == |ks|
    decreases |ks|
  {
    if |ks| > 0 {
      ServiceSheetsCount(id, region, svc, ks[1..]);
    }
  }

  lemma {:induction false} EntrySheetsCount(id: string, e: AccountEntry, ks: seq<string>)
    ensures |EntrySheets(id, e, ks)| == SlotCount(e, ks)
    decreases |ks|
  {
    if |ks| > 0 {
      var svc := GetOr(e, ks[0], Empty());
      ServiceSheetsCount(id, ks[0], svc, svc.keys);
      EntrySheetsCount(id, e, ks[1..]);
    }
  }

  /** Slot counts add over concatenated key lists. */
  lemma {:induction false} SlotCountAppend(e: AccountEntry, a: seq<string>, b: seq<string>)
    ensures SlotCount(e, a + b) == SlotCount(e, a) + SlotCount(e, b)
    decreases |a|
  {
    if |a| == 0 {
      assert a + b == b;
    } else {
      assert (a + b)[0] == a[0] && (a + b)[1..] == a[1..] + b;
      SlotCountAppend(e, a[1..], b);
    }
  }

  lemma MulStep(n: nat, m: nat)
    ensures n * (m + 1) == n + n * m
  {
  }

  /** Keys holding `n` services each count `n` slots apiece. */
  lemma {:induction false} UniformCount(e: AccountEntry, ks: seq<string>, n: nat)
    requires forall k :: k in ks ==> |GetOr(e, k, Empty()).keys| == n
    ensures SlotCount(e, ks) == n * |ks|
    decreases |ks|
  {
    if |ks| > 0 {
      UniformCount(e, ks[1..], n);
      MulStep(n, |ks[1..]|);
    }
  }

  /** Each region of a fresh entry holds three services, */
  lemma FreshRegionWidth(api: Api, id: string, r: string)
    requires r in REGIONS
    ensures |GetOr(Fresh(api, id), r, Empty()).keys| == 3
  {
    RegionsDistinct();
    EntryKeysMembers();
    assert GetOr(Fresh(api, id), r, Empty()) == RegionServices(api, id, r);
  }

  /** and `'global'` one. */
  lemma FreshGlobalWidth(api: Api, id: string)
    ensures forall k :: k in [GLOBAL] ==> |GetOr(Fresh(api, id), k, Empty()).keys| == 1
  {
    EntryKeysMembers();
    assert GetOr(Fresh(api, id), GLOBAL, Empty()) == GlobalServices(api, id);
  }

  /** A fresh entry has nineteen slots: three in each of six regions and
      `S3` under `'global'`. */
  lemma FreshCount(api: Api, id: string)
    ensures SlotCount(Fresh(api, id), Fresh(api, id).keys) == 3 * |REGIONS| + 1
  {
    var e := Fresh(api, id);
    forall r | r in REGIONS ensures |GetOr(e, r, Empty()).keys| == 3 {
      FreshRegionWidth(api, id, r);
    }
    FreshGlobalWidth(api, id);
    UniformCount(e, REGIONS, 3);
    UniformCount(e, [GLOBAL], 1);
    SlotCountAppend(e, REGIONS, [GLOBAL]);
  }

  /** Accounts of `n` slots each give `n` detail sheets apiece. */
  lemma {:induction false} ResultSheetsCount(res: Results, ks: seq<string>, n: nat)
    requires forall k :: k in ks ==> SlotCount(GetOr(res, k, Empty()), GetOr(res, k, Empty()).keys) == n
    ensures |ResultSheets(res, ks)| == n * |ks|
    decreases |ks|
  {
    if |ks| > 0 {
      var e := GetOr(res, ks[0], Empty());
      EntrySheetsCount(ks[0], e, e.keys);
      ResultSheetsCount(res, ks[1..], n);
      MulStep(n, |ks[1..]|);
    }
  }

  /** The workbook of a run: the summary sheet, then nineteen detail sheets
      for each distinct collected account. */
  lemma WorkbookOfRun(api: Api, accounts: seq<Account>)
    ensures |Workbook(Run(api, accounts))| == 1 + (3 * |REGIONS| + 1) * |Run(api, accounts).results.keys|
  {
    var res := Run(api, accounts).results;
    RunShape(api, accounts);
    forall k | k in res.keys
      ensures SlotCount(GetOr(res, k, Empty()), GetOr(res, k, Empty()).keys) == 3 * |REGIONS| + 1
    {
      ExpectedGet(api, Collected(api, accounts), k);
      FreshCount(api, k);
    }
    ResultSheetsCount(res, res.keys, 3 * |REGIONS| + 1);
  }

  // ---------------------------------------------------------------- summary sheet

  const SUMMARY_HEADER: seq<string> := ["Account ID", "Region", "Service", "Resource Count", "Total Capacity (GB)"]

  /** A summary row as appended: the capacity is an integer or a float
      rounded to hundredths. */
  function SummaryValues(row: SummaryRow): (vs: seq<Value>)
    ensures |vs| == |SUMMARY_HEADER|
  {
    [Str(row.accountId), Str(row.region), Str(row.service), Int(row.count),
     match row.capacity
     case Whole(n) => Int(n)
     case Rounded(b) => Gib2(b)]
  }

  function SummarySheet(summary: seq<SummaryRow>): Sheet {
    Sheet("Summary", [HeaderRow(SUMMARY_HEADER)] + seq(|summary|, i requires 0 <= i < |summary| => SummaryValues(summary[i])))
  }

  /** What the width rule sees of a cell: `str(cell.value)` and whether the
      value is truthy. */
  datatype Cell = Cell(text: string, truthy: bool)

  /** `len(str(cell.value)) if cell.value else 0` */
  function CellLen(c: Cell): nat {
    if c.truthy then |c.text| else 0
  }

  /** The cells of a summary row: strings as they are, integers in decimal,
      a rounded capacity as Python prints the float (falsy when it rounds
      to zero). */
  function SummaryCells(row: SummaryRow): (cs: seq<Cell>)
    ensures |cs| == |SUMMARY_HEADER|
  {
    [Cell(row.accountId, row.accountId != ""), Cell(row.region, row.region != ""),
     Cell(row.service, row.service != ""), Cell(NatText(row.count), row.count != 0),
     match row.capacity
     case Whole(n) => Cell(NatText(n), n != 0)
     case Rounded(b) => Cell(CentsText(RoundCents(b)), RoundCents(b) != 0)]
  }

  /** Column `j` of the summary sheet, header first. */
  function Column(summary: seq<SummaryRow>, j: nat): (col: seq<Cell>)
    requires j < |SUMMARY_HEADER|
    ensures |col| == |summary| + 1
    ensures col[0] == Cell(SUMMARY_HEADER[j], true)
  {
    [Cell(SUMMARY_HEADER[j], true)] + seq(|summary|, i requires 0 <= i < |summary| => SummaryCells(summary[i])[j])
  }

  /** `w` is two more than the longest cell of `col`: every cell fits and
      one reaches it. */
  ghost predicate IsWidth(col: seq<Cell>, w: nat) {
    (forall i :: 0 <= i < |col| ==> CellLen(col[i]) + 2 <= w) &&
    exists i :: 0 <= i < |col| && w == CellLen(col[i]) + 2
  }

  /** `max(len(str(cell.value)) if cell.value else 0 for cell in col) + 2`:
      the column's width. */
  method ColumnWidth(col: seq<Cell>) returns (w: nat)
    requires |col| > 0
    ensures forall i :: 0 <= i < |col| ==> CellLen(col[i]) + 2 <= w
    ensures exists i :: 0 <= i < |col| && w == CellLen(col[i]) + 2
  {
    var m := CellLen(col[0]);
    var best := 0;
    var i := 1;
    while i < |col|
      invariant 1 <= i <= |col|
      invariant 0 <= best < i && m == CellLen(col[best])
      invariant forall k :: 0 <= k < i ==> CellLen(col[k]) <= m
    {
      if CellLen(col[i]) > m {
        m := CellLen(col[i]);
        best := i;
      }
      i := i + 1;
    }
    w := m + 2;
  }

  /** The widths of the summary sheet's five columns. Each is at least two
      more than its header, fits every cell, and is reached by one. */
  method SummaryWidths(summary: seq<SummaryRow>) returns (ws: seq<nat>)
    ensures |ws| == |SUMMARY_HEADER|
    ensures forall j :: 0 <= j < |ws| ==> ws[j] >= |SUMMARY_HEADER[j]| + 2
    ensures forall j, i :: 0 <= j < |ws| && 0 <= i < |summary| ==> CellLen(SummaryCells(summary[i])[j]) + 2 <= ws[j]
    ensures forall j :: 0 <= j < |ws| ==> IsWidth(Column(summary, j), ws[j])
  {
    ws := [];
    var j := 0;
    while j < |SUMMARY_HEADER|
      invariant 0 <= j <= |SUMMARY_HEADER| && |ws| == j
      invariant forall j' :: 0 <= j' < j ==> IsWidth(Column(summary, j'), ws[j'])
    {
      var w := ColumnWidth(Column(summary, j));
      ws := ws + [w];
      j := j + 1;
    }
    forall j', i | 0 <= j' < |ws| && 0 <= i < |summary|
      ensures CellLen(SummaryCells(summary[i])[j']) + 2 <= ws[j']
    {
      assert IsWidth(Column(summary, j'), ws[j']);
      assert Column(summary, j')[i + 1] == SummaryCells(summary[i])[j'];
    }
    forall j' | 0 <= j' < |ws| ensures ws[j'] >= |SUMMARY_HEADER[j']| + 2 {
      assert IsWidth(Column(summary, j'), ws[j']);
      assert CellLen(Column(summary, j')[0]) == |SUMMARY_HEADER[j']|;
    }
  }

  /** The whole workbook: `Summary` first, then the detail sheets in
      traversal order. */
  function Workbook(inv: Inventory): seq<Sheet> {
    [SummarySheet(inv.summary)] + DetailSheets(inv.results)
  }
}
