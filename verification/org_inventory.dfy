/** aws_org_inventory.py, collection half: for every active account whose role
    could be assumed, one EC2, EFS and RDS slot per region and one S3 slot under
    `'global'`, written into `results[account][region][service]`.
    EC2 slots are dicts (`{"VM_Count": n}`), EFS/RDS/S3 slots are lists of
    per-resource dicts, and every failed call leaves `{"error": str(e)}`. */
module OrgInventory {
  import opened Wrappers
  import opened PyDict
  import opened Cloud

  const REGIONS: seq<string> := ["us-east-1", "us-west-2"]

  /** One `results[account][region][service]` value. */
  datatype Slot = DictSlot(fields: Record) | ListSlot(items: seq<Record>)

  type Services = Dict<Slot>
  type AccountEntry = Dict<Services>
  type Results = Dict<AccountEntry>

  /** The text of the `KeyError` raised by `fs['PerformanceMode']`. */
  const MISSING_MODE := "'PerformanceMode'"

  function ErrorSlot(msg: string): (s: Slot)
    ensures s.DictSlot? && s.fields.keys == ["error"]
    ensures Get(s.fields, "error") == Some(Str(msg))
  {
    DictSlot(RawDict(["error"], map["error" := Str(msg)]))
  }

  predicate IsErrorSlot(s: Slot) {
    s.DictSlot? && s.fields.keys == ["error"]
  }

  // ---------------------------------------------------------------- EC2

  /** `sum(len(r['Instances']) for r in reservations)` */
  function InstanceCount(rs: seq<Reservation>): nat
    decreases |rs|
  {
    if |rs| == 0 then 0 else |rs[0].instanceIds| + InstanceCount(rs[1..])
  }

  /** Every instance of every reservation, in order. */
  function AllInstances(rs: seq<Reservation>): seq<string>
    decreases |rs|
  {
    if |rs| == 0 then [] else rs[0].instanceIds + AllInstances(rs[1..])
  }

  /** The VM count is the number of instances across all reservations. */
  lemma {:induction false} InstanceCountIsAllInstances(rs: seq<Reservation>)
    ensures InstanceCount(rs) == |AllInstances(rs)|
    decreases |rs|
  {
    if |rs| > 0 {
      InstanceCountIsAllInstances(rs[1..]);
    }
  }

  /** The EC2 try block: `{"VM_Count": n}` or `{"error": str(e)}`. */
  function Ec2Slot(o: Outcome<seq<Reservation>>): (s: Slot)
    ensures s.DictSlot?
    ensures o.Ok? <==> s.fields.keys == ["VM_Count"]
    ensures o.Err? <==> IsErrorSlot(s)
    ensures o.Ok? ==> Get(s.fields, "VM_Count") == Some(Int(|AllInstances(o.value)|))
    ensures o.Err? ==> Get(s.fields, "error") == Some(Str(o.msg))
  {
    match o
    case Ok(rs) =>
      InstanceCountIsAllInstances(rs);
      DictSlot(RawDict(["VM_Count"], map["VM_Count" := Int(InstanceCount(rs))]))
    case Err(m) => ErrorSlot(m)
  }

  // ---------------------------------------------------------------- EFS

  predicate AllHaveMode(fss: seq<FileSystem>) {
    forall i :: 0 <= i < |fss| ==> fss[i].performanceMode.Some?
  }

  function FsRecord(fs: FileSystem): (d: Record)
    requires fs.performanceMode.Some?
    ensures d.keys == ["ID", "Type", "Size_GB"]
    ensures Get(d, "ID") == Some(Str(fs.fileSystemId))
    ensures Get(d, "Type") == Some(Str(fs.performanceMode.value))
    ensures Get(d, "Size_GB") == Some(Gib(fs.sizeInBytes.GetOr(0)))
  {
    RawDict(["ID", "Type", "Size_GB"],
      map[ "ID" := Str(fs.fileSystemId),
           "Type" := Str(fs.performanceMode.value),
           "Size_GB" := Gib(fs.sizeInBytes.GetOr(0)) ])
  }

  /** The loop over `filesystems['FileSystems']`: one dict per file system,
      or the `KeyError` of the first one without a `PerformanceMode`. */
  function FsRecords(fss: seq<FileSystem>): (r: Outcome<seq<Record>>)
    ensures r.Ok? <==> AllHaveMode(fss)
    ensures r.Ok? ==> |r.value| == |fss|
    ensures r.Ok? ==> forall i :: 0 <= i < |fss| ==> r.value[i] == FsRecord(fss[i])
    ensures r.Err? ==> r.msg == MISSING_MODE
    decreases |fss|
  {
    if |fss| == 0 then Ok([])
    else if fss[0].performanceMode.None? then Err(MISSING_MODE)
    else
      match FsRecords(fss[1..])
      case Ok(rest) => Ok([FsRecord(fss[0])] + rest)
      case Err(m) => Err(m)
  }

  /** The EFS try block: the list of file-system dicts, or `{"error": ...}`. */
  function EfsSlot(o: Outcome<seq<FileSystem>>): (s: Slot)
    ensures s.ListSlot? <==> o.Ok? && AllHaveMode(o.value)
    ensures s.ListSlot? ==> |s.items| == |o.value|
    ensures s.ListSlot? ==> forall i :: 0 <= i < |o.value| ==> s.items[i] == FsRecord(o.value[i])
    ensures s.DictSlot? ==> IsErrorSlot(s)
    ensures o.Err? ==> Get(s.fields, "error") == Some(Str(o.msg))
    ensures o.Ok? && !AllHaveMode(o.value) ==> Get(s.fields, "error") == Some(Str(MISSING_MODE))
  {
    match o
    case Err(m) => ErrorSlot(m)
    case Ok(fss) =>
      match FsRecords(fss)
      case Ok(recs) => ListSlot(recs)
      case Err(m) => ErrorSlot(m)
  }

  // ---------------------------------------------------------------- RDS

  /** The RDS try block: one dict per instance, or `{"error": ...}`. */
  function RdsSlot(o: Outcome<seq<DbInstance>>): (s: Slot)
    ensures s.ListSlot? <==> o.Ok?
    ensures o.Ok? ==> |s.items| == |o.value|
    ensures o.Ok? ==> forall i :: 0 <= i < |o.value| ==> s.items[i] == DbRecord(o.value[i])
    ensures o.Err? ==> IsErrorSlot(s) && Get(s.fields, "error") == Some(Str(o.msg))
  {
    match o
    case Ok(dbs) => ListSlot(seq(|dbs|, i requires 0 <= i < |dbs| => DbRecord(dbs[i])))
    case Err(m) => ErrorSlot(m)
  }

  // ---------------------------------------------------------------- S3

  /** The inner try: the bucket's region, `'unknown'` when the lookup failed. */
  function BucketRegion(b: Bucket): (r: string)
    ensures r != ""
    ensures b.location.Err? ==> r == "unknown"
    ensures b.location.Ok? && (b.location.value.None? || b.location.value == Some("")) ==> r == DEFAULT_BUCKET_REGION
    ensures b.location.Ok? ==> r == LocationOrDefault(b.location.value)
  {
    match b.location
    case Ok(loc) => LocationOrDefault(loc)
    case Err(_) => "unknown"
  }

  function BucketRecord(b: Bucket): (d: Record)
    ensures d.keys == ["Name", "Region"]
    ensures Get(d, "Name") == Some(Str(b.name))
    ensures Get(d, "Region") == Some(Str(BucketRegion(b)))
  {
    RawDict(["Name", "Region"], map["Name" := Str(b.name), "Region" := Str(BucketRegion(b))])
  }

  /** The S3 try block: one dict per listed bucket (a failed location lookup
      does not drop the bucket), or `{"error": ...}`. */
  function S3Slot(o: Outcome<seq<Bucket>>): (s: Slot)
    ensures s.ListSlot? <==> o.Ok?
    ensures o.Ok? ==> |s.items| == |o.value|
    ensures o.Ok? ==> forall i :: 0 <= i < |o.value| ==> s.items[i] == BucketRecord(o.value[i])
    ensures o.Err? ==> IsErrorSlot(s) && Get(s.fields, "error") == Some(Str(o.msg))
  {
    match o
    case Ok(bs) => ListSlot(seq(|bs|, i requires 0 <= i < |bs| => BucketRecord(bs[i])))
    case Err(m) => ErrorSlot(m)
  }

  // ---------------------------------------------------------------- traversal

  /** The three regional slots of one region, in the order they are written. */
  function RegionServices(api: Api, id: string, r: string): Services {
    ServicesOf(
      Ec2Slot(api.describeInstances(id, r)),
      EfsSlot(api.describeFileSystems(id, r)),
      RdsSlot(api.describeDbInstances(id, r)))
  }

  function GlobalServices(api: Api, id: string): Services {
    GlobalOf(S3Slot(api.listBuckets(id)))
  }

  /** One iteration of `collect_inventory`'s region loop on the account's
      entry: the regional writes, then S3 under `'global'` when the region is
      `REGIONS[0]`. */
  function CollectRegion(e: AccountEntry, api: Api, id: string, r: string): AccountEntry {
    var e3 := WriteRegion(e, r,
      Ec2Slot(api.describeInstances(id, r)),
      EfsSlot(api.describeFileSystems(id, r)),
      RdsSlot(api.describeDbInstances(id, r)));
    if r == REGIONS[0] then Put2(e3, GLOBAL, "S3", S3Slot(api.listBuckets(id))) else e3
  }

  function CollectRegions(e: AccountEntry, api: Api, id: string, rs: seq<string>): AccountEntry
    decreases |rs|
  {
    if |rs| == 0 then e else CollectRegions(CollectRegion(e, api, id, rs[0]), api, id, rs[1..])
  }

  /** `collect_inventory(account_id, creds)`: every write goes to
      `results[account_id]`, created empty on first use. */
  function CollectInventory(results: Results, api: Api, id: string): Results {
    Put(results, id, CollectRegions(GetOr(results, id, Empty()), api, id, REGIONS))
  }

  /** One iteration of the account loop. */
  function Step(results: Results, api: Api, a: Account): Results {
    if a.status != ACTIVE then results
    else
      match AssumeRole(api, a.id)
      case None => results
      case Some(_) => CollectInventory(results, api, a.id)
  }

  /** The whole account loop, from an empty `results`. */
  function Run(api: Api, accounts: seq<Account>): Results
    decreases |accounts|
  {
    if |accounts| == 0 then Empty()
    else Step(Run(api, accounts[..|accounts| - 1]), api, accounts[|accounts| - 1])
  }

  // ---------------------------------------------------------------- reference shape

  /** The keys one region iteration adds to an entry: the region, then
      `'global'` when the region is `REGIONS[0]`, whose iteration queries S3. */
  function RegionKeys(r: string): seq<string> {
    if r == REGIONS[0] then [r] + [GLOBAL] else [r]
  }

  /** The keys the region loop over `rs` adds to a fresh entry. */
  function EntryOrder(rs: seq<string>): (ks: seq<string>)
    ensures forall k :: k in ks <==> k in rs || (k == GLOBAL && REGIONS[0] in rs)
    decreases |rs|
  {
    if |rs| == 0 then []
    else
      assert forall k :: k in rs <==> k == rs[0] || k in rs[1..];
      RegionKeys(rs[0]) + EntryOrder(rs[1..])
  }

  /** An account entry laid out as a fresh collection lays it out:
      `REGIONS[0]`, then `'global'`, then the remaining region. */
  function EntryOf(first: Services, global: Services, second: Services): (e: AccountEntry)
    ensures e.keys == [REGIONS[0], GLOBAL, REGIONS[1]]
    ensures Get(e, REGIONS[0]) == Some(first)
    ensures Get(e, GLOBAL) == Some(global)
    ensures Get(e, REGIONS[1]) == Some(second)
  {
    RawDict([REGIONS[0], GLOBAL, REGIONS[1]], map[REGIONS[0] := first, GLOBAL := global, REGIONS[1] := second])
  }

  /** The entry of a collected account. */
  function Fresh(api: Api, id: string): AccountEntry {
    EntryOf(RegionServices(api, id, REGIONS[0]), GlobalServices(api, id), RegionServices(api, id, REGIONS[1]))
  }

  /** The expected `results` after collecting `ids` in order: one fresh entry
      per distinct id, in order of first collection. */
  function Expected(api: Api, ids: seq<string>): (res: Results)
    ensures res.keys == Dedup(ids)
    ensures forall id :: id in ids ==> Get(res, id) == Some(Fresh(api, id))
  {
    RawDict(Dedup(ids), map id | id in ids :: Fresh(api, id))
  }

  // ---------------------------------------------------------------- shape lemmas

  /** One region iteration on an entry holding neither the region nor (for
      `REGIONS[0]`) `'global'` appends `RegionKeys(r)`, holding the slots its
      calls produced, and touches nothing else. */
  lemma CollectRegionNew(e: AccountEntry, api: Api, id: string, r: string)
    requires r !in e.keys && r != GLOBAL
    requires r == REGIONS[0] ==> GLOBAL !in e.keys
    ensures CollectRegion(e, api, id, r).keys == e.keys + RegionKeys(r)
    ensures Get(CollectRegion(e, api, id, r), r) == Some(RegionServices(api, id, r))
    ensures r == REGIONS[0] ==> Get(CollectRegion(e, api, id, r), GLOBAL) == Some(GlobalServices(api, id))
    ensures forall k :: k != r && (k != GLOBAL || r != REGIONS[0]) ==>
              Get(CollectRegion(e, api, id, r), k) == Get(e, k)
  {
    var ec2, efs, rds := Ec2Slot(api.describeInstances(id, r)),
      EfsSlot(api.describeFileSystems(id, r)), RdsSlot(api.describeDbInstances(id, r));
    WriteRegionNew(e, r, ec2, efs, rds);
    if r == REGIONS[0] {
      GlobalWriteNew(WriteRegion(e, r, ec2, efs, rds), S3Slot(api.listBuckets(id)));
      SeqAssoc(e.keys, [r], [GLOBAL]);
    }
  }

  /** The entry holds none of the keys the region loop over `rs` adds. */
  predicate Untouched(e: AccountEntry, rs: seq<string>) {
    && NoDup(rs) && GLOBAL !in rs
    && (forall r :: r in rs ==> r !in e.keys)
    && (REGIONS[0] in rs ==> GLOBAL !in e.keys)
  }

  lemma UntouchedStep(e: AccountEntry, api: Api, id: string, rs: seq<string>)
    requires Untouched(e, rs) && |rs| > 0
    ensures Untouched(CollectRegion(e, api, id, rs[0]), rs[1..])
    ensures rs[0] !in rs[1..]
    ensures rs[0] == REGIONS[0] ==> REGIONS[0] !in rs[1..]
  {
    var r, rest := rs[0], rs[1..];
    CollectRegionNew(e, api, id, r);
    var e' := CollectRegion(e, api, id, r);
    NoDupTail(rs);
    forall x | x in rest ensures x !in e'.keys {
      assert x != GLOBAL && x !in e.keys;
    }
  }

  /** The region loop over untouched regions appends `EntryOrder(rs)`. */
  lemma {:induction false} CollectRegionsKeys(e: AccountEntry, api: Api, id: string, rs: seq<string>)
    requires Untouched(e, rs)
    ensures CollectRegions(e, api, id, rs).keys == e.keys + EntryOrder(rs)
    decreases |rs|
  {
    if |rs| > 0 {
      CollectRegionNew(e, api, id, rs[0]);
      UntouchedStep(e, api, id, rs);
      CollectRegionsKeys(CollectRegion(e, api, id, rs[0]), api, id, rs[1..]);
      SeqAssoc(e.keys, RegionKeys(rs[0]), EntryOrder(rs[1..]));
    }
  }

  /** ... and leaves every region of `rs` holding its slots, */
  lemma {:induction false} CollectRegionsRegions(e: AccountEntry, api: Api, id: string, rs: seq<string>)
    requires Untouched(e, rs)
    ensures forall r :: r in rs ==> Get(CollectRegions(e, api, id, rs), r) == Some(RegionServices(api, id, r))
    decreases |rs|
  {
    if |rs| > 0 {
      var e' := CollectRegion(e, api, id, rs[0]);
      CollectRegionNew(e, api, id, rs[0]);
      UntouchedStep(e, api, id, rs);
      CollectRegionsRegions(e', api, id, rs[1..]);
      CollectRegionsOther(e', api, id, rs[1..]);
      assert forall r :: r in rs ==> r == rs[0] || r in rs[1..];
    }
  }

  /** ... S3 under `'global'` when `REGIONS[0]` is among them, */
  lemma {:induction false} CollectRegionsGlobal(e: AccountEntry, api: Api, id: string, rs: seq<string>)
    requires Untouched(e, rs) && REGIONS[0] in rs
    ensures Get(CollectRegions(e, api, id, rs), GLOBAL) == Some(GlobalServices(api, id))
    decreases |rs|
  {
    var e' := CollectRegion(e, api, id, rs[0]);
    CollectRegionNew(e, api, id, rs[0]);
    UntouchedStep(e, api, id, rs);
    if rs[0] == REGIONS[0] {
      CollectRegionsOther(e', api, id, rs[1..]);
    } else {
      assert REGIONS[0] in rs[1..];
      CollectRegionsGlobal(e', api, id, rs[1..]);
    }
  }

  /** ... and every other key as it was. */
  lemma {:induction false} CollectRegionsOther(e: AccountEntry, api: Api, id: string, rs: seq<string>)
    requires Untouched(e, rs)
    ensures forall k :: k !in rs && (k != GLOBAL || REGIONS[0] !in rs) ==>
              Get(CollectRegions(e, api, id, rs), k) == Get(e, k)
    decreases |rs|
  {
    if |rs| > 0 {
      var e' := CollectRegion(e, api, id, rs[0]);
      CollectRegionNew(e, api, id, rs[0]);
      UntouchedStep(e, api, id, rs);
      CollectRegionsOther(e', api, id, rs[1..]);
      assert forall k :: k in rs[1..] ==> k in rs;
    }
  }

  /** A fresh entry's keys: `REGIONS[0]`, `'global'`, then the other region. */
  lemma EntryOrderRegions()
    ensures EntryOrder(REGIONS) == [REGIONS[0], GLOBAL, REGIONS[1]]
  {
    assert REGIONS[1..][1..] == [];
  }

  lemma EmptyUntouched()
    ensures Untouched(Empty(), REGIONS)
  {
  }

  lemma CollectFreshGet(api: Api, id: string, k: string)
    ensures Get(CollectRegions(Empty(), api, id, REGIONS), k) == Get(Fresh(api, id), k)
  {
    EmptyUntouched();
    if k in REGIONS {
      CollectRegionsRegions(Empty(), api, id, REGIONS);
    } else if k == GLOBAL {
      CollectRegionsGlobal(Empty(), api, id, REGIONS);
    } else {
      CollectRegionsOther(Empty(), api, id, REGIONS);
    }
  }

  /** Collecting a fresh account builds exactly `Fresh`. */
  lemma CollectFresh(api: Api, id: string)
    ensures CollectRegions(Empty(), api, id, REGIONS) == Fresh(api, id)
  {
    EmptyUntouched();
    CollectRegionsKeys(Empty(), api, id, REGIONS);
    EntryOrderRegions();
    forall k ensures Get(CollectRegions(Empty(), api, id, REGIONS), k) == Get(Fresh(api, id), k) {
      CollectFreshGet(api, id, k);
    }
    Ext(CollectRegions(Empty(), api, id, REGIONS), Fresh(api, id));
  }

  /** The entry already holds, for every region of `rs`, what that region's
      iteration writes. */
  predicate Holds(e: AccountEntry, api: Api, id: string, rs: seq<string>) {
    && (forall r :: r in rs ==> Get(e, r) == Some(RegionServices(api, id, r)))
    && (REGIONS[0] in rs ==> Get(e, GLOBAL) == Some(GlobalServices(api, id)))
  }

  /** Rewriting the values an entry already holds leaves it unchanged. */
  lemma CollectRegionSame(e: AccountEntry, api: Api, id: string, r: string)
    requires Get(e, r) == Some(RegionServices(api, id, r))
    requires r == REGIONS[0] ==> Get(e, GLOBAL) == Some(GlobalServices(api, id))
    ensures CollectRegion(e, api, id, r) == e
  {
    var ec2, efs, rds := Ec2Slot(api.describeInstances(id, r)),
      EfsSlot(api.describeFileSystems(id, r)), RdsSlot(api.describeDbInstances(id, r));
    Put2Same(e, r, "EC2", ec2);
    Put2Same(e, r, "EFS", efs);
    Put2Same(e, r, "RDS", rds);
    if r == REGIONS[0] {
      Put2Same(e, GLOBAL, "S3", S3Slot(api.listBuckets(id)));
    }
  }

  lemma {:induction false} CollectRegionsSame(e: AccountEntry, api: Api, id: string, rs: seq<string>)
    requires Holds(e, api, id, rs)
    ensures CollectRegions(e, api, id, rs) == e
    decreases |rs|
  {
    if |rs| > 0 {
      CollectRegionSame(e, api, id, rs[0]);
      assert forall r :: r in rs[1..] ==> r in rs;
      CollectRegionsSame(e, api, id, rs[1..]);
    }
  }

  /** Collecting an account a second time rewrites the same values in place. */
  lemma CollectAgain(api: Api, id: string)
    ensures CollectRegions(Fresh(api, id), api, id, REGIONS) == Fresh(api, id)
  {
    FreshHolds(api, id);
    CollectRegionsSame(Fresh(api, id), api, id, REGIONS);
  }

  lemma FreshHolds(api: Api, id: string)
    ensures Holds(Fresh(api, id), api, id, REGIONS)
  {
    var f := Fresh(api, id);
    assert Get(f, REGIONS[0]) == Some(RegionServices(api, id, REGIONS[0]));
    assert Get(f, REGIONS[1]) == Some(RegionServices(api, id, REGIONS[1]));
    RegionsMembers();
  }

  lemma RegionsMembers()
    ensures forall r :: r in REGIONS ==> r == REGIONS[0] || r == REGIONS[1]
  {
  }

  /** The account loop leaves in `results` exactly one entry per collected
      account, in the order of first collection, each of the fresh shape. */
  lemma {:induction false} RunShape(api: Api, accounts: seq<Account>)
    ensures Run(api, accounts) == Expected(api, Collected(api, accounts))
    decreases |accounts|
  {
    if |accounts| > 0 {
      var n := |accounts| - 1;
      var a := accounts[n];
      var p := Collected(api, accounts[..n]);
      RunShape(api, accounts[..n]);
      var res := Run(api, accounts[..n]);
      if IsCollected(api, a) {
        var c := p + [a.id];
        assert Collected(api, accounts) == c;
        StepShape(api, p, a.id);
      }
    }
  }

  /** Collecting `id` after `ids` turns `Expected(ids)` into `Expected(ids + [id])`. */
  lemma StepShape(api: Api, ids: seq<string>, id: string)
    ensures CollectInventory(Expected(api, ids), api, id) == Expected(api, ids + [id])
  {
    var c := ids + [id];
    assert c[..|c| - 1] == ids;
    if id in ids {
      StepRepeat(api, ids, id);
    } else {
      StepNew(api, ids, id);
    }
  }

  lemma StepRepeat(api: Api, ids: seq<string>, id: string)
    requires id in ids
    ensures CollectInventory(Expected(api, ids), api, id) == Expected(api, ids + [id])
  {
    var res := Expected(api, ids);
    assert GetOr(res, id, Empty()) == Fresh(api, id);
    CollectAgain(api, id);
    PutSame(res, id, Fresh(api, id));
    ExpectedRepeat(api, ids, id);
  }

  /** Listing an id again changes nothing in the expected results. */
  lemma ExpectedRepeat(api: Api, ids: seq<string>, id: string)
    requires id in ids
    ensures Expected(api, ids + [id]) == Expected(api, ids)
  {
    var c := ids + [id];
    assert c[..|c| - 1] == ids;
    assert Dedup(c) == Dedup(ids);
    forall k ensures Get(Expected(api, ids), k) == Get(Expected(api, c), k) {
      assert k in c <==> k in ids;
    }
    Ext(Expected(api, ids), Expected(api, c));
  }

  lemma StepNew(api: Api, ids: seq<string>, id: string)
    requires id !in ids
    ensures CollectInventory(Expected(api, ids), api, id) == Expected(api, ids + [id])
  {
    var res := Expected(api, ids);
    var c := ids + [id];
    assert c[..|c| - 1] == ids;
    assert Dedup(c) == Dedup(ids) + [id];
    assert GetOr(res, id, Empty()) == Empty();
    CollectFresh(api, id);
    var r := Put(res, id, Fresh(api, id));
    assert CollectInventory(res, api, id) == r;
    forall k ensures Get(r, k) == Get(Expected(api, c), k) {
      if k != id {
        assert k in c <==> k in ids;
      }
    }
    Ext(r, Expected(api, c));
  }
}
