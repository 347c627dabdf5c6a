/** aws_inventory.py, collection half: for every active account whose role
    could be assumed, one EC2 (volumes), EFS and RDS slot per region and one S3
    slot under `'global'`, written into `results[account][region][service]`,
    and one `summary` row per call that succeeded. Every slot is a list of
    per-resource dicts; a failed call leaves `[{"error": str(e)}]` and no
    summary row. */
module Inventory {
  import opened Wrappers
  import opened PyDict
  import opened Cloud

  const REGIONS: seq<string> := ["us-east-1", "us-east-2", "us-west-1", "us-west-2", "us-gov-west-1", "us-gov-east-1"]

  /** One `results[account][region][service]` value. */
  type Slot = seq<Record>
  type Services = Dict<Slot>
  type AccountEntry = Dict<Services>
  type Results = Dict<AccountEntry>

  /** The last cell of a summary row: an integer total, or
      `round(total_bytes / 1024**3, 2)` of a float total. A float total that
      was never added to stays the integer `0`. */
  datatype Capacity = Whole(n: nat) | Rounded(bytes: nat)

  /** `[account_id, region, service, count, capacity]` */
  datatype SummaryRow = SummaryRow(accountId: string, region: string, service: string, count: nat, capacity: Capacity)

  /** The two module-level accumulators. */
  datatype Inventory = Inventory(results: Results, summary: seq<SummaryRow>)

  lemma RegionsDistinct()
    ensures NoDup(REGIONS)
    ensures GLOBAL !in REGIONS
  {
  }

  function ErrorRecord(msg: string): (d: Record)
    ensures d.keys == ["error"] && Get(d, "error") == Some(Str(msg))
  {
    RawDict(["error"], map["error" := Str(msg)])
  }

  /** `[{"error": str(e)}]` */
  function ErrorSlot(msg: string): Slot {
    [ErrorRecord(msg)]
  }

  /** A slot holds data when no item of it is an error marker. */
  predicate IsData(s: Slot) {
    forall i :: 0 <= i < |s| ==> "error" !in s[i].keys
  }

  /** The sum of the integers stored under `key` in `items`. */
  function IntTotal(items: seq<Record>, key: string): int
    decreases |items|
  {
    if |items| == 0 then 0
    else
      var v: Option<Value> := Get(items[0], key);
      (if v.Some? && v.value.Int? then v.value.i else 0) + IntTotal(items[1..], key)
  }

  /** The sum of the byte counts behind the float GiB values stored under
      `key` in `items`. */
  function GibTotal(items: seq<Record>, key: string): nat
    decreases |items|
  {
    if |items| == 0 then 0
    else
      var v: Option<Value> := Get(items[0], key);
      (if v.Some? && v.value.Gib? then v.value.bytes else 0) + GibTotal(items[1..], key)
  }

  /** Some item stores a float GiB value under `key`. */
  predicate HasGib(items: seq<Record>, key: string) {
    exists i :: 0 <= i < |items| && Get(items[i], key).Some? && Get(items[i], key).value.Gib?
  }

  // ---------------------------------------------------------------- EC2

  function VolumeRecord(v: Volume): (d: Record)
    ensures d.keys == ["VolumeId", "Size", "Tags"]
    ensures Get(d, "VolumeId") == Some(Str(v.volumeId))
    ensures Get(d, "Size") == Some(Int(v.size))
    ensures v.tags.Some? ==> Get(d, "Tags") == Some(TagList(v.tags.value))
    ensures v.tags.None? ==> Get(d, "Tags") == Some(TagList([]))
  {
    RawDict(["VolumeId", "Size", "Tags"],
      map["VolumeId" := Str(v.volumeId), "Size" := Int(v.size), "Tags" := TagList(v.tags.GetOr([]))])
  }

  /** The list comprehension over `volumes`. */
  function VolumeRecords(vs: seq<Volume>): (s: Slot)
    ensures |s| == |vs|
    ensures forall i :: 0 <= i < |vs| ==> s[i] == VolumeRecord(vs[i])
    decreases |vs|
  {
    if |vs| == 0 then [] else [VolumeRecord(vs[0])] + VolumeRecords(vs[1..])
  }

  /** `sum(v['Size'] for v in volumes)` */
  function VolumeTotal(vs: seq<Volume>): nat
    decreases |vs|
  {
    if |vs| == 0 then 0 else vs[0].size + VolumeTotal(vs[1..])
  }

  function Ec2Slot(o: Outcome<seq<Volume>>): Slot {
    match o
    case Ok(vs) => VolumeRecords(vs)
    case Err(m) => ErrorSlot(m)
  }

  function Ec2Rows(id: string, region: string, o: Outcome<seq<Volume>>): seq<SummaryRow> {
    match o
    case Ok(vs) => [SummaryRow(id, region, "EC2", |vs|, Whole(VolumeTotal(vs)))]
    case Err(_) => []
  }

  // ---------------------------------------------------------------- EFS

  function FsRecord(fs: FileSystem): (d: Record)
    ensures d.keys == ["ID", "PerformanceMode", "Size_GB", "Tags"]
    ensures Get(d, "ID") == Some(Str(fs.fileSystemId))
    ensures fs.performanceMode.Some? ==> Get(d, "PerformanceMode") == Some(Str(fs.performanceMode.value))
    ensures fs.performanceMode.None? ==> Get(d, "PerformanceMode") == Some(Null)
    ensures Get(d, "Size_GB") == Some(Gib(fs.sizeInBytes.GetOr(0)))
    ensures fs.sizeInBytes.None? ==> Get(d, "Size_GB") == Some(Gib(0))
    ensures Get(d, "Tags") == Some(TagList(fs.tags.GetOr([])))
    ensures fs.tags.None? ==> Get(d, "Tags") == Some(TagList([]))
  {
    RawDict(["ID", "PerformanceMode", "Size_GB", "Tags"],
      map["ID" := Str(fs.fileSystemId),
          "PerformanceMode" := (if fs.performanceMode.Some? then Str(fs.performanceMode.value) else Null),
          "Size_GB" := Gib(fs.sizeInBytes.GetOr(0)),
          "Tags" := TagList(fs.tags.GetOr([]))])
  }

  /** The loop over `filesystems`, building `fs_data`. */
  function FsRecords(fss: seq<FileSystem>): (s: Slot)
    ensures |s| == |fss|
    ensures forall i :: 0 <= i < |fss| ==> s[i] == FsRecord(fss[i])
    decreases |fss|
  {
    if |fss| == 0 then [] else [FsRecord(fss[0])] + FsRecords(fss[1..])
  }

  /** The bytes behind `total_size`. */
  function FsBytes(fss: seq<FileSystem>): nat
    decreases |fss|
  {
    if |fss| == 0 then 0 else fss[0].sizeInBytes.GetOr(0) + FsBytes(fss[1..])
  }

  function EfsSlot(o: Outcome<seq<FileSystem>>): Slot {
    match o
    case Ok(fss) => FsRecords(fss)
    case Err(m) => ErrorSlot(m)
  }

  /** `round(total_size, 2)`, `total_size` staying the integer `0` when there
      is no file system to add. */
  function EfsRows(id: string, region: string, o: Outcome<seq<FileSystem>>): seq<SummaryRow> {
    match o
    case Ok(fss) => [SummaryRow(id, region, "EFS", |fss|, if |fss| == 0 then Whole(0) else Rounded(FsBytes(fss)))]
    case Err(_) => []
  }

  // ---------------------------------------------------------------- RDS

  function DbRecords(dbs: seq<DbInstance>): (s: Slot)
    ensures |s| == |dbs|
    ensures forall i :: 0 <= i < |dbs| ==> s[i] == DbRecord(dbs[i])
    decreases |dbs|
  {
    if |dbs| == 0 then [] else [DbRecord(dbs[0])] + DbRecords(dbs[1..])
  }

  function StorageTotal(dbs: seq<DbInstance>): nat
    decreases |dbs|
  {
    if |dbs| == 0 then 0 else dbs[0].allocatedStorage + StorageTotal(dbs[1..])
  }

  function RdsSlot(o: Outcome<seq<DbInstance>>): Slot {
    match o
    case Ok(dbs) => DbRecords(dbs)
    case Err(m) => ErrorSlot(m)
  }

  function RdsRows(id: string, region: string, o: Outcome<seq<DbInstance>>): seq<SummaryRow> {
    match o
    case Ok(dbs) => [SummaryRow(id, region, "RDS", |dbs|, Whole(StorageTotal(dbs)))]
    case Err(_) => []
  }

  // ---------------------------------------------------------------- S3

  /** Both per-bucket calls succeeded. */
  predicate BucketOk(b: Bucket) {
    b.location.Ok? && b.datapoints.Ok?
  }

  /** `metrics['Datapoints'][0]['Average'] if metrics['Datapoints'] else 0` */
  function BucketBytes(b: Bucket): nat
    requires BucketOk(b)
  {
    if |b.datapoints.value| > 0 then b.datapoints.value[0] else 0
  }

  /** The bucket's dict: name, region and size, or the `except:` fallback
      with region `"unknown"` and the integer size `0`. */
  function BucketRecord(b: Bucket): (d: Record)
    ensures d.keys == ["Name", "Region", "Size_GB"]
    ensures Get(d, "Name") == Some(Str(b.name))
    ensures BucketOk(b) ==> Get(d, "Region") == Some(Str(LocationOrDefault(b.location.value)))
    ensures BucketOk(b) ==> Get(d, "Size_GB") == Some(Gib(BucketBytes(b)))
    ensures !BucketOk(b) ==> Get(d, "Region") == Some(Str("unknown")) && Get(d, "Size_GB") == Some(Int(0))
  {
    if BucketOk(b) then
      RawDict(["Name", "Region", "Size_GB"],
        map["Name" := Str(b.name), "Region" := Str(LocationOrDefault(b.location.value)), "Size_GB" := Gib(BucketBytes(b))])
    else
      RawDict(["Name", "Region", "Size_GB"], map["Name" := Str(b.name), "Region" := Str("unknown"), "Size_GB" := Int(0)])
  }

  function BucketRecords(bs: seq<Bucket>): (s: Slot)
    ensures |s| == |bs|
    ensures forall i :: 0 <= i < |bs| ==> s[i] == BucketRecord(bs[i])
    decreases |bs|
  {
    if |bs| == 0 then [] else [BucketRecord(bs[0])] + BucketRecords(bs[1..])
  }

  /** The bytes behind `total_size`: only buckets whose calls succeeded add. */
  function BucketsBytes(bs: seq<Bucket>): nat
    decreases |bs|
  {
    if |bs| == 0 then 0 else (if BucketOk(bs[0]) then BucketBytes(bs[0]) else 0) + BucketsBytes(bs[1..])
  }

  predicate AnyBucketOk(bs: seq<Bucket>) {
    exists i :: 0 <= i < |bs| && BucketOk(bs[i])
  }

  function S3Slot(o: Outcome<seq<Bucket>>): Slot {
    match o
    case Ok(bs) => BucketRecords(bs)
    case Err(m) => ErrorSlot(m)
  }

  function S3Rows(id: string, o: Outcome<seq<Bucket>>): seq<SummaryRow> {
    match o
    case Ok(bs) => [SummaryRow(id, GLOBAL, "S3", |bs|, if AnyBucketOk(bs) then Rounded(BucketsBytes(bs)) else Whole(0))]
    case Err(_) => []
  }

  // ---------------------------------------------------------------- traversal

  function RegionServices(api: Api, id: string, r: string): Services {
    ServicesOf(
      Ec2Slot(api.describeVolumes(id, r)),
      EfsSlot(api.describeFileSystems(id, r)),
      RdsSlot(api.describeDbInstances(id, r)))
  }

  function GlobalServices(api: Api, id: string): Services {
    GlobalOf(S3Slot(api.listBuckets(id)))
  }

  /** The account's entry and the summary, as `collect_inventory` threads them. */
  datatype Progress = Progress(entry: AccountEntry, rows: seq<SummaryRow>)

  /** The summary rows one region iteration appends. */
  function RegionRows(api: Api, id: string, r: string): seq<SummaryRow> {
    Ec2Rows(id, r, api.describeVolumes(id, r))
      + EfsRows(id, r, api.describeFileSystems(id, r))
      + RdsRows(id, r, api.describeDbInstances(id, r))
  }

  /** One iteration of the region loop: three try blocks, each writing its
      slot and, on success, appending its summary row. */
  function CollectRegion(p: Progress, api: Api, id: string, r: string): Progress {
    Progress(
      WriteRegion(p.entry, r,
        Ec2Slot(api.describeVolumes(id, r)),
        EfsSlot(api.describeFileSystems(id, r)),
        RdsSlot(api.describeDbInstances(id, r))),
      p.rows + RegionRows(api, id, r))
  }

  function CollectRegions(p: Progress, api: Api, id: string, rs: seq<string>): Progress
    decreases |rs|
  {
    if |rs| == 0 then p else CollectRegions(CollectRegion(p, api, id, rs[0]), api, id, rs[1..])
  }

  /** The S3 try block after the loop. */
  function CollectS3(p: Progress, api: Api, id: string): Progress {
    Progress(Put2(p.entry, GLOBAL, "S3", S3Slot(api.listBuckets(id))), p.rows + S3Rows(id, api.listBuckets(id)))
  }

  /** `collect_inventory(account_id, creds)` */
  function CollectInventory(inv: Inventory, api: Api, id: string): Inventory {
    var p := CollectS3(CollectRegions(Progress(GetOr(inv.results, id, Empty()), inv.summary), api, id, REGIONS), api, id);
    Inventory(Put(inv.results, id, p.entry), p.rows)
  }

  function Step(inv: Inventory, api: Api, a: Account): Inventory {
    if a.status != ACTIVE then inv
    else
      match AssumeRole(api, a.id)
      case None => inv
      case Some(_) => CollectInventory(inv, api, a.id)
  }

  /** The account loop, from empty `results` and `summary`. */
  function Run(api: Api, accounts: seq<Account>): Inventory
    decreases |accounts|
  {
    if |accounts| == 0 then Inventory(Empty(), [])
    else Step(Run(api, accounts[..|accounts| - 1]), api, accounts[|accounts| - 1])
  }

  // ---------------------------------------------------------------- reference shape

  /** The keys of a collected account's entry, in insertion order. */
  const ENTRY_KEYS: seq<string> := REGIONS + [GLOBAL]

  function EntryValue(api: Api, id: string, k: string): Services {
    if k == GLOBAL then GlobalServices(api, id) else RegionServices(api, id, k)
  }

  /** The entry of a collected account: every region, then `'global'`. */
  function Fresh(api: Api, id: string): (e: AccountEntry)
    ensures e.keys == ENTRY_KEYS
    ensures forall k :: k in ENTRY_KEYS ==> Get(e, k) == Some(EntryValue(api, id, k))
  {
    RegionsDistinct();
    RawDict(ENTRY_KEYS, map k | k in ENTRY_KEYS :: EntryValue(api, id, k))
  }

  /** One fresh entry per distinct id, in order of first collection. */
  function Expected(api: Api, ids: seq<string>): (res: Results)
    ensures res.keys == Dedup(ids)
    ensures forall id :: id in ids ==> Get(res, id) == Some(Fresh(api, id))
  {
    RawDict(Dedup(ids), map id | id in ids :: Fresh(api, id))
  }

  /** The summary rows of the region loop over `rs`. */
  function RegionsRows(api: Api, id: string, rs: seq<string>): seq<SummaryRow>
    decreases |rs|
  {
    if |rs| == 0 then [] else RegionRows(api, id, rs[0]) + RegionsRows(api, id, rs[1..])
  }

  /** The summary rows of one collection of `id`. */
  function AccountRows(api: Api, id: string): seq<SummaryRow> {
    RegionsRows(api, id, REGIONS) + S3Rows(id, api.listBuckets(id))
  }

  /** The summary rows of collecting `ids` in order, repeats included. */
  function SummaryOf(api: Api, ids: seq<string>): seq<SummaryRow>
    decreases |ids|
  {
    if |ids| == 0 then [] else SummaryOf(api, ids[..|ids| - 1]) + AccountRows(api, ids[|ids| - 1])
  }

  // ---------------------------------------------------------------- shape lemmas

  lemma CollectRegionNew(p: Progress, api: Api, id: string, r: string)
    requires r !in p.entry.keys
    ensures CollectRegion(p, api, id, r).entry.keys == p.entry.keys + [r]
    ensures Get(CollectRegion(p, api, id, r).entry, r) == Some(RegionServices(api, id, r))
    ensures forall k :: k != r ==> Get(CollectRegion(p, api, id, r).entry, k) == Get(p.entry, k)
  {
    WriteRegionNew(p.entry, r, Ec2Slot(api.describeVolumes(id, r)),
      EfsSlot(api.describeFileSystems(id, r)), RdsSlot(api.describeDbInstances(id, r)));
  }

  /** The entry holds none of the regions the loop over `rs` adds. */
  predicate Untouched(e: AccountEntry, rs: seq<string>) {
    NoDup(rs) && forall r :: r in rs ==> r !in e.keys
  }

  lemma UntouchedStep(p: Progress, api: Api, id: string, rs: seq<string>)
    requires Untouched(p.entry, rs) && |rs| > 0
    ensures Untouched(CollectRegion(p, api, id, rs[0]).entry, rs[1..])
    ensures rs[0] !in rs[1..]
  {
    CollectRegionNew(p, api, id, rs[0]);
    NoDupTail(rs);
  }

  /** The region loop appends exactly the regions, in order, */
  lemma {:induction false} CollectRegionsKeys(p: Progress, api: Api, id: string, rs: seq<string>)
    requires Untouched(p.entry, rs)
    ensures CollectRegions(p, api, id, rs).entry.keys == p.entry.keys + rs
    decreases |rs|
  {
    if |rs| > 0 {
      CollectRegionNew(p, api, id, rs[0]);
      UntouchedStep(p, api, id, rs);
      CollectRegionsKeys(CollectRegion(p, api, id, rs[0]), api, id, rs[1..]);
      SeqAssoc(p.entry.keys, [rs[0]], rs[1..]);
      HeadTail(rs);
    }
  }

  lemma HeadTail(rs: seq<string>)
    requires |rs| > 0
    ensures [rs[0]] + rs[1..] == rs
  {
  }

  /** ... leaves every region of `rs` holding its slots, */
  lemma {:induction false} CollectRegionsRegions(p: Progress, api: Api, id: string, rs: seq<string>)
    requires Untouched(p.entry, rs)
    ensures forall r :: r in rs ==> Get(CollectRegions(p, api, id, rs).entry, r) == Some(RegionServices(api, id, r))
    decreases |rs|
  {
    if |rs| > 0 {
      var p' := CollectRegion(p, api, id, rs[0]);
      CollectRegionNew(p, api, id, rs[0]);
      UntouchedStep(p, api, id, rs);
      CollectRegionsRegions(p', api, id, rs[1..]);
      CollectRegionsOther(p', api, id, rs[1..]);
      assert forall r :: r in rs ==> r == rs[0] || r in rs[1..];
    }
  }

  /** ... every other key as it was, */
  lemma {:induction false} CollectRegionsOther(p: Progress, api: Api, id: string, rs: seq<string>)
    requires Untouched(p.entry, rs)
    ensures forall k :: k !in rs ==> Get(CollectRegions(p, api, id, rs).entry, k) == Get(p.entry, k)
    decreases |rs|
  {
    if |rs| > 0 {
      var p' := CollectRegion(p, api, id, rs[0]);
      CollectRegionNew(p, api, id, rs[0]);
      UntouchedStep(p, api, id, rs);
      CollectRegionsOther(p', api, id, rs[1..]);
      assert forall k :: k in rs[1..] ==> k in rs;
    }
  }

  /** ... and appends the regions' summary rows in loop order. */
  lemma {:induction false} CollectRegionsRows(p: Progress, api: Api, id: string, rs: seq<string>)
    ensures CollectRegions(p, api, id, rs).rows == p.rows + RegionsRows(api, id, rs)
    decreases |rs|
  {
    if |rs| > 0 {
      CollectRegionsRows(CollectRegion(p, api, id, rs[0]), api, id, rs[1..]);
      SeqAssoc(p.rows, RegionRows(api, id, rs[0]), RegionsRows(api, id, rs[1..]));
    }
  }

  lemma EmptyUntouched()
    ensures Untouched(Empty(), REGIONS)
  {
    RegionsDistinct();
  }

  lemma EntryKeysMembers()
    ensures forall k :: k in ENTRY_KEYS <==> k in REGIONS || k == GLOBAL
  {
  }

  /** After the region loop on a new account, the entry holds the regions
      and not yet `'global'`, */
  lemma LoopFreshKeys(api: Api, id: string, rows: seq<SummaryRow>)
    ensures CollectRegions(Progress(Empty(), rows), api, id, REGIONS).entry.keys == REGIONS
  {
    EmptyUntouched();
    CollectRegionsKeys(Progress(Empty(), rows), api, id, REGIONS);
  }

  /** each region holding its slots. */
  lemma LoopFreshGet(api: Api, id: string, rows: seq<SummaryRow>, r: string)
    requires r in REGIONS
    ensures Get(CollectRegions(Progress(Empty(), rows), api, id, REGIONS).entry, r) == Some(RegionServices(api, id, r))
  {
    EmptyUntouched();
    CollectRegionsRegions(Progress(Empty(), rows), api, id, REGIONS);
  }

  /** An entry holding exactly the regions' slots, once S3 is written under
      `'global'`, is the fresh entry. */
  lemma GlobalAfterRegions(api: Api, id: string, e: AccountEntry)
    requires e.keys == REGIONS
    requires forall r :: r in REGIONS ==> Get(e, r) == Some(RegionServices(api, id, r))
    ensures Put2(e, GLOBAL, "S3", S3Slot(api.listBuckets(id))) == Fresh(api, id)
  {
    RegionsDistinct();
    EntryKeysMembers();
    var s3 := S3Slot(api.listBuckets(id));
    GlobalWriteNew(e, s3);
    var f := Put2(e, GLOBAL, "S3", s3);
    forall k ensures Get(f, k) == Get(Fresh(api, id), k) {
      if k == GLOBAL {
        assert Get(f, k) == Some(GlobalServices(api, id));
      } else if k in REGIONS {
        assert Get(f, k) == Get(e, k);
      } else {
        assert k !in ENTRY_KEYS;
      }
    }
    Ext(f, Fresh(api, id));
  }

  /** Collecting a new account builds exactly `Fresh`. */
  lemma CollectFresh(api: Api, id: string, rows: seq<SummaryRow>)
    ensures CollectS3(CollectRegions(Progress(Empty(), rows), api, id, REGIONS), api, id).entry == Fresh(api, id)
  {
    var e := CollectRegions(Progress(Empty(), rows), api, id, REGIONS).entry;
    LoopFreshKeys(api, id, rows);
    forall r | r in REGIONS ensures Get(e, r) == Some(RegionServices(api, id, r)) {
      LoopFreshGet(api, id, rows, r);
    }
    GlobalAfterRegions(api, id, e);
  }

  /** The entry already holds, for every region of `rs`, its slots. */
  predicate Holds(e: AccountEntry, api: Api, id: string, rs: seq<string>) {
    forall r :: r in rs ==> Get(e, r) == Some(RegionServices(api, id, r))
  }

  lemma CollectRegionSame(p: Progress, api: Api, id: string, r: string)
    requires Get(p.entry, r) == Some(RegionServices(api, id, r))
    ensures CollectRegion(p, api, id, r).entry == p.entry
  {
    Put2Same(p.entry, r, "EC2", Ec2Slot(api.describeVolumes(id, r)));
    Put2Same(p.entry, r, "EFS", EfsSlot(api.describeFileSystems(id, r)));
    Put2Same(p.entry, r, "RDS", RdsSlot(api.describeDbInstances(id, r)));
  }

  lemma {:induction false} CollectRegionsSame(p: Progress, api: Api, id: string, rs: seq<string>)
    requires Holds(p.entry, api, id, rs)
    ensures CollectRegions(p, api, id, rs).entry == p.entry
    decreases |rs|
  {
    if |rs| > 0 {
      CollectRegionSame(p, api, id, rs[0]);
      assert forall r :: r in rs[1..] ==> r in rs;
      CollectRegionsSame(CollectRegion(p, api, id, rs[0]), api, id, rs[1..]);
    }
  }

  lemma FreshHolds(api: Api, id: string)
    ensures Holds(Fresh(api, id), api, id, REGIONS)
  {
    forall r | r in REGIONS ensures Get(Fresh(api, id), r) == Some(RegionServices(api, id, r)) {
      RegionsDistinct();
      assert r in ENTRY_KEYS;
    }
  }

  /** Collecting an account a second time rewrites the same values in place. */
  lemma CollectAgain(api: Api, id: string, rows: seq<SummaryRow>)
    ensures CollectS3(CollectRegions(Progress(Fresh(api, id), rows), api, id, REGIONS), api, id).entry == Fresh(api, id)
  {
    FreshHolds(api, id);
    CollectRegionsSame(Progress(Fresh(api, id), rows), api, id, REGIONS);
    GlobalSame(api, id);
  }

  lemma GlobalSame(api: Api, id: string)
    ensures Put2(Fresh(api, id), GLOBAL, "S3", S3Slot(api.listBuckets(id))) == Fresh(api, id)
  {
    assert GLOBAL in ENTRY_KEYS;
    Put2Same(Fresh(api, id), GLOBAL, "S3", S3Slot(api.listBuckets(id)));
  }

  /** `collect_inventory` appends the account's rows to the summary, whatever
      `results` held before. */
  lemma CollectRows(inv: Inventory, api: Api, id: string)
    ensures CollectInventory(inv, api, id).summary == inv.summary + AccountRows(api, id)
  {
    CollectRegionsRows(Progress(GetOr(inv.results, id, Empty()), inv.summary), api, id, REGIONS);
    SeqAssoc(inv.summary, RegionsRows(api, id, REGIONS), S3Rows(id, api.listBuckets(id)));
  }

  /** Listing an id again changes nothing in the expected results. */
  lemma ExpectedRepeat(api: Api, ids: seq<string>, id: string)
    requires id in ids
    ensures Expected(api, ids + [id]) == Expected(api, ids)
  {
    var c := ids + [id];
    assert Dedup(c) == Dedup(ids) by { assert c[..|c| - 1] == ids; }
    forall k ensures Get(Expected(api, ids), k) == Get(Expected(api, c), k) {
      assert k in c <==> k in ids;
    }
    Ext(Expected(api, ids), Expected(api, c));
  }

  lemma StepRepeat(api: Api, ids: seq<string>, id: string, rows: seq<SummaryRow>)
    requires id in ids
    ensures CollectInventory(Inventory(Expected(api, ids), rows), api, id).results == Expected(api, ids + [id])
  {
    var res := Expected(api, ids);
    assert GetOr(res, id, Empty()) == Fresh(api, id);
    CollectAgain(api, id, rows);
    PutSame(res, id, Fresh(api, id));
    ExpectedRepeat(api, ids, id);
  }

  /** A lookup in the expected results. */
  lemma ExpectedGet(api: Api, ids: seq<string>, k: string)
    ensures Get(Expected(api, ids), k) == if k in ids then Some(Fresh(api, k)) else None
  {
  }

  lemma StepNew(api: Api, ids: seq<string>, id: string, rows: seq<SummaryRow>)
    requires id !in ids
    ensures CollectInventory(Inventory(Expected(api, ids), rows), api, id).results == Expected(api, ids + [id])
  {
    ExpectedGet(api, ids, id);
    CollectFresh(api, id, rows);
    ExpectedNew(api, ids, id);
  }

  /** Adding the fresh entry of a new id to the expected results. */
  lemma ExpectedNew(api: Api, ids: seq<string>, id: string)
    requires id !in ids
    ensures Put(Expected(api, ids), id, Fresh(api, id)) == Expected(api, ids + [id])
  {
    var c := ids + [id];
    assert Dedup(c) == Dedup(ids) + [id] by { assert c[..|c| - 1] == ids; }
    var r := Put(Expected(api, ids), id, Fresh(api, id));
    forall k ensures Get(r, k) == Get(Expected(api, c), k) {
      ExpectedGet(api, ids, k);
      ExpectedGet(api, c, k);
      assert k in c <==> k in ids || k == id;
    }
    Ext(r, Expected(api, c));
  }

  /** The summary of `ids + [id]` extends that of `ids` by `id`'s rows. */
  lemma SummaryOfSnoc(api: Api, ids: seq<string>, id: string)
    ensures SummaryOf(api, ids + [id]) == SummaryOf(api, ids) + AccountRows(api, id)
  {
    var c := ids + [id];
    assert c[..|c| - 1] == ids;
  }

  /** Collecting `id` after `ids` extends the expected state by `id`. */
  lemma StepShape(api: Api, ids: seq<string>, id: string)
    ensures CollectInventory(Inventory(Expected(api, ids), SummaryOf(api, ids)), api, id)
         == Inventory(Expected(api, ids + [id]), SummaryOf(api, ids + [id]))
  {
    var inv := Inventory(Expected(api, ids), SummaryOf(api, ids));
    CollectRows(inv, api, id);
    SummaryOfSnoc(api, ids, id);
    if id in ids {
      StepRepeat(api, ids, id, inv.summary);
    } else {
      StepNew(api, ids, id, inv.summary);
    }
  }

  /** The last listed account, when collected, is collected after the rest, */
  lemma RunCollected(api: Api, accounts: seq<Account>)
    requires |accounts| > 0 && IsCollected(api, accounts[|accounts| - 1])
    ensures Run(api, accounts) == CollectInventory(Run(api, accounts[..|accounts| - 1]), api, accounts[|accounts| - 1].id)
    ensures Collected(api, accounts) == Collected(api, accounts[..|accounts| - 1]) + [accounts[|accounts| - 1].id]
  {
  }

  /** and otherwise changes nothing. */
  lemma RunSkipped(api: Api, accounts: seq<Account>)
    requires |accounts| > 0 && !IsCollected(api, accounts[|accounts| - 1])
    ensures Run(api, accounts) == Run(api, accounts[..|accounts| - 1])
    ensures Collected(api, accounts) == Collected(api, accounts[..|accounts| - 1])
  {
  }

  /** The account loop leaves in `results` one fresh entry per collected
      account, in order of first collection, and in `summary` the rows of
      every collection in call order, an account listed twice contributing
      its rows twice. */
  lemma {:induction false} RunShape(api: Api, accounts: seq<Account>)
    ensures Run(api, accounts) == Inventory(Expected(api, Collected(api, accounts)), SummaryOf(api, Collected(api, accounts)))
    decreases |accounts|
  {
    if |accounts| > 0 {
      var prefix := accounts[..|accounts| - 1];
      var a := accounts[|accounts| - 1];
      var q := Collected(api, prefix);
      RunShape(api, prefix);
      if IsCollected(api, a) {
        calc {
          Run(api, accounts);
        == { RunCollected(api, accounts); }
          CollectInventory(Run(api, prefix), api, a.id);
          CollectInventory(Inventory(Expected(api, q), SummaryOf(api, q)), api, a.id);
        == { StepShape(api, q, a.id); }
          Inventory(Expected(api, q + [a.id]), SummaryOf(api, q + [a.id]));
        == { RunCollected(api, accounts); }
          Inventory(Expected(api, Collected(api, accounts)), SummaryOf(api, Collected(api, accounts)));
        }
      } else {
        RunSkipped(api, accounts);
      }
    }
  }
}
