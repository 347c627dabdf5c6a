/** What aws_inventory.py promises about its two outputs: which slots
    `results` holds, that each holds data or an error marker, and that every
    `summary` row agrees with the slot it summarises. */
module InventoryProperties {
  import opened Wrappers
  import opened PyDict
  import opened Cloud
  import opened Inventory

  // ---------------------------------------------------------------- totals

  lemma {:induction false} VolumeTotalStored(vs: seq<Volume>)
    ensures IntTotal(VolumeRecords(vs), "Size") == VolumeTotal(vs)
    decreases |vs|
  {
    if |vs| > 0 {
      VolumeTotalStored(vs[1..]);
      assert VolumeRecords(vs)[1..] == VolumeRecords(vs[1..]);
    }
  }

  lemma {:induction false} StorageTotalStored(dbs: seq<DbInstance>)
    ensures IntTotal(DbRecords(dbs), "Allocated_Storage_GB") == StorageTotal(dbs)
    decreases |dbs|
  {
    if |dbs| > 0 {
      StorageTotalStored(dbs[1..]);
      assert DbRecords(dbs)[1..] == DbRecords(dbs[1..]);
    }
  }

  lemma {:induction false} FsBytesStored(fss: seq<FileSystem>)
    ensures GibTotal(FsRecords(fss), "Size_GB") == FsBytes(fss)
    decreases |fss|
  {
    if |fss| > 0 {
      FsBytesStored(fss[1..]);
      assert FsRecords(fss)[1..] == FsRecords(fss[1..]);
    }
  }

  lemma {:induction false} BucketsBytesStored(bs: seq<Bucket>)
    ensures GibTotal(BucketRecords(bs), "Size_GB") == BucketsBytes(bs)
    decreases |bs|
  {
    if |bs| > 0 {
      BucketsBytesStored(bs[1..]);
      assert BucketRecords(bs)[1..] == BucketRecords(bs[1..]);
    }
  }

  lemma BucketGib(b: Bucket)
    ensures Get(BucketRecord(b), "Size_GB").Some?
    ensures Get(BucketRecord(b), "Size_GB").value.Gib? <==> BucketOk(b)
  {
  }

  /** A bucket's stored size is a float exactly when both its calls succeeded. */
  lemma BucketsFloat(bs: seq<Bucket>)
    ensures HasGib(BucketRecords(bs), "Size_GB") <==> AnyBucketOk(bs)
  {
    var s: seq<Record> := BucketRecords(bs);
    if AnyBucketOk(bs) {
      var i: int :| 0 <= i < |bs| && BucketOk(bs[i]);
      BucketGib(bs[i]);
      assert Get(s[i], "Size_GB").Some? && Get(s[i], "Size_GB").value.Gib?;
    }
    if HasGib(s, "Size_GB") {
      var i: int :| 0 <= i < |s| && Get(s[i], "Size_GB").Some? && Get(s[i], "Size_GB").value.Gib?;
      BucketGib(bs[i]);
    }
  }

  // ---------------------------------------------------------------- slot and row per call

  /** `row` is the summary row of service `svc` in region `r` of account
      `id`, counting the items of `s`. */
  predicate Counts(row: SummaryRow, id: string, r: string, svc: string, s: Slot) {
    row.accountId == id && row.region == r && row.service == svc && row.count == |s|
  }

  /** EC2: a summary row exactly when the call succeeded; its count is the
      number of stored volumes and its capacity the sum of their stored
      sizes. A failed call stores `[{"error": msg}]`. */
  lemma Ec2Summarised(id: string, r: string, o: Outcome<seq<Volume>>)
    ensures o.Ok? <==> |Ec2Rows(id, r, o)| == 1
    ensures o.Err? ==> Ec2Rows(id, r, o) == [] && Ec2Slot(o) == [ErrorRecord(o.msg)]
    ensures o.Ok? ==> IsData(Ec2Slot(o))
    ensures o.Ok? ==> Counts(Ec2Rows(id, r, o)[0], id, r, "EC2", Ec2Slot(o))
    ensures o.Ok? ==> Ec2Rows(id, r, o)[0].capacity.Whole?
    ensures o.Ok? ==> Ec2Rows(id, r, o)[0].capacity.n == IntTotal(Ec2Slot(o), "Size")
  {
    if o.Ok? {
      VolumeTotalStored(o.value);
    }
  }

  /** EFS: the count is the number of stored file systems; the capacity is
      the rounded sum of their stored sizes, or the integer `0` when there is
      none. */
  lemma EfsSummarised(id: string, r: string, o: Outcome<seq<FileSystem>>)
    ensures o.Ok? <==> |EfsRows(id, r, o)| == 1
    ensures o.Err? ==> EfsRows(id, r, o) == [] && EfsSlot(o) == [ErrorRecord(o.msg)]
    ensures o.Ok? ==> IsData(EfsSlot(o))
    ensures o.Ok? ==> Counts(EfsRows(id, r, o)[0], id, r, "EFS", EfsSlot(o))
    ensures o.Ok? ==>
      EfsRows(id, r, o)[0].capacity == (if |EfsSlot(o)| == 0 then Whole(0) else Rounded(GibTotal(EfsSlot(o), "Size_GB")))
  {
    if o.Ok? {
      FsBytesStored(o.value);
    }
  }

  /** RDS: the count is the number of stored instances and the capacity the
      sum of their stored allocated storage. */
  lemma RdsSummarised(id: string, r: string, o: Outcome<seq<DbInstance>>)
    ensures o.Ok? <==> |RdsRows(id, r, o)| == 1
    ensures o.Err? ==> RdsRows(id, r, o) == [] && RdsSlot(o) == [ErrorRecord(o.msg)]
    ensures o.Ok? ==> IsData(RdsSlot(o))
    ensures o.Ok? ==> Counts(RdsRows(id, r, o)[0], id, r, "RDS", RdsSlot(o))
    ensures o.Ok? ==> RdsRows(id, r, o)[0].capacity.Whole?
    ensures o.Ok? ==> RdsRows(id, r, o)[0].capacity.n == IntTotal(RdsSlot(o), "Allocated_Storage_GB")
  {
    if o.Ok? {
      StorageTotalStored(o.value);
    }
  }

  /** S3: the count is the number of stored buckets, failed ones included;
      the capacity is the rounded sum of the float sizes stored, or the
      integer `0` when no bucket stored one. */
  lemma S3Summarised(id: string, o: Outcome<seq<Bucket>>)
    ensures o.Ok? <==> |S3Rows(id, o)| == 1
    ensures o.Err? ==> S3Rows(id, o) == [] && S3Slot(o) == [ErrorRecord(o.msg)]
    ensures o.Ok? ==> IsData(S3Slot(o))
    ensures o.Ok? ==> Counts(S3Rows(id, o)[0], id, GLOBAL, "S3", S3Slot(o))
    ensures o.Ok? ==>
      S3Rows(id, o)[0].capacity == (if HasGib(S3Slot(o), "Size_GB") then Rounded(GibTotal(S3Slot(o), "Size_GB")) else Whole(0))
  {
    if o.Ok? {
      BucketsBytesStored(o.value);
      BucketsFloat(o.value);
    }
  }

  /** Per-bucket defaults: the name is kept; a failed location or metric
      lookup gives region `"unknown"` and size `0`; an empty constraint gives
      `us-east-1`; no datapoint gives size `0.0`. */
  lemma BucketDefaults(b: Bucket)
    ensures Get(BucketRecord(b), "Name") == Some(Str(b.name))
    ensures !BucketOk(b) ==>
      Get(BucketRecord(b), "Region") == Some(Str("unknown")) && Get(BucketRecord(b), "Size_GB") == Some(Int(0))
    ensures BucketOk(b) && (b.location.value.None? || b.location.value == Some("")) ==>
      Get(BucketRecord(b), "Region") == Some(Str(DEFAULT_BUCKET_REGION))
    ensures BucketOk(b) && b.datapoints.value == [] ==> Get(BucketRecord(b), "Size_GB") == Some(Gib(0))
  {
  }

  // ---------------------------------------------------------------- the whole run

  /** `results[id][region][service]`, `None` when any key is missing. */
  function SlotAt(res: Results, id: string, region: string, service: string): Option<Slot> {
    Get2(GetOr(res, id, Empty()), region, service)
  }

  /** An account id is a key of `results` exactly when some listed account
      with that id is `ACTIVE` and its role could be assumed; each such id
      appears once. */
  lemma RunAccounts(api: Api, accounts: seq<Account>)
    ensures NoDup(Run(api, accounts).results.keys)
    ensures forall id :: id in Run(api, accounts).results.keys <==>
      exists i :: 0 <= i < |accounts| && accounts[i].id == id && IsCollected(api, accounts[i])
  {
    RunShape(api, accounts);
  }

  /** A collected account's entry is the fresh one. */
  lemma RunEntry(api: Api, accounts: seq<Account>, id: string)
    requires id in Run(api, accounts).results.keys
    ensures GetOr(Run(api, accounts).results, id, Empty()) == Fresh(api, id)
  {
    RunShape(api, accounts);
    ExpectedGet(api, Collected(api, accounts), id);
  }

  /** A fresh entry holds every region, then `'global'`; each slot is
      computed from its own call alone. */
  lemma FreshSlots(api: Api, id: string, r: string)
    requires r in REGIONS
    ensures Fresh(api, id).keys == REGIONS + [GLOBAL]
    ensures Get2(Fresh(api, id), r, "EC2") == Some(Ec2Slot(api.describeVolumes(id, r)))
    ensures Get2(Fresh(api, id), r, "EFS") == Some(EfsSlot(api.describeFileSystems(id, r)))
    ensures Get2(Fresh(api, id), r, "RDS") == Some(RdsSlot(api.describeDbInstances(id, r)))
    ensures Get2(Fresh(api, id), GLOBAL, "S3") == Some(S3Slot(api.listBuckets(id)))
  {
    RegionsDistinct();
    EntryKeysMembers();
  }

  /** A collected account's entry holds every region, then `'global'`; each
      slot is computed from its own call alone, so a failing call changes no
      other slot. */
  lemma RunSlots(api: Api, accounts: seq<Account>, id: string, r: string)
    requires id in Run(api, accounts).results.keys
    requires r in REGIONS
    ensures GetOr(Run(api, accounts).results, id, Empty()).keys == REGIONS + [GLOBAL]
    ensures SlotAt(Run(api, accounts).results, id, r, "EC2") == Some(Ec2Slot(api.describeVolumes(id, r)))
    ensures SlotAt(Run(api, accounts).results, id, r, "EFS") == Some(EfsSlot(api.describeFileSystems(id, r)))
    ensures SlotAt(Run(api, accounts).results, id, r, "RDS") == Some(RdsSlot(api.describeDbInstances(id, r)))
    ensures SlotAt(Run(api, accounts).results, id, GLOBAL, "S3") == Some(S3Slot(api.listBuckets(id)))
  {
    RunEntry(api, accounts, id);
    FreshSlots(api, id, r);
  }

  /** The slot a summary row names exists in `e`, holds data, and has as many
      items as the row counts. */
  predicate BackedBy(row: SummaryRow, e: AccountEntry) {
    var s := Get2(e, row.region, row.service);
    s.Some? && IsData(s.value) && |s.value| == row.count
  }

  /** The slot a summary row names exists among `svc`, holds data, and has
      as many items as the row counts. */
  predicate BackedIn(row: SummaryRow, svc: Services) {
    var s := Get(svc, row.service);
    s.Some? && IsData(s.value) && |s.value| == row.count
  }

  /** The at most one row a try block appends is backed by the slot it wrote. */
  lemma RowBacked(rows: seq<SummaryRow>, id: string, r: string, name: string, slot: Slot, svc: Services)
    requires |rows| <= 1
    requires |rows| == 1 ==> Counts(rows[0], id, r, name, slot) && IsData(slot)
    requires Get(svc, name) == Some(slot)
    ensures forall row :: row in rows ==> row.accountId == id && row.region == r && BackedIn(row, svc)
  {
  }

  lemma RegionRowsInServices(api: Api, id: string, r: string)
    ensures forall row :: row in RegionRows(api, id, r) ==>
      row.accountId == id && row.region == r && BackedIn(row, RegionServices(api, id, r))
  {
    var ec2, efs, rds := api.describeVolumes(id, r), api.describeFileSystems(id, r), api.describeDbInstances(id, r);
    var svc := RegionServices(api, id, r);
    Ec2Summarised(id, r, ec2);
    RowBacked(Ec2Rows(id, r, ec2), id, r, "EC2", Ec2Slot(ec2), svc);
    EfsSummarised(id, r, efs);
    RowBacked(EfsRows(id, r, efs), id, r, "EFS", EfsSlot(efs), svc);
    RdsSummarised(id, r, rds);
    RowBacked(RdsRows(id, r, rds), id, r, "RDS", RdsSlot(rds), svc);
  }

  lemma S3RowsInServices(api: Api, id: string)
    ensures forall row :: row in S3Rows(id, api.listBuckets(id)) ==>
      row.accountId == id && row.region == GLOBAL && BackedIn(row, GlobalServices(api, id))
  {
    S3Summarised(id, api.listBuckets(id));
  }

  /** A row backed in the services an entry holds under the row's region is
      backed in the entry. */
  lemma EntryBacked(row: SummaryRow, e: AccountEntry, svc: Services)
    requires Get(e, row.region) == Some(svc)
    requires BackedIn(row, svc)
    ensures BackedBy(row, e)
  {
  }

  lemma RegionRowsBacked(api: Api, id: string, r: string)
    requires r in REGIONS
    ensures forall row :: row in RegionRows(api, id, r) ==> row.accountId == id && BackedBy(row, Fresh(api, id))
  {
    RegionRowsInServices(api, id, r);
    RegionsDistinct();
    EntryKeysMembers();
    assert Get(Fresh(api, id), r) == Some(RegionServices(api, id, r));
    forall row | row in RegionRows(api, id, r) ensures BackedBy(row, Fresh(api, id)) {
      EntryBacked(row, Fresh(api, id), RegionServices(api, id, r));
    }
  }

  lemma S3RowsBacked(api: Api, id: string)
    ensures forall row :: row in S3Rows(id, api.listBuckets(id)) ==> row.accountId == id && BackedBy(row, Fresh(api, id))
  {
    S3RowsInServices(api, id);
    EntryKeysMembers();
    assert Get(Fresh(api, id), GLOBAL) == Some(GlobalServices(api, id));
    forall row | row in S3Rows(id, api.listBuckets(id)) ensures BackedBy(row, Fresh(api, id)) {
      EntryBacked(row, Fresh(api, id), GlobalServices(api, id));
    }
  }

  lemma {:induction false} RegionsRowsBacked(api: Api, id: string, rs: seq<string>)
    requires forall r :: r in rs ==> r in REGIONS
    ensures forall row :: row in RegionsRows(api, id, rs) ==> row.accountId == id && BackedBy(row, Fresh(api, id))
    decreases |rs|
  {
    if |rs| > 0 {
      RegionRowsBacked(api, id, rs[0]);
      assert forall r :: r in rs[1..] ==> r in rs;
      RegionsRowsBacked(api, id, rs[1..]);
    }
  }

  lemma AccountRowsBacked(api: Api, id: string)
    ensures forall row :: row in AccountRows(api, id) ==> row.accountId == id && BackedBy(row, Fresh(api, id))
  {
    RegionsRowsBacked(api, id, REGIONS);
    S3RowsBacked(api, id);
  }

  lemma {:induction false} SummaryOfBacked(api: Api, ids: seq<string>, res: Results)
    requires forall id :: id in ids ==> Get(res, id) == Some(Fresh(api, id))
    ensures forall row :: row in SummaryOf(api, ids) ==> row.accountId in ids && BackedBy(row, GetOr(res, row.accountId, Empty()))
    decreases |ids|
  {
    if |ids| > 0 {
      var n := |ids| - 1;
      assert forall id :: id in ids[..n] ==> id in ids;
      SummaryOfBacked(api, ids[..n], res);
      AccountRowsBacked(api, ids[n]);
    }
  }

  /** Every summary row names a collected account and a slot of it that holds
      data, with as many items as the row counts: failed calls have no row. */
  lemma RunSummaryBacked(api: Api, accounts: seq<Account>)
    ensures forall row :: row in Run(api, accounts).summary ==>
      row.accountId in Run(api, accounts).results.keys &&
      BackedBy(row, GetOr(Run(api, accounts).results, row.accountId, Empty()))
  {
    RunShape(api, accounts);
    var ids := Collected(api, accounts);
    SummaryOfBacked(api, ids, Expected(api, ids));
  }
}
