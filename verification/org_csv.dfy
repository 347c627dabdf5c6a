/** aws_org_inventory.py, export half: `export_to_csv` flattens `results` into
    the rows of four CSV files. EC2 rows come from dict slots (one per account
    and region, errors included); EFS, RDS and S3 rows come one per item from
    list slots only, S3 only under `'global'`. */
module OrgCsv {
  import opened Wrappers
  import opened PyDict
  import opened Cloud
  import opened OrgInventory

  /** The `fieldnames` of the four `csv.DictWriter`s. */
  const EC2_FIELDS: seq<string> := ["Account ID", "Region", "VM Count", "Error"]
  const EFS_FIELDS: seq<string> := ["Account ID", "Region", "FileSystem ID", "Type", "Size (GB)"]
  const RDS_FIELDS: seq<string> := ["Account ID", "Region", "DB Identifier", "Class", "Engine", "Allocated Storage (GB)"]
  const S3_FIELDS: seq<string> := ["Account ID", "Bucket Name", "Region"]

  /** The rows handed to the four writers: `ec2_rows`, `efs_rows`, `rds_rows`, `s3_rows`. */
  datatype CsvFiles = CsvFiles(ec2: seq<Record>, efs: seq<Record>, rds: seq<Record>, s3: seq<Record>)

  const NO_ROWS := CsvFiles([], [], [], [])

  /** Rows appended by `a`'s part of the traversal, then by `b`'s. */
  function Join(a: CsvFiles, b: CsvFiles): CsvFiles {
    CsvFiles(a.ec2 + b.ec2, a.efs + b.efs, a.rds + b.rds, a.s3 + b.s3)
  }

  /** `round(v, 2)` on the sizes the collection stores: a GiB quotient is
      rounded to hundredths, an integer (the default `0`) is kept. */
  function Round2(v: Value): Value {
    match v
    case Gib(b) => Gib2(b)
    case _ => v
  }

  // ---------------------------------------------------------------- rows

  /** A row of each file, one cell per field name. */
  function Ec2Line(id: string, region: string, count: Value, error: Value): (row: Record)
    ensures row.keys == EC2_FIELDS
  {
    RawDict(EC2_FIELDS,
      map["Account ID" := Str(id), "Region" := Str(region), "VM Count" := count, "Error" := error])
  }

  function EfsLine(id: string, region: string, fsId: Value, mode: Value, size: Value): (row: Record)
    ensures row.keys == EFS_FIELDS
  {
    RawDict(EFS_FIELDS,
      map["Account ID" := Str(id), "Region" := Str(region),
          "FileSystem ID" := fsId, "Type" := mode, "Size (GB)" := size])
  }

  function RdsLine(id: string, region: string, dbId: Value, dbClass: Value, engine: Value, storage: Value): (row: Record)
    ensures row.keys == RDS_FIELDS
  {
    RawDict(RDS_FIELDS,
      map["Account ID" := Str(id), "Region" := Str(region),
          "DB Identifier" := dbId, "Class" := dbClass, "Engine" := engine,
          "Allocated Storage (GB)" := storage])
  }

  function S3Line(id: string, name: Value, region: Value): (row: Record)
    ensures row.keys == S3_FIELDS
  {
    RawDict(S3_FIELDS, map["Account ID" := Str(id), "Bucket Name" := name, "Region" := region])
  }

  /** The row built from one slot item; a missing key reads as its default. */
  function Ec2Row(id: string, region: string, f: Record): Record {
    Ec2Line(id, region, GetOr(f, "VM_Count", Str("N/A")), GetOr(f, "error", Str("")))
  }

  function EfsRow(id: string, region: string, fs: Record): Record {
    EfsLine(id, region, GetOr(fs, "ID", Str("")), GetOr(fs, "Type", Str("")),
      Round2(GetOr(fs, "Size_GB", Int(0))))
  }

  function RdsRow(id: string, region: string, db: Record): Record {
    RdsLine(id, region, GetOr(db, "DBIdentifier", Str("")), GetOr(db, "Class", Str("")),
      GetOr(db, "Engine", Str("")), GetOr(db, "Allocated_Storage_GB", Str("")))
  }

  function S3Row(id: string, b: Record): Record {
    S3Line(id, GetOr(b, "Name", Str("")), GetOr(b, "Region", Str("")))
  }

  /** `if 'EC2' in services and isinstance(services['EC2'], dict)` */
  function Ec2Rows(id: string, region: string, svc: Services): seq<Record> {
    var slot: Option<Slot> := Get(svc, "EC2");
    if slot.Some? && slot.value.DictSlot? then [Ec2Row(id, region, slot.value.fields)] else []
  }

  /** `if 'EFS' in services and isinstance(services['EFS'], list)` */
  function EfsRows(id: string, region: string, svc: Services): seq<Record> {
    var slot: Option<Slot> := Get(svc, "EFS");
    if slot.Some? && slot.value.ListSlot? then
      var items := slot.value.items;
      seq(|items|, i requires 0 <= i < |items| => EfsRow(id, region, items[i]))
    else []
  }

  function RdsRows(id: string, region: string, svc: Services): seq<Record> {
    var slot: Option<Slot> := Get(svc, "RDS");
    if slot.Some? && slot.value.ListSlot? then
      var items := slot.value.items;
      seq(|items|, i requires 0 <= i < |items| => RdsRow(id, region, items[i]))
    else []
  }

  /** `if region == 'global' and 'S3' in services and isinstance(services['S3'], list)` */
  function S3Rows(id: string, region: string, svc: Services): seq<Record> {
    if region != GLOBAL then []
    else
      var slot: Option<Slot> := Get(svc, "S3");
      if slot.Some? && slot.value.ListSlot? then
        var items := slot.value.items;
        seq(|items|, i requires 0 <= i < |items| => S3Row(id, items[i]))
      else []
  }

  /** The body of the inner loop, for one `(region, services)` pair. */
  function RegionCsv(id: string, region: string, svc: Services): CsvFiles {
    CsvFiles(Ec2Rows(id, region, svc), EfsRows(id, region, svc), RdsRows(id, region, svc), S3Rows(id, region, svc))
  }

  /** The inner loop over `regions.items()`, from position `ks`. */
  function EntryCsv(id: string, e: AccountEntry, ks: seq<string>): CsvFiles
    decreases |ks|
  {
    if |ks| == 0 then NO_ROWS
    else Join(RegionCsv(id, ks[0], GetOr(e, ks[0], Empty())), EntryCsv(id, e, ks[1..]))
  }

  /** The outer loop over `results.items()`, from position `ks`. */
  function ResultsCsv(res: Results, ks: seq<string>): CsvFiles
    decreases |ks|
  {
    if |ks| == 0 then NO_ROWS
    else
      var e := GetOr(res, ks[0], Empty());
      Join(EntryCsv(ks[0], e, e.keys), ResultsCsv(res, ks[1..]))
  }

  /** `export_to_csv(results)`, up to the writers. */
  function ExportCsv(res: Results): CsvFiles {
    ResultsCsv(res, res.keys)
  }

  // ---------------------------------------------------------------- reference rows

  /** The EC2 row of one account and region, read off the call outcome: the
      instance count and an empty error, or `"N/A"` and the message. */
  function Ec2CsvRow(id: string, region: string, o: Outcome<seq<Reservation>>): Record {
    match o
    case Ok(rs) => Ec2Line(id, region, Int(|AllInstances(rs)|), Str(""))
    case Err(m) => Ec2Line(id, region, Str("N/A"), Str(m))
  }

  /** One EFS row per file system when the listing succeeded and every file
      system has a performance mode; none otherwise. */
  function EfsCsvRows(id: string, region: string, o: Outcome<seq<FileSystem>>): seq<Record> {
    if o.Err? || !AllHaveMode(o.value) then []
    else
      var fss := o.value;
      seq(|fss|, i requires 0 <= i < |fss| =>
        EfsLine(id, region, Str(fss[i].fileSystemId), Str(fss[i].performanceMode.value),
          Gib2(fss[i].sizeInBytes.GetOr(0))))
  }

  /** One RDS row per instance when the listing succeeded; none otherwise. */
  function RdsCsvRows(id: string, region: string, o: Outcome<seq<DbInstance>>): seq<Record> {
    match o
    case Err(_) => []
    case Ok(dbs) =>
      seq(|dbs|, i requires 0 <= i < |dbs| =>
        RdsLine(id, region, Str(dbs[i].identifier), Str(dbs[i].instanceClass), Str(dbs[i].engine),
          Int(dbs[i].allocatedStorage)))
  }

  /** One S3 row per listed bucket when the listing succeeded; none otherwise. */
  function S3CsvRows(id: string, o: Outcome<seq<Bucket>>): seq<Record> {
    match o
    case Err(_) => []
    case Ok(bs) =>
      seq(|bs|, i requires 0 <= i < |bs| => S3Line(id, Str(bs[i].name), Str(BucketRegion(bs[i]))))
  }

  /** The rows of one collected account, in file order. */
  function FreshCsv(api: Api, id: string): CsvFiles {
    var r0, r1 := REGIONS[0], REGIONS[1];
    CsvFiles(
      [Ec2CsvRow(id, r0, api.describeInstances(id, r0)), Ec2CsvRow(id, r1, api.describeInstances(id, r1))],
      EfsCsvRows(id, r0, api.describeFileSystems(id, r0)) + EfsCsvRows(id, r1, api.describeFileSystems(id, r1)),
      RdsCsvRows(id, r0, api.describeDbInstances(id, r0)) + RdsCsvRows(id, r1, api.describeDbInstances(id, r1)),
      S3CsvRows(id, api.listBuckets(id)))
  }

  /** The rows of the collected accounts `ids`, in order. */
  function ExpectedCsv(api: Api, ids: seq<string>): CsvFiles
    decreases |ids|
  {
    if |ids| == 0 then NO_ROWS else Join(FreshCsv(api, ids[0]), ExpectedCsv(api, ids[1..]))
  }

  // ---------------------------------------------------------------- row lemmas

  /** The EC2 row of a collected EC2 slot is the reference row: the count and
      an empty error on success, `"N/A"` and the message on failure. */
  lemma Ec2RowOfSlot(id: string, region: string, o: Outcome<seq<Reservation>>)
    ensures Ec2Row(id, region, Ec2Slot(o).fields) == Ec2CsvRow(id, region, o)
  {
    var f := Ec2Slot(o).fields;
    if o.Ok? {
      assert Get(f, "error") == None by { assert "error" !in f.keys; }
    } else {
      assert Get(f, "VM_Count") == None by { assert "VM_Count" !in f.keys; }
    }
  }

  /** The EFS row of a collected file-system dict, its size rounded. */
  lemma EfsRowOfRecord(id: string, region: string, fs: FileSystem)
    requires fs.performanceMode.Some?
    ensures EfsRow(id, region, FsRecord(fs))
         == EfsLine(id, region, Str(fs.fileSystemId), Str(fs.performanceMode.value), Gib2(fs.sizeInBytes.GetOr(0)))
  {
  }

  lemma RdsRowOfRecord(id: string, region: string, db: DbInstance)
    ensures RdsRow(id, region, DbRecord(db))
         == RdsLine(id, region, Str(db.identifier), Str(db.instanceClass), Str(db.engine), Int(db.allocatedStorage))
  {
  }

  /** The S3 row of a bucket dict keeps the bucket's name and region, even
      when the location lookup failed. */
  lemma S3RowOfRecord(id: string, b: Bucket)
    ensures S3Row(id, BucketRecord(b)) == S3Line(id, Str(b.name), Str(BucketRegion(b)))
  {
  }

  /** An EFS slot yields the reference rows: one per file system, or none
      when the slot holds an error. */
  lemma EfsRowsOfSlot(id: string, region: string, o: Outcome<seq<FileSystem>>, svc: Services)
    requires Get(svc, "EFS") == Some(EfsSlot(o))
    ensures EfsRows(id, region, svc) == EfsCsvRows(id, region, o)
  {
    var s := EfsSlot(o);
    if s.ListSlot? {
      var fss := o.value;
      var rows := EfsRows(id, region, svc);
      assert |rows| == |fss|;
      forall i | 0 <= i < |fss|
        ensures rows[i] == EfsCsvRows(id, region, o)[i]
      {
        EfsRowOfRecord(id, region, fss[i]);
      }
    }
  }

  lemma RdsRowsOfSlot(id: string, region: string, o: Outcome<seq<DbInstance>>, svc: Services)
    requires Get(svc, "RDS") == Some(RdsSlot(o))
    ensures RdsRows(id, region, svc) == RdsCsvRows(id, region, o)
  {
    if o.Ok? {
      var dbs := o.value;
      var rows := RdsRows(id, region, svc);
      assert |rows| == |dbs|;
      forall i | 0 <= i < |dbs|
        ensures rows[i] == RdsCsvRows(id, region, o)[i]
      {
        RdsRowOfRecord(id, region, dbs[i]);
      }
    }
  }

  lemma S3RowsOfSlot(id: string, o: Outcome<seq<Bucket>>, svc: Services)
    requires Get(svc, "S3") == Some(S3Slot(o))
    ensures S3Rows(id, GLOBAL, svc) == S3CsvRows(id, o)
  {
    if o.Ok? {
      var bs := o.value;
      var rows := S3Rows(id, GLOBAL, svc);
      assert |rows| == |bs|;
      forall i | 0 <= i < |bs|
        ensures rows[i] == S3CsvRows(id, o)[i]
      {
        S3RowOfRecord(id, bs[i]);
      }
    }
  }

  /** A region's services give its EC2 row and its EFS and RDS rows, and no
      S3 rows: S3 sits under `'global'` only. */
  lemma RegionCsvOfServices(api: Api, id: string, r: string)
    ensures RegionCsv(id, r, RegionServices(api, id, r))
         == CsvFiles([Ec2CsvRow(id, r, api.describeInstances(id, r))],
                     EfsCsvRows(id, r, api.describeFileSystems(id, r)),
                     RdsCsvRows(id, r, api.describeDbInstances(id, r)),
                     [])
  {
    var svc := RegionServices(api, id, r);
    Ec2RowOfSlot(id, r, api.describeInstances(id, r));
    EfsRowsOfSlot(id, r, api.describeFileSystems(id, r), svc);
    RdsRowsOfSlot(id, r, api.describeDbInstances(id, r), svc);
    assert Get(svc, "S3") == None by { assert "S3" !in svc.keys; }
  }

  /** The `'global'` services give the S3 rows and nothing else. */
  lemma GlobalCsvOfServices(api: Api, id: string)
    ensures RegionCsv(id, GLOBAL, GlobalServices(api, id)) == CsvFiles([], [], [], S3CsvRows(id, api.listBuckets(id)))
  {
    var svc := GlobalServices(api, id);
    S3RowsOfSlot(id, api.listBuckets(id), svc);
    assert Get(svc, "EC2") == None by { assert "EC2" !in svc.keys; }
    assert Get(svc, "EFS") == None by { assert "EFS" !in svc.keys; }
    assert Get(svc, "RDS") == None by { assert "RDS" !in svc.keys; }
  }

  /** The inner loop over a three-key entry visits the keys in order. */
  lemma EntryCsvThree(id: string, e: AccountEntry, a: string, b: string, c: string)
    ensures EntryCsv(id, e, [a, b, c])
         == Join(RegionCsv(id, a, GetOr(e, a, Empty())),
              Join(RegionCsv(id, b, GetOr(e, b, Empty())),
                Join(RegionCsv(id, c, GetOr(e, c, Empty())), NO_ROWS)))
  {
    assert [a, b, c][1..] == [b, c];
    assert [b, c][1..] == [c];
    assert [c][1..] == [];
    assert EntryCsv(id, e, [c]) == Join(RegionCsv(id, c, GetOr(e, c, Empty())), NO_ROWS);
    assert EntryCsv(id, e, [b, c]) == Join(RegionCsv(id, b, GetOr(e, b, Empty())), EntryCsv(id, e, [c]));
  }

  /** An entry laid out as a fresh collection lays it out exports its first
      region, then `'global'`, then the second region. */
  lemma EntryCsvOf(id: string, first: Services, global: Services, second: Services)
    ensures EntryCsv(id, EntryOf(first, global, second), EntryOf(first, global, second).keys)
         == Join(RegionCsv(id, REGIONS[0], first),
              Join(RegionCsv(id, GLOBAL, global),
                Join(RegionCsv(id, REGIONS[1], second), NO_ROWS)))
  {
    EntryCsvThree(id, EntryOf(first, global, second), REGIONS[0], GLOBAL, REGIONS[1]);
  }

  /** Joining a region's rows, the `'global'` rows and the other region's rows. */
  lemma JoinEntry(x0: Record, e0: seq<Record>, d0: seq<Record>, g: seq<Record>,
                  x1: Record, e1: seq<Record>, d1: seq<Record>)
    ensures Join(CsvFiles([x0], e0, d0, []), Join(CsvFiles([], [], [], g), Join(CsvFiles([x1], e1, d1, []), NO_ROWS)))
         == CsvFiles([x0, x1], e0 + e1, d0 + d1, g)
  {
    assert [x0] + ([] + ([x1] + [])) == [x0, x1];
    assert e0 + ([] + (e1 + [])) == e0 + e1;
    assert d0 + ([] + (d1 + [])) == d0 + d1;
    assert [] + (g + ([] + [])) == g;
  }

  /** A collected account's entry exports to its reference rows: EC2 rows of
      both regions, then EFS and RDS rows region by region, then S3. */
  lemma EntryCsvFresh(api: Api, id: string)
    ensures EntryCsv(id, Fresh(api, id), Fresh(api, id).keys) == FreshCsv(api, id)
  {
    var r0, r1 := REGIONS[0], REGIONS[1];
    var s0, g, s1 := RegionServices(api, id, r0), GlobalServices(api, id), RegionServices(api, id, r1);
    calc {
      EntryCsv(id, Fresh(api, id), Fresh(api, id).keys);
    == { EntryCsvOf(id, s0, g, s1); }
      Join(RegionCsv(id, r0, s0), Join(RegionCsv(id, GLOBAL, g), Join(RegionCsv(id, r1, s1), NO_ROWS)));
    == { RegionCsvOfServices(api, id, r0); GlobalCsvOfServices(api, id); RegionCsvOfServices(api, id, r1); }
      Join(CsvFiles([Ec2CsvRow(id, r0, api.describeInstances(id, r0))],
                    EfsCsvRows(id, r0, api.describeFileSystems(id, r0)),
                    RdsCsvRows(id, r0, api.describeDbInstances(id, r0)), []),
        Join(CsvFiles([], [], [], S3CsvRows(id, api.listBuckets(id))),
          Join(CsvFiles([Ec2CsvRow(id, r1, api.describeInstances(id, r1))],
                        EfsCsvRows(id, r1, api.describeFileSystems(id, r1)),
                        RdsCsvRows(id, r1, api.describeDbInstances(id, r1)), []), NO_ROWS)));
    == { JoinEntry(Ec2CsvRow(id, r0, api.describeInstances(id, r0)),
                   EfsCsvRows(id, r0, api.describeFileSystems(id, r0)),
                   RdsCsvRows(id, r0, api.describeDbInstances(id, r0)),
                   S3CsvRows(id, api.listBuckets(id)),
                   Ec2CsvRow(id, r1, api.describeInstances(id, r1)),
                   EfsCsvRows(id, r1, api.describeFileSystems(id, r1)),
                   RdsCsvRows(id, r1, api.describeDbInstances(id, r1))); }
      FreshCsv(api, id);
    }
  }

  /** The outer loop over keys whose entries are all fresh collections. */
  lemma {:induction false} ResultsCsvFresh(api: Api, res: Results, ks: seq<string>)
    requires forall k :: k in ks ==> Get(res, k) == Some(Fresh(api, k))
    ensures ResultsCsv(res, ks) == ExpectedCsv(api, ks)
    decreases |ks|
  {
    if |ks| > 0 {
      var id := ks[0];
      assert id in ks;
      var e := GetOr(res, id, Empty());
      assert e == Fresh(api, id);
      assert forall k :: k in ks[1..] ==> k in ks;
      ResultsCsvFresh(api, res, ks[1..]);
      calc {
        ResultsCsv(res, ks);
        Join(EntryCsv(id, e, e.keys), ResultsCsv(res, ks[1..]));
      == { EntryCsvFresh(api, id); }
        Join(FreshCsv(api, id), ExpectedCsv(api, ks[1..]));
      }
    }
  }

  /** The rows exported from the expected results: each distinct id's
      reference rows, in order of first collection. */
  lemma ExportExpected(api: Api, ids: seq<string>)
    ensures ExportCsv(Expected(api, ids)) == ExpectedCsv(api, Dedup(ids))
  {
    ResultsCsvFresh(api, Expected(api, ids), Dedup(ids));
  }
  /** The CSV files the script writes: for each active account whose role
      could be assumed, counted once, its EC2 row per region (an error row
      when the call failed), one EFS and RDS row per resource of a region
      whose call succeeded, and one S3 row per listed bucket. */
  lemma CsvOfRun(api: Api, accounts: seq<Account>)
    ensures ExportCsv(Run(api, accounts)) == ExpectedCsv(api, Dedup(Collected(api, accounts)))
  {
    RunShape(api, accounts);
    ExportExpected(api, Collected(api, accounts));
  }

  // ---------------------------------------------------------------- writer fit

  /** Every row has exactly its file's field names, so `DictWriter.writerow`
      neither rejects an extra key nor fills a missing one. */
  predicate RowsFit(c: CsvFiles) {
    (forall i :: 0 <= i < |c.ec2| ==> c.ec2[i].keys == EC2_FIELDS) &&
    (forall i :: 0 <= i < |c.efs| ==> c.efs[i].keys == EFS_FIELDS) &&
    (forall i :: 0 <= i < |c.rds| ==> c.rds[i].keys == RDS_FIELDS) &&
    (forall i :: 0 <= i < |c.s3| ==> c.s3[i].keys == S3_FIELDS)
  }

  lemma JoinFits(a: CsvFiles, b: CsvFiles)
    requires RowsFit(a) && RowsFit(b)
    ensures RowsFit(Join(a, b))
  {
  }

  lemma RegionCsvFits(id: string, region: string, svc: Services)
    ensures RowsFit(RegionCsv(id, region, svc))
  {
  }

  lemma {:induction false} EntryCsvFits(id: string, e: AccountEntry, ks: seq<string>)
    ensures RowsFit(EntryCsv(id, e, ks))
    decreases |ks|
  {
    if |ks| > 0 {
      var c := RegionCsv(id, ks[0], GetOr(e, ks[0], Empty()));
      RegionCsvFits(id, ks[0], GetOr(e, ks[0], Empty()));
      EntryCsvFits(id, e, ks[1..]);
      JoinFits(c, EntryCsv(id, e, ks[1..]));
    }
  }

  lemma {:induction false} ResultsCsvFits(res: Results, ks: seq<string>)
    ensures RowsFit(ResultsCsv(res, ks))
    decreases |ks|
  {
    if |ks| > 0 {
      var e := GetOr(res, ks[0], Empty());
      EntryCsvFits(ks[0], e, e.keys);
      ResultsCsvFits(res, ks[1..]);
      JoinFits(EntryCsv(ks[0], e, e.keys), ResultsCsv(res, ks[1..]));
    }
  }

  /** Whatever `results` holds, every exported row matches its writer's
      field names. */
  lemma ExportFits(res: Results)
    ensures RowsFit(ExportCsv(res))
  {
    ResultsCsvFits(res, res.keys);
  }

  // ---------------------------------------------------------------- row counts

  /** One EC2 row per account and region, error rows included. */
  lemma {:induction false} ExpectedEc2Count(api: Api, ids: seq<string>)
    ensures |ExpectedCsv(api, ids).ec2| == |REGIONS| * |ids|
    decreases |ids|
  {
    if |ids| > 0 {
      ExpectedEc2Count(api, ids[1..]);
    }
  }

  /** The EC2 file has one row per region for each distinct collected
      account, whether or not the EC2 call succeeded. */
  lemma Ec2RowCount(api: Api, accounts: seq<Account>)
    ensures |ExportCsv(Run(api, accounts)).ec2| == |REGIONS| * |Dedup(Collected(api, accounts))|
  {
    CsvOfRun(api, accounts);
    ExpectedEc2Count(api, Dedup(Collected(api, accounts)));
  }
}
