/** What both scripts share: the organization's accounts, the role they assume
    in each, the payloads the AWS calls return, and the dict values they build.
    Every remote call is an input: the `Api` value fixes, for each account (and
    region), the outcome the call would have. */
module Cloud {
  import opened Wrappers
  import opened PyDict

  const ROLE_NAME := "OrganizationAccountAccessRole"
  const SESSION_NAME := "InventorySession"
  const ACTIVE := "ACTIVE"
  /** The pseudo-region S3 results are filed under. */
  const GLOBAL := "global"
  /** What an empty `LocationConstraint` stands for. */
  const DEFAULT_BUCKET_REGION := "us-east-1"
  /** The divisor of the byte-to-GiB conversion, `1024**3`. */
  const GIB: nat := 1024 * 1024 * 1024

  /** An entry of `organizations.list_accounts()['Accounts']`. */
  datatype Account = Account(id: string, status: string)

  datatype Credentials = Credentials(accessKeyId: string, secretAccessKey: string, sessionToken: string)

  datatype Tag = Tag(key: string, value: string)

  /** An EC2 reservation, reduced to the ids of its `Instances`. */
  datatype Reservation = Reservation(instanceIds: seq<string>)

  /** An EBS volume; `tags` is absent when the volume has no `Tags` key. */
  datatype Volume = Volume(volumeId: string, size: nat, tags: Option<seq<Tag>>)

  /** An EFS file system; `sizeInBytes` is `SizeInBytes.Value`, absent when
      either key is missing. */
  datatype FileSystem = FileSystem(
    fileSystemId: string,
    performanceMode: Option<string>,
    sizeInBytes: Option<nat>,
    tags: Option<seq<Tag>>)

  datatype DbInstance = DbInstance(identifier: string, instanceClass: string, allocatedStorage: nat, engine: string)

  /** A bucket of `list_buckets()`, with the outcomes of the two per-bucket
      calls made about it: `get_bucket_location` (its `LocationConstraint`,
      which may be `None` or empty) and `get_metric_statistics` (the
      `Average` of each returned datapoint, in bytes). */
  datatype Bucket = Bucket(name: string, location: Outcome<Option<string>>, datapoints: Outcome<seq<nat>>)

  /** The outcome of every remote call the scripts make. */
  datatype Api = Api(
    /** `sts.assume_role(RoleArn, RoleSessionName)`; `Err` is a `ClientError`. */
    assumeRole: (string, string) -> Outcome<Credentials>,
    /** `ec2.describe_instances()['Reservations']` in (account, region) */
    describeInstances: (string, string) -> Outcome<seq<Reservation>>,
    /** `ec2.describe_volumes()['Volumes']` in (account, region) */
    describeVolumes: (string, string) -> Outcome<seq<Volume>>,
    /** `efs.describe_file_systems()['FileSystems']` in (account, region) */
    describeFileSystems: (string, string) -> Outcome<seq<FileSystem>>,
    /** `rds.describe_db_instances()['DBInstances']` in (account, region) */
    describeDbInstances: (string, string) -> Outcome<seq<DbInstance>>,
    /** `s3.list_buckets()['Buckets']` in an account */
    listBuckets: string -> Outcome<seq<Bucket>>)

  /** A value stored in one of the scripts' dicts. `Gib(b)` is the float
      `b / 1024**3`, kept exact; `Gib2(b)` is `round(b / 1024**3, 2)`. */
  datatype Value =
    | Str(s: string)
    | Int(i: int)
    | Gib(bytes: nat)
    | Gib2(bytes: nat)
    | TagList(tags: seq<Tag>)
    | Null

  /** A dict with string keys, as the scripts build per resource and per CSV row. */
  type Record = Dict<Value>

  /** The role each account is entered through. */
  function RoleArn(accountId: string): (arn: string)
    ensures |arn| == 13 + |accountId| + 6 + |ROLE_NAME|
    ensures arn[..13] == "arn:aws:iam::"
    ensures arn[13..13 + |accountId|] == accountId
    ensures arn[13 + |accountId|..] == ":role/" + ROLE_NAME
  {
    "arn:aws:iam::" + accountId + ":role/" + ROLE_NAME
  }

  /** Two accounts never request the same role: the ARN names its account. */
  lemma RoleArnInjective(a: string, b: string)
    requires RoleArn(a) == RoleArn(b)
    ensures a == b
  {
    assert |a| == |b|;
  }

  /** `assume_role(account_id)`: the credentials, or `None` after a `ClientError`. */
  function AssumeRole(api: Api, accountId: string): (r: Option<Credentials>)
    ensures r.Some? <==> api.assumeRole(RoleArn(accountId), SESSION_NAME).Ok?
  {
    match api.assumeRole(RoleArn(accountId), SESSION_NAME)
    case Ok(c) => Some(c)
    case Err(_) => None
  }

  /** The account loop's test: an account is inventoried when it is `ACTIVE`
      and its role could be assumed (a credentials dict is always truthy). */
  predicate IsCollected(api: Api, a: Account) {
    a.status == ACTIVE && AssumeRole(api, a.id).Some?
  }

  /** The ids `collect_inventory` is called with, in call order (an id listed
      twice is collected twice). */
  function Collected(api: Api, accounts: seq<Account>): (ids: seq<string>)
    ensures |ids| <= |accounts|
    ensures forall id :: id in ids <==>
      exists i :: 0 <= i < |accounts| && accounts[i].id == id && IsCollected(api, accounts[i])
    decreases |accounts|
  {
    if |accounts| == 0 then []
    else
      var n := |accounts| - 1;
      var p := Collected(api, accounts[..n]);
      assert forall i :: 0 <= i < n ==> accounts[..n][i] == accounts[i];
      if IsCollected(api, accounts[n]) then p + [accounts[n].id] else p
  }

  /** `get_bucket_location(...)['LocationConstraint'] or 'us-east-1'` */
  function LocationOrDefault(loc: Option<string>): (r: string)
    ensures r != ""
    ensures loc.Some? && loc.value != "" ==> r == loc.value
    ensures loc.None? || loc == Some("") ==> r == DEFAULT_BUCKET_REGION
  {
    match loc
    case Some(l) => if l == "" then DEFAULT_BUCKET_REGION else l
    case None => DEFAULT_BUCKET_REGION
  }

  /** The dict both scripts build for one RDS instance. */
  function DbRecord(db: DbInstance): (d: Record)
    ensures d.keys == ["DBIdentifier", "Class", "Allocated_Storage_GB", "Engine"]
    ensures Get(d, "DBIdentifier") == Some(Str(db.identifier))
    ensures Get(d, "Class") == Some(Str(db.instanceClass))
    ensures Get(d, "Allocated_Storage_GB") == Some(Int(db.allocatedStorage))
    ensures Get(d, "Engine") == Some(Str(db.engine))
  {
    RawDict(["DBIdentifier", "Class", "Allocated_Storage_GB", "Engine"],
      map[ "DBIdentifier" := Str(db.identifier),
           "Class" := Str(db.instanceClass),
           "Allocated_Storage_GB" := Int(db.allocatedStorage),
           "Engine" := Str(db.engine) ])
  }

  /** 100 times `round(bytes / 1024**3, 2)`: the nearest whole number of
      hundredths of a GiB, a tie going to the even one, as Python's `round`
      does on the (exact) quotient. */
  function RoundCents(bytes: nat): (k: nat)
    ensures 2 * (k * GIB - bytes * 100) <= GIB
    ensures 2 * (bytes * 100 - k * GIB) <= GIB
    ensures 2 * (k * GIB - bytes * 100) == GIB ==> k % 2 == 0
    ensures 2 * (bytes * 100 - k * GIB) == GIB ==> k % 2 == 0
  {
    var q := bytes * 100 / GIB;
    var rem := bytes * 100 % GIB;
    if 2 * rem > GIB then q + 1
    else if 2 * rem < GIB then q
    else q + q % 2
  }

  // ---------------------------------------------------------------- results[account][region][service]

  /** A region's services dict: EC2, EFS, RDS, in the order they are written. */
  function ServicesOf<S>(ec2: S, efs: S, rds: S): (svc: Dict<S>)
    ensures svc.keys == ["EC2", "EFS", "RDS"]
    ensures Get(svc, "EC2") == Some(ec2) && Get(svc, "EFS") == Some(efs) && Get(svc, "RDS") == Some(rds)
  {
    RawDict(["EC2", "EFS", "RDS"], map["EC2" := ec2, "EFS" := efs, "RDS" := rds])
  }

  /** The `'global'` services dict: S3 only. */
  function GlobalOf<S>(s3: S): (svc: Dict<S>)
    ensures svc.keys == ["S3"] && Get(svc, "S3") == Some(s3)
  {
    RawDict(["S3"], map["S3" := s3])
  }

  /** The three regional writes, `results[id][region][service] = ...`. */
  function WriteRegion<S>(e: Dict<Dict<S>>, r: string, ec2: S, efs: S, rds: S): Dict<Dict<S>> {
    Put2(Put2(Put2(e, r, "EC2", ec2), r, "EFS", efs), r, "RDS", rds)
  }

  /** Writing a region the entry does not hold yet appends it, holding the
      three slots, and touches nothing else. */
  lemma WriteRegionNew<S>(e: Dict<Dict<S>>, r: string, ec2: S, efs: S, rds: S)
    requires r !in e.keys
    ensures WriteRegion(e, r, ec2, efs, rds).keys == e.keys + [r]
    ensures Get(WriteRegion(e, r, ec2, efs, rds), r) == Some(ServicesOf(ec2, efs, rds))
    ensures forall k :: k != r ==> Get(WriteRegion(e, r, ec2, efs, rds), k) == Get(e, k)
  {
    ServicesWrites(ec2, efs, rds);
  }

  /** The key order of assigning EC2, EFS and RDS in turn. */
  lemma ServicesWritesKeys(ks: seq<string>)
    requires ks == []
    ensures AddKey(AddKey(AddKey(ks, "EC2"), "EFS"), "RDS") == ["EC2", "EFS", "RDS"]
  {
  }

  /** Assigning EC2, EFS and RDS in turn into an empty dict builds the
      region's services dict. */
  lemma ServicesWrites<S>(ec2: S, efs: S, rds: S)
    ensures Put(Put(Put(Empty(), "EC2", ec2), "EFS", efs), "RDS", rds) == ServicesOf(ec2, efs, rds)
  {
    ServicesWritesKeys(Empty<S>().keys);
    Ext(Put(Put(Put(Empty(), "EC2", ec2), "EFS", efs), "RDS", rds), ServicesOf(ec2, efs, rds));
  }

  /** Writing S3 under an absent `'global'` appends it and touches nothing else. */
  lemma GlobalWriteNew<S>(e: Dict<Dict<S>>, s3: S)
    requires GLOBAL !in e.keys
    ensures Put2(e, GLOBAL, "S3", s3).keys == e.keys + [GLOBAL]
    ensures Get(Put2(e, GLOBAL, "S3", s3), GLOBAL) == Some(GlobalOf(s3))
    ensures forall k :: k != GLOBAL ==> Get(Put2(e, GLOBAL, "S3", s3), k) == Get(e, k)
  {
    Ext(Put(Empty(), "S3", s3), GlobalOf(s3));
  }
}
