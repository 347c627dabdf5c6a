/** Consequences of the collection shape of aws_org_inventory.py for the
    questions a reader of `results` asks: which accounts appear, which slots
    each holds, and what each slot depends on. */
module OrgProperties {
  import opened Wrappers
  import opened PyDict
  import opened Cloud
  import opened OrgInventory

  /** `results[id][region][service]`, `None` when any key is missing. */
  function SlotAt(res: Results, id: string, region: string, service: string): Option<Slot> {
    Get2(GetOr(res, id, Empty()), region, service)
  }

  /** An account id is a key of `results` exactly when some listed account
      with that id is `ACTIVE` and its role could be assumed; each such id
      appears once. */
  lemma RunAccounts(api: Api, accounts: seq<Account>)
    ensures NoDup(Run(api, accounts).keys)
    ensures forall id :: id in Run(api, accounts).keys <==>
      exists i :: 0 <= i < |accounts| && accounts[i].id == id && IsCollected(api, accounts[i])
  {
    RunShape(api, accounts);
  }

  /** The entry of a collected account holds its first region, `'global'`
      and its second region, and `'global'` holds exactly the S3 slot. */
  lemma FreshLayout(api: Api, id: string)
    ensures Fresh(api, id).keys == [REGIONS[0], GLOBAL, REGIONS[1]]
    ensures GetOr(Fresh(api, id), GLOBAL, Empty()).keys == ["S3"]
  {
  }

  /** Each region of a collected account holds exactly the EC2, EFS and RDS
      slots. */
  lemma FreshRegionLayout(api: Api, id: string, r: string)
    requires r in REGIONS
    ensures GetOr(Fresh(api, id), r, Empty()).keys == ["EC2", "EFS", "RDS"]
  {
    RegionsMembers();
  }

  /** Every slot of a collected account is computed from its own call alone:
      a region's EC2, EFS and RDS slots from that region's describe calls, the
      S3 slot from the account's bucket listing. A failing call therefore
      changes no other slot. */
  lemma RunSlots(api: Api, accounts: seq<Account>, id: string, r: string)
    requires id in Run(api, accounts).keys
    requires r in REGIONS
    ensures SlotAt(Run(api, accounts), id, r, "EC2") == Some(Ec2Slot(api.describeInstances(id, r)))
    ensures SlotAt(Run(api, accounts), id, r, "EFS") == Some(EfsSlot(api.describeFileSystems(id, r)))
    ensures SlotAt(Run(api, accounts), id, r, "RDS") == Some(RdsSlot(api.describeDbInstances(id, r)))
    ensures SlotAt(Run(api, accounts), id, GLOBAL, "S3") == Some(S3Slot(api.listBuckets(id)))
  {
    RunShape(api, accounts);
    var res := Run(api, accounts);
    assert Get(res, id) == Some(Fresh(api, id));
    RegionsMembers();
  }

  /** Two runs whose calls for one account and region agree produce the same
      EC2 slot there, whatever every other call returned. */
  lemma Ec2Isolated(api1: Api, accounts1: seq<Account>, api2: Api, accounts2: seq<Account>, id: string, r: string)
    requires id in Run(api1, accounts1).keys && id in Run(api2, accounts2).keys
    requires r in REGIONS
    requires api1.describeInstances(id, r) == api2.describeInstances(id, r)
    ensures SlotAt(Run(api1, accounts1), id, r, "EC2") == SlotAt(Run(api2, accounts2), id, r, "EC2")
  {
    RunSlots(api1, accounts1, id, r);
    RunSlots(api2, accounts2, id, r);
  }

  /** Each listed bucket keeps its name in the S3 slot, and its region is
      the default for an empty constraint and `'unknown'` for a failed
      lookup. */
  lemma S3Names(bs: seq<Bucket>)
    ensures |S3Slot(Ok(bs)).items| == |bs|
    ensures forall i :: 0 <= i < |bs| ==> Get(S3Slot(Ok(bs)).items[i], "Name") == Some(Str(bs[i].name))
    ensures forall i :: 0 <= i < |bs| && bs[i].location.Err? ==>
      Get(S3Slot(Ok(bs)).items[i], "Region") == Some(Str("unknown"))
    ensures forall i :: 0 <= i < |bs| && (bs[i].location == Ok(None) || bs[i].location == Ok(Some(""))) ==>
      Get(S3Slot(Ok(bs)).items[i], "Region") == Some(Str(DEFAULT_BUCKET_REGION))
    ensures forall i, l :: 0 <= i < |bs| && bs[i].location == Ok(Some(l)) && l != "" ==>
      Get(S3Slot(Ok(bs)).items[i], "Region") == Some(Str(l))
  {
  }
}
