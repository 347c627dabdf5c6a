# AWS inventory scripts: a Dafny model

Two Python scripts walk every account of an AWS Organization. For each
account that is `ACTIVE` and whose `OrganizationAccountAccessRole` can be
assumed, they query each region's EC2, EFS and RDS services and the account's
S3 buckets. They collect the answers into a nested dictionary
`results[account][region][service]`, with S3 stored under the key `'global'`.

- `aws_org_inventory.py` flattens `results` into four CSV files. In this
  variant an EC2 slot is the dict `{"VM_Count": n}`, and a failed call leaves
  `{"error": msg}`.
- `aws_inventory.py` also keeps a `summary` list: one row
  `[account, region, service, count, capacity]` for each successful call. It
  then writes an Excel workbook: a `Summary` sheet with computed column widths,
  plus one detail sheet per slot. In this variant every slot is a list, and a
  failed call leaves `[{"error": msg}]`.

The model treats every remote call as an input. The `Api` datatype holds
total functions from account id (and region, or role ARN and session name) to
an `Outcome`, which is `Ok(payload)` or `Err(message)`. A bucket's location
and metric lookups travel inside its `Bucket` value. Everything else is pure
functions over those outcomes:

- Python dicts are `PyDict.Dict`: a duplicate-free key sequence in insertion
  order, plus a map. Iteration order, and so CSV and sheet order, is therefore
  modelled.
- A script's module-level accumulators become the state threaded through the
  account loop: `results` alone in the org variant, `Inventory(results,
  summary)` in the other.
- Byte counts stay exact naturals. A `/ 1024**3` quotient is the value
  `Gib(bytes)`, and `round(·, 2)` of it is `Gib2(bytes)`, whose hundredths
  are `Cloud.RoundCents(bytes)`.

Each module pairs the operations with an independent reference definition
and proves the two equal on all inputs:

- The account loop's result equals `Expected`: one fresh entry per distinct
  collected id.
- The summary equals `SummaryOf`: the rows of every collected id, in order.
- The CSV export of a run equals `ExpectedCsv`, built straight from the API
  outcomes.

The files:

- `wrappers.dfy`: `Option` and `Outcome`.
- `pydict.dfy`: the insertion-ordered dict.
- `text.dfy`: slicing, `str.replace`, and `str()` of integers and of rounded
  floats.
- `cloud.dfy`: the API payloads, role assumption, and the account filter.
- `org_inventory.dfy`, `org_csv.dfy`, `org_properties.dfy`: the org variant's
  collection, CSV export, and properties.
- `inventory.dfy`, `inventory_properties.dfy`, `inventory_excel.dfy`: the
  other variant's collection with its summary, properties, and workbook.

## Model

| member | source | states |
|---|---|---|
| Cloud.RoleArn | aws_org_inventory.py:21-23 | the role ARN is `arn:aws:iam::`, then the account id, then `:role/OrganizationAccountAccessRole`, and nothing else |
| Cloud.RoleArnInjective | aws_org_inventory.py:22 | two accounts never ask for the same role ARN |
| Cloud.AssumeRole | aws_org_inventory.py:19-33 | credentials come back exactly when the STS call succeeds; `None` after a `ClientError` |
| Cloud.Collected | aws_org_inventory.py:172-179 | an id is collected iff some listed account with that id is `ACTIVE` and its role could be assumed; never more ids than listed accounts |
| Cloud.LocationOrDefault | aws_inventory.py:98 | an empty or missing `LocationConstraint` becomes `us-east-1`; a non-empty one is kept |
| Cloud.RoundCents | aws_inventory.py:66 | `round(bytes / 1024**3, 2)` in hundredths: within half a hundredth of the exact quotient, a tie going to the even neighbour |
| Text.ParseNatText | aws_inventory.py:131 | `str()` of a count or integer capacity is decimal text that parses back to the number |
| Text.CentsText | aws_inventory.py:131 | `str()` of a rounded capacity is the integer part's decimal text, a point, then one decimal digit when the hundredths are a whole tenth and two otherwise |
| Text.CentsRoundTrip | aws_inventory.py:131 | `str()` of a rounded capacity parses back to the same number of hundredths |
| Text.Suffix | aws_inventory.py:136 | `account_id[-4:]` is the last four characters, or the whole id when shorter |
| Text.RemoveAll | aws_inventory.py:136 | `region.replace('-', '')` drops every dash and keeps every other character as often as it occurs |
| Text.RemoveAllAppend | aws_inventory.py:136 | removal distributes over concatenation, so the kept characters stay in their order |
| Text.RemoveAllOne | aws_inventory.py:136 | a single character is dropped when it is the dash and kept otherwise |
| OrgInventory.InstanceCountIsAllInstances | aws_org_inventory.py:41 | `VM_Count`, the sum of the reservations' instance-list lengths, is the number of instances listed |
| OrgInventory.Ec2Slot | aws_org_inventory.py:38-44 | the EC2 slot is always a dict: `{"VM_Count": instances}` on success, `{"error": msg}` on failure |
| OrgInventory.FsRecords | aws_org_inventory.py:51-56 | one record per file system when each has a `PerformanceMode`, else the `KeyError` text |
| OrgInventory.FsRecord | aws_org_inventory.py:52-56 | a file-system dict has exactly `ID`, `Type` and `Size_GB`: the id, the performance mode, and the size in GiB (0 when absent) |
| OrgInventory.EfsSlot | aws_org_inventory.py:47-59 | the EFS slot is the list of each file system's dict, in order; `{"error": str(e)}` with the call's message, or with the `KeyError` text when a file system lacks its mode |
| OrgInventory.RdsSlot | aws_org_inventory.py:62-75 | the RDS slot is the list of each instance's dict, in order, on success; `{"error": str(e)}` with the call's message on failure |
| OrgInventory.BucketRegion | aws_org_inventory.py:84-89 | a failed location lookup gives `unknown`; a successful one gives its constraint, or `us-east-1` when that is missing or empty |
| OrgInventory.BucketRecord | aws_org_inventory.py:83-88 | a bucket dict has exactly `Name` and `Region`: the bucket's name and its looked-up region |
| OrgInventory.S3Slot | aws_org_inventory.py:79-92 | the S3 slot is each listed bucket's dict, in order, kept even when its lookup fails; a failed listing gives `{"error": str(e)}` with its message |
| OrgInventory.CollectRegionNew | aws_org_inventory.py:36-92 | one region pass adds that region's services and, for the first region only, `'global'` with S3; nothing else changes |
| OrgInventory.CollectRegionsKeys | aws_org_inventory.py:36-92 | the region loop adds the regions in order, with `'global'` right after the first region |
| OrgInventory.CollectRegionsGlobal | aws_org_inventory.py:78-92 | S3 is queried in the first region's pass and stored only under `'global'` |
| OrgInventory.CollectFresh | aws_org_inventory.py:35-92 | collecting a new account builds exactly the reference entry `Fresh` |
| OrgInventory.CollectAgain | aws_org_inventory.py:172-179 | collecting an account a second time, with the calls answering as they did the first time, leaves its entry unchanged |
| OrgInventory.RunShape | aws_org_inventory.py:172-179 | `results` after the account loop is one fresh entry per distinct collected id, in first-collection order, given that each call's outcome depends only on its account and region |
| OrgProperties.RunAccounts | aws_org_inventory.py:172-179 | `results` has an entry for an id iff that account is active and its role could be assumed |
| OrgProperties.FreshLayout | aws_org_inventory.py:36-92 | an account entry's keys are first region, `'global'`, second region; `'global'` holds only S3 |
| OrgProperties.FreshRegionLayout | aws_org_inventory.py:36-75 | every region holds exactly EC2, EFS and RDS |
| OrgProperties.RunSlots | aws_org_inventory.py:36-92 | every slot of a collected account is computed from its own call's outcome alone |
| OrgProperties.Ec2Isolated | aws_org_inventory.py:38-44 | an EC2 slot depends on nothing but its own call: other failures never reach it |
| OrgProperties.S3Names | aws_org_inventory.py:83-89 | each bucket keeps its name; its region is `unknown` after a failed lookup, `us-east-1` for a missing or empty constraint, and the constraint itself otherwise |
| OrgCsv.Ec2RowOfSlot | aws_org_inventory.py:105-112 | an EC2 row reads the count and `""` on success, and `N/A` and the message on failure |
| OrgCsv.EfsRowOfRecord | aws_org_inventory.py:116-123 | an EFS row carries the id, mode and size rounded to hundredths of the file system |
| OrgCsv.RdsRowOfRecord | aws_org_inventory.py:127-135 | an RDS row carries identifier, class, engine and storage of the instance |
| OrgCsv.S3RowOfRecord | aws_org_inventory.py:139-144 | an S3 row carries the bucket's name and resolved region |
| OrgCsv.EfsRowsOfSlot | aws_org_inventory.py:115-123 | one EFS row per item of a list slot; an error slot, being a dict, gives none |
| OrgCsv.RdsRowsOfSlot | aws_org_inventory.py:126-135 | one RDS row per item of a list slot; an error slot gives none |
| OrgCsv.S3RowsOfSlot | aws_org_inventory.py:138-144 | under `'global'`, one S3 row per bucket of a list slot; an error slot gives none |
| OrgCsv.RegionCsvOfServices | aws_org_inventory.py:103-135 | a region contributes its EC2 row, EFS and RDS rows, and never S3 rows |
| OrgCsv.GlobalCsvOfServices | aws_org_inventory.py:137-144 | `'global'` contributes only S3 rows |
| OrgCsv.EntryCsvFresh | aws_org_inventory.py:102-144 | an account's rows are those of first region, then `'global'`, then second region |
| OrgCsv.ResultsCsvFresh | aws_org_inventory.py:102-144 | the export concatenates the accounts' rows in `results` order |
| OrgCsv.CsvOfRun | aws_org_inventory.py:102-144 | the four row lists of a run equal the reference rows computed straight from the API outcomes |
| OrgCsv.ExportFits | aws_org_inventory.py:145-165 | every row's keys are exactly its writer's field names, in field order |
| OrgCsv.Ec2RowCount | aws_org_inventory.py:102-112 | the EC2 file has one row per region per distinct collected account, errors included |
| Inventory.VolumeRecord | aws_inventory.py:46 | a volume dict has exactly `VolumeId`, `Size`, `Tags`: the volume's id and size, and its tags or `[]` when it has none |
| Inventory.VolumeRecords | aws_inventory.py:46 | one record per volume, in order |
| Inventory.FsRecord | aws_inventory.py:56-63 | a file-system record has exactly `ID`, `PerformanceMode`, `Size_GB`, `Tags`: the id, the mode or `None`, the size in GiB (0 when absent), and the tags (`[]` when absent) |
| Inventory.FsRecords | aws_inventory.py:55-63 | `fs_data` holds one record per file system, in order |
| Cloud.DbRecord | aws_inventory.py:76-83 | an RDS record has exactly `DBIdentifier`, `Class`, `Allocated_Storage_GB`, `Engine`, each the instance's own field; the org variant builds the identical dict at `aws_org_inventory.py` lines 67-72 |
| Inventory.DbRecords | aws_inventory.py:75-83 | `db_data` holds one record per instance, in order |
| Inventory.BucketRecord | aws_inventory.py:96-116 | a bucket record has `Name`, `Region`, `Size_GB` and keeps the bucket's name; when both lookups succeed it holds the constraint or `us-east-1` and the first datapoint's bytes in GiB, otherwise `unknown` and the integer 0 |
| Inventory.BucketRecords | aws_inventory.py:95-116 | `bucket_data` holds one record per listed bucket, in order, failed ones included |
| Inventory.CollectRegionNew | aws_inventory.py:41-87 | one region pass writes that region's EC2, EFS and RDS slots and nothing else |
| Inventory.CollectRegionsKeys | aws_inventory.py:41-87 | the region loop appends the regions in order |
| Inventory.CollectRegionsRows | aws_inventory.py:41-87 | the region loop appends each region's EC2, EFS, RDS rows in region order |
| Inventory.CollectFresh | aws_inventory.py:40-120 | collecting a new account builds exactly the reference entry: the regions, then `'global'` |
| Inventory.CollectAgain | aws_inventory.py:145-152 | collecting an account twice, with the calls answering as they did the first time, leaves its entry unchanged |
| Inventory.CollectRows | aws_inventory.py:40-120 | one `collect_inventory` call appends exactly that account's reference rows |
| Inventory.StepShape | aws_inventory.py:145-152 | one loop step turns the reference state for `ids` into the one for `ids + [id]` |
| Inventory.RunShape | aws_inventory.py:145-152 | after the loop, `results` holds one fresh entry per distinct collected id and `summary` the rows of every collected id, duplicates included, in order, given that each call's outcome depends only on its account and region |
| InventoryProperties.VolumeTotalStored | aws_inventory.py:45-46 | the EC2 capacity is the sum of the stored `Size` values |
| InventoryProperties.StorageTotalStored | aws_inventory.py:76-85 | the RDS capacity is the sum of the stored `Allocated_Storage_GB` values |
| InventoryProperties.FsBytesStored | aws_inventory.py:57-62 | the EFS total is the sum of the stored `Size_GB` quantities |
| InventoryProperties.BucketsBytesStored | aws_inventory.py:111-116 | the S3 total is the sum of the stored `Size_GB` quantities; failed buckets add 0 |
| InventoryProperties.BucketGib | aws_inventory.py:111-116 | a bucket's size is a GiB quotient exactly when both its lookups succeeded |
| InventoryProperties.BucketsFloat | aws_inventory.py:94-118 | the S3 total becomes a float iff some bucket succeeded, otherwise it stays the integer 0 |
| InventoryProperties.Ec2Summarised | aws_inventory.py:42-49 | a successful call gives a data slot and one row (count = volumes, capacity = sum of sizes, even when 0); a failure gives `[{"error": msg}]` and no row |
| InventoryProperties.EfsSummarised | aws_inventory.py:51-68 | as for EC2; the capacity is the rounded byte total, or the integer 0 when there are no file systems |
| InventoryProperties.RdsSummarised | aws_inventory.py:70-87 | as for EC2, with the sum of allocated storage |
| InventoryProperties.S3Summarised | aws_inventory.py:89-120 | as for EC2, with region `'global'`; the capacity is rounded once some bucket succeeded |
| InventoryProperties.BucketDefaults | aws_inventory.py:96-116 | a failed bucket gets `unknown` and 0; an empty constraint `us-east-1`; no datapoints size 0 |
| InventoryProperties.RunAccounts | aws_inventory.py:145-152 | `results` has an entry for an id iff that account is active and its role could be assumed |
| InventoryProperties.RunEntry | aws_inventory.py:145-152 | a collected account's entry is the fresh one |
| InventoryProperties.FreshSlots | aws_inventory.py:41-120 | an entry holds every region, then `'global'`; each slot comes from its own call |
| InventoryProperties.RunSlots | aws_inventory.py:40-120 | in a run, every slot of a collected account is computed from its own call's outcome alone |
| InventoryProperties.SummaryOfBacked | aws_inventory.py:40-120 | every reference summary row belongs to a listed account and matches a data slot's length |
| InventoryProperties.RunSummaryBacked | aws_inventory.py:145-152 | every summary row names a collected account and a data slot in `results` whose item count it reports |
| InventoryExcel.TitleBounds | aws_inventory.py:136-137 | a sheet title has at most 31 characters, is a prefix of the full name, and is the full name when that fits |
| InventoryExcel.TitleUncut | aws_inventory.py:136-137 | a name is never cut when service and region together have at most 25 characters |
| InventoryExcel.TitlesNeverCut | aws_inventory.py:136-137 | no title for this program's services and regions is ever cut |
| InventoryExcel.AllKeys | aws_inventory.py:139 | the listed keys are exactly those of some item |
| InventoryExcel.KeyUnion | aws_inventory.py:139-140 | the header lists each key of the union exactly once |
| InventoryExcel.RowAligned | aws_inventory.py:139-142 | under any duplicate-free header of the union, an item's row holds each of its values under its key, and `""` where it lacks the key |
| InventoryExcel.RowHolds | aws_inventory.py:139-142 | every value an item holds appears as a cell of its row |
| InventoryExcel.DetailSheetAligned | aws_inventory.py:138-142 | a non-empty slot's sheet is a duplicate-free header of the items' key union, then one row per item aligned with that header, so `RowAligned` applies to every row |
| InventoryExcel.SheetRowsHold | aws_inventory.py:138-142 | a non-empty slot's sheet has one row per item after the first, and each carries the item's value under a key every item holds |
| InventoryExcel.VolumeRowsHoldTags | aws_inventory.py:141-142 | every EC2 row handed to `ws.append` carries the volume's tag list as a cell |
| InventoryExcel.ErrorSheet | aws_inventory.py:138-142 | a failed call's sheet is the header `error` over the message |
| InventoryExcel.ServiceSheetsCount | aws_inventory.py:135-137 | one sheet per service slot |
| InventoryExcel.EntrySheetsCount | aws_inventory.py:134-137 | an account gets one sheet per slot of its entry |
| InventoryExcel.FreshCount | aws_inventory.py:41-120 | an entry has 19 slots: three in each of six regions, plus S3 |
| InventoryExcel.WorkbookOfRun | aws_inventory.py:122-143 | the workbook holds the summary sheet plus 19 detail sheets per distinct collected account |
| InventoryExcel.ColumnWidth | aws_inventory.py:130-132 | a column's width is two more than its longest cell: every cell fits and one reaches it |
| InventoryExcel.SummaryWidths | aws_inventory.py:126-132 | each of the five summary widths fits every cell, reaches one, and is at least its header's length plus 2 |

## Left out

- The account list: `list_accounts()['Accounts']` becomes the plain parameter `accounts` of `Run`. A failure of that call is not caught and ends the script before any output, and only the first page of accounts is read (no `NextToken` pagination); the model takes whatever list the call returned and models neither.
- Network I/O: boto3 clients, `assume_role`, and the EC2, EFS, RDS, S3 and CloudWatch calls. Each is an `Outcome` given through `Api`; a payload field the code reads with `[...]` is always present.
- Missing payload fields: a `KeyError` from `v['Size']`, `db['AllocatedStorage']` and the like would turn its slot into an error slot. The payload datatypes always carry these fields, so that path is not modelled. The one exception is the org variant's `fs['PerformanceMode']`, which is modelled.
- Repeated calls: the `Api` functions give one outcome per account and region, so a second collection of a listed-twice account meets the same answers as the first. Live services may answer differently on the second call; the `CollectAgain` and `RunShape` rows hold only under this assumption.
- Exceptions other than `ClientError` in `assume_role` (a lost connection, missing boto3 credentials) propagate and end the whole run. The model's `assumeRole` outcome covers only the caught `ClientError`.
- Printing: progress lines, the `[!]` messages, and the final `json.dumps(results)`.
- File output: `mkdir`, `csv.DictWriter` writing, and `openpyxl` saving. The model stops at the row lists and sheets handed to them.
- openpyxl's cell-type check. `ws.append` rejects a list cell value with a `ValueError`, and EC2 and EFS rows carry their `Tags` list (`InventoryExcel.VolumeRowsHoldTags`). So `write_excel` raises before `wb.save` whenever some account has a volume or a file system. The model describes the rows the code hands to `append`, not that library failure.
- The `Font` import and sheet styling: no cell is styled.
- The CloudWatch window, which uses `datetime.utcnow()`. The clock only selects the datapoints, which arrive as the bucket's `datapoints` outcome.
- Float arithmetic. Sizes stay exact byte counts, and `round(x, 2)` is applied to the exact quotient. CPython sums floats and rounds the nearest double, so results can differ in the last place for very large totals.
- Text.CentsText: renders `str()` of a rounded float as plain decimal text; Python switches to exponent notation from 1e16 on.
- `round(v, 2)` in the EFS export is modelled only on the stored `Size_GB` and the default 0, the only values the export meets.
- Duplicate sheet titles: openpyxl renames them, which is library behaviour. Two accounts that share their last four digits collide this way.
- The header order of a detail sheet. The source takes `list(set)`, whose order depends on string hashing; the model enumerates keys in first-appearance order, and `InventoryExcel.RowAligned` holds for any duplicate-free enumeration.
- The `isinstance(d, dict)` filter in the key union: every item the collection stores is a dict.
- The bare `except:` that reuses `name` for a bucket whose `Name` is missing. A listed bucket always has a name.
- The S3 size in the source is `Datapoints[0]`, the first datapoint CloudWatch returns, not necessarily the latest one. The model follows the code.
