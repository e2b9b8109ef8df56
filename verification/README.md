# AWS availability-zone mapper — a Dafny model of its data shaping

The mapper asks an operator which organization accounts and regions to map and
which IAM role to assume. For each selected account it assumes that role and asks
every selected region for its availability zones. It then writes one document that
maps each logical zone name (`us-east-1a`) to its physical zone id (`use1-az1`),
per account and region.

This project models the logic between the remote calls. Each remote call is an
abstract input:

- The organization listing is the sequence of replies the provider gives to
  successive `list_accounts` calls. Each reply is a page or a raised exception.
  Nothing catches it, so every kind of exception has the same effect.
- Role assumption and zone description are pure functions held in a `Cloud` value.
  Role assumption maps the request (role ARN and session name) to granted
  credentials or a raised exception. `assume_role` re-raises a `ClientError`, and
  any other exception escapes it, so both are one case in the model.
- Zone description maps (credentials, region) to one of three answers: zone
  records, a `ClientError`, or any other exception. Only a `ClientError` is caught
  by the region loop. Any other exception, including one raised while opening the
  regional client, escapes `az_map_account` and `main`.

Modules, following the program's structure:

- `Outcomes`, `Seqs`: `Option`/`Result` wrappers and first- and last-occurrence helpers.
- `Provider`: the values exchanged with the provider, and the run-ending errors.
- `Listing`: the pagination loop of `aws_org_accounts`.
- `Selection`: the decisions taken by `aws_accounts_prompt` and `aws_regions_prompt`.
- `Roles`: the role ARN and the credential exchange of `assume_role`.
- `ZoneMap`: `az_map_account`. It is modelled as written, including what it does
  when a zone query raises a `ClientError` and when it raises anything else. A
  corrected variant sits beside it.
- `Pipeline`: the account loop and the whole flow of `main`.

Two behaviours of the code are modelled as they are:

- A caught `ClientError` from a zone query evidently should leave its region
  empty. The code instead reuses the zones of the most recent region whose query
  answered. When the first region fails, the code raises `UnboundLocalError` and
  the run aborts. Both are listed under "## Findings".
- A role-assumption failure is re-raised, so one refused account aborts the
  whole run and nothing is written. The model keeps this behaviour.

## Model

| member | source | states |
|---|---|---|
| Listing.ListAccounts | az_mapper.py:40-51 | The listing succeeds exactly when the first reply without `NextToken` is a page. It runs out of replies exactly when every reply announces another page. |
| Listing.ListAccountsStopsAtFirstStop | az_mapper.py:40-51 | The first reply is always read. Reading stops at the first reply without `NextToken`. A final page yields the `Accounts` of every page read, concatenated in fetch order. A raised listing error propagates. |
| Listing.ListAccountsIgnoresLaterReplies | az_mapper.py:44-49 | Replies after the one that ends the listing never affect the result. |
| Listing.ListOrgAccounts | az_mapper.py:40-51 | The loop agrees with the reference listing. It issues one request per reply that announces another page, plus the first request. Every request asks for 20 results. The first request has no token, and request i+1 carries the `NextToken` of reply i. |
| Selection.Choices | az_mapper.py:13-18 | The choices are "all" followed by the org account ids in listing order. |
| Selection.RemoveFirst | az_mapper.py:26 | `list.remove` drops the first occurrence and keeps every other element in order. So one element fewer, the same multiset less that element, and the tail when the element is at the head. |
| Selection.ResolveAccounts | az_mapper.py:25-33 | If "all" is ticked, the result is exactly the org ids in listing order, whatever else is ticked. Otherwise an empty selection exits, and a non-empty selection is returned unchanged. If the ticks come from the choices, every account returned is an org account. |
| Selection.ResolveRegions | az_mapper.py:96-100 | An empty region selection exits. Any other selection is used as ticked. |
| Roles.RoleArn | az_mapper.py:108 | The ARN is `arn:aws:iam::`, then the account id, then `:role/`, then the role name, each at its fixed position. |
| Roles.ParseRoleArn | az_mapper.py:108 | Parsing an ARN back is sound: whatever it returns rebuilds the same ARN. |
| Roles.ParseRoleArnRoundTrip | az_mapper.py:108 | For a colon-free account id, parsing the ARN returns the account id and role name it was built from. |
| Roles.RoleArnInjective | az_mapper.py:108 | Different (account, role) pairs with colon-free account ids get different ARNs. |
| Roles.RoleRequestFor | az_mapper.py:108-115 | The request uses session name `AZMapperTool`. For a colon-free account id, its ARN names exactly the account and role asked for. |
| Roles.AssumeRole | az_mapper.py:110-136 | The exchange succeeds exactly when the provider grants the role, and then returns the provider's credentials. A refusal is re-raised with the provider's own message. |
| ZoneMap.ZoneDictOf | az_mapper.py:173-174 | Every zone name of the reply is a key of `zone_dict`, and every key is one of the reply's zone names. |
| ZoneMap.ZoneDictLastWins | az_mapper.py:173-174 | A region's `zone_dict` has as keys exactly the `ZoneName`s of the reply. Each zone name maps to the `ZoneId` of the last record that carries that name. |
| ZoneMap.RegionStep | az_mapper.py:157-176 | One iteration. An uncaught exception aborts with the region and message. A `ClientError` keeps the previous `response`, and fails with `response` unbound if there is none. Otherwise the region's entry becomes one dict built from `response`, every other region's entry is unchanged, and so every entry stays a list of one dict. |
| ZoneMap.CollectRegions | az_mapper.py:156-176 | The region loop completes exactly when no query raised an uncaught exception and the first region's query answered. A `ClientError` on the first region fails with `response` unbound for that region. On success, the keys are exactly the requested regions and each value is a list of one dict. The carried `response` is the latest answered query. |
| ZoneMap.FirstFaultAborts | az_mapper.py:160-166 | The first uncaught exception aborts the loop with that region and message, provided every earlier region kept the loop going. |
| ZoneMap.CollectedEntry | az_mapper.py:156-176 | A region's entry is built from the latest answered query up to that region's last occurrence. A region listed twice keeps only its later entry. |
| ZoneMap.StaleEntryAfterFailure | az_mapper.py:162-176 | A region whose query raises, after an earlier region answered, gets the zones of the most recent earlier answer. |
| ZoneMap.StaleZonesExample | az_mapper.py:162-176 | Concrete case: us-east-1 answers and eu-west-1 raises. eu-west-1 is then reported with us-east-1's zone. |
| ZoneMap.MapAccount | az_mapper.py:148-178 | A role refusal propagates unchanged. Under granted credentials, the account completes exactly when no region's query raised an uncaught exception and the first region's query answered. A result carries the input `AccountId`, one key per requested region, and one dict per key. |
| ZoneMap.CollectIsolated | az_mapper.py:162-176 | Corrected loop: it completes exactly when no query raised an uncaught exception. The keys are then exactly the requested regions. Each entry depends only on that region's own query: one dict of its zones, or empty after a `ClientError`. |
| ZoneMap.MapAccountIsolated | az_mapper.py:148-178 | With the corrected loop, an account completes exactly when its role is granted and no region's query raised an uncaught exception. Each region's entry comes from that region's own query. |
| Pipeline.AggregateWith | az_mapper.py:202-210 | The account loop succeeds exactly when every account maps. It then returns one result per account, in order, and entry i is account i's own map. |
| Pipeline.Aggregate | az_mapper.py:205-209 | With `az_map_account` as written, the loop completes exactly when every selected account maps. Entry i then carries account i's id. |
| Pipeline.AggregateAbortsAtFirstFailure | az_mapper.py:205-209 | The loop aborts with the error of the first account that fails. |
| Pipeline.AggregateShape | az_mapper.py:202-210 | `Accounts` has one entry per selected account, in the same order. Entry i's `AccountId` is account i. Its `Zones` keys are the requested regions, each with one dict. |
| Pipeline.RoleRefusalAbortsAggregate | az_mapper.py:122-128 | A role refusal for any account whose predecessors mapped aborts the whole loop with that refusal. |
| Pipeline.AggregateIsolated | az_mapper.py:202-210 | With the corrected collector, the loop completes exactly when every role is granted and no zone query raised an uncaught exception. A caught `ClientError` never aborts it. Each entry keeps its account id and the requested regions. |
| Pipeline.Run | az_mapper.py:194-216 | A listing error aborts the run. After a successful listing, the run exits exactly when the account selection exits or the region selection is empty. Otherwise a document is written exactly when the account loop over the chosen accounts completes, and its accounts are that loop's result. A failed loop aborts the run with the loop's error. |
| Pipeline.RunWrittenDocument | az_mapper.py:202-213 | A written document maps exactly the chosen accounts, in order, over exactly the ticked regions. |
| Pipeline.RunAbortsOnAccountFailure | az_mapper.py:205-213 | After the listing and both prompts, the first chosen account that fails to map aborts the run with its error, and no document is written. |
| Pipeline.RoleRefusalWritesNothing | az_mapper.py:122-128 | A refused role for any chosen account means no document is written. |
| Pipeline.AllOfEmptyOrganization | az_mapper.py:25-27 | Ticking "all" in an empty organization does not exit. It writes a document with no accounts. |
| Pipeline.EndToEndExample | az_mapper.py:194-213 | Account 111111111111, region us-east-1, role OpsRole, one zone answered: the document is that account with `{"us-east-1": [{"us-east-1a": "use1-az1"}]}`. |
| Pipeline.EndToEndZoneFailure | az_mapper.py:162-176 | The same account with its only region's query raising: the run aborts with the unbound `response` and writes nothing. |

## Left out

- boto3 clients and sessions: the remote calls are abstract inputs, as described above. The remote is deterministic: the same request always gets the same answer.
- Listing: a provider that announces a further page forever is modelled by running out of replies (`RepliesExhausted`). The program would loop without end.
- questionary prompts: the ticked selections are inputs. A cancelled prompt, where `ask()` returns `None`, is library behaviour and is not modelled.
- `role_assertion_prompt`: the role name is an input.
- `print` output and the reported progress messages: logging only.
- `sys.exit`: modelled as the `Exit` decision and the `Exited` run outcome.
- `create_output_file`: filesystem I/O with a name taken from the wall clock. The model stops at the `Written` document.
- `aws_region_list`: a fixed list of names with no behaviour. Region selections are arbitrary strings.
- Python dict ordering of `Zones` and of each `zone_dict`: the model uses Dafny maps, so JSON key order is not modelled.
- Account records: only `Id` is kept. The other fields of a listed account are never read.

## Findings

| source | as written | input that shows it | evidently intended | confidence | as-written member | corrected member |
|---|---|---|---|---|---|---|
| az_mapper.py:162-176 | A zone query that raises a `ClientError` leaves `response` from the most recent region whose query answered. The failed region is then recorded with another region's zones. | Regions us-east-1 then eu-west-1. us-east-1 answers with us-east-1a/use1-az1 and eu-west-1 raises. eu-west-1 is then recorded as `[{"us-east-1a": "use1-az1"}]`. | The failed region is recorded with no zones, and the other regions are unaffected. An exception other than `ClientError` still aborts. | high for the behaviour, medium for the intent; not executed | ZoneMap.StaleZonesExample | ZoneMap.CollectIsolated |
| az_mapper.py:162-176 | When the first region's query raises a `ClientError`, `response` is unbound. The following loop raises `UnboundLocalError` and aborts the whole run. | Account 111111111111 and region eu-west-1, whose query raises a `ClientError`. | The region is recorded empty and the run completes. | high for the behaviour, medium for the intent; not executed | Pipeline.EndToEndZoneFailure | Pipeline.AggregateIsolated |

`Pipeline.Run` models `main` as written, so it uses `ZoneMap.MapAccount`.
`Pipeline.AggregateIsolated` is the same account loop run with the corrected
collector `ZoneMap.MapAccountIsolated`.
