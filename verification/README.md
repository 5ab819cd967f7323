# PySyft versioned objects, stashes and pointers, modelled in Dafny

This project models the core of PySyft's versioned object store. It covers
six source files.

- **Schema-migration registry** (`syft_migration.py`). Two process-wide
  tables:
  - canonical name → (version → fully qualified class name). Class
    statements fill it through the subclass hook.
  - canonical name → ("{from}x{to}" → transform). `@migrate` declarations
    fill it.

  `get_migration` walks the method resolution orders (MROs) of two classes
  to find a registered transform. `migrate_to` applies that transform.
- **Node settings** (`settings.py`):
  - the versioned field sets of `NodeSettings` (versions 3 and 4) and
    `NodeSettingsUpdate` (versions 2 and 3), with their defaults;
  - the validator that discards an updated `node_side_type`;
  - the four `@migrate` declarations, executed in source order as an
    import does.
- **Worker image identifiers** (`worker_image.py`):
  - `ContainerImageRegistry.from_url`;
  - `SyftWorkerImageIdentifier.from_str`, `repo_with_tag` and
    `full_name_with_tag`, over a model of Python's `str.rsplit` and
    `str.join`;
  - `parse_output`, which flattens a Docker build log.
- **Twin API endpoint stash** (`api_stash.py`): `get_by_path` and
  `update` (delete the first same-path endpoint by UID, then insert).
- **Dataset stash** (`dataset_stash.py`): `get_by_name` (a one-key
  `query_one`) and `update` (type check, then the base update).
- **Pointer** (`pointer.py`):
  - the flags `_exhausted`, `gc_enabled` and `_pointable`;
  - `get`, `_get`, `get_copy` and `request` (its timeout defaults and its
    polling wait loop);
  - the `pointable` and `searchable` setters and `update_searchability`;
  - `__del__`.

  The messages a pointer sends to its client are recorded in order. This
  lets the model state "before any remote call" and "no delete message".

Modules (one file each; `worker_image.dfy` also holds a small example
module):

| module | file |
|---|---|
| `Common` (Option, Result) | `common.dfy` |
| `VersionKey` | `version_key.dfy` |
| `Records` | `records.dfy` |
| `MigrationRegistry` | `migration_registry.dfy` |
| `NodeSettings` | `node_settings.dfy` |
| `WorkerImage`, `WorkerImageExample` | `worker_image.dfy` |
| `ApiStash` | `api_stash.dfy` |
| `DatasetStash` | `dataset_stash.dfy` |
| `Pointers` | `pointer.dfy` |

Code that changes state in place is modelled as classes:

- `MigrationRegistry.Registry`: the two class-level dictionaries.
- `ApiStash.EndpointStash`: the partition's records.
- `Pointers.Pointer`: the flags and the message log.

Each method is proved against a specification function, and the
properties are lemmas about those functions. The loops of `get_migration`,
`get_by_path` and `parse_output` are `for` loops with invariants.

Decisions that need a word:

- **`get_migration`'s inner loop.** The loop assigns `klass_to` only for
  Syft classes, but compares it for every MRO entry. A value from an
  earlier entry, or from an earlier outer iteration, is reused; before any
  assignment the comparison raises UnboundLocalError. The model carries
  `klass_to` as an `Option` and reports `UnboundTarget`.
- **Missing transform map.** A canonical name with no transform map raises
  KeyError. The model reports `MissingTransformMap`.
- **No cross-type check in `get_migration`.** `get_migration` compares
  canonical names only to pick matching pairs: classes with different
  canonical names are skipped, and no error is raised for them. Only
  `migrate` refuses a cross-type declaration.
- **Duplicate key.** `set` reports `DuplicateKey` when the UID is already
  stored (unless duplicates are ignored).
- **`query_one` with no match.** `get_by_name` returns
  `Result[Optional[Dataset], str]`, so no match is `Ok(None)`.
- **The redeclared downgrade.** `settings.py` declares the
  `NodeSettings` 4 → 3 downgrade twice. The second declaration sits under
  the name `downgrade_node_settings_update`. The model keeps both, as
  written:
  - `RedeclaredDowngradeIsRedundant` proves the second changes nothing;
  - `RegisteredKeys` shows that `NodeSettingsUpdate` gets no downgrade.
- **The validator and the field type.** `node_side_type` is annotated `str`
  in `NodeSettingsUpdate`, so a value of another type fails validation
  before `validate_node_side_type` runs; a string is replaced by the
  validator's `None`.
- **Downgrade leaves a version 4 field.** The downgrade drops only
  `association_request_auto_approval`, so the downgrade's output map still
  carries `default_worker_pool`, which version 3 does not declare
  (`DowngradeKeepsWorkerPool`). Which fields the constructed version 3
  object ends up with is decided by `klass_to(**output)`, and that
  construction is not modelled.
- **Blocking `get` and `proxy_only`.** In the blocking branch, `get` calls
  `_get` without `proxy_only`, so a blocking proxy-only get downloads the
  real data (`BlockingGetDownloads`). Deletion is still off, because
  `delete_obj` was already forced to False.

## Model

| member | source | states |
|---|---|---|
| VersionKey.IntToString | packages/syft/src/syft/types/syft_migration.py:58 | the decimal rendering of a version is non-empty, holds no 'x', and starts with '-' exactly for negative versions |
| VersionKey.ParseNatToString | packages/syft/src/syft/types/syft_migration.py:58 | reading a rendered natural number back gives the number |
| VersionKey.MappingKeyInjective | packages/syft/src/syft/types/syft_migration.py:58 | two version pairs get the same "{from}x{to}" key exactly when the pairs are equal |
| Records.ApplyOperation | packages/syft/src/syft/service/settings/settings.py:141-148 | set-default adds its field, with the given value, only when absent and otherwise changes nothing; drop removes exactly the listed fields; no other field changes |
| Records.ApplyConcat | packages/syft/src/syft/service/settings/settings.py:141-148 | running two operation lists in turn is running their concatenation |
| Records.ApplyLeavesOtherFields | packages/syft/src/syft/service/settings/settings.py:141-148 | a field that no operation names keeps its presence and value |
| MigrationRegistry.RegisterVersion | packages/syft/src/syft/types/syft_migration.py:23-42 | a class without canonical name or version changes nothing; otherwise its version maps to its qualified name, other names are untouched, and the name's earlier versions are kept without autoreload and discarded with it |
| MigrationRegistry.Registry.InitSubclass | packages/syft/src/syft/types/syft_migration.py:23-42 | the subclass hook leaves the version table as RegisterVersion describes |
| MigrationRegistry.RegisterTransformResult | packages/syft/src/syft/types/syft_migration.py:44-68 | an unregistered name and an unknown version are errors (and only they are); on success the pair's key maps to the transform, the name's other keys and all other names are untouched |
| MigrationRegistry.RegisterTransformKeepsOtherPairs | packages/syft/src/syft/types/syft_migration.py:58-63 | registering one version pair never adds, removes or replaces the transform of another pair |
| MigrationRegistry.Registry.RegisterTransform | packages/syft/src/syft/types/syft_migration.py:44-68 | the transform table after register_transform, or the error with the table unchanged |
| MigrationRegistry.CheckMigrateArgs | packages/syft/src/syft/types/syft_migration.py:117-127 | migrate refuses different canonical names first and missing versions second; otherwise it yields the two versions |
| MigrationRegistry.MigrateResult | packages/syft/src/syft/types/syft_migration.py:99-145 | a rejected declaration raises the argument error; an accepted one files Transform(ops) under the name and the version pair's key, adds no other name and leaves every other name's transforms as they were |
| MigrationRegistry.Registry.Migrate | packages/syft/src/syft/types/syft_migration.py:99-145 | the decorator leaves the transform table as MigrateResult describes, unchanged on error |
| MigrationRegistry.FindMigration | packages/syft/src/syft/types/syft_migration.py:70-96 | when the two most-derived classes share a name, a missing transform map for it is a KeyError and a filed key for their versions is returned |
| MigrationRegistry.FindMigrationSound | packages/syft/src/syft/types/syft_migration.py:74-92 | a returned transform is filed for some same-named pair of the two MROs under that pair's versions; a KeyError names a shared canonical name with no transform map |
| MigrationRegistry.FindMigrationNotFound | packages/syft/src/syft/types/syft_migration.py:74-96 | "no migration found" means every same-named pair has a transform map and no key for its versions |
| MigrationRegistry.FindMigrationUnbound | packages/syft/src/syft/types/syft_migration.py:79-84 | klass_to is read unbound exactly when the source MRO holds a Syft class and the target MRO starts with a class that is not one |
| MigrationRegistry.Step | packages/syft/src/syft/types/syft_migration.py:23-145 | a class statement runs the subclass hook and never raises; a decorator raises migrate's error or files its transform; a successful step removes no name from either table |
| MigrationRegistry.Execute | packages/syft/src/syft/service/settings/settings.py:29-158 | the module's declarations run in order and the first raise stops the import; only a decorator can make an import fail |
| MigrationRegistry.ExecuteKeepsNames | packages/syft/src/syft/types/syft_migration.py:23-68 | a successful import never removes a canonical name from the version table or the transform table |
| MigrationRegistry.Registry.GetMigration | packages/syft/src/syft/types/syft_migration.py:70-96 | the nested loop returns exactly FindMigration's answer |
| MigrationRegistry.Registry.MigrateTo | packages/syft/src/syft/types/syft_migration.py:154-158 | migrate_to applies the found transform's operations to the object's fields, or raises get_migration's error |
| MigrationRegistry.Registry.constructor | packages/syft/src/syft/types/syft_migration.py:19-21 | both registries start empty |
| NodeSettings.NodeSettingsV4Schema | packages/syft/src/syft/service/settings/settings.py:70-95 | version 4 declares every version 3 field, with the same requirement or default, plus exactly association_request_auto_approval and default_worker_pool |
| NodeSettings.Instantiate | packages/syft/src/syft/service/settings/settings.py:82-95 | an object is built exactly when all required fields are given; the error lists precisely the missing required fields; each declared field takes the given value or its default (value types are not checked) |
| NodeSettings.NodeSettingsDefaults | packages/syft/src/syft/service/settings/settings.py:82-95 | NodeSettings built from its required fields gets name "Node", organization "OpenMined", on_board true, description "Text", DOMAIN, HIGH_SIDE and the default worker pool |
| NodeSettings.ValidateUpdate | packages/syft/src/syft/service/settings/settings.py:56-67 | a supplied node_side_type that is not a string fails validation, naming the field; a string one is replaced by the validator's None; the update keeps its fields and every other value |
| NodeSettings.UpgradeSetsAutoApproval | packages/syft/src/syft/service/settings/settings.py:141-143 | upgrading a version 3 object adds association_request_auto_approval = False and nothing else |
| NodeSettings.DowngradeKeepsWorkerPool | packages/syft/src/syft/service/settings/settings.py:146-148 | downgrading drops only the auto-approval flag: default_worker_pool survives and the result is not a version 3 field set |
| NodeSettings.UpgradeThenDowngrade | packages/syft/src/syft/service/settings/settings.py:141-148 | upgrade then downgrade is the identity on objects without the auto-approval flag |
| NodeSettings.UpdateUpgradeKeepsFields | packages/syft/src/syft/service/settings/settings.py:151-153 | the NodeSettingsUpdate upgrade changes no field |
| NodeSettings.ClassVersionsWithoutAutoreload | packages/syft/src/syft/service/settings/settings.py:29-118 | without autoreload, the four class statements register versions 2 and 3 of NodeSettingsUpdate and 3 and 4 of NodeSettings, under their qualified names |
| NodeSettings.ClassVersionsWithAutoreload | packages/syft/src/syft/service/settings/settings.py:70-118 | with autoreload only the last declared NodeSettings version (3) remains |
| NodeSettings.SettingsImport | packages/syft/src/syft/service/settings/settings.py:141-158 | without autoreload, importing the module succeeds and files both NodeSettings transforms and the NodeSettingsUpdate upgrade, touching no other name |
| NodeSettings.RegisteredKeys | packages/syft/src/syft/service/settings/settings.py:141-158 | importing the module into a registry that holds neither name succeeds and files exactly the keys 3x4 and 4x3 under NodeSettings and only 2x3 under NodeSettingsUpdate |
| NodeSettings.SettingsImportWithAutoreload | packages/syft/src/syft/service/settings/settings.py:115-143 | with autoreload the import fails at the first @migrate, because version 4 of NodeSettings is no longer registered |
| NodeSettings.RedeclaredDowngradeIsRedundant | packages/syft/src/syft/service/settings/settings.py:156-158 | the second 4 -> 3 declaration leaves the registry exactly as the first left it |
| WorkerImage.FromUrl | packages/syft/src/syft/service/worker/worker_image.py:45-47 | the URL is kept and TLS is enabled exactly when it starts with "https" |
| WorkerImage.RSplit | packages/syft/src/syft/service/worker/worker_image.py:81-82 | rsplit gives at least one and at most maxsplit + 1 parts; when it made fewer cuts than allowed, the first part holds no separator |
| WorkerImage.Join | packages/syft/src/syft/service/worker/worker_image.py:85-88 | joining no parts gives the empty string; otherwise the result starts with the first part |
| WorkerImage.LastIndex | packages/syft/src/syft/service/worker/worker_image.py:81-82 | the index found holds the character and no later index does; none exactly when the character is absent |
| WorkerImage.RSplitShape | packages/syft/src/syft/service/worker/worker_image.py:81-82 | rsplit makes min(maxsplit, occurrences) cuts, and every part but the first is separator-free |
| WorkerImage.JoinRSplit | packages/syft/src/syft/service/worker/worker_image.py:85-88 | joining rsplit's parts with the separator gives the string back |
| WorkerImage.FromStr | packages/syft/src/syft/service/worker/worker_image.py:79-89 | parsing fails exactly when the string holds no ':' |
| WorkerImage.FromStrTag | packages/syft/src/syft/service/worker/worker_image.py:81 | the tag is the text after the last ':' and holds no ':' |
| WorkerImage.FromStrRegistry | packages/syft/src/syft/service/worker/worker_image.py:82-88 | a registry is split off exactly when the part before the tag holds at least two '/' |
| WorkerImage.FromStrRepo | packages/syft/src/syft/service/worker/worker_image.py:82-88 | the parsed repo holds at most one '/' |
| WorkerImage.FromStrOfParts | packages/syft/src/syft/service/worker/worker_image.py:79-89 | "registry/namespace/name:tag" with slash-free namespace and name and colon-free tag parses into exactly those parts |
| WorkerImage.RejoinRepoUrl | packages/syft/src/syft/service/worker/worker_image.py:82-88 | the registry URL (when one is split off) and the repo, joined by "/", give back the part in front of the tag |
| WorkerImage.RoundTripWithoutRegistry | packages/syft/src/syft/service/worker/worker_image.py:79-93 | without a registry, repo_with_tag of the parse is the original string |
| WorkerImage.RoundTripWithRegistry | packages/syft/src/syft/service/worker/worker_image.py:79-101 | with a registry, full_name_with_tag of the parse is the original string |
| WorkerImage.DefaultRegistry | packages/syft/src/syft/service/worker/worker_image.py:79-101 | a parsed string from which no registry was split off prints in full as "docker.io/" followed by the original string |
| WorkerImage.RepoWithTag | packages/syft/src/syft/service/worker/worker_image.py:91-93 | with a colon-free tag, the ':' repo_with_tag inserts is the string's last ':', where from_str cuts the tag off |
| WorkerImageExample.DocumentedExample | packages/syft/src/syft/service/worker/worker_image.py:58-67 | "docker.io/openmined/test-nginx:0.7.8" parses to registry docker.io (no TLS), repo "openmined/test-nginx" and tag "0.7.8" |
| WorkerImage.ParseOutput | packages/syft/src/syft/service/worker/worker_image.py:25-35 | the nested loop's log is the rendering of every value of every line, in order |
| WorkerImage.RenderLinesAppend | packages/syft/src/syft/service/worker/worker_image.py:25-35 | the log of two streams in sequence is the concatenation of their logs |
| WorkerImage.TextLineVerbatim | packages/syft/src/syft/service/worker/worker_image.py:28-30 | string values are appended verbatim, in order |
| ApiStash.EndpointStash.constructor | packages/syft/src/syft/service/api/api_stash.py:23-24 | a new stash's partition is empty and keeps unique UIDs |
| ApiStash.EndpointStash.GetByPath | packages/syft/src/syft/service/api/api_stash.py:26-38 | the loop returns the read error unchanged, or exactly the stored endpoints under the path in storage order; the stash is not modified |
| ApiStash.FilterMembers | packages/syft/src/syft/service/api/api_stash.py:33-35 | an endpoint is in the result exactly when it is stored and has the path |
| ApiStash.FilterAppend | packages/syft/src/syft/service/api/api_stash.py:33-35 | the result keeps storage order |
| ApiStash.FilterFirst | packages/syft/src/syft/service/api/api_stash.py:49-52 | the first result is the first stored endpoint with that path |
| ApiStash.EndpointStash.DeleteByUid | packages/syft/src/syft/service/api/api_stash.py:57 | without write permission or without the UID nothing changes (PermissionDenied, NotFound); otherwise the record with that UID is removed; UIDs stay unique |
| ApiStash.EndpointStash.Set | packages/syft/src/syft/service/api/api_stash.py:59-61 | without write permission nothing changes; a stored UID leaves the partition unchanged and returns the stored record (or DuplicateKey); otherwise the object is appended; UIDs stay unique |
| ApiStash.EndpointStash.Update | packages/syft/src/syft/service/api/api_stash.py:40-62 | update leaves the partition and answers as UpdatedRecords and UpdateReply describe, and keeps UIDs unique |
| ApiStash.UpdateRejectsForeign | packages/syft/src/syft/service/api/api_stash.py:46-48 | a payload of another type gets TypeMismatch and the partition is untouched |
| ApiStash.UpdateUnchangedWhenEqual | packages/syft/src/syft/service/api/api_stash.py:49-55 | when the first endpoint under the path equals the new one, nothing changes and the new one is returned |
| ApiStash.UpdateAfterFailedRead | packages/syft/src/syft/service/api/api_stash.py:49-62 | a failed path lookup is ignored: the insert still happens |
| ApiStash.UpdateFrame | packages/syft/src/syft/service/api/api_stash.py:56-62 | every stored endpoint except the displaced one survives, and nothing but the new endpoint is added |
| ApiStash.UpdateStores | packages/syft/src/syft/service/api/api_stash.py:57-62 | with write permission and a free UID the new endpoint is stored and returned |
| ApiStash.UpdateKeepsIdsUnique | packages/syft/src/syft/service/api/api_stash.py:57-62 | UIDs stay unique across an update |
| ApiStash.UpdateKeepsPathsUnique | packages/syft/src/syft/service/api/api_stash.py:49-62 | when the lookup succeeds, distinct paths stay distinct |
| ApiStash.FailedReadMayDuplicatePath | packages/syft/src/syft/service/api/api_stash.py:49-62 | after a failed lookup, update can store a second endpoint under the same path |
| ApiStash.UpdateIdempotent | packages/syft/src/syft/service/api/api_stash.py:40-62 | with distinct paths, updating twice with the same endpoint equals updating once |
| DatasetStash.NameQueryMatches | packages/syft/src/syft/core/node/new/dataset_stash.py:33-34 | a stored dataset answers the query get_by_name builds exactly when its name is the argument |
| DatasetStash.GetByName | packages/syft/src/syft/core/node/new/dataset_stash.py:32-34 | a read failure is passed on; with a readable store the only error is an ambiguous name |
| DatasetStash.Matching | packages/syft/src/syft/core/node/new/dataset_stash.py:34 | a dataset matches exactly when it is stored and every query key's field holds the key's value |
| DatasetStash.GetByNameFound | packages/syft/src/syft/core/node/new/dataset_stash.py:32-34 | a dataset found by name is stored and has that name |
| DatasetStash.GetByNameAbsent | packages/syft/src/syft/core/node/new/dataset_stash.py:32-34 | with a readable store, nothing is found exactly when no stored dataset has the name |
| DatasetStash.GetByNameAmbiguous | packages/syft/src/syft/core/node/new/dataset_stash.py:32-34 | two stored datasets with the name make the lookup fail as ambiguous |
| DatasetStash.Update | packages/syft/src/syft/core/node/new/dataset_stash.py:36-37 | a payload of another type gets the type error without reaching the base update; a DatasetUpdate reaches the base update unchanged and its answer is returned unchanged |
| Pointers.Pointer.constructor | packages/syft/src/syft/core/pointer/pointer.py:70-92 | a new pointer is not exhausted, has gc enabled, is not pointable and has sent nothing |
| Pointers.Pointer.Fetch | packages/syft/src/syft/core/pointer/pointer.py:126-200 | _get sends the fetch; when the object request raises it fails with that error and sends nothing more; otherwise it returns the reply data or the downloaded proxied data (or the download error), and sends the delete after a successful deleting fetch |
| Pointers.FetchDeletesOnlyWhatItGot | packages/syft/src/syft/core/pointer/pointer.py:172-194 | a delete message is sent exactly when deletion was asked for and the object was obtained, always after the fetch |
| Pointers.ProxyOnlyReturnsReplyData | packages/syft/src/syft/core/pointer/pointer.py:153-170 | a proxy-only fetch never downloads and returns the reply's data |
| Pointers.FetchFailsOnlyOnRequestOrDownload | packages/syft/src/syft/core/pointer/pointer.py:150-170 | _get fails exactly when the object request raises, or when it downloads proxied data and the download fails; a raising request fails with its reason and nothing is sent after the fetch |
| Pointers.Pointer.Get | packages/syft/src/syft/core/pointer/pointer.py:293-345 | an exhausted pointer raises ReferenceError and sends nothing; a blocking get sends the request and its polls, and returns None with the flags unchanged unless the wait ends Accepted; a fetch whose object request raises fails with that error and leaves the flags unchanged; the pointer becomes exhausted and non-collectable exactly when a deleting, non-proxy-only fetch returned an object |
| Pointers.ProxyOnlyNeverDeletes | packages/syft/src/syft/core/pointer/pointer.py:308-310 | proxy_only turns deletion off; otherwise delete_obj decides |
| Pointers.BlockingGetDownloads | packages/syft/src/syft/core/pointer/pointer.py:326-337 | the blocking branch fetches without proxy_only, so proxied data is downloaded |
| Pointers.Pointer.GetCopy | packages/syft/src/syft/core/pointer/pointer.py:202-221 | get_copy is get with delete_obj and proxy_only off: ReferenceError on an exhausted pointer, otherwise the fetch result and messages of a non-deleting fetch (after the request and polls when blocking, None unless Accepted); it never changes the flags and never sends a delete message |
| Pointers.Pointer.Request | packages/syft/src/syft/core/pointer/pointer.py:347-478 | the request carries the given timeout, or -1 when non-blocking without one; a non-blocking one returns None; a blocking one waits the given timeout or 30 seconds, sends one answer request per poll and returns the status its last poll received |
| Pointers.PollsMade | packages/syft/src/syft/core/pointer/pointer.py:435-477 | the wait loop polls until the first answer that is not Pending, or until the answers before the deadline run out |
| Pointers.WaitAccepted | packages/syft/src/syft/core/pointer/pointer.py:435-477 | a blocking request ends Accepted exactly when some poll is answered Accepted after only Pending answers |
| Pointers.WaitTimesOut | packages/syft/src/syft/core/pointer/pointer.py:435-477 | the wait ends still Pending exactly when it polled and every poll before the deadline was answered Pending |
| Pointers.RequestTimeoutDefaults | packages/syft/src/syft/core/pointer/pointer.py:396-418 | the defaults: -1 for a non-blocking request, none sent and 30 waited for a blocking one, a given timeout used as is |
| Pointers.Pointer.UpdateSearchability | packages/syft/src/syft/core/pointer/pointer.py:509-542 | a given searchable overrides pointable; the flag takes the value and one permission update carrying it and the target verify key is sent |
| Pointers.Pointer.SetPointable | packages/syft/src/syft/core/pointer/pointer.py:504-507 | the flag ends equal to the value; nothing is sent when it already was |
| Pointers.Pointer.SetSearchable | packages/syft/src/syft/core/pointer/pointer.py:490-499 | the deprecated setter behaves as the pointable setter |
| Pointers.Pointer.Finalize | packages/syft/src/syft/core/pointer/pointer.py:570-578 | the pointer goes to the garbage collector exactly when gc is enabled and the client is neither an Address nor a node |

## Left out

- Autoreload (`autoreload_enabled()`) is read from the environment in the source. Here it is a parameter.
- `types/transforms.py` is not part of this model. Its `make_set_default`, `drop`, `generate_transform_wrapper` and `validate_klass_and_version` are modelled as follows:
  - set-default writes only an absent field;
  - drop removes the listed fields that are present;
  - a transform is its operation list;
  - migrate's class arguments arrive as canonical names and optional versions.
- The final construction `klass_to(**output)` and the transform `context` are not modelled.
- The base stash and the document store (`document_store.py`) are not part of this model. Only the parts the core calls are modelled, on a record sequence in insertion order:
  - `get_all`, `delete_by_uid` and `set` for the endpoint stash;
  - `query_one` for the dataset stash.

  Credentials and permissions are reduced to a read failure and a write permission fixed per stash. Indexes other than the UID, partition locking and concurrency are not modelled.
- DatasetStash.Update: the base stash's `update` is an opaque function parameter, so only the type check and the pass-through are stated.
- NodeSettings.Instantiate: pydantic's validation of each field's value against its annotation is not modelled; field types are not checked, only presence and defaults.
- NodeSettings.ValidateUpdate: of pydantic's type validation only the `str` check of `node_side_type` is modelled; the other fields' types are not checked.
- pointer.py, message sending: a message is recorded in the pointer's log instead of being sent. The client's replies are parameters:
  - the object reply;
  - the result of the presigned-URL download;
  - the answers the blocking wait loop's polls receive before the deadline.
- pointer.py, not modelled:
  - the HTTP download, deserialization, enum conversion and the AuthorizationError warning on delete;
  - `reason` and `verbose`, which only affect message text and logging.
- Pointers.Pointer.Request does not model the wait loop's clock, polling interval or sleeps: the answers its polls receive before the deadline are a parameter. An exception raised while polling, which ends the wait with the last status, is not modelled.
- pointer.py's `block`, `block_with_timeout`, `exists`, `print`, `publish`, `check_access` and `__repr__` are remote calls, sleeps or display. They are not modelled.
- `__hash__`, `__str__` and `__repr_attrs__` are not modelled. They use Python's `hash` or only format text.
- WorkerImage.ParseOutput: `json.dumps` (dict values) and `str` (other values) are opaque function parameters. Dictionary iteration order is the order of each line's value sequence.
- WorkerImage.RSplit models `str.rsplit` for a single-character separator only, which is what every call in the source uses.
- `build_using_docker` (it drives the Docker daemon) and `SyftWorkerImage`'s fields are not modelled.
- `NodeSettings._repr_html_`, the display of the validator's SyftInfo message and `DEFAULT_WORKER_POOL_NAME` (from `worker/utils.py`, not part of this model) are not modelled. The pool name is a parameter of `NodeSettingsV4Schema`.
