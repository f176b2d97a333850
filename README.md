# TestAuxVM batch applier and directory-entry schema

This project models two pieces of the casualos repository in Dafny and proves properties of them.

**The batch applier of the `TestAuxVM` test double.** The class keeps an action log, a formula log, a
`processEvents` switch and a bot table (`BotsState`). `sendEvents` always appends the batch to the log.
When processing is on, it walks the batch in order and applies each action to the table:

- `add_bot` stores the bot under its id;
- `remove_bot` deletes the id;
- `update_bot` stores `merge(old entry, update)`;
- any other action type changes nothing.

At the same time it builds one update record: a per-id `state` patch plus the ids in `addedBots`,
`removedBots` and `updatedBots`. It emits the record only when one of those lists is non-empty.
`formulaBatch` appends to the formula log. `getTags` returns the sorted union of the tag names of the
active bots.

The class is `AuxVm.TestAuxVM`. Its `SendEvents` loop is proved against the functions `Batch.ApplyAll`
(the table after a batch) and `Batch.BuildUpdate` (the record of a batch). The lemmas in `Batch` state
what those functions promise: list order, last write wins, the frame for untouched ids, and the
emission condition.

**The directory-entry schema.** `DirectoryUpdateSchema` is a zod object of five string fields, each
`.min(1)`. `Directory.Parse` models `safeParse` on a JSON value. It accepts exactly when the input is an
object whose five fields are all strings of length at least 1. On failure it reports one issue per bad
field, in declaration order. Keys outside the five are dropped.

The foreign functions `merge`, `getActiveObjects` and `tagsOnBot` are function-typed parameters with no
interpretation. Emission on `stateUpdated` is modelled as appending the raw record to the ghost field
`updates`.

## Model

| member | source | states |
|---|---|---|
| AuxVm.TestAuxVM.constructor | src/aux-vm/vm/test/TestAuxVM.ts:55-60 | logs empty, processing off, empty bot table, nothing emitted |
| AuxVm.TestAuxVM.SendEvents | src/aux-vm/vm/test/TestAuxVM.ts:108-147 | the batch is appended to `events` whether or not processing is on; with processing off the table is unchanged and nothing is emitted; with it on the table becomes `ApplyAll(old table, batch)` and exactly one record, `BuildUpdate(batch)`, is emitted iff the batch holds a bot action; formulas and the switch are untouched |
| AuxVm.TestAuxVM.FormulaBatch | src/aux-vm/vm/test/TestAuxVM.ts:149-151 | the formulas are appended in order; events, table and emitted records are untouched |
| AuxVm.TestAuxVM.SendState | src/aux-vm/vm/test/TestAuxVM.ts:177-179 | the given record is emitted as it is and nothing else changes |
| AuxVm.TestAuxVM.GetTags | src/aux-vm/vm/test/TestAuxVM.ts:171-175 | the result is strictly increasing (sorted, no duplicates) and a name is in it iff some active bot carries it |
| Batch.ListsFollowBatchOrder | src/aux-vm/vm/test/TestAuxVM.ts:120-136 | each of `addedBots`, `removedBots`, `updatedBots` holds one id per action of its kind, in batch order, and nothing else |
| Batch.EmitsIffBotAction | src/aux-vm/vm/test/TestAuxVM.ts:139-145 | some id list of the record is non-empty iff the batch holds an `add_bot`, `remove_bot` or `update_bot` |
| Batch.PatchKeysAreTouchedIds | src/aux-vm/vm/test/TestAuxVM.ts:123-134 | an id has an entry in the record's `state` patch iff some bot action of the batch is about it |
| Batch.PatchIsLastWrite | src/aux-vm/vm/test/TestAuxVM.ts:120-137 | the patch entry of an id is the one written by the last action about it: the whole bot, `null`, or the partial update |
| Batch.UntouchedIdKeepsEntry | src/aux-vm/vm/test/TestAuxVM.ts:120-137 | an id no bot action is about keeps its table entry, or stays absent |
| Batch.FinalEntryIsLastWrite | src/aux-vm/vm/test/TestAuxVM.ts:121-135 | after the batch an id holds the bot of its last `add_bot`, is absent after a last `remove_bot` (present before or not), or holds `merge(entry just before, update)` after a last `update_bot` |
| Batch.OtherActionsChangeNothing | src/aux-vm/vm/test/TestAuxVM.ts:120-137 | dropping every non-bot action from a batch changes neither the resulting table nor the record |
| Batch.RemoveThenAdd | src/aux-vm/vm/test/TestAuxVM.ts:121-128 | `remove_bot(id)` then `add_bot(bot)` leaves the bot present and lists the id as removed and added, not updated |
| Batch.LaterUpdateWins | src/aux-vm/vm/test/TestAuxVM.ts:129-135 | two updates of one bot are merged in order; the patch keeps the second update and `updatedBots` lists the id twice |
| Tags.Flatten | src/aux-vm/vm/test/TestAuxVM.ts:173 | a name is in the concatenation iff it is in one of the lists |
| Tags.Dedupe | src/aux-vm/vm/test/TestAuxVM.ts:173 | the result has no duplicates and holds exactly the elements of the input |
| Tags.Union | src/aux-vm/vm/test/TestAuxVM.ts:173 | lodash `union`: duplicate-free, holding exactly the names found in some list |
| Tags.Insert | src/aux-vm/vm/test/TestAuxVM.ts:173 | inserting into a sorted list keeps it sorted and adds exactly the one element |
| Tags.Sort | src/aux-vm/vm/test/TestAuxVM.ts:173 | the result is sorted and a permutation of the input |
| Tags.LessEqTotal | src/aux-vm/vm/test/TestAuxVM.ts:173 | the sort order is total |
| Tags.LessEqTransitive | src/aux-vm/vm/test/TestAuxVM.ts:173 | the sort order is transitive |
| Tags.SortedUnion | src/aux-vm/vm/test/TestAuxVM.ts:172-174 | union then sort gives a strictly increasing list of exactly the names in some list |
| Directory.FieldIssues | src/aux-server/aux-backend/server/directory/DirectoryUpdate.ts:35-39 | a field has no issue iff it is a present string of length at least 1, else exactly one issue naming it: a type issue expecting a string and naming the received type (`undefined` when missing, the value's JSON type when present but not a string), or a too-small issue with minimum 1 for the empty string |
| Directory.IssuesNameBadFields | src/aux-server/aux-backend/server/directory/DirectoryUpdate.ts:34-40 | checking a list of fields finds no issue iff every listed field is fine, and a field is named by an issue iff it is listed and not fine |
| Directory.Parse | src/aux-server/aux-backend/server/directory/DirectoryUpdate.ts:34-40 | success iff the input is an object whose five fields are present strings of length at least 1; the parsed entry carries those five strings and is valid; a non-object gets one root type issue; a refused object gets the issues of its five fields, in declaration order |
| Directory.ParseNamesBadFields | src/aux-server/aux-backend/server/directory/DirectoryUpdate.ts:35-39 | when an object is refused, each of the five fields is named by an issue iff it is missing, not a string, or empty |
| Directory.RoundTrip | src/aux-server/aux-backend/server/directory/DirectoryUpdate.ts:3-40 | an entry encoded as an object parses back to itself iff all five of its fields are non-empty |
| Directory.EmptyFieldRejected | src/aux-server/aux-backend/server/directory/DirectoryUpdate.ts:35-39 | an empty `publicName`, `key`, `password`, `privateIpAddress` or `publicIpAddress` is refused with a too-small issue on that field |
| Directory.MissingFieldRejected | src/aux-server/aux-backend/server/directory/DirectoryUpdate.ts:35-39 | a missing field is refused with a type issue on that field |
| Directory.AnyNonEmptyAddressAccepted | src/aux-server/aux-backend/server/directory/DirectoryUpdate.ts:38-39 | any non-empty strings are accepted as the two addresses; there is no address-format check |
| Directory.UnknownKeysIgnored | src/aux-server/aux-backend/server/directory/DirectoryUpdate.ts:34-40 | keys outside the five change neither acceptance nor the parsed entry |

### Behaviour of `sendEvents` worth knowing

These facts follow from src/aux-vm/vm/test/TestAuxVM.ts:121-135 and are proved by the lemmas named.

- A `remove_bot` for an id that is not in the table still writes `null` into the patch and lists the id in
  `removedBots` (`FinalEntryIsLastWrite`, `PatchIsLastWrite`, `ListsFollowBatchOrder`).
- An `update_bot` for an absent id stores `merge(undefined, update)` in the table (`FinalEntryIsLastWrite`).
- An `add_bot` for an id that already exists is listed under `addedBots`, never under `updatedBots`
  (`ListsFollowBatchOrder`).
- One id can appear in several lists of one record, and twice in one list (`RemoveThenAdd`, `LaterUpdateWins`).

## Left out

- `shout` (src/aux-vm/vm/test/TestAuxVM.ts:87-99) forwards to `AuxRuntime`, whose code is not part of this model.
- `_runtime.stateUpdated(update)` wraps the record built by `sendEvents` before it is emitted. `AuxRuntime` is not part of this model, so the ghost field `updates` holds the raw record, whose `version` is `null` (`None`) as built at src/aux-vm/vm/test/TestAuxVM.ts:117.
- AuxVm.TestAuxVM.SendState: a caller-built record's `version` is represented only as a per-site counter map (`StateVersion`); any further structure of `RuntimeStateVersion` is not modelled. The record, version included, is otherwise emitted unchanged.
- The rxjs subjects (`stateUpdated`, `localEvents`, `onError`, ...), promises and async scheduling are stream plumbing and are not modelled.
- `setUser`, `setGrant`, `init`, `forkAux`, `unsubscribe` are trivial setters or no-ops. `export` and `exportBots` return constant stubs. `createEndpoint` allocates a `MessagePort`, which is I/O. None of them is modelled.
- The constructor's runtime configuration and `userId` only configure `AuxRuntime` and are not modelled.
- `merge`, `getActiveObjects` and `tagsOnBot` are foreign; they are uninterpreted parameters. Nothing is assumed about them beyond their types. In particular, `merge` is taken to return a whole `Bot` (with an id, a space and tags), whereas `merge(undefined, update)` in the source yields whatever the partial update holds, possibly an object without `id` or `tags`.
- The bot table is a plain JavaScript object (src/aux-vm/vm/test/TestAuxVM.ts:60). Reading `this.state[id]` also sees inherited properties, so `update_bot` for an absent id such as `"toString"` passes `Object.prototype.toString` to `merge`, where the model passes `None`. An `add_bot` whose id is `"__proto__"` replaces the table's prototype and adds no entry, where the model stores an ordinary entry. The model treats every id as an ordinary key.
- The table, the record's `state` patch and the `events` log share the same bot, update and action objects in the source. The model holds values, so this aliasing is not captured; a later change to a shared object would be seen through all three in the source but not in the model.
- `this.events.push(...events)` and `this.formulas.push(...formulas)` (src/aux-vm/vm/test/TestAuxVM.ts:109, 150) throw `RangeError` when a batch exceeds the engine's limit on call arguments, and then nothing is logged. Sequences in the model are unbounded, so that failure is not modelled.
- Actions other than `add_bot`, `remove_bot` and `update_bot` are kept in `events` by their type name only (`OtherAction(actionType)`); their payloads are not modelled, since the applier never reads them.
- AuxVm.TestAuxVM.GetTags: the order compares Dafny characters (Unicode code points). JavaScript's default sort compares UTF-16 code units, so the two orders can differ for characters outside the Basic Multilingual Plane.
- Tags.Dedupe: the contract does not state that first occurrences are kept in their original order. After sorting, that order is not observable.
- Tags.Union: like lodash `union` it keeps first occurrences in their original order, but the contract states only that the result is duplicate-free and holds exactly the names of the lists; that order is not observable after sorting.
- Tag values are the source's `any`. Here they are a closed variant with integer numbers; floating point is not modelled.
- Directory.Parse: JSON numbers are integers. zod's issue messages, and fields besides the path and the code, are not modelled.
- The password-matching rule in the doc comment of `DirectoryUpdate.password` is not enforced by the schema, so it is not modelled.
