# SalaryBench storage protocol in Dafny

A model of the storage protocol inside the SalaryBench dashboard component
(`frontend/web/src/App.tsx`). Clients submit salary records, tagged with an
industry, a position and a region, to a shared on-chain key-value contract.
Later they list the records whose ids the index slot names.

- **Slots.** Each record lives in the slot `"salary_" + id`. The slot
  `"salary_keys"` holds the JSON list of ids that submissions appended. An
  append can be overwritten by a concurrent one (`LostUpdate`), so the list need
  not name every record slot written.
- **Reconciliation.** `loadSalaryData` reads the id list, then reads every record
  slot it names. It skips the entries that throw, are empty or do not parse. It
  sorts the rest newest first and makes them the component's `salaryData`. When
  it returns early or throws, `salaryData` keeps its value.
- **Submission.** `submitSalary` writes the new record slot. It then appends the
  id to the list with a read-modify-write that is not synchronised with other
  clients, and reloads.
- **Derived views.** The dashboard derives three values from `salaryData`: the
  search filter, three industry counts, and the submit form's required-fields check.

Layout (one module per file):

- `wrappers.dfy`: `Option`.
- `records.dfy` (`Records`):
  - the listed record (`SalaryData`) and the stored document (`RecordDoc`);
  - the slot names and the `"FHE-"` ciphertext handle;
  - the abstract `Codec` (JSON + UTF-8 + `btoa`) and its soundness assumption
    `Sound`. A parsed index is a list of ids, a string, or a value that cannot
    be iterated (`IndexValue`);
  - `CountIf` (a `filter(p).length`).
- `ledger.dfy` (`Ledger`) is the model of the external contract the component
  calls (`isAvailable`, `getData`, `setData`). Its source is not part of this
  model. It is a class `Contract` with a `data` map and an `available` flag, plus
  two key sets: `unreadable` holds the keys whose `getData` throws, and
  `unwritable` holds the keys whose `setData` transaction is rejected.
- `reconcile.dfy` (`Reconcile`): the specification of a load (`Load`), the
  ids the loop visits (`IndexIds`), the per-id `Entry`, the collection in index
  order (`Collect`), the stable newest-first sort (`SortNewestFirst`), and their
  lemmas.
- `submission.dfy` (`Submission`): the specification of a submission
  (`Submit`), the index append and its two halves (`AppendId`, `IndexOf`,
  `WriteIndex`), the lost-update lemma and the reload-after-submit lemmas.
- `views.dfy` (`Views`): the search filter, the industry counts and the form check.
- `app.dfy` (`Component`): the component as a class `App`. `salaryData`, the
  refresh, loading and submitting flags, the provider flag and the form are its
  fields. `ReadSalaryList` is the load loop, proved against `Load`.
  `LoadSalaryData` and `SubmitSalary` are proved against `Load` and `Submit`.

What the parsed index is decides what happens:

- Empty bytes or text that does not parse: the load lists nothing
  (`LoadMissingIndex`), and a submission starts a new list
  (`UnparsableIndexStartsNewList`).
- A list of ids: the load visits them in order, and a submission appends to it.
- A string: the load visits its characters, each as an id (`LoadTextIndex`).
  `push` does not exist on a string, so a submission fails after writing its
  record slot (`NonListIndexFailsAfterRecord`).
- Any other value (`null`, a number, an object): the `for...of` throws, so the
  load leaves `salaryData` as it was (`LoadNonIterableIndex`), and a submission
  fails after writing its record slot.

The index slot `"salary_keys"` is itself the record slot of the id `"keys"`
(`RecordKeyIsIndexKeyIff`). Ids made by `submitSalary` contain a `-`, so they
never reach it. Most lemmas about a submission therefore assume `id != "keys"`.
`SubmitKeepsIndexedSlots` and `SubmitKeepsOtherRecords` also assume that no
id already in the index is `"keys"`, because that id's record slot is the
index slot a submission rewrites.

## Model

| member | source | states |
|---|---|---|
| `Records.RecordKeyInjective` | frontend/web/src/App.tsx:104 | two ids share a record slot only if they are equal |
| `Records.RecordKeyIsIndexKeyIff` | frontend/web/src/App.tsx:89-104 | the record slot of `id` is the index slot iff `id` is `"keys"`; an id containing `-` never hits it |
| `Records.Handle` | frontend/web/src/App.tsx:151 | the stored handle is 4 characters longer than the base64 text, starts with `"FHE-"`, and the base64 text can be read back after the prefix |
| `Records.HandleDiffersFromSalary` | frontend/web/src/App.tsx:151 | the stored handle never equals a salary that is empty or does not start with `F` (every salary typed as digits) |
| `Records.NewDoc` | frontend/web/src/App.tsx:160-166 | the new document carries the handle, the form's industry, position and region, no percentile, and the time in whole seconds rounded down from the milliseconds |
| `Records.CountIf` | frontend/web/src/App.tsx:44-46 | a `filter(p).length` is at most the list length |
| `Records.CountIfZeroIff` | frontend/web/src/App.tsx:44-46 | a count is zero exactly when no record satisfies the predicate |
| `Records.CountIfPermutation` | frontend/web/src/App.tsx:44-46 | a filtered count depends only on the multiset of records, not their order |
| `Ledger.Contract.SetData` | frontend/web/src/App.tsx:169-172 | `setData` replaces exactly one slot, or is rejected and changes nothing |
| `Ledger.Contract.constructor` | frontend/web/src/App.tsx:79 | a contract starts in the given state |
| `Reconcile.Chars` | frontend/web/src/App.tsx:102 | `for...of` over a string yields as many ids as it has characters, the i-th being its i-th character |
| `Reconcile.IndexIds` | frontend/web/src/App.tsx:89-102 | empty index bytes give no ids; bytes stringified from a list of ids give back exactly that list |
| `Reconcile.Entry` | frontend/web/src/App.tsx:103-123 | a record kept for an id carries that id |
| `Reconcile.Collect` | frontend/web/src/App.tsx:100-124 | the loop pushes at most one record per visited id, each carrying a visited id |
| `Reconcile.CollectAppend` | frontend/web/src/App.tsx:102-124 | the loop's list over `a + b` is the list over `a` followed by the list over `b` |
| `Reconcile.CollectMembership` | frontend/web/src/App.tsx:100-124 | a record is collected iff some index id reads, is non-empty and decodes to it |
| `Reconcile.CollectUnaffected` | frontend/web/src/App.tsx:102-124 | the loaded list depends only on the record slots the index names |
| `Reconcile.CollectSkipsFailedEntry` | frontend/web/src/App.tsx:102-124 | a failing id is skipped and the ids after it are still processed |
| `Reconcile.CorruptOneRecord` | frontend/web/src/App.tsx:105-119 | overwriting one record slot with undecodable bytes removes exactly that id's record and keeps every other record in order |
| `Reconcile.SortNewestFirst` | frontend/web/src/App.tsx:126 | the sorted list has non-increasing timestamps and holds exactly the input's records |
| `Reconcile.InsertPermutation` | frontend/web/src/App.tsx:126 | one insertion step adds exactly the inserted record |
| `Reconcile.InsertKeepsOrder` | frontend/web/src/App.tsx:126 | inserting into a newest-first list keeps it newest first |
| `Reconcile.InsertStable` | frontend/web/src/App.tsx:126 | an insertion step puts the inserted record first among the records with its timestamp |
| `Reconcile.SortIsStable` | frontend/web/src/App.tsx:126 | for every timestamp, the records with that timestamp keep their index order |
| `Reconcile.OrderAndGroupsDetermine` | frontend/web/src/App.tsx:126 | two newest-first lists with the same per-timestamp subsequences are equal |
| `Reconcile.SortIsUnique` | frontend/web/src/App.tsx:126 | any newest-first list with the input's per-timestamp order equals the sorted list (what a stable sort must yield) |
| `Reconcile.SortKeepsInclusion` | frontend/web/src/App.tsx:126 | if every record of one list is in another, every record of the first sorted list is in the second sorted list |
| `Reconcile.Load` | frontend/web/src/App.tsx:76-134 | nothing is assigned exactly when there is no contract, it is unavailable, or reading or iterating the index throws; otherwise the assigned list is newest first and holds exactly the collected records |
| `Reconcile.LoadIsSortedCollect` | frontend/web/src/App.tsx:89-127 | a successful load is the collected list, newest first, stable, a permutation, at most index-length long, with ids from the index |
| `Reconcile.LoadMissingIndex` | frontend/web/src/App.tsx:89-98 | an empty or unparsable index loads as the empty list, not an error |
| `Reconcile.LoadNonIterableIndex` | frontend/web/src/App.tsx:95-130 | an index that parses to a value `for...of` cannot iterate makes the load assign nothing |
| `Reconcile.LoadTextIndex` | frontend/web/src/App.tsx:95-104 | an index that parses to a string is visited character by character, each character an id |
| `Submission.AppendBase` | frontend/web/src/App.tsx:174-185 | empty index bytes, and non-empty bytes that do not parse, give an empty list to push onto; there is no list (`push` throws) exactly when the bytes parse to something other than a list; bytes stringified from a list give that list; whenever a list exists it is the one the load visits |
| `Submission.AppendId` | frontend/web/src/App.tsx:174-190 | the append fails exactly when `push` throws; otherwise only the index slot changes and it reads back as the old ids followed by the new id |
| `Submission.Submit` | frontend/web/src/App.tsx:136-190 | a submission with a wallet never ends as not connected, and changes no slot other than the new record's and the index's |
| `Submission.SubmitWritesTwoSlots` | frontend/web/src/App.tsx:160-190 | the submission succeeds iff no step throws. On success the record slot decodes to the new document (no percentile, `"FHE-"` handle) and the index to the old ids plus `id` |
| `Submission.NonListIndexFailsAfterRecord` | frontend/web/src/App.tsx:169-185 | an index that parses to a string or another non-list value fails the submission with the record slot written and the index untouched |
| `Submission.UnparsableIndexStartsNewList` | frontend/web/src/App.tsx:174-190 | when the old index does not parse, a successful submission leaves the index holding the new id alone |
| `Submission.RecordWrittenBeforeIndex` | frontend/web/src/App.tsx:169-190 | a failed submission leaves the index slot unchanged; whenever the index slot changed, the record slot already holds the new record |
| `Submission.LostUpdate` | frontend/web/src/App.tsx:174-190 | two appends that read the same base index leave base plus the second id only; the first id is lost |
| `Submission.SequentialAppendsKeepBoth` | frontend/web/src/App.tsx:174-190 | the same two appends run one after the other keep both ids in order |
| `Submission.ListedSubmission` | frontend/web/src/App.tsx:151-166 | the record a reload lists for a submission has its id, the form's classification, a `"FHE-"` handle and no percentile |
| `Submission.SortKeepsFreshRecordOnce` | frontend/web/src/App.tsx:126 | sorting a list with one record of a fresh id lists that record exactly once |
| `Submission.ReloadCollects` | frontend/web/src/App.tsx:174-198 | after a successful submission the index reads as the old ids plus `id`, which collect to the old records plus the new one |
| `Submission.ReloadAfterSubmit` | frontend/web/src/App.tsx:151-198 | the reload after submitting a fresh id lists exactly one record with that id, equal to the submitted fields with the `"FHE-"` handle and no percentile |
| `Submission.SubmitKeepsIndexedSlots` | frontend/web/src/App.tsx:169-190 | a submission of a fresh id leaves every record slot the index already named reading as before |
| `Submission.SubmitKeepsOtherRecords` | frontend/web/src/App.tsx:169-198 | a submission of a fresh id loses none of the records listed before it |
| `Views.Lower` | frontend/web/src/App.tsx:299-301 | lower-casing keeps the length and maps each character |
| `Views.LowerIdempotent` | frontend/web/src/App.tsx:299-301 | lower-casing twice is lower-casing once |
| `Views.Includes` | frontend/web/src/App.tsx:299-301 | the empty term is included in every text, and a text includes only terms no longer than itself |
| `Views.IncludesIff` | frontend/web/src/App.tsx:299-301 | `includes` holds iff the term occurs at some position |
| `Views.FilterSalaries` | frontend/web/src/App.tsx:298-302 | the shown list is no longer than `salaryData`, and every record in it is loaded and matches the term |
| `Views.FilterKeepsExactlyMatches` | frontend/web/src/App.tsx:298-302 | a record is shown iff it is loaded and the lower-cased term occurs in its lower-cased industry, position or region |
| `Views.FilterIsSubsequence` | frontend/web/src/App.tsx:298-302 | the shown records are a subsequence of `salaryData` |
| `Views.FilterEmptyTermKeepsAll` | frontend/web/src/App.tsx:298-302 | an empty search shows every record |
| `Views.FilterIgnoresTermCase` | frontend/web/src/App.tsx:298-302 | the result does not depend on the case of the term |
| `Views.IndustryCount` | frontend/web/src/App.tsx:44-46 | an industry count is at most the number of records, and zero exactly when no loaded record is in that industry |
| `Views.DashboardCountsBounded` | frontend/web/src/App.tsx:44-46 | the Technology, Finance and Healthcare counts together are at most the number of records |
| `Views.IndustryCountIgnoresOrder` | frontend/web/src/App.tsx:44-46 | an industry count depends only on which records are loaded |
| `Views.FormComplete` | frontend/web/src/App.tsx:648 | the form is accepted exactly when none of industry, position, region and salary is empty |
| `Component.App.constructor` | frontend/web/src/App.tsx:20-41 | the component starts with an empty list, loading, not connected, with an empty form |
| `Component.App.ReadSalaryList` | frontend/web/src/App.tsx:78-127 | the availability check, index read, per-id loop and sort compute exactly `Load` |
| `Component.App.LoadSalaryData` | frontend/web/src/App.tsx:76-134 | `salaryData` becomes the loaded list, or stays as it was when the load returns early or throws; the refresh and loading flags end false |
| `Component.App.SubmitSalary` | frontend/web/src/App.tsx:136-227 | without a wallet nothing changes. With one, the store's slots and the outcome are exactly `Submit`'s, with no write if no signer is obtained. Only a successful submission reloads `salaryData`, and `submitting` ends false |
| `Component.App.HandleSubmit` | frontend/web/src/App.tsx:647-654 | submits iff industry, position, region and salary are all non-empty, and otherwise changes nothing. A submission ends as `submitSalary` does: not connected with no change, failed, or with `Submit`'s slots, and reloads `salaryData` only on success |

## Left out

- JSON text (RFC 8259), UTF-8 and `btoa` (base64, section 4 of RFC 4648) are not
  implemented. They are the function-valued fields of `Codec`. The lemmas that
  need round trips assume `Sound`: parsing what was stringified gives it back, and
  a stringified value is never empty.
- JavaScript's dynamic typing of record documents is not modelled. The model
  skips every record slot whose text parses to JSON other than a record
  document with string fields and a numeric timestamp. In the component only
  JSON `null` is skipped: reading `.salary` of `null` throws into the
  per-record catch. Any other JSON value (a number, a string, a boolean, an
  array, or an object with missing or other-typed fields) is pushed onto the
  list. A missing field is listed as `undefined`, and a field of another type
  is listed with that value. The search filter then calls `toLowerCase()` on
  such a record's fields during rendering, and the `||` stops at the first
  test that holds:
  - a missing or non-string `industry` throws on every render;
  - a missing or non-string `position` throws when the lower-cased search term
    is not in the lower-cased industry (never for the initial empty term);
  - a missing or non-string `region` throws when the term is in neither the
    industry nor the position.
  A throw there stops the dashboard from rendering, for every client that
  loads the record. Neither the listing of such records nor these failures is
  modelled.
- `Reconcile.CorruptOneRecord`: its "bytes that do not decode" covers only the
  record slots the component itself skips: bytes that are not UTF-8, text that
  is not JSON, or JSON `null`. A slot overwritten with any other well-formed
  JSON value would be listed, not removed.
- `Reconcile.CollectSkipsFailedEntry`: the same limit. Only non-UTF-8 bytes,
  non-JSON text and JSON `null` are failed entries in the component; any other
  wrongly shaped document is listed.
- An index list whose elements are not strings is abstracted by `Codec` into
  the ids their template strings give.
- A throwing `isAvailable()` is not distinguished from one that returns false.
  Both leave `salaryData` unchanged.
- `Views.Lower`: maps only ASCII `A`–`Z`; full Unicode `toLowerCase` is not modelled.
- Timestamps are unbounded integers. JavaScript's double precision and a
  comparator yielding `NaN` are not modelled. `Math.floor(Date.now() / 1000)` is
  integer division by 1000, which floors as `Math.floor` does.
- The id (`Date.now()` and `Math.random().toString(36)`) and the clock are
  parameters of `SubmitSalary`. Their uniqueness is a hypothesis of the lemmas
  (`id !in IndexOf(...).value`).
- `Array.prototype.sort` is modelled by its result: the stable newest-first order
  on a sequence. The list it sorts is local to the load, so there is no aliasing to capture.
- Wallet connection and account events (`onWalletSelect`, `onConnect`,
  `onDisconnect`) are not modelled. They are a foreign library and I/O. The
  connection is the boolean field `provider`.
- `calculatePercentile` is not modelled. It waits three seconds, calls
  `isAvailable()` and computes nothing.
- Transaction-status banners and their messages are not modelled. This includes
  telling "user rejected" apart from other failures. All failures after the
  connection check are the single outcome `Failed`.
- Timers are not modelled, including the form reset two seconds after success.
  Neither are modals, the tutorial, the rendering, the disabled submit button or
  the chart percentages (floating-point division for display).
- Concurrency between clients is not modelled beyond the sequential interleaving
  of two index appends in `LostUpdate`.
- `Component.App.SubmitSalary`: the signing and the read-only contract are one
  store, and a `setData` is visible to every later `getData` as soon as it
  returns. The code does not wait for the transaction to be mined, so on a real
  chain the reload may read the state from before the submission.
- `Submission.ReloadCollects`: assumes the same immediate visibility of the two writes.
- `Submission.ReloadAfterSubmit`: assumes the same immediate visibility of the two writes.
- `Submission.SubmitKeepsOtherRecords`: assumes the same immediate visibility of the two writes.
