# Property-purchase tracker: the project store and the stage helpers

This Dafny project models the core of a small property-purchase tracker. A user
keeps one or more purchase *projects*. Each project moves through eight fixed
*stages*: search, offer, negotiation, financing, presale, notary, signing and
handover. Each project owns ordered lists of documents, contacts and tasks, plus
one financing record.

The model has two parts.

- **The store** (`store.dfy`, module `Store`). The state holds the list of
  projects, the selected project id, and `currentProject`, a denormalised copy of
  the selected project. Every store operation is a pure `State -> State`
  function. The per-project operations share one shape, `Store.ApplyToProject`:
  they rewrite every project with the given id, then write a second copy of
  the same rewrite to the mirror when that id is the selected one. The two
  copies take separate clock readings. The central invariant is
  `Store.Mirrored`: the mirror equals what `projects.find` returns for the
  selected id. Each operation's contract states a condition under which it
  preserves or establishes the invariant. For the per-project operations that
  condition is an if-and-only-if on the call's two clock readings. For
  `updateProject` this holds only when the patch keeps the project's id. A
  patch that changes an id can break the invariant:
  `Store.IdChangingUpdateBreaksMirror` shows this for the selected project, and
  moving another project onto the selected id can break it too. For `addProject`,
  a fresh id is sufficient but not necessary. `session.dfy` replays sequences
  of store calls.
  It proves that the invariant is kept by every run that starts from a state
  satisfying it, does not fail, and where every call is *honest*: a new project
  id is fresh, a project update keeps the project's id, and each call's two
  clock readings agree.
- **The stage helpers** (`constants.dfy`, module `Constants`). This part holds the
  stage table and the progress, next-stage and previous-stage functions. `Stage`
  is a datatype, and `Constants.Index` gives each stage's position. A lemma
  shows that the table lookup always finds that position. So the source's "not
  found" (-1) branches are never taken.

Supporting modules:

- `types.dfy`: the records.
- `seqs.dfy`: the array primitives `findIndex`, `find`, a conditional `map`, and
  `filter`.
- `patches.dfy`: `Partial<T>` updates and the object spread that applies them.

Inputs the program takes from its environment are parameters here:

- `newId` is the value `generateId` would return.
- Each `new Date().toISOString()` reading is a parameter of its own. A
  per-project operation takes `now`, the reading stamped on the project list,
  and `mirrorNow`, the reading stamped on the mirror. `addProject` takes
  `createdNow` and `updatedNow`.

In four places the code does something a reader may not expect; the model follows the code:

- Updating, deleting or completing an unknown child id does not leave the store
  unchanged. The parent project's `updatedAt` is still set to `now`, and the
  contracts say so.
- `setCurrentProject` with an id that no project has keeps that id selected with
  a null mirror. It does not clear the selection. A later per-project operation
  on that id then either throws, because it reads a field of `currentProject!`,
  or stores a partial record as the mirror (`updateProject`, `updateStage`). The
  per-project operations therefore take `Store.MirrorReadable` as a
  precondition. `Session.StuckExactlyOnDanglingSelection` shows this is the only
  way a call can fail while the invariant holds.
- No code compares `createdAt` with `updatedAt`, so the model does not claim
  `updatedAt >= createdAt`.
- A per-project operation reads the clock once for the project list and once
  more for the mirror. When the two readings differ, the mirror's `updatedAt`
  differs from the selected project's, and the invariant no longer holds. The
  contracts state the invariant after each such call as an if-and-only-if on
  the two readings.

## Model

| member | source | states |
|---|---|---|
| Seqs.IndexWhere | src/lib/constants.ts:88 | `findIndex` returns -1 exactly when no element matches; otherwise it returns a matching index with no match before it |
| Seqs.Find | src/lib/store/useAppStore.ts:140 | `find` returns nothing exactly when no element matches; otherwise it returns an element at some matching index with no match before it |
| Seqs.MapWhere | src/lib/store/useAppStore.ts:146-150 | the conditional `map` keeps the length; it rewrites exactly the matching elements by the given function and leaves the others as they were, so with no match the sequence is unchanged |
| Seqs.Filter | src/lib/store/useAppStore.ts:159 | `filter` keeps only matching elements and keeps every matching element. It is never longer than its input, and it returns the input unchanged when every element matches |
| Seqs.FilterKeepsOrder | src/lib/store/useAppStore.ts:159 | the k-th kept element is the element at the k-th kept position; kept positions strictly increase and are exactly the matching positions, so relative order is preserved |
| Seqs.FilterAtKeptIndices | src/lib/store/useAppStore.ts:159 | the filter's k-th element is the input element at the k-th kept position |
| Seqs.KeptIndicesCount | src/lib/store/useAppStore.ts:159 | there are exactly as many kept positions as kept elements |
| Seqs.FilterAtKeptIndex | src/lib/store/useAppStore.ts:159 | for one position k, the filter's k-th element is the input element at the k-th kept position |
| Seqs.KeptIndicesIncrease | src/lib/store/useAppStore.ts:159 | the kept positions are strictly increasing |
| Seqs.KeptIndicesExact | src/lib/store/useAppStore.ts:159 | a position is kept exactly when its element matches |
| Seqs.FindAfterMapWhere | src/lib/store/useAppStore.ts:146-153 | rewrite the matching elements with a function that does not change whether an element is found; a later lookup then returns the rewritten form of what it returned before |
| Seqs.FindAfterFilter | src/lib/store/useAppStore.ts:159-161 | removing only elements the lookup rejects does not change what the lookup finds |
| Seqs.FilterDropsAppended | src/lib/store/useAppStore.ts:223 | filtering out an appended element the filter rejects gives the filter of the original sequence |
| Seqs.FindAppended | src/lib/store/useAppStore.ts:128-130 | a matching element appended to a sequence with no match is what `find` returns |
| Patches.MergeTwice | src/lib/store/useAppStore.ts:148 | spreading two updates one after the other equals spreading their combination once |
| Patches.PatchProject | src/lib/store/useAppStore.ts:148 | `{...project, ...updates}`: every field absent from the update keeps its value, and every present field takes the update's value |
| Patches.PatchDocument | src/lib/store/useAppStore.ts:199 | `{...doc, ...updates}`: absent fields are kept, present fields are overwritten (the id too, if present) |
| Patches.PatchContact | src/lib/store/useAppStore.ts:272 | `{...contact, ...updates}`: absent fields are kept, present fields are overwritten |
| Patches.PatchTask | src/lib/store/useAppStore.ts:346 | `{...task, ...updates}`: absent fields are kept, present fields are overwritten |
| Patches.PatchFinancing | src/lib/store/useAppStore.ts:417 | financing update is a merge: a field absent from the update keeps its old value, a present one takes the new value |
| Patches.PatchFinancingTwice | src/lib/store/useAppStore.ts:411-421 | two financing updates equal one update with the combined patch; repeating an update changes nothing more |
| Constants.Index | src/lib/constants.ts:3-44 | every stage has a position below 8 in the purchase order |
| Constants.StagesTable | src/lib/constants.ts:3-44 | the table has 8 entries with pairwise distinct ids, in the order search, offer, negotiation, financing, presale, notary, signing, handover |
| Constants.FindStageIndexIsIndex | src/lib/constants.ts:88-89 | the table lookup of any stage returns its position, never -1 |
| Constants.MathRound | src/lib/constants.ts:90 | `Math.round(num/den)`: the nearest integer to num/den, with halves rounded up |
| Constants.ProgressRounding | src/lib/constants.ts:90 | for a stage at position i of eight, the rounded percentage lies in [13, 100] and is (i+1)*100/8 rounded half up |
| Constants.StageProgress | src/lib/constants.ts:87-91 | progress is (index+1)*100/8 rounded to nearest with halves up, and always lies in [13, 100] |
| Constants.StageProgressEnds | src/lib/constants.ts:87-91 | progress is 13 for search and 100 for handover |
| Constants.StageProgressIncreases | src/lib/constants.ts:87-91 | progress strictly increases along the stage order |
| Constants.NextStage | src/lib/constants.ts:93-97 | the next stage is null exactly for handover; otherwise it is the stage at index+1 |
| Constants.PreviousStage | src/lib/constants.ts:99-103 | the previous stage is null exactly for search; otherwise it is the stage at index-1 |
| Constants.NextPreviousInverse | src/lib/constants.ts:93-103 | `getNextStage(s) = t` exactly when `getPreviousStage(t) = s` |
| Store.ApplyToProject | src/lib/store/useAppStore.ts:144-154 | the shared per-project rewrite. The list length stays the same. Projects with other ids are unchanged. If no project has the id, the list is unchanged. The selected id is kept. The mirror changes only when the id is selected, and then it becomes the mirror rewrite of the old mirror |
| Store.ApplyToProjectKeepsMirror | src/lib/store/useAppStore.ts:146-153 | for a rewrite that keeps the target's id and a mirror in step, the mirror stays in step exactly when the target is not selected or the mirror rewrite and the list rewrite agree on it |
| Store.LookupAppended | src/lib/store/useAppStore.ts:128-130 | a project appended under an id no earlier project has is what the lookup finds |
| Store.LookupAfterDelete | src/lib/store/useAppStore.ts:159-161 | deleting one id does not change the lookup of any other id |
| Store.AddProject | src/lib/store/useAppStore.ts:115-131 | appends exactly one project and keeps earlier projects. The new project has the given id and the draft's fields. It starts with empty documents, contacts and tasks and empty financing. createdAt and updatedAt are the two clock readings. It becomes selected, and the mirror is that same object. With a fresh id the invariant holds afterwards, whatever held before |
| Store.SetCurrentProject | src/lib/store/useAppStore.ts:134-142 | a null or empty id clears both selection fields. Any other id is selected, and the mirror is the first project with that id, or null. Projects are untouched, and the invariant always holds afterwards |
| Store.UpdateProject | src/lib/store/useAppStore.ts:144-155 | only projects with the id change; each becomes the spread of the update with updatedAt = now. When the id is selected, the mirror becomes the spread of the update over the old mirror, stamped with the mirror's reading. If the update keeps the id and the invariant held, it still holds exactly when the id is not selected or the two readings agree |
| Store.IdChangingUpdateBreaksMirror | src/lib/store/useAppStore.ts:151-153 | when the selected project is patched to another id, the mirror takes the new id while the selection keeps the old one, so the invariant fails whatever the clock readings |
| Store.DeleteProject | src/lib/store/useAppStore.ts:157-163 | removes every project with the id, keeps the rest in order, clears both selection fields exactly when the id was selected (otherwise leaves them), and preserves the invariant |
| Store.AddDocument | src/lib/store/useAppStore.ts:166-190 | on projects with the id it appends the new document and stamps updatedAt, touching no other field. Other projects are unchanged. On the mirror, when the project is selected, the same change is made with the mirror's own clock reading. With the invariant before the call, it holds after exactly when the project is not selected or the two readings agree |
| Store.UpdateDocument | src/lib/store/useAppStore.ts:192-215 | merges the update into the documents with the id and leaves the other documents alone. If no document has the id, the documents are unchanged but updatedAt is still stamped. On the mirror, when the project is selected, the same change is made with the mirror's own clock reading. With the invariant before the call, it holds after exactly when the project is not selected or the two readings agree |
| Store.DeleteDocument | src/lib/store/useAppStore.ts:217-236 | removes the documents with the id and keeps every other document in order. If no document has the id, the documents are unchanged but updatedAt is still stamped. On the mirror, when the project is selected, the same change is made with the mirror's own clock reading. With the invariant before the call, it holds after exactly when the project is not selected or the two readings agree |
| Store.AddContact | src/lib/store/useAppStore.ts:239-263 | on projects with the id it appends the new contact and stamps updatedAt, touching no other field. On the mirror, when the project is selected, the same change is made with the mirror's own clock reading. With the invariant before the call, it holds after exactly when the project is not selected or the two readings agree |
| Store.UpdateContact | src/lib/store/useAppStore.ts:265-288 | merges the update into the contacts with the id and leaves the other contacts alone. An unknown contact id leaves the contacts unchanged but still stamps updatedAt. On the mirror, when the project is selected, the same change is made with the mirror's own clock reading. With the invariant before the call, it holds after exactly when the project is not selected or the two readings agree |
| Store.DeleteContact | src/lib/store/useAppStore.ts:290-309 | removes the contacts with the id and keeps the rest in order. An unknown contact id leaves the contacts unchanged but still stamps updatedAt. On the mirror, when the project is selected, the same change is made with the mirror's own clock reading. With the invariant before the call, it holds after exactly when the project is not selected or the two readings agree |
| Store.AddTask | src/lib/store/useAppStore.ts:312-337 | appends one task with the fresh id and the draft's fields; it is always uncompleted, whatever the draft carried. Stamps updatedAt. On the mirror, when the project is selected, the same change is made with the mirror's own clock reading. With the invariant before the call, it holds after exactly when the project is not selected or the two readings agree |
| Store.UpdateTask | src/lib/store/useAppStore.ts:339-362 | merges the update into the tasks with the id and leaves the other tasks alone. An unknown task id leaves the tasks unchanged but still stamps updatedAt. On the mirror, when the project is selected, the same change is made with the mirror's own clock reading. With the invariant before the call, it holds after exactly when the project is not selected or the two readings agree |
| Store.DeleteTask | src/lib/store/useAppStore.ts:364-383 | removes the tasks with the id and keeps the rest in order. An unknown task id leaves the tasks unchanged but still stamps updatedAt. On the mirror, when the project is selected, the same change is made with the mirror's own clock reading. With the invariant before the call, it holds after exactly when the project is not selected or the two readings agree |
| Store.CompleteTask | src/lib/store/useAppStore.ts:385-408 | sets completed on the tasks with the id and changes none of their other fields. Sibling tasks are unchanged. An unknown task id leaves the tasks unchanged but still stamps updatedAt. On the mirror, when the project is selected, the same change is made with the mirror's own clock reading. With the invariant before the call, it holds after exactly when the project is not selected or the two readings agree |
| Store.UpdateFinancing | src/lib/store/useAppStore.ts:411-430 | the financing record becomes the merge of the update over it; no other project field changes except updatedAt. On the mirror, when the project is selected, the same change is made with the mirror's own clock reading. With the invariant before the call, it holds after exactly when the project is not selected or the two readings agree |
| Store.UpdateStage | src/lib/store/useAppStore.ts:433-452 | sets any stage from any stage, with no ordering check. No other field changes except updatedAt. On the mirror, when the project is selected, the same change is made with the mirror's own clock reading. With the invariant before the call, it holds after exactly when the project is not selected or the two readings agree |
| Store.UnknownProjectIsNoOp | src/lib/store/useAppStore.ts:146-153 | while the invariant holds, a per-project operation on an id no project has leaves the entire state unchanged |
| Store.CompletedTwice | src/lib/store/useAppStore.ts:391-393 | marking the tasks with an id completed twice is the same as marking them once |
| Store.CompleteTaskIdempotent | src/lib/store/useAppStore.ts:385-408 | `completeTask` repeated with the same arguments and the same clock readings is idempotent; a repeat call with a new reading would still restamp `updatedAt` |
| Store.DeleteDocumentUndoesAdd | src/lib/store/useAppStore.ts:166-236 | deleting a document just added under an id its project did not use gives back the project's documents as they were |
| Store.DeleteContactUndoesAdd | src/lib/store/useAppStore.ts:239-309 | deleting a contact just added under an id its project did not use gives back the project's contacts as they were |
| Store.DeleteTaskUndoesAdd | src/lib/store/useAppStore.ts:312-383 | deleting a task just added under an id its project did not use gives back the project's tasks as they were |
| Session.StuckExactlyOnDanglingSelection | src/lib/store/useAppStore.ts:140-141 | while the invariant holds, a call fails exactly when it targets the selected id and no project carries that id |
| Session.StepKeepsMirror | src/lib/store/useAppStore.ts:71-101 | every store call that is honest and does not fail preserves the invariant. Honest means a generated project id is fresh, a project update keeps the project's id, and the call's two clock readings agree |
| Session.RunKeepsMirror | src/lib/store/useAppStore.ts:71-101 | from a state where the invariant holds, any run of honest calls that does not fail keeps it to the end |
| Session.RunFromInitialKeepsMirror | src/lib/store/useAppStore.ts:111-113 | starting from the empty store, the invariant holds after every honest run that does not fail |

## Left out

- Persistence: the zustand `create`/`persist` wrapper and the storage key `appli-appart-storage` are not modelled. Neither is the JSON round trip to local storage, which happens in library code outside the model.
- `generateId` reads the clock and a random source, so it becomes the `newId` parameter. Freshness of that id is only a hypothesis of the invariant lemmas. The model never asserts that the id is fresh.
- `new Date().toISOString()`: timestamps are opaque strings, and each reading is a parameter. A per-project operation has two: `now` for the project list and `mirrorNow` for the mirror. Every project in the list that shares the target id receives the same `now`, although the source reads the clock once per matching project. Only the first such project is compared with the mirror, so this does not affect the invariant. The invariant holds after a per-project call on the selected project only when `mirrorNow == now`, and the contracts say so.
- The browser `File` object on a document is an opaque `FileRef` handle.
- `formatCurrency` and `formatDate` are left out because they are locale formatting through `Intl` and `Date`. The `DOCUMENT_CATEGORIES` and `CONTACT_ROLES` label lists are left out because they hold data only and nothing checks against them. `src/app/page.tsx` is left out because it is layout only.
- JavaScript numbers on projects and financing are `real` values that are never computed on. The progress arithmetic is exact in floating point, since (index+1)/8*100 is a multiple of 1/2, so the model computes it in integers.
- TypeScript's static types are trusted. A stage is always one of the eight, and a `Partial<T>` update never sets a required field to `undefined`. (In a patch, a required field is `Option<T>` and an optional field is `Option<Option<T>>`.)
- Store.UpdateProject: requires `Store.MirrorReadable`. Suppose the selected id names no project, so the mirror is null. The source then spreads `null` and stores a partial record of only the update's fields as `currentProject`. A partial record is not a project, so the model excludes this case. `Session.Step` reports it as a failed call.
- Store.UpdateStage: requires `Store.MirrorReadable`, for the same reason. With a null mirror the source stores the partial record `{stage, updatedAt}` as `currentProject`.
- Store.AddDocument: requires `Store.MirrorReadable`, because with a null mirror for its selected project the source throws a `TypeError` reading `currentProject!.documents`. `Session.Step` reports that call as failed.
- Store.UpdateDocument: requires `Store.MirrorReadable`, for the same `TypeError` on `currentProject!.documents`.
- Store.DeleteDocument: requires `Store.MirrorReadable`, for the same `TypeError` on `currentProject!.documents`.
- Store.AddContact: requires `Store.MirrorReadable`, for the same `TypeError` on `currentProject!.contacts`.
- Store.UpdateContact: requires `Store.MirrorReadable`, for the same `TypeError` on `currentProject!.contacts`.
- Store.DeleteContact: requires `Store.MirrorReadable`, for the same `TypeError` on `currentProject!.contacts`.
- Store.AddTask: requires `Store.MirrorReadable`, for the same `TypeError` on `currentProject!.tasks`.
- Store.UpdateTask: requires `Store.MirrorReadable`, for the same `TypeError` on `currentProject!.tasks`.
- Store.DeleteTask: requires `Store.MirrorReadable`, for the same `TypeError` on `currentProject!.tasks`.
- Store.CompleteTask: requires `Store.MirrorReadable`, for the same `TypeError` on `currentProject!.tasks`.
- Store.UpdateFinancing: requires `Store.MirrorReadable`, for the same `TypeError` on `currentProject!.financing`.
