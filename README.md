# CRM entity store, modelled in Dafny

This project models the client-side store of a small CRM that tracks
energy-efficiency grant work. The store holds four ordered collections:
leads, contractors, jobs and projects. It also holds four "currently
selected" slots. For each collection it offers three actions:

- add: append a new entity that gets a generated id and two timestamps;
- update: spread a partial patch over every entity with a given id;
- delete: filter out every entity with a given id.

It also has a setter per slot and a read-only dashboard query that returns
ten counts and sums.

Files:

- `types.dfy` (module `Types`): the entity shapes, their status
  enumerations, the `Partial<T>` patch shapes and the per-kind field merges.
  It also holds the dashboard record. Every entity is an `Entity<D>`: the
  `id`, `createdAt` and `updatedAt` the store sets, around the data `D` that
  add takes (the entity minus those three fields).
- `collection.dfy` (module `Collection`): the list transformations behind
  add, update and delete. They are written once over `Entity<D>` and used
  for all four collections.
- `dashboard.dfy` (module `Dashboard`): the statistics, and how they move
  under the actions.
- `store.dfy` (module `CrmStore`): the `Store` class. Its fields are the
  collections and slots. Each action is a method that assigns exactly one
  field, and its `modifies` frame names only that field.
- `seed.dfy` (module `Seed`): the initial data, with its dashboard figures
  worked out.

The clock and the id generator are parameters. `now` is the reading of
`new Date()` / `Date.now()` in milliseconds. `newId` is what `generateId`
returned. As in the source, add does not check that it is fresh. The
uniqueness guarantee of each add method holds only when it is.

Faithfulness decisions:

- update is modelled as written. A patch may overwrite `id` and `createdAt`.
  A patch's `updatedAt` is always replaced by `now`. Every entity with the
  id is patched, not just the first one.
- delete removes every entity with the id.
- The store never checks that ids are unique. Uniqueness is the `Valid()`
  predicate of the class. Delete preserves it. Add preserves it only when the
  new id is fresh. Update preserves it only when the patch does not rename
  onto an id that is already present.
- Nothing checks references between collections. A project's `jobs` is a
  plain list of ids, and its `totalValue`/`totalGrant` are stored as given.
- Calendar dates of the seed are written as milliseconds at midnight UTC.

Three facts about the code that the model keeps as they are:

- An update patch may overwrite `createdAt`, and `id` too
  (store/crmStore.ts:198). `Collection.ApplyPatch` and
  `Collection.UpdateCanRename` show this.
- Ids are never checked for uniqueness. Here uniqueness is an invariant that
  holds only under the conditions above.
- An update with an empty patch sets `updatedAt` to the clock reading. That is
  later than the old value only if the clock has moved past it
  (`Collection.UpdateEmptyPatch`).

## Model

| member | source | states |
|---|---|---|
| `Types.MergeLead` | store/crmStore.ts:198 | spreading a lead patch over lead data: the empty patch returns the data unchanged; a supplied status replaces the old one and an absent one keeps it (every other field is spread the same way) |
| `Types.MergeContractor` | store/crmStore.ts:222 | the same for contractor data: the empty patch changes nothing; the status is the patch's where supplied, else the old one |
| `Types.MergeJob` | store/crmStore.ts:246 | the same for job data; status and `grantAmount` are each the patch's where supplied, else the old one |
| `Types.MergeProject` | store/crmStore.ts:270 | the same for project data; status, `totalValue` and `totalGrant` are each the patch's where supplied, else the old one |
| `Types.LeadMergeLawful` | store/crmStore.ts:198 | spreading a lead patch: the empty patch changes nothing, and applying a patch twice equals applying it once |
| `Types.ContractorMergeLawful` | store/crmStore.ts:222 | the same two laws for contractor patches |
| `Types.JobMergeLawful` | store/crmStore.ts:246 | the same two laws for job patches |
| `Types.ProjectMergeLawful` | store/crmStore.ts:270 | the same two laws for project patches |
| `Types.MergeLeadStatusOnly` | store/crmStore.ts:198 | a patch that supplies only `status` changes the status and keeps every other field of the lead |
| `Types.MergeJobFull` | store/crmStore.ts:246 | a patch that supplies every data field replaces the job's data wholesale |
| `Types.ParseLeadStatus` | types/index.ts:32 | a string is a lead status exactly when it is one of new, contacted, qualified, converted, lost, and it then reads back to its own literal |
| `Types.ParseJobStatus` | types/index.ts:51 | a string is a job status exactly when it is one of pending, approved, in-progress, completed, cancelled |
| `Types.ParseContractorStatus` | types/index.ts:11 | a string is a contractor status exactly when it is one of active, inactive, pending |
| `Types.ParseProjectStatus` | types/index.ts:67 | a string is a project status exactly when it is one of planning, active, completed, on-hold |
| `Types.StatusLiteralsRoundTrip` | types/index.ts:11-67 | every status of every kind reads back from its own literal, so the literals are distinct |
| `Collection.Filter` | store/crmStore.ts:205 | `filter` keeps exactly the elements that pass the test and never grows the list |
| `Collection.FilterCounts` | store/crmStore.ts:205 | `filter` keeps each passing element as many times as it occurs in the input, and no failing one |
| `Collection.Map` | store/crmStore.ts:197-199 | `map` keeps the length and applies the callback at every position |
| `Collection.FilterIsSubsequence` | store/crmStore.ts:205 | the filter's result is a subsequence of its input, so survivors keep their relative order |
| `Collection.FilterConcat` | store/crmStore.ts:205 | filtering a concatenation is concatenating the filtered parts |
| `Collection.FilterAll` | store/crmStore.ts:205 | a filter that every element passes returns its input unchanged |
| `Collection.FilterIdempotent` | store/crmStore.ts:205 | filtering twice by the same test is filtering once |
| `Collection.FilterMonotone` | store/crmStore.ts:290-308 | a test implied by another keeps at least as many elements, which orders the filtered counts |
| `Collection.Stamp` | store/crmStore.ts:186-191 | the new entity carries the caller's data unchanged, the new id, and `createdAt == updatedAt == now` |
| `Collection.AppendFreshKeepsUnique` | store/crmStore.ts:192 | appending under a fresh id keeps ids unique and makes the new id present |
| `Collection.ApplyPatch` | store/crmStore.ts:198 | the patched entity has `updatedAt == now` whatever the patch says; its `id` and `createdAt` are the patch's when supplied and the old ones otherwise; its data is the merge |
| `Collection.PatchIfIdCases` | store/crmStore.ts:197-199 | the update callback of `map` returns an entity with another id unchanged, and patches an entity with the id, stamping `updatedAt` with `now` |
| `Collection.Updated` | store/crmStore.ts:196-200 | update keeps the length and the positions; entities with another id stay identical; every entity with the id is patched |
| `Collection.UpdateAbsentIsNoOp` | store/crmStore.ts:197-199 | updating an id that is not present returns the list unchanged |
| `Collection.UpdateEmptyPatch` | store/crmStore.ts:198 | an empty patch changes only `updatedAt` of the matching entities |
| `Collection.UpdateIdempotent` | store/crmStore.ts:196-200 | for any merge that is idempotent in the patch, repeating an update with the same patch and clock changes nothing more |
| `Collection.UpdateKeepsUnique` | store/crmStore.ts:198 | update keeps ids unique unless the patch renames onto an id some other entity has |
| `Collection.UpdateCanRename` | store/crmStore.ts:198 | a patch with a different `id` renames the entity: the old id is gone and the new one is present |
| `Collection.OtherThanKeeps` | store/crmStore.ts:205 | the delete callback of `filter` keeps an entity exactly when its id differs from the deleted one |
| `Collection.Deleted` | store/crmStore.ts:203-207 | after delete no entity has the id; the survivors are exactly the input's entities with another id |
| `Collection.DeleteAbsentIsNoOp` | store/crmStore.ts:205 | deleting an id that is not present returns the list unchanged |
| `Collection.DeleteIdempotent` | store/crmStore.ts:205 | deleting twice is deleting once |
| `Collection.DeleteKeepsOrder` | store/crmStore.ts:205 | the survivors are a subsequence of the input, and delete distributes over concatenation |
| `Collection.DeletePresentShrinks` | store/crmStore.ts:205 | deleting a present id always shortens the list, duplicates or not |
| `Collection.DeleteUniqueRemovesOne` | store/crmStore.ts:205 | with unique ids, deleting a present id shortens the list by exactly one |
| `Collection.DeleteKeepsUnique` | store/crmStore.ts:205 | delete keeps ids unique |
| `Collection.AddThenDeleteRestores` | store/crmStore.ts:185-207 | adding under a fresh id and then deleting that id restores the previous list |
| `Dashboard.SumGrantsAppend` | store/crmStore.ts:293 | one more job adds exactly its `grantAmount` to the total grant |
| `Dashboard.SumGrantsPointwise` | store/crmStore.ts:293 | the total grant depends only on the grant amounts, position by position |
| `Dashboard.SumGrants` | store/crmStore.ts:293 | the total grant of no jobs is 0; with no negative grant the total is not negative |
| `Dashboard.SumGrantsBoundsEach` | store/crmStore.ts:293 | with no negative grant, the total is at least each job's grant |
| `Dashboard.FilterSplit` | store/crmStore.ts:290-291 | a test and its negation split a list into two counts that add up to its length |
| `Dashboard.LeadCounts` | store/crmStore.ts:290-308 | active and lost leads add up to all leads; recent conversions are at most the converted leads, which are at most the active leads |
| `Dashboard.JobCounts` | store/crmStore.ts:291 | active and cancelled jobs add up to all jobs |
| `Dashboard.Average` | store/crmStore.ts:294 | the average is 0 without jobs; otherwise the average times the job count is the total grant |
| `Dashboard.AverageBounds` | store/crmStore.ts:294 | with a non-negative total and at least one job, the average lies between 0 and the total |
| `Dashboard.Stats` | store/crmStore.ts:288-310 | the totals are the collection lengths; each active count is at most its total; lost leads and cancelled jobs are exactly what the active counts leave out; monthly conversions ≤ converted ≤ active leads; the total grant is the sum of grants; the average is total over count, 0 without jobs |
| `Dashboard.ConvertedSince` | store/crmStore.ts:305-307 | the monthly-conversion test accepts only converted leads, which are active; a converted lead passes exactly when it was updated after the cutoff |
| `Dashboard.MonthlyWindow` | store/crmStore.ts:305-307 | a lead is a monthly conversion exactly when it is converted and was updated less than 2,592,000,000 ms (30 days) before `now` |
| `Dashboard.ConversionWindowExample` | store/crmStore.ts:305-307 | a converted lead updated 10 days ago counts; one updated 40 days ago does not |
| `Dashboard.ProjectsOnlyCounted` | store/crmStore.ts:303 | the dashboard reads projects only through their number, never their jobs or rollups |
| `Dashboard.AverageWithinTotal` | store/crmStore.ts:293-294 | with no negative grant, the average lies between 0 and the total grant |
| `Dashboard.StatsAfterAddJob` | store/crmStore.ts:233-240 | adding a job adds one job and its grant to the total, adds one active job unless it is cancelled, and leaves the lead, contractor and project figures alone |
| `Dashboard.StatsAfterAddLead` | store/crmStore.ts:185-192 | adding a lead adds one lead, one active lead unless it is lost, and one monthly conversion if it is converted; the other figures are unchanged |
| `Dashboard.StatsAfterDeleteLead` | store/crmStore.ts:203-207 | deleting a present lead under unique ids removes one lead, never raises the active or conversion counts, and leaves the other figures alone |
| `Dashboard.StatsAfterUpdateJob` | store/crmStore.ts:243-249 | a job update whose patch leaves `grantAmount` alone keeps the job count, the total grant and the average |
| `Dashboard.ConvertingLeadCountsThisMonth` | store/crmStore.ts:195-201 | updating a present lead to converted at clock reading `now` makes it a monthly conversion in every dashboard read at a reading less than 30 days after `now`, because update stamps `updatedAt` with `now`; the lead total is unchanged |
| `CrmStore.Store.constructor` | store/crmStore.ts:46-182 | the store starts with the given collections and all four slots empty; given collections with unique ids, the store is valid |
| `CrmStore.Store.AddLead` | store/crmStore.ts:185-193 | the leads become the old leads plus the stamped new lead at the end; nothing else changes; unique ids stay unique when the new id is fresh |
| `CrmStore.Store.UpdateLead` | store/crmStore.ts:195-201 | the leads become the update of the old leads; nothing else changes; ids stay unique unless the patch renames onto a present id |
| `CrmStore.Store.DeleteLead` | store/crmStore.ts:203-207 | the leads become the old leads without the id; nothing else changes; unique ids stay unique |
| `CrmStore.Store.AddContractor` | store/crmStore.ts:209-217 | as AddLead, for contractors |
| `CrmStore.Store.UpdateContractor` | store/crmStore.ts:219-225 | as UpdateLead, for contractors |
| `CrmStore.Store.DeleteContractor` | store/crmStore.ts:227-231 | as DeleteLead, for contractors |
| `CrmStore.Store.AddJob` | store/crmStore.ts:233-241 | as AddLead, for jobs |
| `CrmStore.Store.UpdateJob` | store/crmStore.ts:243-249 | as UpdateLead, for jobs |
| `CrmStore.Store.DeleteJob` | store/crmStore.ts:251-255 | as DeleteLead, for jobs |
| `CrmStore.Store.AddProject` | store/crmStore.ts:257-265 | as AddLead, for projects; the rollups are stored as given |
| `CrmStore.Store.UpdateProject` | store/crmStore.ts:267-273 | as UpdateLead, for projects |
| `CrmStore.Store.DeleteProject` | store/crmStore.ts:275-279 | as DeleteLead, for projects; jobs and leads referring elsewhere are untouched |
| `CrmStore.Store.SetSelectedLead` | store/crmStore.ts:282 | the lead slot holds the given value; no other field changes |
| `CrmStore.Store.SetSelectedContractor` | store/crmStore.ts:283 | the contractor slot holds the given value; no other field changes |
| `CrmStore.Store.SetSelectedJob` | store/crmStore.ts:284 | the job slot holds the given value; no other field changes |
| `CrmStore.Store.SetSelectedProject` | store/crmStore.ts:285 | the project slot holds the given value; no other field changes |
| `CrmStore.Store.GetDashboardStats` | store/crmStore.ts:288-311 | the dashboard is the statistics of the current four collections, read without changing anything |
| `CrmStore.SelectThenClear` | store/crmStore.ts:282 | selecting a lead and then clearing the slot leaves it empty and every collection unchanged |
| `CrmStore.AddThenDeleteTwice` | store/crmStore.ts:185-207 | add under a fresh id, then delete that id twice, restores the leads |
| `CrmStore.DeletePresentLead` | store/crmStore.ts:203-207 | deleting a present lead from a store with unique ids removes exactly one lead, leaves none with that id, and keeps the store valid |
| `Seed.SeedIdsUnique` | store/crmStore.ts:48-176 | the seed collections have unique ids within each collection |
| `Seed.SeededStore` | store/crmStore.ts:46-182 | the store as the application creates it holds the seed collections, selects nothing, and has unique ids |
| `Seed.SeedStats` | store/crmStore.ts:124-160 | on the seed data the dashboard is 2 leads (2 active), 2 jobs (2 active), 2 contractors (2 active), 1 project, total grant 8000, 0 conversions, average 4000 |
| `Seed.SeedGrants` | store/crmStore.ts:136-154 | the seed grants 6800 and 1200 total 8000, and 8000 over 2 jobs is 4000 |
| `Seed.SeedProjectRollupMatches` | store/crmStore.ts:168-170 | the seed project's rollups equal its jobs' sums only because the seed was written that way |
| `Seed.NoJobsStats` | store/crmStore.ts:293-294 | with no jobs the total grant and the average are both 0 |

## Left out

- The state-container library (`create`, `set`, `get`). The store is a class whose methods assign its fields.
- `generateId` (random base-36 strings). The id is a parameter. Add accepts any id and keeps ids unique only when the id is fresh.
- The wall clock. `now` is a parameter. Add reads the clock twice in the source, so there `createdAt` and `updatedAt` can differ by a millisecond. The model reads it once, so they are equal.
- Floating point. Amounts and `completedJobs` are integers. `rating` is a `real`. `averageJobValue` is the exact ratio, not an IEEE quotient.
- A patch key supplied as `undefined` for a required field. The type checker admits it, and it would blank the field; patches here can only supply values. For optional fields, `Some(None)` does model a key set to `undefined`.
- Nothing else is abstracted. Free-text and list fields are kept as strings and sequences.
