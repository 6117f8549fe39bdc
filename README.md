# Change detection for apartment listings

A Dafny model of the polling engine of the DetectChanges app. Each poll
cycle, the landlords manager gathers every landlord's listings, keeps those
with at least the required rooms and area, and compares the batch with the
previous cycle's batch by `link`. It stores the whole batch as the new
baseline and returns the listings that are new, numbered 0..n-1. The view
controller keeps a priming flag. The first delivery after the controller is
created, or after a stop that found rows in the table, is a priming run: it
replaces the list and sets the flag. A pause keeps the flag, so a start after a
pause continues with later runs. Later deliveries are copied with
`isNew = true` and put in front of the existing list. A notification is raised
when one of the new listings passes the user's rooms/area/rent filter. The
table's list is recomputed with the same three criteria whenever the list or
the criteria are assigned. Stop acts only when the table has rows: it then
empties the table's list, resets the flag and drops the manager, which
discards the baseline, so the next start begins with a fresh priming run.

Files:
- `listings.dfy` (module `Listings`): the `Apartment` record and `Option`.
- `seqs.dfy` (module `Seqs`): the order-preserving `Filter` (Swift's `Array.filter`), a subsequence predicate, and the filter lemmas the other modules build on.
- `landlords_manager.dfy` (module `Networking`): the per-landlord filter, the batch, the diff, the index assignment, and the class `LandlordsManager` with its imperative `Start`.
- `view_controller.dfy` (module `Engine`): the display filter and its predicate, the callback's effect as functions with lemmas, and the class `ViewController` holding the engine state with `StartEngine`, `Tick`, `PauseEngine`, `StopEngine` and `SetOptions`.

Modelling choices:
- The concurrent fetch is a parameter `fetched: seq<seq<Apartment>>`, one list per landlord. The lists are concatenated in landlord order.
- A timer fire whose fetch completes is one call of `ViewController.Tick`. The timer itself is the boolean `timerScheduled`.
- `startEngine` calls `LandlordsManager(immomioLinkFetcher:)` (DetectChanges/ViewController.swift:84). `LandlordsManager.swift` declares only `init(requiredApartment:)` (DetectChanges/Networking/LandlordsManager.swift:16). The model follows the manager: `StartEngine` takes the required thresholds as an `Apartment` and passes them to the new manager.
- The stamped copies of later runs are built without an `index` argument (DetectChanges/ViewController.swift:98-100). They therefore carry the record's default index. The `Apartment` definition is not part of this model, so that default is the constant `Engine.DefaultIndex`, taken as 0. Indices are assigned only over the manager's new subset, never over the combined display list.
- The same initialiser call passes no `link` either. It passes `internalLink` and `externalLink`. The model assumes that `link` is derived from the copied fields, so `Stamp` keeps `a.link`. If `link` were a stored property with a default, the copies would carry that default instead. No modelled logic reads the link of a stamped copy.
- The table view's row count, read by `stopEngine`, is the parameter `numberOfRows`.
- `apartmentsDataSource` is recomputed whenever `currentApartments` or `options` is assigned. This is what the `CombineLatest` subscription does once it is set up. `stopEngine` empties `apartmentsDataSource` but leaves `currentApartments` as it is.

Where the code's behaviour may be unexpected, the model follows the code:
- The manager's filter ignores rent.
- The pushed count is the number of all new listings, not only of the matching ones.
- A renewed start while the engine runs is not a no-op: the manager is kept and a new timer is scheduled.
- `stopEngine` never cancels the timer. A stopped engine whose timer was not paused keeps firing with no manager. `StopEngine` leaves `timerScheduled` as it was, and a `Tick` with no manager changes nothing.

## Model

| member | source | states |
|---|---|---|
| Seqs.Filter | DetectChanges/Networking/LandlordsManager.swift:27-29 | the order-preserving filter behind every Swift `filter` call here; the result is never longer than the input |
| Networking.FilterRequired | DetectChanges/Networking/LandlordsManager.swift:27-29 | a listing is kept iff its rooms and area reach the required ones; rent is not checked |
| Networking.MeetsRequired | DetectChanges/Networking/LandlordsManager.swift:28 | the per-landlord test: rooms at least the required rooms and area at least the required area, nothing about rent (a predicate; its properties are the lemmas below) |
| Networking.RentNotChecked | DetectChanges/Networking/LandlordsManager.swift:27-29 | two lists that differ only in rents keep the same positions under the per-landlord filter: the results have equal length and agree element by element except for rent |
| Networking.Batch | DetectChanges/Networking/LandlordsManager.swift:21-31 | the landlords' filtered lists concatenated in landlord order; every listing in it meets the thresholds |
| Networking.FilterRequiredShape | DetectChanges/Networking/LandlordsManager.swift:27-29 | the per-landlord filter returns a subsequence of its input, with each kept listing as often as in the input |
| Networking.BatchMembership | DetectChanges/Networking/LandlordsManager.swift:24-31 | a listing is in the batch iff some landlord delivered it and it meets the thresholds |
| Networking.BatchAppend | DetectChanges/Networking/LandlordsManager.swift:24-31 | the batch of two groups of landlords is the concatenation of their batches |
| Networking.BatchIsFilterOfAll | DetectChanges/Networking/LandlordsManager.swift:24-31 | filtering each landlord's list and concatenating equals concatenating all lists and filtering once |
| Networking.BatchSplit | DetectChanges/Networking/LandlordsManager.swift:24-31 | each landlord's filtered list sits unchanged in the batch, between the earlier and the later landlords' lists |
| Networking.HasLink | DetectChanges/Networking/LandlordsManager.swift:49 | true iff some baseline listing has the given link (a predicate; used by the diff) |
| Networking.ComparePreviousApartments | DetectChanges/Networking/LandlordsManager.swift:47-51 | a listing is returned iff it is in the current batch and no listing of the baseline has its link |
| Networking.DiffShape | DetectChanges/Networking/LandlordsManager.swift:47-51 | the diff is a subsequence of the current batch; an unseen listing keeps its multiplicity and a seen one is removed |
| Networking.DiffAgainstEmpty | DetectChanges/Networking/LandlordsManager.swift:47-51 | against the empty baseline of a fresh manager (line 13) the diff is the whole batch |
| Networking.DiffAgainstItself | DetectChanges/Networking/LandlordsManager.swift:47-51 | a batch compared with itself yields nothing |
| Networking.DiffEmptyIff | DetectChanges/Networking/LandlordsManager.swift:47-51 | the diff is empty iff every current link is already in the baseline |
| Networking.Indexed | DetectChanges/Networking/LandlordsManager.swift:38-42 | the result has the same length and order; element i has index i and all its other fields unchanged |
| Networking.LandlordsManager.constructor | DetectChanges/Networking/LandlordsManager.swift:12-18 | a new manager holds the given thresholds and an empty baseline |
| Networking.LandlordsManager.Start | DetectChanges/Networking/LandlordsManager.swift:20-45 | the baseline becomes the full filtered batch; the result is the diff against the old baseline, indexed; the thresholds are unchanged |
| Networking.RepeatCycle | DetectChanges/Networking/LandlordsManager.swift:35-36 | a second cycle over the same fetched data returns nothing |
| Engine.DisplayFilter | DetectChanges/ViewController.swift:191-198 | a listing is shown iff it is in the list and passes rooms, area and rent |
| Engine.SatisfiesCurrentFilter | DetectChanges/ViewController.swift:204-206 | `apartmentSatisfyCurrentFilter`: rooms at least, area at least and rent at most the options (a predicate shared with the display filter) |
| Engine.DisplayFilterIdempotent | DetectChanges/ViewController.swift:192-196 | filtering the displayed list again changes nothing |
| Engine.DisplayFilterShape | DetectChanges/ViewController.swift:193-195 | the displayed list is a subsequence of the list, each shown listing as often as in the list |
| Engine.DisplayFilterIsCurrentFilter | DetectChanges/ViewController.swift:204-206 | the notification test on a list (`contains(where:)` with `apartmentSatisfyCurrentFilter`) holds iff the display filter of that list is non-empty |
| Engine.Stamp | DetectChanges/ViewController.swift:98-100 | the copy of one delivered listing that a later run inserts, marked new, with the default index (a definition; its properties are stated on StampAll) |
| Engine.StampAll | DetectChanges/ViewController.swift:98-100 | one copy per delivered listing, in order, each marked new with the default index and the same link, rooms, area and rent |
| Engine.NextApartments | DetectChanges/ViewController.swift:93-101 | `currentApartments` after a delivery; after the priming run the old list stays at the end, with one new-marked copy per delivered listing in front of it |
| Engine.AnySatisfies | DetectChanges/ViewController.swift:103 | true iff some listing passes the current filter (a predicate; used by the notification) |
| Engine.PushedNotification | DetectChanges/ViewController.swift:103-104 | a count is pushed only on a later run with listings delivered, and it is the number of all delivered listings |
| Engine.PrimingRun | DetectChanges/ViewController.swift:93-95 | a priming run takes the delivered list unchanged and pushes nothing |
| Engine.LaterRun | DetectChanges/ViewController.swift:97-101 | a later non-empty run puts a copy of each delivered listing in front of the old list, marked new, with the same link, rooms, area and rent and the default index |
| Engine.EmptyLaterRun | DetectChanges/ViewController.swift:97 | a later run with nothing delivered leaves the list as it is and pushes nothing |
| Engine.NotificationIff | DetectChanges/ViewController.swift:103-104 | a notification is pushed iff a later run delivers listings and one of them passes the filter; the count is all delivered listings |
| Engine.FirstCycleAfterStart | DetectChanges/ViewController.swift:91-95 | with a fresh baseline the first cycle shows the whole filtered batch, indexed 0..n-1, unmarked |
| Engine.OneNewListing | DetectChanges/ViewController.swift:97-101 | baseline "A", delivery "A","B": only "B" is delivered, index 0, and its new copy goes in front of the old list |
| Engine.ViewController.constructor | DetectChanges/ViewController.swift:32-42 | the engine starts with empty lists, no manager, no timer and the priming flag off |
| Engine.ViewController.SetOptions | DetectChanges/ViewController.swift:191-198 | a change of criteria recomputes the displayed list from the current list and changes nothing else |
| Engine.ViewController.StartEngine | DetectChanges/ViewController.swift:83-90 | an existing manager and its baseline are kept, else a new one with an empty baseline is made; the timer is scheduled; nothing else changes |
| Engine.ViewController.Tick | DetectChanges/ViewController.swift:90-107 | without a manager nothing changes; otherwise the manager's cycle runs, the list becomes the priming or later-run result, and the displayed list and notification follow |
| Engine.ViewController.PauseEngine | DetectChanges/ViewController.swift:118-122 | the timer is cancelled; the flag, the lists and the manager with its baseline are untouched |
| Engine.ViewController.StopEngine | DetectChanges/ViewController.swift:124-138 | with no rows nothing changes; with rows the displayed list is emptied, the flag reset and the manager dropped, while the list stays |
| Engine.StopStartCycle | DetectChanges/ViewController.swift:124-138 | stop with rows, start and one cycle give a fresh priming run: the whole filtered batch, indexed, and no notification |

## Left out

- HasLink: Swift compares `String`s by Unicode canonical equivalence; the model compares links character by character, so two links that differ only in normalisation form are one listing in the source and two in the model.
- The `DispatchGroup` fan-out and join and the main-queue notify (DetectChanges/Networking/LandlordsManager.swift:22-34): concurrency. The model takes the per-landlord lists in a fixed landlord order. The source appends them in completion order.
- The `landlords` list (`[Saga()]`) and the fetching and HTML parsing behind `getApartmentsList`: network and a foreign library. Their output is the `fetched` parameter.
- `Timer` scheduling, the immediate `timer?.fire()` and `options.updateTime`: OS timers and a floating-point interval. A fire is a `Tick` call and the timer is a boolean. A second `startEngine` while a timer runs leaves the old timer running in the source; the model has only one timer flag and cannot show two.
- The callbacks' `[weak self]` / `[unowned self]` captures: object lifetime, not modelled.
- The Combine wiring for the text fields and `Int(extractFrom:defaultValue:)`: parsing code that is not part of this model. Options are plain integers the caller sets with `SetOptions`.
- All UIKit work: table rows and index paths, the loading view, the status label and `TimeManager`, the modal sheet and its detents, the stop-button state, and the `fatalError` when the modal view is missing.
- Notification delivery, background audio and the sound-switch alert type: OS integration. The pushed count is the result of `Tick`.
- The `Apartment` fields other than link, rooms, area, rent, isNew and index (time, title, street, links, company): they play no part in the logic.
