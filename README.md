# Workout tracker: schedule edits and local/remote sync

This project models two pieces of a personal workout tracker: the weekly schedule screen and the root component that keeps the schedule in step with its remote store.

On the weekly schedule screen, `toggleRestDay` and `renameDay` rebuild the list of days. Each one changes only the days whose id matches and passes the new list to `updateDays`.

The root component's synchronisation works like this:
- It holds a local `days` cell, which starts as the seed schedule `INITIAL_DAYS`, and the signed-in user.
- It subscribes to the signed-in user's document in the remote store.
- When a snapshot of that document arrives, it replaces the local days with the document's `days` field.
- When the document does not exist yet, it writes the seed schedule into it.
- `updateFirebaseDays` issues a merge write of `{ days }` for the signed-in user.

Modules:
- `Schedule`: the `Day` datatype. `Exercise` is an abstract type because nothing modelled here looks inside an exercise.
- `Home`: the two transforms, written as functions over `seq<Day>`, with their lemmas. It also holds the two handlers, which are methods that pass the transformed schedule to the app.
- `Sync`: the `App` class. Its fields are `user`, `days`, the remote `store` (a map from user id to document, where a document maps field names to values) and the log of issued `writes`. Its constructor starts with no user and the seed schedule; its methods are `SetUser`, `OnSnapshot` and `UpdateFirebaseDays`. The module also states merge-write semantics: payload fields overwrite, all other fields are kept.
- `Scenarios`: short traces that start from a fresh `App`, stated by what the caller sees at the end.

Events happen as a sequential trace of method calls. A snapshot always shows the signed-in user's document as the store holds it at that moment. The store's answer to a write is a parameter, `accepted`. A rejected write is still logged as issued, but it changes nothing. The seed `INITIAL_DAYS` is a constructor parameter, kept in the constant field `initialDays`.

Editing does not update the local `days`; only a snapshot does. `updateFirebaseDays` never calls `setDays`, so an edit reaches the local days only when the snapshot echo of its write arrives. `Sync.App.UpdateFirebaseDays` and both handlers therefore leave `days` unchanged. `Scenarios.ToggleThenEcho` shows an edit reaching the screen only through the echo.

A consequence: two edits to different days made before the first echo arrives are both computed from the same stale days. The second write then drops the first edit from the stored schedule, as `Scenarios.TwoRenamesBeforeEcho` proves. The real store usually echoes a local write at once, so this is a property of the sequential model, not a claimed defect.

## Model

| member | source | states |
|---|---|---|
| `Home.WithRestToggled` | views/HomeView.tsx:16 | the toggled schedule has as many days as the input |
| `Home.ToggleRestAt` | views/HomeView.tsx:16 | at every position, the toggled schedule holds the input's day there. The rest flag is flipped when that day's id matches; otherwise the day is unchanged. Order is therefore preserved |
| `Home.ToggleRestOnlyFlipsRest` | views/HomeView.tsx:16 | the toggle never changes a day's id, name or exercises; a day's rest flag changes if and only if its id matches |
| `Home.ToggleRestTwice` | views/HomeView.tsx:16 | toggling the same id twice gives back the original schedule |
| `Home.ToggleRestNoMatch` | views/HomeView.tsx:16 | a toggle whose id matches no day returns the input schedule |
| `Home.WithDayRenamed` | views/HomeView.tsx:21 | the renamed schedule has as many days as the input |
| `Home.RenameDayAt` | views/HomeView.tsx:21 | at every position, a matching day gets the new name and any other day is unchanged; any name is accepted, the empty one included |
| `Home.RenameDayOnlyRenames` | views/HomeView.tsx:20-21 | the rename keeps every day's id, rest flag and exercises; the name becomes the new one exactly on matching days |
| `Home.RenameDayIdempotent` | views/HomeView.tsx:21 | renaming twice with the same arguments equals renaming once |
| `Home.RenameDayNoMatch` | views/HomeView.tsx:21 | a rename whose id matches no day returns the input schedule |
| `Home.ToggleRestDay` | views/HomeView.tsx:15-18 | with a user signed in, exactly one merge write of the toggled schedule is issued; without one, nothing is written. The shown days are not modified |
| `Home.RenameDay` | views/HomeView.tsx:20-23 | the same for the renamed schedule |
| `Sync.App.constructor` | App.tsx:18-20 | before any snapshot: no user, local days equal the seed, no write issued |
| `Sync.App.SetUser` | App.tsx:26 | the session provider's user replaces the current one; the days, store and write log are unchanged |
| `Sync.App.OnSnapshot` | App.tsx:33-47 | no user means no subscription, so nothing changes. For an existing document: a schedule in `days` replaces the local days exactly; without one, nothing changes and nothing is written. A missing document gets one non-merge write of `{ days: seed }` and the local days stay as they are. The write log and the store change only as stated |
| `Sync.App.UpdateFirebaseDays` | App.tsx:63-70 | with no user, no write and no change. With a user, one merge write of `{ days: newDays }`; if the store accepts it, the document's `days` field equals `newDays` and its other fields and other users' documents are kept. Local days never change, and a rejected write leaves the store unchanged |
| `Sync.SnapshotDays` | App.tsx:40-42 | a snapshot yields a schedule if and only if its `days` field holds one, and then it yields exactly that value |
| `Sync.MergeFields` | App.tsx:66 | merge semantics: the result has the union of the fields, payload fields overwrite, all other fields are kept |
| `Sync.ApplyWrite` | App.tsx:66 | an accepted write changes only its own user's document. A merge write sets the payload fields, keeps the rest and adds no other field; a replacing write, or a write to a missing document, leaves exactly the payload |
| `Sync.ApplyWriteIdempotent` | App.tsx:66 | accepting the same write twice equals accepting it once |
| `Sync.MergeWriteKeepsFields` | App.tsx:66 | a merge write never removes a document or a field from the store |
| `Scenarios.FirstLogin` | App.tsx:39-47 | after another user's schedule was shown, a new user's first snapshot causes exactly one non-merge write of the seed and leaves the shown days as they were; only its echo shows the seed, and no second write is issued |
| `Scenarios.ToggleThenEcho` | App.tsx:63-70 | after a toggle, the shown days are still the stored ones; after the echo, they are the toggled schedule |
| `Scenarios.RejectedRename` | App.tsx:65-69 | a rejected write is swallowed: one write is logged, and the next snapshot still shows the stored schedule |
| `Scenarios.SignedOut` | App.tsx:34 | with nobody signed in, snapshots and edits leave the days at the seed, write nothing and leave the store as it was |
| `Scenarios.TwoRenamesBeforeEcho` | views/HomeView.tsx:20-22 | two renames of different days before the echo leave the stored schedule with only the second rename; the first day keeps its old name |

## Left out

- `Sync.SnapshotDays`: the source copies any truthy `days` field into the local days, even one that is not a list of days. The model's local days can only hold a schedule, so a truthy non-schedule value leaves them unchanged here.
- Sign-in and sign-out, the popup login and its alert: the session provider is external. The user is only the `Option<Uid>` passed to `SetUser`.
- The loading flag, the dark-mode preference and its device-local persistence: these are UI state and local I/O, outside the synchronisation.
- Rendering, routing, the layout and the settings screen, including logout and the JSON export: these are presentation and browser I/O.
- Real asynchrony between snapshot delivery and in-flight writes: events are a sequential trace. Snapshots always show the current document, so a stale snapshot is not modelled.
- Unsubscribing when the user changes: an event for a previous user's document cannot be delivered in the model, because `OnSnapshot` reads the current user's document.
- The error logged by a failed merge write, and the unhandled rejection of a failed seed write: both are console output only. The model keeps just the fact that state does not change.
- Exercise and progress-entry edits: they belong to other screens, which are not part of this model.
- The fields of an exercise and the contents of `INITIAL_DAYS`: neither is part of this model, so `Exercise` is abstract and the seed is a parameter.
