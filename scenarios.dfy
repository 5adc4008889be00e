/**
  Short traces of the app against the store, each stated by what the caller observes at the end.
*/
module Scenarios {
  import opened Wrappers
  import opened Schedule
  import opened Sync
  import Home

  /**
    User `a` with a stored schedule is signed in, then user `b`, who has no document, signs in.
    The first snapshot for `b` finds nothing: the seed is written, once and without merging,
    and the days shown are still `a`'s. Only the echo of that write shows the seed, and it
    issues no second write.
  */
  method FirstLogin(initialDays: seq<Day>, a: Uid, storedA: seq<Day>, b: Uid)
    returns (afterFirst: seq<Day>, afterEcho: seq<Day>, writes: seq<Write>, doc: Option<Document>)
    requires a != b
    ensures afterFirst == storedA
    ensures afterEcho == initialDays
    ensures writes == [Write(b, DaysPayload(initialDays), false)]
    ensures doc == Some(DaysPayload(initialDays))
  {
    var app := new App(initialDays, map[a := DaysPayload(storedA)]);
    app.SetUser(Some(a));
    app.OnSnapshot(true);
    app.SetUser(Some(b));
    app.OnSnapshot(true);
    afterFirst := app.days;
    app.OnSnapshot(true);
    afterEcho, writes := app.days, app.writes;
    doc := if b in app.store then Some(app.store[b]) else None;
  }

  /**
    A signed-in user with a stored schedule toggles a day. The shown days do not change until the
    store's echo arrives; after it they are the toggled schedule.
  */
  method ToggleThenEcho(initialDays: seq<Day>, uid: Uid, stored: seq<Day>, id: string)
    returns (beforeEcho: seq<Day>, afterEcho: seq<Day>)
    ensures beforeEcho == stored
    ensures afterEcho == Home.WithRestToggled(stored, id)
  {
    var app := new App(initialDays, map[uid := DaysPayload(stored)]);
    app.SetUser(Some(uid));
    app.OnSnapshot(true);
    Home.ToggleRestDay(app, id, true);
    beforeEcho := app.days;
    app.OnSnapshot(true);
    afterEcho := app.days;
  }

  /** A rejected write is swallowed: the next snapshot still shows the stored schedule. */
  method RejectedRename(initialDays: seq<Day>, uid: Uid, stored: seq<Day>, id: string, newName: string)
    returns (days: seq<Day>, writes: seq<Write>)
    ensures days == stored
    ensures writes == [Write(uid, DaysPayload(Home.WithDayRenamed(stored, id, newName)), true)]
  {
    var app := new App(initialDays, map[uid := DaysPayload(stored)]);
    app.SetUser(Some(uid));
    app.OnSnapshot(true);
    Home.RenameDay(app, id, newName, false);
    app.OnSnapshot(true);
    days, writes := app.days, app.writes;
  }

  /** Nobody signed in: a snapshot delivers nothing and an edit writes nothing. */
  method SignedOut(initialDays: seq<Day>, store: Store, id: string) returns (days: seq<Day>, writes: seq<Write>, after: Store)
    ensures days == initialDays && writes == [] && after == store
  {
    var app := new App(initialDays, store);
    app.OnSnapshot(true);
    Home.ToggleRestDay(app, id, true);
    app.OnSnapshot(true);
    days, writes, after := app.days, app.writes, app.store;
  }

  /**
    Two renames of different days before the first echo arrives. Both are computed from the days
    shown, which the first write has not changed yet, so the second write carries the first day's
    old name and the stored schedule loses the first rename.
  */
  method TwoRenamesBeforeEcho(initialDays: seq<Day>, uid: Uid, stored: seq<Day>, i1: int, n1: string, id2: string, n2: string)
    returns (result: seq<Day>)
    requires 0 <= i1 < |stored| && stored[i1].id != id2
    ensures result == Home.WithDayRenamed(stored, id2, n2)
    ensures |result| == |stored| && result[i1].name == stored[i1].name
  {
    var app := new App(initialDays, map[uid := DaysPayload(stored)]);
    app.SetUser(Some(uid));
    app.OnSnapshot(true);
    Home.RenameDay(app, stored[i1].id, n1, true);
    Home.RenameDay(app, id2, n2, true);
    app.OnSnapshot(true);
    result := app.days;
    Home.RenameDayAt(stored, id2, n2, i1);
  }
}
