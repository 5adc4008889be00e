/**
  The weekly-schedule view: its two edits, toggling a day's rest flag and renaming a day.
  Each maps over the days and rebuilds only the days whose id matches, then hands the new
  schedule to the app's `updateDays` callback.
*/
module Home {
  import opened Wrappers
  import opened Schedule
  import opened Sync

  /** The per-day step of the toggle: flip the rest flag of a matching day. */
  function ToggleDay(d: Day, id: string): Day
  {
    if d.id == id then d.(isRest := !d.isRest) else d
  }

  /** The per-day step of the rename: replace the name of a matching day. */
  function RenameOne(d: Day, id: string, newName: string): Day
  {
    if d.id == id then d.(name := newName) else d
  }

  /** Applies `ToggleDay` to every day, keeping the order. */
  function WithRestToggled(days: seq<Day>, id: string): (r: seq<Day>)
    ensures |r| == |days|
  {
    if days == [] then [] else [ToggleDay(days[0], id)] + WithRestToggled(days[1..], id)
  }

  /** Applies `RenameOne` to every day, keeping the order. */
  function WithDayRenamed(days: seq<Day>, id: string, newName: string): (r: seq<Day>)
    ensures |r| == |days|
  {
    if days == [] then [] else [RenameOne(days[0], id, newName)] + WithDayRenamed(days[1..], id, newName)
  }

  /** Position by position, the toggle flips the rest flag of the matching days and keeps the others. */
  lemma {:induction false} ToggleRestAt(days: seq<Day>, id: string, i: int)
    requires 0 <= i < |days|
    ensures WithRestToggled(days, id)[i] == if days[i].id == id then days[i].(isRest := !days[i].isRest) else days[i]
  {
    if i > 0 {
      ToggleRestAt(days[1..], id, i - 1);
    }
  }

  /** The toggle changes a day's rest flag exactly when its id matches, and never its id, name or exercises. */
  lemma {:induction false} ToggleRestOnlyFlipsRest(days: seq<Day>, id: string)
    ensures forall i :: 0 <= i < |days| ==>
              var r := WithRestToggled(days, id)[i];
              r.id == days[i].id && r.name == days[i].name && r.exercises == days[i].exercises &&
              (r.isRest != days[i].isRest <==> days[i].id == id)
  {
    forall i | 0 <= i < |days|
      ensures var r := WithRestToggled(days, id)[i];
              r.id == days[i].id && r.name == days[i].name && r.exercises == days[i].exercises &&
              (r.isRest != days[i].isRest <==> days[i].id == id)
    {
      ToggleRestAt(days, id, i);
    }
  }

  /** Toggling the same day twice gives back the original schedule. */
  lemma {:induction false} ToggleRestTwice(days: seq<Day>, id: string)
    ensures WithRestToggled(WithRestToggled(days, id), id) == days
  {
    if days != [] {
      var once := WithRestToggled(days, id);
      assert once[1..] == WithRestToggled(days[1..], id);
      ToggleRestTwice(days[1..], id);
      assert days == [days[0]] + days[1..];
    }
  }

  /** A toggle whose id matches no day returns the schedule unchanged. */
  lemma {:induction false} ToggleRestNoMatch(days: seq<Day>, id: string)
    requires NoDayWithId(days, id)
    ensures WithRestToggled(days, id) == days
  {
    if days != [] {
      assert NoDayWithId(days[1..], id) by {
        forall i | 0 <= i < |days[1..]| ensures days[1..][i].id != id {
          assert days[1..][i] == days[i + 1];
        }
      }
      ToggleRestNoMatch(days[1..], id);
      assert days == [days[0]] + days[1..];
    }
  }

  /** Position by position, the rename sets the name of the matching days and keeps the others. */
  lemma {:induction false} RenameDayAt(days: seq<Day>, id: string, newName: string, i: int)
    requires 0 <= i < |days|
    ensures WithDayRenamed(days, id, newName)[i] == if days[i].id == id then days[i].(name := newName) else days[i]
  {
    if i > 0 {
      RenameDayAt(days[1..], id, newName, i - 1);
    }
  }

  /** The rename touches only the name, and gives every matching day (and no other) the new one. */
  lemma {:induction false} RenameDayOnlyRenames(days: seq<Day>, id: string, newName: string)
    ensures forall i :: 0 <= i < |days| ==>
              var r := WithDayRenamed(days, id, newName)[i];
              r.id == days[i].id && r.isRest == days[i].isRest && r.exercises == days[i].exercises &&
              r.name == (if days[i].id == id then newName else days[i].name)
  {
    forall i | 0 <= i < |days|
      ensures var r := WithDayRenamed(days, id, newName)[i];
              r.id == days[i].id && r.isRest == days[i].isRest && r.exercises == days[i].exercises &&
              r.name == (if days[i].id == id then newName else days[i].name)
    {
      RenameDayAt(days, id, newName, i);
    }
  }

  /** Renaming twice with the same arguments is renaming once. */
  lemma {:induction false} RenameDayIdempotent(days: seq<Day>, id: string, newName: string)
    ensures WithDayRenamed(WithDayRenamed(days, id, newName), id, newName) == WithDayRenamed(days, id, newName)
  {
    if days != [] {
      var once := WithDayRenamed(days, id, newName);
      assert once[1..] == WithDayRenamed(days[1..], id, newName);
      RenameDayIdempotent(days[1..], id, newName);
    }
  }

  /** A rename whose id matches no day returns the schedule unchanged. */
  lemma {:induction false} RenameDayNoMatch(days: seq<Day>, id: string, newName: string)
    requires NoDayWithId(days, id)
    ensures WithDayRenamed(days, id, newName) == days
  {
    if days != [] {
      assert NoDayWithId(days[1..], id) by {
        forall i | 0 <= i < |days[1..]| ensures days[1..][i].id != id {
          assert days[1..][i] == days[i + 1];
        }
      }
      RenameDayNoMatch(days[1..], id, newName);
      assert days == [days[0]] + days[1..];
    }
  }

  /**
    The toggle button's handler: computes the toggled schedule from the days the app currently
    shows and passes it, once, to `updateDays`. The shown days themselves are not changed.
  */
  method ToggleRestDay(app: App, id: string, accepted: bool)
    requires app.Valid()
    modifies app
    ensures app.Valid() && app.user == old(app.user) && app.days == old(app.days)
    ensures old(app.user).None? ==> app.store == old(app.store) && app.writes == old(app.writes)
    ensures old(app.user).Some? ==>
              app.writes == old(app.writes) + [Write(old(app.user).value, DaysPayload(WithRestToggled(old(app.days), id)), true)]
    ensures old(app.user).Some? && accepted ==>
              app.store == ApplyWrite(old(app.store), Write(old(app.user).value, DaysPayload(WithRestToggled(old(app.days), id)), true))
    ensures !accepted ==> app.store == old(app.store)
  {
    var newDays := WithRestToggled(app.days, id);
    app.UpdateFirebaseDays(newDays, accepted);
  }

  /** The name field's handler: the same, with the renamed schedule. An empty name is passed on as is. */
  method RenameDay(app: App, id: string, newName: string, accepted: bool)
    requires app.Valid()
    modifies app
    ensures app.Valid() && app.user == old(app.user) && app.days == old(app.days)
    ensures old(app.user).None? ==> app.store == old(app.store) && app.writes == old(app.writes)
    ensures old(app.user).Some? ==>
              app.writes == old(app.writes) + [Write(old(app.user).value, DaysPayload(WithDayRenamed(old(app.days), id, newName)), true)]
    ensures old(app.user).Some? && accepted ==>
              app.store == ApplyWrite(old(app.store), Write(old(app.user).value, DaysPayload(WithDayRenamed(old(app.days), id, newName)), true))
    ensures !accepted ==> app.store == old(app.store)
  {
    var newDays := WithDayRenamed(app.days, id, newName);
    app.UpdateFirebaseDays(newDays, accepted);
  }
}
