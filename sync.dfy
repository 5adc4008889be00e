/**
  The local/remote synchronisation of the schedule, as the root component of the app does it:
  a local `days` cell, the signed-in user, a remote store holding one document per user id,
  and the log of writes the app has issued against that store.

  Snapshots and outbound updates arrive one at a time, as a sequential trace of method calls.
  A snapshot always shows the signed-in user's document as the store holds it at that moment.
*/
module Sync {
  import opened Wrappers
  import opened Schedule

  type Uid = string

  /** A field of a stored document: a schedule, or any other value with its truthiness. */
  datatype Value = ScheduleValue(days: seq<Day>) | Scalar(truthy: bool)

  /** A document is a map from field names to values; the store holds one per user id. */
  type Document = map<string, Value>
  type Store = map<Uid, Document>

  /** The one field the app reads and writes. */
  const DaysField: string := "days"

  /** A write the app issued: to the document of `uid`, either merging `payload` into it or replacing it. */
  datatype Write = Write(uid: Uid, payload: Document, merge: bool)

  /** The payload `{ days: days }`. */
  function DaysPayload(days: seq<Day>): Document
  {
    map[DaysField := ScheduleValue(days)]
  }

  /** The schedule a snapshot of `doc` hands to the app: present only when its `days` field holds one. */
  function SnapshotDays(doc: Document): (r: Option<seq<Day>>)
    ensures r.Some? <==> DaysField in doc && doc[DaysField].ScheduleValue?
    ensures r.Some? ==> doc[DaysField] == ScheduleValue(r.value)
  {
    if DaysField in doc && doc[DaysField].ScheduleValue? then Some(doc[DaysField].days) else None
  }

  /** Merge-write semantics: fields of the payload overwrite, every other field is kept. */
  function MergeFields(doc: Document, payload: Document): (r: Document)
    ensures r.Keys == doc.Keys + payload.Keys
    ensures forall k :: k in payload ==> r[k] == payload[k]
    ensures forall k :: k in doc && k !in payload ==> r[k] == doc[k]
  {
    doc + payload
  }

  /** The store after it accepts `w`; a merge write to a missing document creates it from the payload. */
  function ApplyWrite(store: Store, w: Write): (r: Store)
    ensures r.Keys == store.Keys + {w.uid}
    ensures forall u :: u in store && u != w.uid ==> r[u] == store[u]
    ensures forall k :: k in w.payload ==> k in r[w.uid] && r[w.uid][k] == w.payload[k]
    ensures w.merge && w.uid in store ==>
              forall k :: k in store[w.uid] && k !in w.payload ==> k in r[w.uid] && r[w.uid][k] == store[w.uid][k]
    ensures w.merge && w.uid in store ==> r[w.uid].Keys == store[w.uid].Keys + w.payload.Keys
    ensures !w.merge || w.uid !in store ==> r[w.uid] == w.payload
  {
    if w.merge && w.uid in store then store[w.uid := MergeFields(store[w.uid], w.payload)]
    else store[w.uid := w.payload]
  }

  /** No document and no field of `before` is missing from `after`. */
  ghost predicate KeepsFields(before: Store, after: Store)
  {
    forall u, k :: u in before && k in before[u] ==> u in after && k in after[u]
  }

  /** Accepting the same write twice leaves the store as accepting it once. */
  lemma ApplyWriteIdempotent(store: Store, w: Write)
    ensures ApplyWrite(ApplyWrite(store, w), w) == ApplyWrite(store, w)
  {
    var once := ApplyWrite(store, w);
    var twice := ApplyWrite(once, w);
    assert w.uid in once;
    assert twice[w.uid] == once[w.uid] by {
      if w.merge {
        assert twice[w.uid] == MergeFields(once[w.uid], w.payload);
      }
    }
  }

  /** A merge write never removes a document or a field of the store. */
  lemma MergeWriteKeepsFields(store: Store, w: Write)
    requires w.merge
    ensures KeepsFields(store, ApplyWrite(store, w))
  {
  }

  /** A write the app itself can issue: `{ days: d }`, and a replacing write only with the seed. */
  ghost predicate IssuedByApp(w: Write, seed: seq<Day>)
  {
    DaysField in w.payload && w.payload[DaysField].ScheduleValue? &&
    w.payload == DaysPayload(w.payload[DaysField].days) &&
    (!w.merge ==> w.payload[DaysField].days == seed)
  }

  /** The root component's state: the cells `user` and `days`, and the remote store it talks to. */
  class App {
    /** The seed schedule (`INITIAL_DAYS`) every new user starts from. */
    const initialDays: seq<Day>
    /** The signed-in user's id, if any. */
    var user: Option<Uid>
    /** The schedule the views render. */
    var days: seq<Day>
    /** The remote store, one document per user id. */
    var store: Store
    /** Every write issued so far, in order, whether or not the store accepted it. */
    var writes: seq<Write>

    /** The app writes only the `days` field, and replaces a document only with the seed. */
    ghost predicate Valid()
      reads this
    {
      forall i :: 0 <= i < |writes| ==> IssuedByApp(writes[i], initialDays)
    }

    /** Start-up: nobody signed in, the seed schedule shown, nothing written yet. */
    constructor (initialDays: seq<Day>, store: Store)
      ensures Valid()
      ensures this.initialDays == initialDays && days == initialDays
      ensures user == None && this.store == store && writes == []
    {
      this.initialDays := initialDays;
      user := None;
      days := initialDays;
      this.store := store;
      writes := [];
    }

    /** The session provider reports a (possibly absent) user; nothing else changes. */
    method SetUser(u: Option<Uid>)
      requires Valid()
      modifies this
      ensures Valid() && user == u
      ensures days == old(days) && store == old(store) && writes == old(writes)
    {
      user := u;
    }

    /**
      A snapshot of the signed-in user's document arrives. An existing document with a schedule
      in `days` replaces the local days; a missing one makes the app write the seed in its place.
      `accepted` is whether the store accepts that write.
    */
    method OnSnapshot(accepted: bool)
      requires Valid()
      modifies this
      ensures Valid() && user == old(user)
      ensures KeepsFields(old(store), store)
      ensures old(user).None? ==> days == old(days) && store == old(store) && writes == old(writes)
      ensures old(user).Some? && old(user).value in old(store) ==>
                store == old(store) && writes == old(writes) &&
                (SnapshotDays(old(store)[old(user).value]).Some? ==>
                   ScheduleValue(days) == old(store)[old(user).value][DaysField]) &&
                (SnapshotDays(old(store)[old(user).value]).None? ==> days == old(days))
      ensures old(user).Some? && old(user).value !in old(store) ==>
                days == old(days) &&
                writes == old(writes) + [Write(old(user).value, DaysPayload(initialDays), false)] &&
                store == if accepted then old(store)[old(user).value := DaysPayload(initialDays)] else old(store)
    {
      if user.Some? {
        var uid := user.value;
        if uid in store {
          var snap := SnapshotDays(store[uid]);
          if snap.Some? {
            days := snap.value;
          }
        } else {
          var w := Write(uid, DaysPayload(initialDays), false);
          writes := writes + [w];
          if accepted {
            store := ApplyWrite(store, w);
          }
        }
      }
    }

    /**
      The `updateDays` callback: with a user signed in, one merge write of `{ days: newDays }`
      to that user's document. The local days are left alone; a rejected write changes nothing.
    */
    method UpdateFirebaseDays(newDays: seq<Day>, accepted: bool)
      requires Valid()
      modifies this
      ensures Valid() && user == old(user) && days == old(days)
      ensures KeepsFields(old(store), store)
      ensures old(user).None? ==> store == old(store) && writes == old(writes)
      ensures old(user).Some? ==> writes == old(writes) + [Write(old(user).value, DaysPayload(newDays), true)]
      ensures old(user).Some? && accepted ==> store == ApplyWrite(old(store), Write(old(user).value, DaysPayload(newDays), true))
      ensures old(user).Some? && accepted ==>
                var uid := old(user).value;
                store.Keys == old(store).Keys + {uid} &&
                store[uid][DaysField] == ScheduleValue(newDays) &&
                (forall k :: uid in old(store) && k in old(store)[uid] && k != DaysField ==>
                   k in store[uid] && store[uid][k] == old(store)[uid][k]) &&
                (forall u :: u in old(store) && u != uid ==> store[u] == old(store)[u])
      ensures !accepted ==> store == old(store)
    {
      if user.Some? {
        var w := Write(user.value, DaysPayload(newDays), true);
        writes := writes + [w];
        if accepted {
          MergeWriteKeepsFields(store, w);
          store := ApplyWrite(store, w);
        }
      }
    }
  }
}
