/** The creations and deletions that a controller still waits for (pkg/controller/controller_utils.go,
    `ControllerExpectations` and `UIDTrackingControllerExpectations`). */
module Expectations {
  type Key = string
  type Uid = string

  /** ControlleeExpectations; `set_` is its timestamp. */
  datatype Counts = Counts(add: int, del: int, set_: int)

  /** ExpectationsTimeout, in seconds. */
  const EXPECTATIONS_TIMEOUT := 300

  /** The counters per controller, and the UIDs per controller. */
  datatype State = State(store: map<Key, Counts>, uids: map<Key, set<Uid>>)

  /** The first three are the operations of the UID tracking store.  The others go straight to the counters beneath it:
      SetExpectations (ExpectCreations is `Set(key, adds, 0, _)`), LowerExpectations (CreationObserved is
      `Lower(key, 1, 0)`) and RaiseExpectations. */
  datatype Step =
    | ExpectDeletions(key: Key, deleted: seq<Uid>, now: int)
    | DeletionObserved(key: Key, uid: Uid)
    | DeleteExpectations(key: Key)
    | Set(key: Key, add: int, del: int, now: int)
    | Lower(key: Key, add: int, del: int)
    | Raise(key: Key, add: int, del: int)

  function Awaited(s: State, key: Key): set<Uid> {
    if key in s.uids then s.uids[key] else {}
  }

  function Del(s: State, key: Key): int {
    if key in s.store then s.store[key].del else 0
  }

  function Added(store: map<Key, Counts>, key: Key, add: int, del: int): map<Key, Counts> {
    if key in store then store[key := Counts(store[key].add + add, store[key].del + del, store[key].set_)] else store
  }

  function Elements(uids: seq<Uid>): set<Uid> {
    set u | u in uids
  }

  function Next(s: State, step: Step): State {
    match step
    case ExpectDeletions(key, deleted, now) =>
      State(s.store[key := Counts(0, |Elements(deleted)|, now)], s.uids[key := Elements(deleted)])
    case DeletionObserved(key, uid) =>
      if uid in Awaited(s, key) then State(Added(s.store, key, 0, -1), s.uids[key := s.uids[key] - {uid}]) else s
    case DeleteExpectations(key) => State(s.store - {key}, s.uids - {key})
    case Set(key, add, del, now) => s.(store := s.store[key := Counts(add, del, now)])
    case Lower(key, add, del) => s.(store := Added(s.store, key, -add, -del))
    case Raise(key, add, del) => s.(store := Added(s.store, key, add, del))
  }

  const Init := State(map[], map[])

  predicate Fulfilled(counts: Counts) {
    counts.add <= 0 && counts.del <= 0
  }

  /** A controller waits as long as its expectations are neither fulfilled nor expired. */
  predicate Waits(s: State, key: Key, now: int) {
    key in s.store && !Fulfilled(s.store[key]) && now - s.store[key].set_ <= EXPECTATIONS_TIMEOUT
  }

  ghost predicate IsRun(states: seq<State>, steps: seq<Step>) {
    && |states| == |steps| + 1 && states[0] == Init
    && forall i :: 0 <= i < |steps| ==> states[i + 1] == Next(states[i], steps[i])
  }

  // ------------------------------------------------------------------ the counter is the number of awaited UIDs

  ghost predicate Exact(s: State, key: Key) {
    Del(s, key) == |Awaited(s, key)|
  }

  /** Whether a step leaves the delete counter alone where it bypasses the UID store. */
  ghost predicate Harmless(s: State, key: Key, step: Step) {
    step.key == key ==>
      match step
      case ExpectDeletions(_, _, _) => true
      case DeletionObserved(_, _) => true
      case DeleteExpectations(_) => true
      case Set(_, _, del, _) => del == |Awaited(s, key)|
      case Lower(_, _, del) => del == 0 || key !in s.store
      case Raise(_, _, del) => del == 0 || key !in s.store
  }

  /** A step keeps the counter exact if and only if it is harmless; the operations of the UID store always are. */
  lemma StepExact(s: State, key: Key, step: Step)
    requires Exact(s, key)
    ensures Exact(Next(s, step), key) <==> Harmless(s, key, step)
  {
  }

  lemma {:induction false} RunExact(states: seq<State>, steps: seq<Step>, key: Key, n: nat)
    requires IsRun(states, steps) && n <= |steps|
    requires forall i :: 0 <= i < n ==> Harmless(states[i], key, steps[i])
    ensures Exact(states[n], key)
  {
    if n > 0 {
      RunExact(states, steps, key, n - 1);
      StepExact(states[n - 1], key, steps[n - 1]);
    }
  }

  /** The controller announced the deletion of `uid`, and since then neither saw it, nor announced other deletions, nor
      dropped its expectations. */
  ghost predicate StillExpected(steps: seq<Step>, key: Key, uid: Uid) {
    exists i :: 0 <= i < |steps| && Announces(steps[i], key, uid) && NoEndAfter(steps, i, key, uid)
  }

  predicate NoEndAfter(steps: seq<Step>, i: int, key: Key, uid: Uid)
    requires -1 <= i
  {
    forall j :: i < j < |steps| ==> !Ends(steps[j], key, uid)
  }

  predicate Announces(step: Step, key: Key, uid: Uid) {
    step.ExpectDeletions? && step.key == key && uid in step.deleted
  }

  predicate Ends(step: Step, key: Key, uid: Uid) {
    && step.key == key
    && (step.ExpectDeletions? || step.DeleteExpectations? || (step.DeletionObserved? && step.uid == uid))
  }

  lemma StillExpectedStep(steps: seq<Step>, step: Step, key: Key, uid: Uid)
    ensures StillExpected(steps + [step], key, uid) <==>
            Announces(step, key, uid) || (StillExpected(steps, key, uid) && !Ends(step, key, uid))
  {
    var more := steps + [step];
    assert more[|steps|] == step;
    if StillExpected(steps, key, uid) && !Ends(step, key, uid) {
      var i :| 0 <= i < |steps| && Announces(steps[i], key, uid) && NoEndAfter(steps, i, key, uid);
      assert Announces(more[i], key, uid);
    }
    if StillExpected(more, key, uid) && !Announces(step, key, uid) {
      var i :| 0 <= i < |more| && Announces(more[i], key, uid) && NoEndAfter(more, i, key, uid);
      assert Announces(steps[i], key, uid);
      forall j | i < j < |steps| ensures !Ends(steps[j], key, uid) {
        assert more[j] == steps[j];
      }
    }
  }

  /** In every run, whatever is done to the counters, the awaited UIDs are those still expected. */
  lemma {:induction false} AwaitedIsExpected(states: seq<State>, steps: seq<Step>, key: Key, uid: Uid, n: nat)
    requires IsRun(states, steps) && n <= |steps|
    ensures uid in Awaited(states[n], key) <==> StillExpected(steps[..n], key, uid)
  {
    if n > 0 {
      AwaitedIsExpected(states, steps, key, uid, n - 1);
      StillExpectedStep(steps[..n - 1], steps[n - 1], key, uid);
      assert steps[..n] == steps[..n - 1] + [steps[n - 1]];
    }
  }

  /** In a run in which nothing else sets the delete counter, it is the number of announced deletions not seen yet, so
      it is never negative; and while the creations are seen and nothing expires, the controller is woken exactly when
      none is left. */
  lemma CounterIsExact(states: seq<State>, steps: seq<Step>, key: Key, n: nat, expected: set<Uid>)
    requires IsRun(states, steps) && n <= |steps|
    requires forall i :: 0 <= i < n ==> Harmless(states[i], key, steps[i])
    requires forall u :: u in expected <==> StillExpected(steps[..n], key, u)
    ensures Del(states[n], key) == |expected|
    ensures key in states[n].store && states[n].store[key].add <= 0 ==>
              (Fulfilled(states[n].store[key]) <==> expected == {})
  {
    RunExact(states, steps, key, n);
    forall u ensures u in expected <==> u in Awaited(states[n], key) {
      AwaitedIsExpected(states, steps, key, u, n);
    }
    assert expected == Awaited(states[n], key);
  }

  // ------------------------------------------------------------------ when a controller waits

  /** The step announces what the controller waits for from now on. */
  predicate Starts(step: Step, key: Key) {
    step.key == key && (step.Set? || step.ExpectDeletions?)
  }

  /** The creations that the step announces. */
  function Creations(step: Step): int
    requires step.Set? || step.ExpectDeletions?
  {
    if step.Set? then step.add else 0
  }

  /** Creations seen from step `from` to before step `n`, less those announced on top; one CreationObserved is one. */
  ghost function Seen(steps: seq<Step>, from: nat, n: nat, key: Key): int
    requires from <= n <= |steps|
  {
    if from == n then 0
    else
      var step := steps[n - 1];
      Seen(steps, from, n - 1, key) +
      if step.key != key then 0 else if step.Lower? then step.add else if step.Raise? then -step.add else 0
  }

  /** Step `from` announces, and until step `n` nothing is announced or dropped any more. */
  ghost predicate LastStart(steps: seq<Step>, from: nat, n: nat, key: Key) {
    && from < n <= |steps| && Starts(steps[from], key)
    && forall i :: from < i < n ==> !Starts(steps[i], key) && steps[i] != DeleteExpectations(key)
  }

  /** In every run the creation counter is what was announced last, less what was seen since, and the time is that of
      the announcement. */
  lemma {:induction false} CreationsAreExact(states: seq<State>, steps: seq<Step>, from: nat, n: nat, key: Key)
    requires IsRun(states, steps) && LastStart(steps, from, n, key)
    ensures key in states[n].store
    ensures states[n].store[key].add == Creations(steps[from]) - Seen(steps, from + 1, n, key)
    ensures states[n].store[key].set_ == steps[from].now
  {
    if from + 1 < n { CreationsAreExact(states, steps, from, n - 1, key); }
  }

  /** In a run in which nothing else sets the delete counter, the controller waits exactly as long as an announced
      creation or deletion is not seen yet and the announcement has not expired. */
  lemma WaitsIff(states: seq<State>, steps: seq<Step>, from: nat, n: nat, key: Key, expected: set<Uid>, now: int)
    requires IsRun(states, steps) && LastStart(steps, from, n, key)
    requires forall i :: 0 <= i < n ==> Harmless(states[i], key, steps[i])
    requires forall u :: u in expected <==> StillExpected(steps[..n], key, u)
    ensures Waits(states[n], key, now) <==>
            && (Seen(steps, from + 1, n, key) < Creations(steps[from]) || expected != {})
            && now - steps[from].now <= 5 * 60
  {
    CreationsAreExact(states, steps, from, n, key);
    CounterIsExact(states, steps, key, n, expected);
  }

  ghost predicate DroppedAfter(steps: seq<Step>, i: nat, n: nat, key: Key)
    requires n <= |steps|
  {
    exists j :: i < j < n && steps[j] == DeleteExpectations(key)
  }

  /** A controller that announced nothing, or dropped it, has no expectations and so never waits. */
  lemma {:induction false} NothingAnnounced(states: seq<State>, steps: seq<Step>, n: nat, key: Key)
    requires IsRun(states, steps) && n <= |steps|
    requires forall i :: 0 <= i < n && Starts(steps[i], key) ==> DroppedAfter(steps, i, n, key)
    ensures key !in states[n].store && forall now :: !Waits(states[n], key, now)
  {
    if n > 0 && steps[n - 1] != DeleteExpectations(key) {
      forall i | 0 <= i < n - 1 && Starts(steps[i], key) ensures DroppedAfter(steps, i, n - 1, key) {
        assert DroppedAfter(steps, i, n, key);
      }
      NothingAnnounced(states, steps, n - 1, key);
      assert !DroppedAfter(steps, n - 1, n, key);
    }
  }

  /** Announcing creations in between resets the counter: the deletion then takes it below zero. */
  lemma CreationsReset(key: Key, a: Uid)
    ensures var s := Next(Init, ExpectDeletions(key, [a], 0));
            var t := Next(s, Set(key, 1, 0, 0));
            && !Harmless(s, key, Set(key, 1, 0, 0))
            && Del(Next(t, DeletionObserved(key, a)), key) == -1
  {
    assert Elements([a]) == {a};
  }

  // ------------------------------------------------------------------ observing

  /** Seeing a deletion twice counts once, and a deletion that is not awaited does not count. */
  lemma ObservedTwice(s: State, key: Key, uid: Uid)
    ensures var once := Next(s, DeletionObserved(key, uid)); Next(once, DeletionObserved(key, uid)) == once
    ensures uid !in Awaited(Next(s, DeletionObserved(key, uid)), key)
    ensures uid !in Awaited(s, key) ==> Next(s, DeletionObserved(key, uid)) == s
  {
  }

  /** Deletions may be seen in any order. */
  lemma ObservedInAnyOrder(s: State, key: Key, uid: Uid, key': Key, uid': Uid)
    ensures Next(Next(s, DeletionObserved(key, uid)), DeletionObserved(key', uid')) ==
            Next(Next(s, DeletionObserved(key', uid')), DeletionObserved(key, uid))
  {
    var s1, s2 := Next(s, DeletionObserved(key, uid)), Next(s, DeletionObserved(key', uid'));
    if key == key' && uid == uid' {
    } else {
      OthersStay(s, key, uid, key', uid');
      OthersStay(s, key', uid', key, uid);
      if uid in Awaited(s, key) && uid' in Awaited(s, key') {
        var l, r := Next(s1, DeletionObserved(key', uid')), Next(s2, DeletionObserved(key, uid));
        assert l.store == r.store;
        if key == key' { assert s.uids[key] - {uid} - {uid'} == s.uids[key] - {uid'} - {uid}; }
        assert l.uids == r.uids;
      }
    }
  }

  lemma OthersStay(s: State, key: Key, uid: Uid, key': Key, uid': Uid)
    requires key != key' || uid != uid'
    ensures uid' in Awaited(Next(s, DeletionObserved(key, uid)), key') <==> uid' in Awaited(s, key')
  {
  }

  // ------------------------------------------------------------------ the code

  class UIDTrackingControllerExpectations {
    var store: map<Key, Counts>
    var uidStore: map<Key, set<Uid>>

    ghost function View(): State
      reads this
    {
      State(store, uidStore)
    }

    constructor ()
      ensures View() == Init
    {
      store, uidStore := map[], map[];
    }

    method SatisfiedExpectations(key: Key, now: int) returns (ok: bool)
      ensures ok <==> !Waits(View(), key, now)
    {
      if key in store {
        if Fulfilled(store[key]) { return true; }
        if now - store[key].set_ > EXPECTATIONS_TIMEOUT { return true; }
        return false;
      }
      return true;
    }

    method SetExpectations(key: Key, add: int, del: int, now: int)
      modifies this
      ensures View() == Next(old(View()), Set(key, add, del, now))
    {
      store := store[key := Counts(add, del, now)];
    }

    method LowerExpectations(key: Key, add: int, del: int)
      modifies this
      ensures View() == Next(old(View()), Lower(key, add, del))
    {
      if key in store {
        var counts := store[key];
        store := store[key := counts.(add := counts.add - add, del := counts.del - del)];
      }
    }

    method RaiseExpectations(key: Key, add: int, del: int)
      modifies this
      ensures View() == Next(old(View()), Raise(key, add, del))
    {
      if key in store {
        var counts := store[key];
        store := store[key := counts.(add := counts.add + add, del := counts.del + del)];
      }
    }

    method ExpectCreations(key: Key, adds: int, now: int)
      modifies this
      ensures View() == Next(old(View()), Set(key, adds, 0, now))
    {
      SetExpectations(key, adds, 0, now);
    }

    method CreationObserved(key: Key)
      modifies this
      ensures View() == Next(old(View()), Lower(key, 1, 0))
    {
      LowerExpectations(key, 1, 0);
    }

    method GetUIDs(key: Key) returns (uids: set<Uid>)
      ensures uids == Awaited(View(), key)
    {
      if key in uidStore { return uidStore[key]; }
      return {};
    }

    /** A UID that is listed twice is awaited once. */
    method ExpectUIDDeletions(key: Key, deleted: seq<Uid>, now: int)
      modifies this
      ensures View() == Next(old(View()), ExpectDeletions(key, deleted, now))
    {
      var expected: set<Uid> := {};
      for i := 0 to |deleted|
        invariant expected == Elements(deleted[..i])
      {
        assert deleted[..i + 1] == deleted[..i] + [deleted[i]];
        expected := expected + {deleted[i]};
      }
      assert deleted[..|deleted|] == deleted;
      uidStore := uidStore[key := expected];
      SetExpectations(key, 0, |expected|, now);
    }

    method UIDDeletionObserved(key: Key, uid: Uid)
      modifies this
      ensures View() == Next(old(View()), DeletionObserved(key, uid))
    {
      var uids := GetUIDs(key);
      if uid in uids {
        LowerExpectations(key, 0, 1);
        uidStore := uidStore[key := uids - {uid}];
      }
    }

    method DeleteAllExpectations(key: Key)
      modifies this
      ensures View() == Next(old(View()), DeleteExpectations(key))
    {
      store := store - {key};
      uidStore := uidStore - {key};
    }
  }
}
