/** The scheduler's assume-then-bind protocol (pkg/scheduler/scheduler.go) over its cache
    (pkg/scheduler/internal/cache/cache.go).

    scheduleOne is serial up to the point where it starts a bind goroutine; from there on, any number of goroutines
    interleave with each other, with scheduling, with the watch that feeds the cache, and with cache expiry. */
module Scheduler {

  type Pod = string
  type Host = string

  /** Whether a set of pods fits on a host: resources, ports, and whatever else of Algorithm.Schedule cannot be hurt by
      fewer pods. */
  type Fit = (Host, set<Pod>) -> bool

  ghost predicate FitShrinks(fits: Fit) {
    && (forall h :: fits(h, {}))
    && (forall h, a, b :: a <= b && fits(h, b) ==> fits(h, a))
  }

  // ------------------------------------------------------------------ the cache

  /** podState and membership in assumedPods; `finished` is bindingFinished. */
  datatype Entry = Entry(host: Host, assumed: bool, finished: bool)

  type Cache = map<Pod, Entry>

  function WithAssumed(cache: Cache, p: Pod, h: Host): Cache {
    if p in cache then cache else cache[p := Entry(h, true, false)]
  }

  function WithFinished(cache: Cache, p: Pod): Cache {
    if p in cache && cache[p].assumed then cache[p := cache[p].(finished := true)] else cache
  }

  predicate CanForget(cache: Cache, p: Pod, h: Host) {
    p in cache && cache[p].host == h && cache[p].assumed
  }

  function WithForgotten(cache: Cache, p: Pod, h: Host): Cache {
    if CanForget(cache, p, h) then cache - {p} else cache
  }

  /** The watch saw the pod on its host: confirm it, move it, or add it back after it expired. */
  function WithAdded(cache: Cache, p: Pod, h: Host): Cache {
    if p in cache && !cache[p].assumed then cache
    else cache[p := Entry(h, false, p in cache && cache[p].finished)]
  }

  function WithRemoved(cache: Cache, p: Pod): Cache {
    if p in cache && !cache[p].assumed then cache - {p} else cache
  }

  predicate CanExpire(cache: Cache, p: Pod) {
    p in cache && cache[p].assumed && cache[p].finished
  }

  // ------------------------------------------------------------------ the protocol

  /** Where one pod taken from the queue is.  Up to Reserving the pod is in the serial part of scheduleOne. */
  datatype Phase =
    | Taken
    | Chosen(host: Host)
    | Reserving(host: Host, allBound: bool)
    | BindingVolumes(host: Host)
    | Binding(host: Host)
    | Finishing(host: Host, ok: bool)
    | Forgetting(host: Host)
    | Reporting
    | Bound
    | HandedBack
    | Skipped

  datatype Attempt = Attempt(pod: Pod, phase: Phase)

  /** What an attempt made happen: a reservation, a successful bind, a request to leave the cache, a call of the error
      handler. */
  datatype Deed = Assumed | BoundOk | AskedToLeave | Errored

  datatype Outcome = Outcome(i: nat, deed: Deed)

  /** `bound` holds every binding the API server ever accepted, `dead` the pods deleted there, and `removed` those
      whose deletion the watch has delivered. */
  datatype State = State(cache: Cache, attempts: seq<Attempt>, bound: map<Pod, Host>, dead: set<Pod>, removed: set<Pod>,
                         log: seq<Outcome>)

  /** A bind call may succeed, fail, or fail for the caller although the server accepted it. */
  datatype BindResult = BindOk | BindFailed | BindFailedButApplied

  datatype Action =
    | Take(pod: Pod, deleting: bool)
    | ScheduleFails(i: nat)
    | ScheduleOk(i: nat, host: Host)
    | VolumesFail(i: nat)
    | VolumesOk(i: nat, allBound: bool)
    | Assume(i: nat)
    | BindVolumesFails(i: nat)
    | BindVolumesOk(i: nat)
    | Bind(i: nat, result: BindResult)
    | Finish(i: nat)
    | Forget(i: nat)
    | Report(i: nat)
    | WatchAdd(pod: Pod)
    | WatchRemove(pod: Pod)
    | Delete(pod: Pod)
    | Expire(pod: Pod)

  const Init := State(map[], [], map[], {}, {}, [])

  predicate Serial(phase: Phase) {
    phase.Taken? || phase.Chosen? || phase.Reserving?
  }

  predicate BeingBound(phase: Phase) {
    phase.BindingVolumes? || phase.Binding?
  }

  predicate Done(phase: Phase) {
    phase.Bound? || phase.HandedBack? || phase.Skipped?
  }

  function CachedOn(s: State, h: Host): set<Pod> {
    set p | p in s.cache && s.cache[p].host == h
  }

  /** Bound, and not yet seen to be gone. */
  predicate Held(s: State, p: Pod) {
    p in s.bound && p !in s.removed
  }

  predicate Enabled(fits: Fit, s: State, a: Action) {
    match a
    case Take(_, _) => forall i :: 0 <= i < |s.attempts| ==> !Serial(s.attempts[i].phase)
    case ScheduleFails(i) => i < |s.attempts| && s.attempts[i].phase.Taken?
    case ScheduleOk(i, h) =>
      i < |s.attempts| && s.attempts[i].phase.Taken? && fits(h, CachedOn(s, h) + {s.attempts[i].pod})
    case VolumesFail(i) => i < |s.attempts| && s.attempts[i].phase.Chosen?
    case VolumesOk(i, _) => i < |s.attempts| && s.attempts[i].phase.Chosen?
    case Assume(i) => i < |s.attempts| && s.attempts[i].phase.Reserving?
    case BindVolumesFails(i) => i < |s.attempts| && s.attempts[i].phase.BindingVolumes?
    case BindVolumesOk(i) => i < |s.attempts| && s.attempts[i].phase.BindingVolumes?
    case Bind(i, result) =>
      && i < |s.attempts| && s.attempts[i].phase.Binding?
      && (result != BindFailed ==> s.attempts[i].pod !in s.bound && s.attempts[i].pod !in s.dead)
    case Finish(i) => i < |s.attempts| && s.attempts[i].phase.Finishing?
    case Forget(i) => i < |s.attempts| && s.attempts[i].phase.Forgetting?
    case Report(i) => i < |s.attempts| && s.attempts[i].phase.Reporting?
    case WatchAdd(p) => Held(s, p)
    case WatchRemove(p) => p in s.bound && p in s.dead && p !in s.removed
    case Delete(p) => p !in s.dead
    case Expire(p) => CanExpire(s.cache, p)
  }

  function To(s: State, i: nat, phase: Phase): State
    requires i < |s.attempts|
  {
    s.(attempts := s.attempts[i := s.attempts[i].(phase := phase)])
  }

  function Logged(s: State, o: Outcome): State {
    s.(log := s.log + [o])
  }

  function Next(fits: Fit, s: State, a: Action): State
    requires Enabled(fits, s, a)
  {
    match a
    case Take(p, deleting) => s.(attempts := s.attempts + [Attempt(p, if deleting then Skipped else Taken)])
    case ScheduleFails(i) => Logged(To(s, i, HandedBack), Outcome(i, Errored))
    case ScheduleOk(i, h) => To(s, i, Chosen(h))
    case VolumesFail(i) => Logged(To(s, i, HandedBack), Outcome(i, Errored))
    case VolumesOk(i, allBound) => To(s, i, Reserving(s.attempts[i].phase.host, allBound))
    case Assume(i) =>
      var Attempt(p, Reserving(h, allBound)) := s.attempts[i];
      if p in s.cache then Logged(To(s, i, HandedBack), Outcome(i, Errored))
      else
        var t := To(s, i, if allBound then Binding(h) else BindingVolumes(h));
        Logged(t, Outcome(i, Assumed)).(cache := WithAssumed(s.cache, p, h))
    case BindVolumesFails(i) => To(s, i, Forgetting(s.attempts[i].phase.host))
    case BindVolumesOk(i) => To(s, i, Binding(s.attempts[i].phase.host))
    case Bind(i, result) =>
      var Attempt(p, Binding(h)) := s.attempts[i];
      To(s, i, Finishing(h, result == BindOk)).(bound := if result == BindFailed then s.bound else s.bound[p := h])
    case Finish(i) =>
      var Attempt(p, Finishing(h, ok)) := s.attempts[i];
      var t := s.(cache := WithFinished(s.cache, p));
      if ok then Logged(To(t, i, Bound), Outcome(i, BoundOk)) else To(t, i, Forgetting(h))
    case Forget(i) =>
      var Attempt(p, Forgetting(h)) := s.attempts[i];
      Logged(To(s, i, Reporting), Outcome(i, AskedToLeave)).(cache := WithForgotten(s.cache, p, h))
    case Report(i) => Logged(To(s, i, HandedBack), Outcome(i, Errored))
    case WatchAdd(p) => s.(cache := WithAdded(s.cache, p, s.bound[p]))
    case WatchRemove(p) => s.(cache := WithRemoved(s.cache, p), removed := s.removed + {p})
    case Delete(p) => s.(dead := s.dead + {p})
    case Expire(p) => s.(cache := s.cache - {p})
  }

  // ------------------------------------------------------------------ reservations

  ghost predicate Reserved(s: State, p: Pod, h: Host) {
    p in s.cache && s.cache[p].host == h
  }

  /** Each pod being bound or already bound is in the cache on its host. */
  ghost predicate Covered(s: State) {
    && (forall p :: Held(s, p) ==> Reserved(s, p, s.bound[p]))
    && (forall i :: 0 <= i < |s.attempts| && BeingBound(s.attempts[i].phase) ==>
          Reserved(s, s.attempts[i].pod, s.attempts[i].phase.host))
  }

  /** The pods that use or are about to use the host. */
  ghost function Committed(s: State, h: Host): set<Pod> {
    (set p | p in s.bound && Held(s, p) && s.bound[p] == h)
    + (set i | 0 <= i < |s.attempts| && BeingBound(s.attempts[i].phase) && s.attempts[i].phase.host == h
         :: s.attempts[i].pod)
  }

  /** A pod on its way to a host owns an assumed entry, is not bound already, and is on its way only once. */
  ghost predicate Exclusive(s: State) {
    && (forall i :: 0 <= i < |s.attempts| && BeingBound(s.attempts[i].phase) ==>
          Reserved(s, s.attempts[i].pod, s.attempts[i].phase.host) && s.cache[s.attempts[i].pod].assumed &&
          !Held(s, s.attempts[i].pod))
    && (forall i, j :: 0 <= i < j < |s.attempts| && BeingBound(s.attempts[i].phase) &&
                       BeingBound(s.attempts[j].phase) ==>
          s.attempts[i].pod != s.attempts[j].pod)
  }

  ghost predicate OneSerial(s: State) {
    forall i :: 0 <= i < |s.attempts| && Serial(s.attempts[i].phase) ==> i == |s.attempts| - 1
  }

  ghost predicate Roomy(fits: Fit, s: State) {
    && (forall h :: fits(h, CachedOn(s, h)))
    && (forall i :: 0 <= i < |s.attempts| && (s.attempts[i].phase.Chosen? || s.attempts[i].phase.Reserving?) ==>
          fits(s.attempts[i].phase.host, CachedOn(s, s.attempts[i].phase.host) + {s.attempts[i].pod}))
  }

  ghost predicate Inv(fits: Fit, s: State) {
    Covered(s) && Exclusive(s) && OneSerial(s) && Roomy(fits, s)
  }

  /** The step takes a pod out of the cache that is bound, or that some other attempt is binding. */
  ghost predicate LossStep(s: State, a: Action) {
    match a
    case Expire(p) => Held(s, p) || exists i :: 0 <= i < |s.attempts| && Binds(s, i, p)
    case Forget(i) =>
      i < |s.attempts| && s.attempts[i].phase.Forgetting? &&
      CanForget(s.cache, s.attempts[i].pod, s.attempts[i].phase.host) &&
      (Held(s, s.attempts[i].pod) || exists j :: 0 <= j < |s.attempts| && Binds(s, j, s.attempts[i].pod))
    case _ => false
  }

  ghost predicate Binds(s: State, i: nat, p: Pod)
    requires i < |s.attempts|
  {
    s.attempts[i].pod == p && BeingBound(s.attempts[i].phase)
  }

  // ---- steps that only shrink the cached sets keep the room

  lemma ShrinkKeepsRoom(fits: Fit, s: State, s': State)
    requires FitShrinks(fits) && Roomy(fits, s)
    requires forall h :: CachedOn(s', h) <= CachedOn(s, h)
    requires forall i :: 0 <= i < |s'.attempts| && (s'.attempts[i].phase.Chosen? || s'.attempts[i].phase.Reserving?) ==>
               i < |s.attempts| && (s.attempts[i].phase.Chosen? || s.attempts[i].phase.Reserving?) &&
               s'.attempts[i].phase.host == s.attempts[i].phase.host && s'.attempts[i].pod == s.attempts[i].pod
    ensures Roomy(fits, s')
  {
    forall h ensures fits(h, CachedOn(s', h)) {
      assert CachedOn(s', h) <= CachedOn(s, h) && fits(h, CachedOn(s, h));
    }
    forall i | 0 <= i < |s'.attempts| && (s'.attempts[i].phase.Chosen? || s'.attempts[i].phase.Reserving?)
      ensures fits(s'.attempts[i].phase.host, CachedOn(s', s'.attempts[i].phase.host) + {s'.attempts[i].pod})
    {
      var h := s.attempts[i].phase.host;
      assert CachedOn(s', h) + {s.attempts[i].pod} <= CachedOn(s, h) + {s.attempts[i].pod};
    }
  }

  lemma SerialKeeps(fits: Fit, s: State, a: Action)
    requires FitShrinks(fits) && Inv(fits, s) && Enabled(fits, s, a)
    requires a.Take? || a.ScheduleFails? || a.VolumesFail? || a.VolumesOk?
    ensures Inv(fits, Next(fits, s, a))
  {
    var s' := Next(fits, s, a);
    assert forall h :: CachedOn(s', h) == CachedOn(s, h);
    ShrinkKeepsRoom(fits, s, s');
  }

  lemma ChooseKeeps(fits: Fit, s: State, i: nat, h: Host)
    requires FitShrinks(fits) && Inv(fits, s) && Enabled(fits, s, ScheduleOk(i, h))
    ensures Inv(fits, Next(fits, s, ScheduleOk(i, h)))
  {
    var s' := Next(fits, s, ScheduleOk(i, h));
    assert forall k :: CachedOn(s', k) == CachedOn(s, k);
  }

  lemma AssumeKeeps(fits: Fit, s: State, i: nat)
    requires FitShrinks(fits) && Inv(fits, s) && Enabled(fits, s, Assume(i))
    ensures Inv(fits, Next(fits, s, Assume(i)))
  {
    var s' := Next(fits, s, Assume(i));
    var Attempt(p, Reserving(h, allBound)) := s.attempts[i];
    if p in s.cache {
      assert forall k :: CachedOn(s', k) == CachedOn(s, k);
      ShrinkKeepsRoom(fits, s, s');
    } else {
      assert forall k :: CachedOn(s', k) == if k == h then CachedOn(s, h) + {p} else CachedOn(s, k);
    }
  }

  lemma BindKeeps(fits: Fit, s: State, i: nat, result: BindResult)
    requires FitShrinks(fits) && Inv(fits, s) && Enabled(fits, s, Bind(i, result))
    ensures Inv(fits, Next(fits, s, Bind(i, result)))
  {
    var s' := Next(fits, s, Bind(i, result));
    assert forall h :: CachedOn(s', h) == CachedOn(s, h);
    ShrinkKeepsRoom(fits, s, s');
  }

  lemma GoroutineKeeps(fits: Fit, s: State, a: Action)
    requires FitShrinks(fits) && Inv(fits, s) && Enabled(fits, s, a)
    requires a.BindVolumesFails? || a.BindVolumesOk? || a.Report?
    ensures Inv(fits, Next(fits, s, a))
  {
    var s' := Next(fits, s, a);
    assert forall h :: CachedOn(s', h) == CachedOn(s, h);
    ShrinkKeepsRoom(fits, s, s');
  }

  lemma FinishKeeps(fits: Fit, s: State, i: nat)
    requires FitShrinks(fits) && Inv(fits, s) && Enabled(fits, s, Finish(i))
    ensures Inv(fits, Next(fits, s, Finish(i)))
  {
    var s' := Next(fits, s, Finish(i));
    assert forall h :: CachedOn(s', h) == CachedOn(s, h);
    ShrinkKeepsRoom(fits, s, s');
  }

  lemma ForgetKeeps(fits: Fit, s: State, i: nat)
    requires FitShrinks(fits) && Inv(fits, s) && Enabled(fits, s, Forget(i)) && !LossStep(s, Forget(i))
    ensures Inv(fits, Next(fits, s, Forget(i)))
  {
    var s' := Next(fits, s, Forget(i));
    var p := s.attempts[i].pod;
    forall j | 0 <= j < |s.attempts| && BeingBound(s.attempts[j].phase)
      ensures CanForget(s.cache, p, s.attempts[i].phase.host) ==> s.attempts[j].pod != p
    {
      assert !Binds(s, j, p) || !CanForget(s.cache, p, s.attempts[i].phase.host);
    }
    ShrinkKeepsRoom(fits, s, s');
  }

  lemma WatchKeeps(fits: Fit, s: State, a: Action)
    requires FitShrinks(fits) && Inv(fits, s) && Enabled(fits, s, a)
    requires a.WatchAdd? || a.WatchRemove? || a.Delete?
    ensures Inv(fits, Next(fits, s, a))
  {
    var s' := Next(fits, s, a);
    ShrinkKeepsRoom(fits, s, s');
  }

  lemma ExpireKeeps(fits: Fit, s: State, p: Pod)
    requires FitShrinks(fits) && Inv(fits, s) && Enabled(fits, s, Expire(p)) && !LossStep(s, Expire(p))
    ensures Inv(fits, Next(fits, s, Expire(p)))
  {
    var s' := Next(fits, s, Expire(p));
    forall j | 0 <= j < |s.attempts| && BeingBound(s.attempts[j].phase) ensures s.attempts[j].pod != p {
      assert !Binds(s, j, p);
    }
    ShrinkKeepsRoom(fits, s, s');
  }

  lemma StepKeeps(fits: Fit, s: State, a: Action)
    requires FitShrinks(fits) && Inv(fits, s) && Enabled(fits, s, a) && !LossStep(s, a)
    ensures Inv(fits, Next(fits, s, a))
  {
    match a
    case ScheduleOk(i, h) => ChooseKeeps(fits, s, i, h);
    case Assume(i) => AssumeKeeps(fits, s, i);
    case Bind(i, result) => BindKeeps(fits, s, i, result);
    case Finish(i) => FinishKeeps(fits, s, i);
    case Forget(i) => ForgetKeeps(fits, s, i);
    case Expire(p) => ExpireKeeps(fits, s, p);
    case _ =>
      if a.Take? || a.ScheduleFails? || a.VolumesFail? || a.VolumesOk? { SerialKeeps(fits, s, a); }
      else if a.WatchAdd? || a.WatchRemove? || a.Delete? { WatchKeeps(fits, s, a); }
      else { GoroutineKeeps(fits, s, a); }
  }

  // ------------------------------------------------------------------ whole runs

  ghost predicate IsRun(fits: Fit, states: seq<State>, actions: seq<Action>) {
    && |states| == |actions| + 1
    && states[0] == Init
    && forall i :: 0 <= i < |actions| ==>
         Enabled(fits, states[i], actions[i]) && states[i + 1] == Next(fits, states[i], actions[i])
  }

  ghost predicate NoLoss(states: seq<State>, actions: seq<Action>, n: nat)
    requires n <= |actions| <= |states|
  {
    forall i :: 0 <= i < n ==> !LossStep(states[i], actions[i])
  }

  lemma {:induction false} RunKeeps(fits: Fit, states: seq<State>, actions: seq<Action>, n: nat)
    requires FitShrinks(fits) && IsRun(fits, states, actions) && n < |states| && NoLoss(states, actions, n)
    ensures Inv(fits, states[n])
  {
    if n == 0 {
      assert forall h :: CachedOn(Init, h) == {};
    } else {
      RunKeeps(fits, states, actions, n - 1);
      StepKeeps(fits, states[n - 1], actions[n - 1]);
    }
  }

  /** As long as no reservation was lost, in every interleaving every pod bound or being bound is in the cache on its
      host, and what is committed to each host fits there. */
  lemma {:induction false} NeverOvercommitted(fits: Fit, states: seq<State>, actions: seq<Action>, n: nat, h: Host)
    requires FitShrinks(fits) && IsRun(fits, states, actions) && n < |states| && NoLoss(states, actions, n)
    ensures Covered(states[n])
    ensures fits(h, Committed(states[n], h))
  {
    RunKeeps(fits, states, actions, n);
    var s := states[n];
    assert Committed(s, h) <= CachedOn(s, h);
  }

  /** The condition is exact: from a state reached without loss, a step keeps every bound pod covered if and only if it
      is not a loss step. */
  lemma {:induction false} CoveredIffNoLoss(fits: Fit, states: seq<State>, actions: seq<Action>, n: nat)
    requires FitShrinks(fits) && IsRun(fits, states, actions) && n < |actions| && NoLoss(states, actions, n)
    ensures Covered(states[n + 1]) <==> !LossStep(states[n], actions[n])
  {
    RunKeeps(fits, states, actions, n);
    if LossStep(states[n], actions[n]) {
      LossUncovers(fits, states[n], actions[n]);
    } else {
      StepKeeps(fits, states[n], actions[n]);
    }
  }

  lemma LossUncovers(fits: Fit, s: State, a: Action)
    requires Inv(fits, s) && Enabled(fits, s, a) && LossStep(s, a)
    ensures !Covered(Next(fits, s, a))
  {
    var s' := Next(fits, s, a);
    var p := if a.Expire? then a.pod else s.attempts[a.i].pod;
    assert p !in s'.cache;
    if Held(s, p) {
      assert Held(s', p);
    } else {
      var i :| 0 <= i < |s.attempts| && Binds(s, i, p);
      assert s'.attempts[i] == s.attempts[i];
    }
  }

  // ------------------------------------------------------------------ what loses a reservation

  /** The three things that the surroundings must not do: let the entry of a bound pod expire before the watch confirms
      it, report as failed a bind that the server accepted, and start on a pod that is still being worked on. */
  ghost predicate Benign(s: State, a: Action) {
    match a
    case Expire(p) => !Held(s, p)
    case Bind(_, result) => result != BindFailedButApplied
    case Take(p, _) => forall i :: 0 <= i < |s.attempts| && s.attempts[i].pod == p ==> Done(s.attempts[i].phase)
    case _ => true
  }

  predicate OnTheWayOut(phase: Phase) {
    phase.Forgetting? || (phase.Finishing? && !phase.ok)
  }

  /** One attempt at a time per pod. */
  ghost predicate OneAtATime(s: State) {
    forall i, j :: 0 <= i < j < |s.attempts| && s.attempts[i].pod == s.attempts[j].pod ==> Done(s.attempts[i].phase)
  }

  /** What is to be forgotten is not bound. */
  ghost predicate OutIsNotHeld(s: State) {
    forall i :: 0 <= i < |s.attempts| && OnTheWayOut(s.attempts[i].phase) ==> !Held(s, s.attempts[i].pod)
  }

  /** What is being bound cannot expire. */
  ghost predicate BindingIsUnfinished(s: State) {
    forall i :: 0 <= i < |s.attempts| && BeingBound(s.attempts[i].phase) && s.attempts[i].pod in s.cache ==>
      !s.cache[s.attempts[i].pod].finished
  }

  ghost predicate Orderly(s: State) {
    OneAtATime(s) && OutIsNotHeld(s) && BindingIsUnfinished(s)
  }

  lemma OrderlyLosesNothing(fits: Fit, s: State, a: Action)
    requires Orderly(s) && Enabled(fits, s, a) && Benign(s, a)
    ensures !LossStep(s, a)
  {
  }

  lemma StepOneAtATime(fits: Fit, s: State, a: Action)
    requires OneAtATime(s) && Enabled(fits, s, a) && Benign(s, a)
    ensures OneAtATime(Next(fits, s, a))
  {
    var s' := Next(fits, s, a);
    forall i, j | 0 <= i < j < |s'.attempts| && s'.attempts[i].pod == s'.attempts[j].pod
      ensures Done(s'.attempts[i].phase)
    {
      OthersStep(fits, s, a, i);
    }
  }

  /** A pod becomes held only by its own attempt, which is then not on the way out, nor is another one of that pod. */
  lemma StepOutIsNotHeld(fits: Fit, s: State, a: Action)
    requires OneAtATime(s) && OutIsNotHeld(s) && Exclusive(s) && Enabled(fits, s, a) && Benign(s, a)
    ensures OutIsNotHeld(Next(fits, s, a))
  {
    var s' := Next(fits, s, a);
    forall i | 0 <= i < |s'.attempts| && OnTheWayOut(s'.attempts[i].phase) ensures !Held(s', s'.attempts[i].pod) {
      if Advances(a, i) {
        assert s.attempts[i].pod == s'.attempts[i].pod;
      } else {
        OthersStep(fits, s, a, i);
      }
    }
  }

  lemma StepBindingIsUnfinished(fits: Fit, s: State, a: Action)
    requires OneAtATime(s) && BindingIsUnfinished(s) && Exclusive(s) && Enabled(fits, s, a) && Benign(s, a)
    ensures BindingIsUnfinished(Next(fits, s, a))
  {
    var s' := Next(fits, s, a);
    forall i | 0 <= i < |s'.attempts| && BeingBound(s'.attempts[i].phase) && s'.attempts[i].pod in s'.cache
      ensures !s'.cache[s'.attempts[i].pod].finished
    {
      if !Advances(a, i) {
        OthersStep(fits, s, a, i);
      }
    }
  }

  lemma StepOrderly(fits: Fit, s: State, a: Action)
    requires Inv(fits, s) && Orderly(s) && Enabled(fits, s, a) && Benign(s, a)
    ensures Orderly(Next(fits, s, a))
  {
    StepOneAtATime(fits, s, a);
    StepOutIsNotHeld(fits, s, a);
    StepBindingIsUnfinished(fits, s, a);
  }

  lemma {:induction false} BenignLosesNothing(fits: Fit, states: seq<State>, actions: seq<Action>, n: nat)
    requires FitShrinks(fits) && IsRun(fits, states, actions) && n < |states|
    requires forall i :: 0 <= i < n ==> Benign(states[i], actions[i])
    ensures NoLoss(states, actions, n) && Inv(fits, states[n]) && Orderly(states[n])
  {
    if n == 0 {
      RunKeeps(fits, states, actions, 0);
    } else {
      BenignLosesNothing(fits, states, actions, n - 1);
      OrderlyLosesNothing(fits, states[n - 1], actions[n - 1]);
      StepOrderly(fits, states[n - 1], actions[n - 1]);
      RunKeeps(fits, states, actions, n);
    }
  }

  /** In every interleaving in which the surroundings are benign, no host is over-committed. */
  lemma BenignNeverOvercommits(fits: Fit, states: seq<State>, actions: seq<Action>, n: nat, h: Host)
    requires FitShrinks(fits) && IsRun(fits, states, actions) && n < |states|
    requires forall i :: 0 <= i < n ==> Benign(states[i], actions[i])
    ensures Covered(states[n]) && fits(h, Committed(states[n], h))
  {
    BenignLosesNothing(fits, states, actions, n);
    NeverOvercommitted(fits, states, actions, n, h);
  }

  /** The watch never reports the end of a pod on another node than the cache has it on, which would be fatal. */
  lemma RemovalsAgree(fits: Fit, states: seq<State>, actions: seq<Action>, n: nat)
    requires FitShrinks(fits) && IsRun(fits, states, actions) && n < |actions| && NoLoss(states, actions, n)
    requires actions[n].WatchRemove?
    ensures Reserved(states[n], actions[n].pod, states[n].bound[actions[n].pod])
  {
    RunKeeps(fits, states, actions, n);
  }

  // ------------------------------------------------------------------ what is cached is cached for a reason

  /** The attempt is binding the pod to the host, or has yet to finish or undo that. */
  ghost predicate OnItsWay(s: State, i: nat, p: Pod, h: Host) {
    && i < |s.attempts| && s.attempts[i].pod == p
    && match s.attempts[i].phase
       case BindingVolumes(k) => k == h
       case Binding(k) => k == h
       case Finishing(k, _) => k == h
       case Forgetting(k) => k == h
       case _ => false
  }

  /** A confirmed entry is of a bound pod on its host; an assumed one is of a pod on its way there, or of one that got
      there and may expire. */
  ghost predicate Justified(s: State, p: Pod) {
    p in s.cache ==>
      if s.cache[p].assumed then (s.cache[p].finished && p in s.bound) || exists i :: OnItsWay(s, i, p, s.cache[p].host)
      else Held(s, p) && s.bound[p] == s.cache[p].host
  }

  /** What is to be finished as a success is bound. */
  ghost predicate SuccessIsBound(s: State) {
    forall i :: 0 <= i < |s.attempts| && s.attempts[i].phase.Finishing? && s.attempts[i].phase.ok ==>
      s.attempts[i].pod in s.bound
  }

  lemma StepSuccessIsBound(fits: Fit, s: State, a: Action)
    requires SuccessIsBound(s) && Enabled(fits, s, a)
    ensures SuccessIsBound(Next(fits, s, a))
  {
  }

  /** An attempt on its way stays so, or the entry becomes one that may expire, or it is gone. */
  lemma StepOnItsWay(fits: Fit, s: State, a: Action, i: nat, p: Pod, h: Host)
    requires SuccessIsBound(s) && Enabled(fits, s, a) && OnItsWay(s, i, p, h)
    requires Reserved(s, p, h) && s.cache[p].assumed
    ensures var s' := Next(fits, s, a);
            p in s'.cache && s'.cache[p].assumed ==>
              s'.cache[p].host == h && (OnItsWay(s', i, p, h) || (s'.cache[p].finished && p in s'.bound))
  {
  }

  lemma StepJustified(fits: Fit, s: State, a: Action, p: Pod)
    requires SuccessIsBound(s) && Justified(s, p) && Enabled(fits, s, a)
    ensures Justified(Next(fits, s, a), p)
  {
    var s' := Next(fits, s, a);
    if p in s.cache && s.cache[p].assumed && !(s.cache[p].finished && p in s.bound) {
      var i :| OnItsWay(s, i, p, s.cache[p].host);
      StepOnItsWay(fits, s, a, i, p, s.cache[p].host);
    }
    if a.Assume? && s.attempts[a.i].pod == p && p !in s.cache {
      assert OnItsWay(s', a.i, p, s'.cache[p].host);
    }
  }

  lemma {:induction false} RunJustifies(fits: Fit, states: seq<State>, actions: seq<Action>, n: nat, p: Pod)
    requires IsRun(fits, states, actions) && n < |states|
    ensures SuccessIsBound(states[n]) && Justified(states[n], p)
  {
    if n > 0 {
      RunJustifies(fits, states, actions, n - 1, p);
      StepSuccessIsBound(fits, states[n - 1], actions[n - 1]);
      StepJustified(fits, states[n - 1], actions[n - 1], p);
    }
  }

  /** In every run, with or without loss, a cached pod is bound and not seen to be gone, or is on its way to the host
      where it is cached, or was removed without ever being confirmed and may expire at once. */
  lemma CachedForAReason(fits: Fit, states: seq<State>, actions: seq<Action>, n: nat, p: Pod)
    requires IsRun(fits, states, actions) && n < |states| && p in states[n].cache
    ensures || Held(states[n], p)
            || (exists i :: OnItsWay(states[n], i, p, states[n].cache[p].host))
            || (p in states[n].removed && Enabled(fits, states[n], Expire(p)))
  {
    RunJustifies(fits, states, actions, n, p);
  }

  /** Whose entry a step may touch. */
  ghost predicate Concerns(s: State, a: Action, p: Pod) {
    match a
    case Assume(i) => i < |s.attempts| && s.attempts[i].pod == p
    case Finish(i) => i < |s.attempts| && s.attempts[i].pod == p
    case Forget(i) => i < |s.attempts| && s.attempts[i].pod == p
    case WatchAdd(q) => q == p
    case WatchRemove(q) => q == p
    case Expire(q) => q == p
    case _ => false
  }

  /** No step touches the entry of another pod, and an attempt that asks its pod to leave takes away neither a confirmed
      entry nor a reservation on another host, which is some other attempt's. */
  lemma EntriesStay(fits: Fit, s: State, a: Action, p: Pod)
    requires Enabled(fits, s, a) && p in s.cache
    requires !Concerns(s, a, p) ||
             (a.Forget? && (!s.cache[p].assumed || s.cache[p].host != s.attempts[a.i].phase.host))
    ensures p in Next(fits, s, a).cache && Next(fits, s, a).cache[p] == s.cache[p]
  {
  }

  ghost predicate SeenBefore(actions: seq<Action>, n: nat, p: Pod)
    requires n <= |actions|
  {
    n > 0 && (SeenBefore(actions, n - 1, p) || actions[n - 1] == WatchAdd(p))
  }

  predicate Confirmed(s: State, p: Pod) {
    p in s.cache && !s.cache[p].assumed
  }

  lemma StepConfirms(fits: Fit, s: State, a: Action, p: Pod)
    requires Enabled(fits, s, a)
    ensures Confirmed(Next(fits, s, a), p) <==> a == WatchAdd(p) || (Confirmed(s, p) && a != WatchRemove(p))
    ensures p in Next(fits, s, a).removed <==> p in s.removed || a == WatchRemove(p)
    ensures a == WatchAdd(p) ==> p !in s.removed
  {
  }

  /** From the moment the watch adds a pod until it removes it, the pod is confirmed in the cache, and at no other time:
      it neither expires nor is forgotten. */
  lemma {:induction false} ConfirmedIffSeen(fits: Fit, states: seq<State>, actions: seq<Action>, n: nat, p: Pod)
    requires IsRun(fits, states, actions) && n < |states|
    ensures Confirmed(states[n], p) <==> SeenBefore(actions, n, p) && p !in states[n].removed
  {
    if n > 0 {
      ConfirmedIffSeen(fits, states, actions, n - 1, p);
      StepConfirms(fits, states[n - 1], actions[n - 1], p);
    }
  }

  /** A removal takes a pod out of the cache unless the watch never added it.  The entry is then still the assumed one,
      which goes as CachedForAReason says. */
  lemma RemovalFrees(fits: Fit, states: seq<State>, actions: seq<Action>, n: nat, p: Pod)
    requires IsRun(fits, states, actions) && n < |actions| && actions[n] == WatchRemove(p)
    ensures p in states[n + 1].cache <==> p in states[n].cache && !SeenBefore(actions, n, p)
  {
    ConfirmedIffSeen(fits, states, actions, n, p);
  }

  /** In every run, with or without loss, the process does not end because the watch and the cache have a pod on
      different hosts. */
  lemma RemovalNeverFatal(fits: Fit, states: seq<State>, actions: seq<Action>, n: nat, p: Pod)
    requires IsRun(fits, states, actions) && n < |actions| && actions[n] == WatchRemove(p)
    ensures Confirmed(states[n], p) ==> states[n].cache[p].host == states[n].bound[p]
  {
    RunJustifies(fits, states, actions, n, p);
  }

  // ---- each of the three, alone, over-commits a host

  /** A run so far. */
  datatype Trace = Trace(states: seq<State>, actions: seq<Action>)

  ghost predicate Runs(fits: Fit, t: Trace) {
    IsRun(fits, t.states, t.actions)
  }

  ghost function Now(t: Trace): State
    requires |t.states| == |t.actions| + 1
  {
    t.states[|t.actions|]
  }

  /** The steps that the surroundings must not take. */
  ghost function Faults(t: Trace): set<nat>
    requires |t.states| == |t.actions| + 1
  {
    set i: nat | i < |t.actions| && !Benign(t.states[i], t.actions[i])
  }

  lemma Go(fits: Fit, t: Trace, a: Action) returns (t': Trace)
    requires Runs(fits, t) && Enabled(fits, Now(t), a)
    ensures Runs(fits, t') && Now(t') == Next(fits, Now(t), a) && t'.actions == t.actions + [a]
    ensures Faults(t') == Faults(t) + if Benign(Now(t), a) then {} else {|t.actions|}
  {
    t' := Trace(t.states + [Next(fits, Now(t), a)], t.actions + [a]);
    forall i | 0 <= i < |t'.actions|
      ensures Enabled(fits, t'.states[i], t'.actions[i])
      ensures t'.states[i + 1] == Next(fits, t'.states[i], t'.actions[i])
      ensures i < |t.actions| ==> t'.states[i] == t.states[i] && t'.actions[i] == t.actions[i]
    {
      if i < |t.actions| { assert t'.states[i + 1] == t.states[i + 1]; }
    }
  }

  /** Where a pod stands that was just assumed, with all its volumes bound. */
  function JustAssumed(s: State, p: Pod, h: Host): State {
    s.(cache := s.cache[p := Entry(h, true, false)],
       attempts := s.attempts + [Attempt(p, Binding(h))],
       log := s.log + [Outcome(|s.attempts|, Assumed)])
  }

  /** Nothing serial is going on, and the pod is not cached and fits on the host. */
  ghost predicate CanAssume(fits: Fit, s: State, p: Pod, h: Host) {
    && (forall i :: 0 <= i < |s.attempts| ==> !Serial(s.attempts[i].phase))
    && p !in s.cache && fits(h, CachedOn(s, h) + {p})
  }

  lemma AssumeRun(fits: Fit, t: Trace, p: Pod, h: Host) returns (t': Trace)
    requires Runs(fits, t) && CanAssume(fits, Now(t), p, h)
    ensures Runs(fits, t') && Now(t') == JustAssumed(Now(t), p, h)
    ensures Faults(t') == Faults(t) + if Benign(Now(t), Take(p, false)) then {} else {|t.actions|}
    ensures t.actions + [Take(p, false)] <= t'.actions
  {
    var s := Now(t);
    var i := |s.attempts|;
    var t1 := Go(fits, t, Take(p, false));
    assert CachedOn(Now(t1), h) == CachedOn(s, h);
    var t2 := Go(fits, t1, ScheduleOk(i, h));
    var t3 := Go(fits, t2, VolumesOk(i, true));
    t' := Go(fits, t3, Assume(i));
    assert Now(t').attempts == s.attempts + [Attempt(p, Binding(h))];
  }

  /** Both pods are bound to the host and do not fit there together. */
  ghost predicate Overcommitted(fits: Fit, s: State, p: Pod, q: Pod, h: Host) {
    && Held(s, p) && Held(s, q) && s.bound[p] == s.bound[q] == h
    && !fits(h, Committed(s, h))
  }

  /** Once a bound pod is not in the cache, another one is bound to its host although both do not fit. */
  lemma UncoveredOvercommits(fits: Fit, t: Trace, p: Pod, q: Pod, h: Host) returns (t': Trace)
    requires FitShrinks(fits) && Runs(fits, t) && !fits(h, {p, q})
    requires Held(Now(t), p) && Now(t).bound[p] == h && CanAssume(fits, Now(t), q, h)
    requires q !in Now(t).bound && q !in Now(t).dead && q !in Now(t).removed
    requires forall i :: 0 <= i < |Now(t).attempts| ==> Now(t).attempts[i].pod != q
    ensures Runs(fits, t') && Overcommitted(fits, Now(t'), p, q, h)
    ensures Faults(t') == Faults(t) && t.actions <= t'.actions
  {
    var s := Now(t);
    var t1 := AssumeRun(fits, t, q, h);
    t' := Go(fits, t1, Bind(|s.attempts|, BindOk));
    assert {p, q} <= Committed(Now(t'), h);
  }

  /** Two pods that fit one by one but not together. */
  ghost predicate Rivals(fits: Fit, p: Pod, q: Pod, h: Host) {
    FitShrinks(fits) && p != q && fits(h, {p}) && fits(h, {q}) && !fits(h, {p, q})
  }

  lemma FirstAssumed(fits: Fit, p: Pod, q: Pod, h: Host) returns (t: Trace)
    requires Rivals(fits, p, q, h)
    ensures Runs(fits, t) && Now(t) == JustAssumed(Init, p, h) && Faults(t) == {}
  {
    assert CachedOn(Init, h) + {p} == {p};
    t := AssumeRun(fits, Trace([Init], []), p, h);
  }

  /** From the start, with no other fault: a pod is bound, its entry expires, and a rival is bound to the same host. */
  lemma ExpiryOvercommits(fits: Fit, p: Pod, q: Pod, h: Host) returns (t: Trace, fault: nat)
    requires Rivals(fits, p, q, h)
    ensures Runs(fits, t) && Overcommitted(fits, Now(t), p, q, h)
    ensures fault < |t.actions| && Faults(t) == {fault} && t.actions[fault] == Expire(p)
  {
    var t0 := FirstAssumed(fits, p, q, h);
    var t1 := Go(fits, t0, Bind(0, BindOk));
    var t2 := Go(fits, t1, Finish(0));
    var t3 := Go(fits, t2, Expire(p));
    fault := |t2.actions|;
    assert CachedOn(Now(t3), h) + {q} == {q};
    t := UncoveredOvercommits(fits, t3, p, q, h);
  }

  /** From the start, with no other fault: the server accepts a bind that is reported as failed, the pod is asked to
      leave the cache, and a rival is bound to the same host. */
  lemma LostReplyOvercommits(fits: Fit, p: Pod, q: Pod, h: Host) returns (t: Trace, fault: nat)
    requires Rivals(fits, p, q, h)
    ensures Runs(fits, t) && Overcommitted(fits, Now(t), p, q, h)
    ensures fault < |t.actions| && Faults(t) == {fault} && t.actions[fault] == Bind(0, BindFailedButApplied)
  {
    var t0 := FirstAssumed(fits, p, q, h);
    var t1 := Go(fits, t0, Bind(0, BindFailedButApplied));
    fault := |t0.actions|;
    var t2 := Go(fits, t1, Finish(0));
    var t3 := Go(fits, t2, Forget(0));
    assert CachedOn(Now(t3), h) + {q} == {q};
    t := UncoveredOvercommits(fits, t3, p, q, h);
  }

  /** A bound pod whose attempt is over and that the watch has not confirmed yet. */
  function BoundUnseen(p: Pod, h: Host): State {
    State(map[p := Entry(h, true, true)], [Attempt(p, Bound)], map[p := h], {}, {},
          [Outcome(0, Assumed), Outcome(0, BoundOk)])
  }

  lemma FirstBound(fits: Fit, p: Pod, h: Host) returns (t: Trace)
    requires fits(h, {p})
    ensures Runs(fits, t) && Now(t) == BoundUnseen(p, h) && Faults(t) == {}
  {
    assert CachedOn(Init, h) + {p} == {p};
    var t0 := AssumeRun(fits, Trace([Init], []), p, h);
    var t1 := Go(fits, t0, Bind(0, BindOk));
    t := Go(fits, t1, Finish(0));
  }

  /** The third case of CachedForAReason is real: a pod that is bound, deleted and removed without being added first
      stays in the cache when its attempt is over. */
  lemma UnseenRemovalLingers(fits: Fit, p: Pod, h: Host) returns (t: Trace, n: nat)
    requires fits(h, {p})
    ensures Runs(fits, t) && Faults(t) == {} && n < |t.actions| && t.actions[n] == WatchRemove(p)
    ensures Now(t) == BoundUnseen(p, h).(dead := {p}, removed := {p})
    ensures p in Now(t).cache && !Held(Now(t), p)
  {
    var t1 := FirstBound(fits, p, h);
    var t2 := Go(fits, t1, Delete(p));
    t := Go(fits, t2, WatchRemove(p));
    n := |t2.actions|;
  }

  /** A bind has failed, the entry has expired, and the goroutine has not asked the pod to leave the cache yet. */
  lemma FailedAndExpired(fits: Fit, p: Pod, q: Pod, h: Host) returns (t: Trace)
    requires Rivals(fits, p, q, h)
    ensures Runs(fits, t) && Faults(t) == {}
    ensures Now(t) == State(map[], [Attempt(p, Forgetting(h))], map[], {}, {}, [Outcome(0, Assumed)])
  {
    var t0 := FirstAssumed(fits, p, q, h);
    var t1 := Go(fits, t0, Bind(0, BindFailed));
    var t2 := Go(fits, t1, Finish(0));
    t := Go(fits, t2, Expire(p));
    assert Now(t).cache == map[];
  }

  /** A second attempt is binding the pod while the first one still has to ask it to leave. */
  function Retried(p: Pod, h: Host): State {
    State(map[p := Entry(h, true, false)], [Attempt(p, Forgetting(h)), Attempt(p, Binding(h))], map[], {}, {},
          [Outcome(0, Assumed), Outcome(1, Assumed)])
  }

  lemma RetriedRun(fits: Fit, p: Pod, q: Pod, h: Host) returns (t: Trace, fault: nat)
    requires Rivals(fits, p, q, h)
    ensures Runs(fits, t) && Now(t) == Retried(p, h)
    ensures fault < |t.actions| && Faults(t) == {fault} && t.actions[fault] == Take(p, false)
  {
    var t0 := FailedAndExpired(fits, p, q, h);
    assert CachedOn(Now(t0), h) + {p} == {p};
    assert !Benign(Now(t0), Take(p, false)) by { assert Now(t0).attempts[0] == Attempt(p, Forgetting(h)); }
    t := AssumeRun(fits, t0, p, h);
    fault := |t0.actions|;
    assert t.actions[fault] == Take(p, false);
  }

  /** The pod loses its new reservation to the first goroutine, and is bound all the same. */
  lemma BoundUncovered(fits: Fit, t: Trace, p: Pod, h: Host) returns (t': Trace)
    requires Runs(fits, t) && Now(t) == Retried(p, h)
    ensures Runs(fits, t') && Faults(t') == Faults(t) && t.actions <= t'.actions
    ensures Now(t').cache == map[] && Now(t').bound == map[p := h] && Now(t').dead == {} && Now(t').removed == {}
    ensures Now(t').attempts == [Attempt(p, Reporting), Attempt(p, Finishing(h, true))]
  {
    var t1 := Go(fits, t, Forget(0));
    assert Now(t1).attempts == [Attempt(p, Reporting), Attempt(p, Binding(h))] && Now(t1).cache == map[];
    t' := Go(fits, t1, Bind(1, BindOk));
  }

  /** From the start, with no other fault: a pod is tried again while its last goroutine still has to ask it to leave
      the cache, which then takes away the new reservation, and a rival is bound to the same host. */
  lemma SecondAttemptOvercommits(fits: Fit, p: Pod, q: Pod, h: Host) returns (t: Trace, fault: nat)
    requires Rivals(fits, p, q, h)
    ensures Runs(fits, t) && Overcommitted(fits, Now(t), p, q, h)
    ensures fault < |t.actions| && Faults(t) == {fault} && t.actions[fault] == Take(p, false)
  {
    var t0;
    t0, fault := RetriedRun(fits, p, q, h);
    var t1 := BoundUncovered(fits, t0, p, h);
    assert CachedOn(Now(t1), h) + {q} == {q};
    t := UncoveredOvercommits(fits, t1, p, q, h);
  }

  // ------------------------------------------------------------------ outcomes

  function History(log: seq<Outcome>, i: nat): seq<Deed> {
    if log == [] then []
    else
      var last := |log| - 1;
      History(log[..last], i) + if log[last].i == i then [log[last].deed] else []
  }

  /** The whole history an attempt may have in each phase. */
  ghost predicate Lived(phase: Phase, history: seq<Deed>) {
    match phase
    case Bound => history == [Assumed, BoundOk]
    case HandedBack => history == [Errored] || history == [Assumed, AskedToLeave, Errored]
    case Reporting => history == [Assumed, AskedToLeave]
    case BindingVolumes(_) => history == [Assumed]
    case Binding(_) => history == [Assumed]
    case Finishing(_, _) => history == [Assumed]
    case Forgetting(_) => history == [Assumed]
    case _ => history == []
  }

  ghost predicate Accounted(s: State, i: nat) {
    if i < |s.attempts| then Lived(s.attempts[i].phase, History(s.log, i)) else History(s.log, i) == []
  }

  lemma LogOne(log: seq<Outcome>, o: Outcome, i: nat)
    ensures History(log + [o], i) == History(log, i) + if o.i == i then [o.deed] else []
  {
    assert (log + [o])[..|log|] == log;
  }

  /** What the step adds to the log. */
  function Emitted(s: State, a: Action): seq<Outcome> {
    match a
    case ScheduleFails(i) => [Outcome(i, Errored)]
    case VolumesFail(i) => [Outcome(i, Errored)]
    case Assume(i) =>
      if i < |s.attempts| && s.attempts[i].pod in s.cache then [Outcome(i, Errored)] else [Outcome(i, Assumed)]
    case Finish(i) =>
      if i < |s.attempts| && s.attempts[i].phase.Finishing? && s.attempts[i].phase.ok then [Outcome(i, BoundOk)] else []
    case Forget(i) => [Outcome(i, AskedToLeave)]
    case Report(i) => [Outcome(i, Errored)]
    case _ => []
  }

  /** The deeds of one attempt in what a step adds, which is one entry at most. */
  function DeedsOf(emitted: seq<Outcome>, i: nat): seq<Deed> {
    if |emitted| == 1 && emitted[0].i == i then [emitted[0].deed] else []
  }

  lemma LogIs(fits: Fit, s: State, a: Action)
    requires Enabled(fits, s, a)
    ensures Next(fits, s, a).log == s.log + Emitted(s, a) && |Emitted(s, a)| <= 1
  {
    assert s.log + [] == s.log;
  }

  lemma LogSome(log: seq<Outcome>, emitted: seq<Outcome>, i: nat)
    requires |emitted| <= 1
    ensures History(log + emitted, i) == History(log, i) + DeedsOf(emitted, i)
  {
    if emitted == [] {
      assert log + emitted == log;
    } else {
      LogOne(log, emitted[0], i);
      assert emitted == [emitted[0]];
    }
  }

  lemma LogGrows(fits: Fit, s: State, a: Action, i: nat)
    requires Enabled(fits, s, a)
    ensures History(Next(fits, s, a).log, i) == History(s.log, i) + DeedsOf(Emitted(s, a), i)
  {
    LogIs(fits, s, a);
    LogSome(s.log, Emitted(s, a), i);
  }

  lemma OwnStep(fits: Fit, s: State, a: Action, i: nat, history: seq<Deed>)
    requires Enabled(fits, s, a) && Advances(a, i) && Lived(s.attempts[i].phase, history)
    ensures Lived(Next(fits, s, a).attempts[i].phase, history + DeedsOf(Emitted(s, a), i))
    ensures i < |Next(fits, s, a).attempts|
  {
  }

  lemma OthersStep(fits: Fit, s: State, a: Action, i: nat)
    requires Enabled(fits, s, a) && !Advances(a, i)
    ensures |s.attempts| <= |Next(fits, s, a).attempts|
    ensures i < |s.attempts| ==> Next(fits, s, a).attempts[i] == s.attempts[i]
    ensures |s.attempts| <= i < |Next(fits, s, a).attempts| ==>
              Next(fits, s, a).attempts[i].phase.Taken? || Next(fits, s, a).attempts[i].phase.Skipped?
    ensures DeedsOf(Emitted(s, a), i) == []
  {
  }

  lemma StepAccounts(fits: Fit, s: State, a: Action, i: nat)
    requires Enabled(fits, s, a) && Accounted(s, i)
    ensures Accounted(Next(fits, s, a), i)
  {
    LogGrows(fits, s, a, i);
    if Advances(a, i) {
      OwnStep(fits, s, a, i, History(s.log, i));
    } else {
      OthersStep(fits, s, a, i);
      assert History(s.log, i) + [] == History(s.log, i);
    }
  }

  /** At every point of every run, loss or not: an attempt that is over was bound exactly once, or handed to the error
      handler exactly once, or skipped because its pod was being deleted; one that is not over has had neither; and a
      pod handed back after being assumed was asked to leave the cache before. */
  lemma {:induction false} OutcomesAccounted(fits: Fit, states: seq<State>, actions: seq<Action>, n: nat, i: nat)
    requires IsRun(fits, states, actions) && n < |states|
    ensures Accounted(states[n], i)
  {
    if n > 0 {
      OutcomesAccounted(fits, states, actions, n - 1, i);
      StepAccounts(fits, states[n - 1], actions[n - 1], i);
    }
  }

  lemma StepSkips(fits: Fit, s: State, a: Action, i: nat)
    requires Enabled(fits, s, a) && i < |s.attempts|
    ensures i < |Next(fits, s, a).attempts| && Next(fits, s, a).attempts[i].pod == s.attempts[i].pod
    ensures Next(fits, s, a).attempts[i].phase.Skipped? <==> s.attempts[i].phase.Skipped?
  {
  }

  /** A pod taken from the queue is skipped if and only if it is being deleted then. */
  lemma {:induction false} SkippedIffDeleting(fits: Fit, states: seq<State>, actions: seq<Action>, from: nat, n: nat)
    requires IsRun(fits, states, actions) && from < n < |states| && actions[from].Take?
    ensures var i := |states[from].attempts|;
            && i < |states[n].attempts| && states[n].attempts[i].pod == actions[from].pod
            && (states[n].attempts[i].phase.Skipped? <==> actions[from].deleting)
  {
    if from + 1 < n {
      SkippedIffDeleting(fits, states, actions, from, n - 1);
      StepSkips(fits, states[n - 1], actions[n - 1], |states[from].attempts|);
    }
  }

  /** Steps an attempt still has before it. */
  function Remaining(phase: Phase): nat {
    match phase
    case Taken => 8
    case Chosen(_) => 7
    case Reserving(_, _) => 6
    case BindingVolumes(_) => 5
    case Binding(_) => 4
    case Finishing(_, _) => 3
    case Forgetting(_) => 2
    case Reporting => 1
    case _ => 0
  }

  /** The attempt that the action advances, if any. */
  predicate Advances(a: Action, i: nat) {
    !(a.Take? || a.WatchAdd? || a.WatchRemove? || a.Delete? || a.Expire?) && a.i == i
  }

  /** No attempt is ever stuck, and none takes more than eight steps: those of others leave it where it is. */
  lemma AttemptsEnd(fits: Fit, s: State, i: nat) returns (a: Action)
    requires i < |s.attempts| && !Done(s.attempts[i].phase)
    ensures Enabled(fits, s, a) && Advances(a, i)
    ensures forall b :: Enabled(fits, s, b) ==>
              if Advances(b, i) then Remaining(Next(fits, s, b).attempts[i].phase) < Remaining(s.attempts[i].phase) <= 8
              else Next(fits, s, b).attempts[i] == s.attempts[i]
  {
    a := match s.attempts[i].phase
      case Taken => ScheduleFails(i)
      case Chosen(_) => VolumesFail(i)
      case Reserving(_, _) => Assume(i)
      case BindingVolumes(_) => BindVolumesFails(i)
      case Binding(_) => Bind(i, BindFailed)
      case Finishing(_, _) => Finish(i)
      case Forgetting(_) => Forget(i)
      case _ => Report(i);
  }

  // ------------------------------------------------------------------ the cache object

  /** The per-node sets, which are what the scheduling algorithm reads, agree with the pod states. */
  ghost predicate Agree(cache: Cache, nodes: map<Host, set<Pod>>, nodeObjects: set<Host>) {
    && (forall p :: p in cache ==> cache[p].host in nodes && p in nodes[cache[p].host])
    && (forall h, p :: h in nodes && p in nodes[h] ==> p in cache && cache[p].host == h)
    && (forall h :: h in nodes ==> nodes[h] != {} || h in nodeObjects)
    && nodeObjects <= nodes.Keys
  }

  function Placed(nodes: map<Host, set<Pod>>, p: Pod, h: Host): map<Host, set<Pod>> {
    nodes[h := (if h in nodes then nodes[h] else {}) + {p}]
  }

  function TakenOff(nodes: map<Host, set<Pod>>, nodeObjects: set<Host>, p: Pod, h: Host): map<Host, set<Pod>>
    requires h in nodes
  {
    if nodes[h] - {p} == {} && h !in nodeObjects then nodes - {h} else nodes[h := nodes[h] - {p}]
  }

  lemma PlacedAgrees(cache: Cache, nodes: map<Host, set<Pod>>, nodeObjects: set<Host>, p: Pod, e: Entry)
    requires Agree(cache, nodes, nodeObjects) && p !in cache
    ensures Agree(cache[p := e], Placed(nodes, p, e.host), nodeObjects)
  {
  }

  lemma TakenOffAgrees(cache: Cache, nodes: map<Host, set<Pod>>, nodeObjects: set<Host>, p: Pod)
    requires Agree(cache, nodes, nodeObjects) && p in cache
    ensures cache[p].host in nodes
    ensures Agree(cache - {p}, TakenOff(nodes, nodeObjects, p, cache[p].host), nodeObjects)
  {
  }

  lemma FlagsAgree(cache: Cache, nodes: map<Host, set<Pod>>, nodeObjects: set<Host>, p: Pod, e: Entry)
    requires Agree(cache, nodes, nodeObjects) && p in cache && e.host == cache[p].host
    ensures Agree(cache[p := e], nodes, nodeObjects)
  {
  }

  lemma MovedAgrees(cache: Cache, nodes: map<Host, set<Pod>>, nodeObjects: set<Host>, p: Pod, e: Entry)
    requires Agree(cache, nodes, nodeObjects) && p in cache
    ensures cache[p].host in nodes
    ensures Agree(cache[p := e], Placed(TakenOff(nodes, nodeObjects, p, cache[p].host), p, e.host), nodeObjects)
  {
    TakenOffAgrees(cache, nodes, nodeObjects, p);
    PlacedAgrees(cache - {p}, TakenOff(nodes, nodeObjects, p, cache[p].host), nodeObjects, p, e);
    assert (cache - {p})[p := e] == cache[p := e];
  }

  /** What the algorithm reads for a host is what the pod states say. */
  lemma NodesAreCachedOn(s: State, nodes: map<Host, set<Pod>>, nodeObjects: set<Host>, h: Host)
    requires Agree(s.cache, nodes, nodeObjects)
    ensures CachedOn(s, h) == if h in nodes then nodes[h] else {}
  {
  }

  /** schedulerCache: pod states (with their assumed mark) and per-node pod sets kept incrementally.  `nodeObjects` are
      the nodes known to exist, whose entry stays even when no pod is left on them. */
  class SchedulerCache {
    var podStates: Cache
    var nodes: map<Host, set<Pod>>
    const nodeObjects: set<Host>

    ghost predicate Valid()
      reads this
    {
      Agree(podStates, nodes, nodeObjects)
    }

    constructor (nodeObjects: set<Host>)
      ensures Valid() && podStates == map[] && this.nodeObjects == nodeObjects
    {
      podStates := map[];
      nodes := map h | h in nodeObjects :: {};
      this.nodeObjects := nodeObjects;
    }

    /** addPod */
    method PlaceOn(p: Pod, h: Host)
      modifies this`nodes
      ensures nodes == Placed(old(nodes), p, h)
    {
      if h !in nodes { nodes := nodes[h := {}]; }
      nodes := nodes[h := nodes[h] + {p}];
    }

    /** removePod */
    method TakeOff(p: Pod, h: Host)
      requires h in nodes
      modifies this`nodes
      ensures nodes == TakenOff(old(nodes), nodeObjects, p, h)
    {
      nodes := nodes[h := nodes[h] - {p}];
      if nodes[h] == {} && h !in nodeObjects { nodes := nodes - {h}; }
    }

    method AssumePod(p: Pod, h: Host) returns (ok: bool)
      requires Valid()
      modifies this
      ensures Valid() && podStates == WithAssumed(old(podStates), p, h)
      ensures ok <==> p !in old(podStates)
    {
      if p in podStates { return false; }
      PlacedAgrees(podStates, nodes, nodeObjects, p, Entry(h, true, false));
      PlaceOn(p, h);
      podStates := podStates[p := Entry(h, true, false)];
      ok := true;
    }

    method FinishBinding(p: Pod)
      requires Valid()
      modifies this
      ensures Valid() && podStates == WithFinished(old(podStates), p)
    {
      if p in podStates && podStates[p].assumed {
        FlagsAgree(podStates, nodes, nodeObjects, p, podStates[p].(finished := true));
        podStates := podStates[p := podStates[p].(finished := true)];
      }
    }

    method ForgetPod(p: Pod, h: Host) returns (ok: bool)
      requires Valid()
      modifies this
      ensures Valid() && podStates == WithForgotten(old(podStates), p, h)
      ensures ok <==> CanForget(old(podStates), p, h)
    {
      if p in podStates && podStates[p].host != h { return false; }
      if p !in podStates || !podStates[p].assumed { return false; }
      TakenOffAgrees(podStates, nodes, nodeObjects, p);
      TakeOff(p, h);
      podStates := podStates - {p};
      ok := true;
    }

    method AddPod(p: Pod, h: Host) returns (ok: bool)
      requires Valid()
      modifies this
      ensures Valid() && podStates == WithAdded(old(podStates), p, h)
      ensures ok <==> p !in old(podStates) || old(podStates)[p].assumed
    {
      ok := p !in podStates || podStates[p].assumed;
      if p in podStates && podStates[p].assumed {
        var e := Entry(h, false, podStates[p].finished);
        if podStates[p].host != h {
          MovedAgrees(podStates, nodes, nodeObjects, p, e);
          TakeOff(p, podStates[p].host);
          PlaceOn(p, h);
        } else {
          FlagsAgree(podStates, nodes, nodeObjects, p, e);
        }
        podStates := podStates[p := e];
      } else if p !in podStates {
        PlacedAgrees(podStates, nodes, nodeObjects, p, Entry(h, false, false));
        PlaceOn(p, h);
        podStates := podStates[p := Entry(h, false, false)];
      }
    }

    /** The watch saw the pod go from this host.  `fatal` tells that the process ends, because the cache has it on
        another one; RemovalsAgree shows that this does not happen. */
    method RemovePod(p: Pod, h: Host) returns (ok: bool, fatal: bool)
      requires Valid()
      modifies this
      ensures Valid() && podStates == if fatal then old(podStates) else WithRemoved(old(podStates), p)
      ensures fatal <==> p in old(podStates) && !old(podStates)[p].assumed && old(podStates)[p].host != h
      ensures ok <==> p in old(podStates) && !old(podStates)[p].assumed && old(podStates)[p].host == h
    {
      if p !in podStates || podStates[p].assumed { return false, false; }
      if podStates[p].host != h { return false, true; }
      TakenOffAgrees(podStates, nodes, nodeObjects, p);
      TakeOff(p, podStates[p].host);
      podStates := podStates - {p};
      ok, fatal := true, false;
    }

    /** expirePod */
    method ExpirePod(p: Pod)
      requires Valid() && p in podStates
      modifies this
      ensures Valid() && podStates == old(podStates) - {p}
    {
      TakenOffAgrees(podStates, nodes, nodeObjects, p);
      TakeOff(p, podStates[p].host);
      podStates := podStates - {p};
    }

    /** cleanupAssumedPods; `late` are the pods whose deadline has passed. */
    method CleanupAssumedPods(late: set<Pod>)
      requires Valid()
      modifies this
      ensures Valid()
      ensures podStates == old(podStates) - set p | p in late && CanExpire(old(podStates), p)
    {
      ghost var start := podStates;
      var keys := set p | p in podStates && podStates[p].assumed;
      ghost var gone: set<Pod> := {};
      while keys != {}
        invariant Valid() && keys <= podStates.Keys && podStates == start - gone
        invariant forall p :: p in keys ==> start[p].assumed
        invariant forall p :: p in gone <==> p in late && CanExpire(start, p) && p !in keys
        decreases keys
      {
        var p :| p in keys;
        keys := keys - {p};
        if podStates[p].finished && p in late {
          ExpirePod(p);
          gone := gone + {p};
        }
      }
    }
  }

  // ------------------------------------------------------------------ scheduleOne and its goroutine

  /** What Algorithm.Schedule and AssumePodVolumes answer. */
  datatype Found = NoHost | OnHost(host: Host)
  datatype Volumes = VolumesFailed | VolumesAssumed(allBound: bool)

  /** Where an attempt stands, the cache, and what the attempt has made happen. */
  datatype Result = Result(phase: Phase, cache: Cache, deeds: seq<Deed>)

  /** What the serial part of scheduleOne comes to. */
  function SerialResult(cache: Cache, p: Pod, deleting: bool, found: Found, volumes: Volumes): Result {
    if deleting then Result(Skipped, cache, [])
    else if found.NoHost? || volumes.VolumesFailed? || p in cache then Result(HandedBack, cache, [Errored])
    else
      var phase := if volumes.allBound then Binding(found.host) else BindingVolumes(found.host);
      Result(phase, WithAssumed(cache, p, found.host), [Assumed])
  }

  /** What the goroutine comes to. */
  function BindingResult(cache: Cache, p: Pod, start: Phase, bindVolumesOk: bool, bindOk: bool): Result
    requires BeingBound(start)
  {
    if start.BindingVolumes? && !bindVolumesOk then
      Result(HandedBack, WithForgotten(cache, p, start.host), [AskedToLeave, Errored])
    else if bindOk then Result(Bound, WithFinished(cache, p), [BoundOk])
    else Result(HandedBack, WithForgotten(WithFinished(cache, p), p, start.host), [AskedToLeave, Errored])
  }

  /** The serial part of scheduleOne, with the answers of the calls it makes. */
  method ScheduleOne(cache: SchedulerCache, p: Pod, deleting: bool, found: Found, volumes: Volumes)
    returns (phase: Phase, deeds: seq<Deed>)
    requires cache.Valid()
    modifies cache
    ensures cache.Valid() && Lived(phase, deeds)
    ensures Result(phase, cache.podStates, deeds) == SerialResult(old(cache.podStates), p, deleting, found, volumes)
  {
    if deleting { return Skipped, []; }
    if found.NoHost? { return HandedBack, [Errored]; }
    if volumes.VolumesFailed? { return HandedBack, [Errored]; }
    var ok := cache.AssumePod(p, found.host);
    if !ok { return HandedBack, [Errored]; }
    if !volumes.allBound { return BindingVolumes(found.host), [Assumed]; }
    return Binding(found.host), [Assumed];
  }

  /** The goroutine: bindVolumes when needed, then bind. */
  method RunBinding(cache: SchedulerCache, p: Pod, start: Phase, bindVolumesOk: bool, bindOk: bool)
    returns (phase: Phase, deeds: seq<Deed>)
    requires cache.Valid() && BeingBound(start)
    modifies cache
    ensures cache.Valid() && Lived(phase, [Assumed] + deeds)
    ensures Result(phase, cache.podStates, deeds) ==
            BindingResult(old(cache.podStates), p, start, bindVolumesOk, bindOk)
  {
    if start.BindingVolumes? && !bindVolumesOk {
      var _ := cache.ForgetPod(p, start.host);
      return HandedBack, [AskedToLeave, Errored];
    }
    cache.FinishBinding(p);
    if !bindOk {
      var _ := cache.ForgetPod(p, start.host);
      return HandedBack, [AskedToLeave, Errored];
    }
    return Bound, [BoundOk];
  }

  // ---- both are runs of the protocol

  function LogOf(i: nat, deeds: seq<Deed>): seq<Outcome> {
    if deeds == [] then [] else LogOf(i, deeds[..|deeds| - 1]) + [Outcome(i, deeds[|deeds| - 1])]
  }

  /** The state once attempt `i` of pod `p` has come to this result. */
  function Reaches(s: State, i: nat, p: Pod, r: Result): State
    requires i <= |s.attempts|
  {
    s.(cache := r.cache,
       attempts := s.attempts[..i] + [Attempt(p, r.phase)] + (if i < |s.attempts| then s.attempts[i + 1..] else []),
       log := s.log + LogOf(i, r.deeds))
  }

  lemma LogOfOne(i: nat, d: Deed)
    ensures LogOf(i, [d]) == [Outcome(i, d)]
  {
    assert [d][..0] == [];
    assert [] + [Outcome(i, d)] == [Outcome(i, d)];
  }

  lemma LogOfTwo(log: seq<Outcome>, i: nat, d: Deed, e: Deed)
    ensures log + LogOf(i, [d, e]) == (log + [Outcome(i, d)]) + [Outcome(i, e)]
  {
    assert [d, e][..1] == [d];
    LogOfOne(i, d);
  }

  /** A new attempt at the end. */
  lemma PutNew(s: State, p: Pod, phase: Phase, phase': Phase)
    ensures var t := s.(attempts := s.attempts + [Attempt(p, phase)]);
            To(t, |s.attempts|, phase') == s.(attempts := s.attempts + [Attempt(p, phase')])
  {
  }

  lemma NewReaches(s: State, p: Pod, r: Result)
    ensures Reaches(s, |s.attempts|, p, r) ==
            s.(cache := r.cache, attempts := s.attempts + [Attempt(p, r.phase)],
               log := s.log + LogOf(|s.attempts|, r.deeds))
  {
    assert s.attempts[..|s.attempts|] == s.attempts;
    assert s.attempts + [Attempt(p, r.phase)] + [] == s.attempts + [Attempt(p, r.phase)];
  }

  ghost predicate NothingSerial(s: State) {
    forall i :: 0 <= i < |s.attempts| ==> !Serial(s.attempts[i].phase)
  }

  /** From any point of any run at which nothing serial is going on, what scheduleOne does is a run: if the algorithm
      names only hosts with room, it is Take and then, as far as it gets, ScheduleOk, VolumesOk and Assume. */
  lemma ScheduleOneIsRun(fits: Fit, t: Trace, p: Pod, deleting: bool, found: Found, volumes: Volumes)
    returns (t': Trace)
    requires Runs(fits, t) && NothingSerial(Now(t))
    requires found.OnHost? ==> fits(found.host, CachedOn(Now(t), found.host) + {p})
    ensures Runs(fits, t') && t.actions <= t'.actions
    ensures Now(t') ==
            Reaches(Now(t), |Now(t).attempts|, p, SerialResult(Now(t).cache, p, deleting, found, volumes))
  {
    var s := Now(t);
    var i := |s.attempts|;
    NewReaches(s, p, SerialResult(s.cache, p, deleting, found, volumes));
    LogOfOne(i, Errored);
    t' := Go(fits, t, Take(p, deleting));
    if deleting {
      assert s.log + [] == s.log;
      return;
    }
    assert CachedOn(Now(t'), if found.OnHost? then found.host else "") ==
           CachedOn(s, if found.OnHost? then found.host else "");
    t' := ChooseRun(fits, t', s, p, found, volumes);
  }

  /** The rest of it, once the pod is taken. */
  lemma ChooseRun(fits: Fit, t: Trace, s: State, p: Pod, found: Found, volumes: Volumes) returns (t': Trace)
    requires Runs(fits, t) && Now(t) == s.(attempts := s.attempts + [Attempt(p, Taken)])
    requires found.OnHost? ==> fits(found.host, CachedOn(Now(t), found.host) + {p})
    ensures Runs(fits, t') && t.actions <= t'.actions
    ensures Now(t') == Reaches(s, |s.attempts|, p, SerialResult(s.cache, p, false, found, volumes))
  {
    var i := |s.attempts|;
    NewReaches(s, p, SerialResult(s.cache, p, false, found, volumes));
    LogOfOne(i, Errored);
    if found.NoHost? {
      PutNew(s, p, Taken, HandedBack);
      t' := Go(fits, t, ScheduleFails(i));
    } else {
      var h := found.host;
      PutNew(s, p, Taken, Chosen(h));
      t' := Go(fits, t, ScheduleOk(i, h));
      if volumes.VolumesFailed? {
        PutNew(s, p, Chosen(h), HandedBack);
        t' := Go(fits, t', VolumesFail(i));
      } else {
        PutNew(s, p, Chosen(h), Reserving(h, volumes.allBound));
        t' := Go(fits, t', VolumesOk(i, volumes.allBound));
        t' := ReserveRun(fits, t', s, p, h, volumes.allBound);
      }
    }
  }

  lemma ReserveRun(fits: Fit, t: Trace, s: State, p: Pod, h: Host, allBound: bool) returns (t': Trace)
    requires Runs(fits, t) && Now(t) == s.(attempts := s.attempts + [Attempt(p, Reserving(h, allBound))])
    ensures Runs(fits, t') && t.actions <= t'.actions
    ensures Now(t') ==
            Reaches(s, |s.attempts|, p, SerialResult(s.cache, p, false, OnHost(h), VolumesAssumed(allBound)))
  {
    var i := |s.attempts|;
    NewReaches(s, p, SerialResult(s.cache, p, false, OnHost(h), VolumesAssumed(allBound)));
    LogOfOne(i, Errored);
    LogOfOne(i, Assumed);
    PutNew(s, p, Reserving(h, allBound), HandedBack);
    PutNew(s, p, Reserving(h, allBound), if allBound then Binding(h) else BindingVolumes(h));
    t' := Go(fits, t, Assume(i));
  }

  lemma OldReaches(s: State, i: nat, p: Pod, r: Result)
    requires i < |s.attempts| && s.attempts[i].pod == p
    ensures Reaches(s, i, p, r) ==
            s.(cache := r.cache, attempts := s.attempts[i := Attempt(p, r.phase)], log := s.log + LogOf(i, r.deeds))
  {
  }

  /** Asking the pod to leave, and reporting the failure. */
  lemma LeaveRun(fits: Fit, t: Trace, s: State, i: nat, p: Pod, h: Host) returns (t': Trace)
    requires Runs(fits, t) && i < |s.attempts| && Now(t) == s.(attempts := s.attempts[i := Attempt(p, Forgetting(h))])
    ensures Runs(fits, t') && t.actions <= t'.actions
    ensures Now(t') == s.(cache := WithForgotten(s.cache, p, h), attempts := s.attempts[i := Attempt(p, HandedBack)],
                          log := s.log + LogOf(i, [AskedToLeave, Errored]))
  {
    LogOfTwo(s.log, i, AskedToLeave, Errored);
    t' := Go(fits, t, Forget(i));
    assert Now(t').attempts == s.attempts[i := Attempt(p, Reporting)];
    t' := Go(fits, t', Report(i));
    assert Now(t').attempts == s.attempts[i := Attempt(p, HandedBack)];
  }

  lemma BindRun(fits: Fit, t: Trace, s: State, i: nat, p: Pod, h: Host, result: BindResult) returns (t': Trace)
    requires Runs(fits, t) && i < |s.attempts| && s.attempts[i].pod == p
    requires Now(t) == s.(attempts := s.attempts[i := Attempt(p, Binding(h))])
    requires result != BindFailed ==> p !in s.bound && p !in s.dead
    ensures Runs(fits, t') && t.actions <= t'.actions
    ensures Now(t') ==
            Reaches(s, i, p, BindingResult(s.cache, p, Binding(h), true, result == BindOk))
            .(bound := if result == BindFailed then s.bound else s.bound[p := h])
  {
    OldReaches(s, i, p, BindingResult(s.cache, p, Binding(h), true, result == BindOk));
    LogOfOne(i, BoundOk);
    t' := Go(fits, t, Bind(i, result));
    assert Now(t').attempts == s.attempts[i := Attempt(p, Finishing(h, result == BindOk))];
    t' := Go(fits, t', Finish(i));
    if result == BindOk {
      assert Now(t').attempts == s.attempts[i := Attempt(p, Bound)];
    } else {
      assert Now(t').attempts == s.attempts[i := Attempt(p, Forgetting(h))];
      t' := LeaveRun(fits, t', Now(t').(attempts := s.attempts), i, p, h);
    }
  }

  /** From any point of any run at which an attempt is being bound, what its goroutine does is a run: BindVolumesOk when
      needed, Bind and Finish, and Forget and Report after a failure.  The server binds only pods that are neither bound
      nor deleted. */
  lemma RunBindingIsRun(fits: Fit, t: Trace, i: nat, bindVolumesOk: bool, result: BindResult) returns (t': Trace)
    requires Runs(fits, t) && i < |Now(t).attempts| && BeingBound(Now(t).attempts[i].phase)
    requires result != BindFailed ==> Now(t).attempts[i].pod !in Now(t).bound && Now(t).attempts[i].pod !in Now(t).dead
    ensures Runs(fits, t') && t.actions <= t'.actions
    ensures var s, Attempt(p, start) := Now(t), Now(t).attempts[i];
            var applied := result != BindFailed && (start.BindingVolumes? ==> bindVolumesOk);
            Now(t') == Reaches(s, i, p, BindingResult(s.cache, p, start, bindVolumesOk, result == BindOk))
                       .(bound := if applied then s.bound[p := start.host] else s.bound)
  {
    var s := Now(t);
    var Attempt(p, start) := s.attempts[i];
    var h := start.host;
    OldReaches(s, i, p, BindingResult(s.cache, p, start, bindVolumesOk, result == BindOk));
    if start.BindingVolumes? && !bindVolumesOk {
      t' := Go(fits, t, BindVolumesFails(i));
      t' := LeaveRun(fits, t', s, i, p, h);
    } else {
      OldReaches(s, i, p, BindingResult(s.cache, p, Binding(h), true, result == BindOk));
      t' := t;
      if start.BindingVolumes? { t' := Go(fits, t, BindVolumesOk(i)); }
      assert Now(t') == s.(attempts := s.attempts[i := Attempt(p, Binding(h))]);
      t' := BindRun(fits, t', s, i, p, h, result);
    }
  }
}
