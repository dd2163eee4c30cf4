/** Admission of pods by the kubelet (pkg/kubelet/kubelet.go, `HandlePodAdditions`, with `podIsTerminated` and
    `filterOutTerminatedPods` of pkg/kubelet/kubelet_pods.go). */
module Admission {
  import opened Options
  import opened PodPhase
  import opened Sequences

  type Uid = string

  /** The part of v1.PodStatus that decides termination. */
  datatype Status = Status(phase: Phase, containers: seq<ContainerStatus>, initContainers: seq<ContainerStatus>)

  /** v1.Pod; `deleting` tells that the deletion timestamp is set. */
  datatype Pod = Pod(uid: Uid, fullName: string, created: nat, deleting: bool, mirror: bool, status: Status)

  datatype AdmitResult = AdmitResult(admit: bool, reason: string)

  type Handler = (seq<Pod>, Pod) -> AdmitResult

  /** Work handed to a pod worker: a pod is synced as created or as updated, with its mirror pod if it has one. */
  datatype SyncKind = SyncCreate | SyncUpdate
  datatype Work = Work(uid: Uid, kind: SyncKind, mirror: Option<Pod>)

  /** The pod manager's regular and mirror pods and its translation of mirror pods' UIDs, the status manager's cache,
      and the work handed to pod workers. */
  datatype State = State(pods: map<Uid, Pod>, byFullName: map<string, Pod>,
                         mirrorsByUid: map<Uid, Pod>, mirrors: map<string, Pod>, translation: map<Uid, Uid>,
                         statuses: map<Uid, Status>, dispatched: seq<Work>)

  // ------------------------------------------------------------------ termination

  /** Every container has ended or waits. */
  predicate NotRunning(containers: seq<ContainerStatus>) {
    forall i :: 0 <= i < |containers| ==> containers[i].state.terminated.Some? || containers[i].state.waiting
  }

  /** The cached status if there is one, else the one in the pod object. */
  function StatusOf(s: State, p: Pod): Status {
    if p.uid in s.statuses then s.statuses[p.uid] else p.status
  }

  /** podIsTerminated */
  predicate Terminated(s: State, p: Pod) {
    IsTerminal(StatusOf(s, p).phase) || (p.deleting && NotRunning(StatusOf(s, p).containers))
  }

  /** The pods known to the kubelet that are not terminated. */
  ghost function Active(s: State): set<Uid> {
    set u | u in s.pods && !Terminated(s, s.pods[u])
  }

  method FilterOutTerminatedPods(s: State, pods: seq<Pod>) returns (filtered: seq<Pod>)
    ensures forall p :: p in filtered <==> p in pods && !Terminated(s, p)
  {
    filtered := [];
    for i := 0 to |pods|
      invariant forall p :: p in filtered <==> p in pods[..i] && !Terminated(s, p)
    {
      assert pods[..i + 1] == pods[..i] + [pods[i]];
      if Terminated(s, pods[i]) { continue; }
      filtered := filtered + [pods[i]];
    }
    assert pods[..|pods|] == pods;
  }

  // ------------------------------------------------------------------ admission of one pod

  predicate AllAdmit(handlers: seq<Handler>, others: seq<Pod>, p: Pod) {
    forall i :: 0 <= i < |handlers| ==> handlers[i](others, p).admit
  }

  method CanAdmitPod(handlers: seq<Handler>, others: seq<Pod>, p: Pod) returns (ok: bool, reason: string)
    ensures ok <==> AllAdmit(handlers, others, p)
    ensures ok ==> reason == ""
    ensures !ok ==> exists i :: 0 <= i < |handlers| && !handlers[i](others, p).admit &&
                                AllAdmit(handlers[..i], others, p) && reason == handlers[i](others, p).reason
  {
    for i := 0 to |handlers|
      invariant forall j :: 0 <= j < i ==> handlers[j](others, p).admit
    {
      var result := handlers[i](others, p);
      if !result.admit { return false, result.reason; }
    }
    return true, "";
  }

  /** podManager.AddPod */
  function Known(s: State, p: Pod): State {
    if p.mirror then
      s.(mirrorsByUid := s.mirrorsByUid[p.uid := p], mirrors := s.mirrors[p.fullName := p],
         translation := if p.fullName in s.byFullName then s.translation[p.uid := s.byFullName[p.fullName].uid]
                        else s.translation)
    else
      s.(pods := s.pods[p.uid := p], byFullName := s.byFullName[p.fullName := p],
         translation := if p.fullName in s.mirrors then s.translation[s.mirrors[p.fullName].uid := p.uid]
                        else s.translation)
  }

  /** podManager.GetMirrorPodByPod */
  function MirrorOf(s: State, p: Pod): Option<Pod> {
    if p.fullName in s.mirrors then Some(s.mirrors[p.fullName]) else None
  }

  function Exit(c: ContainerStatus): ContainerStatus {
    c.(state := ContainerState(false, Some(0), false))
  }

  function Exits(cs: seq<ContainerStatus>): (r: seq<ContainerStatus>)
    ensures |r| == |cs| && forall i :: 0 <= i < |cs| ==> r[i] == Exit(cs[i])
  {
    seq(|cs|, i requires 0 <= i < |cs| => Exit(cs[i]))
  }

  /** statusManager.TerminatePod: every container counts as ended; the phase stays. */
  function AllExited(s: State, p: Pod): State {
    var st := StatusOf(s, p);
    s.(statuses := s.statuses[p.uid := Status(st.phase, Exits(st.containers), Exits(st.initContainers))])
  }

  /** dispatchWork */
  function Dispatch(s: State, p: Pod, kind: SyncKind, mirror: Option<Pod>): State {
    if !Terminated(s, p) then s.(dispatched := s.dispatched + [Work(p.uid, kind, mirror)])
    else if p.deleting then AllExited(s, p)
    else s
  }

  /** rejectPod */
  function Reject(s: State, p: Pod): State {
    s.(statuses := s.statuses[p.uid := Status(Failed, [], [])])
  }

  /** One iteration of HandlePodAdditions, given the verdict of the admit handlers.  A mirror pod is an update of its
      static pod. */
  function AddOne(s: State, p: Pod, kind: SyncKind, admitted: bool): State {
    var t := Known(s, p);
    if p.mirror then
      (if p.fullName in t.byFullName then Dispatch(t, t.byFullName[p.fullName], SyncUpdate, Some(p)) else t)
    else if !Terminated(t, p) && !admitted then Reject(t, p)
    else Dispatch(t, p, kind, MirrorOf(t, p))
  }

  lemma DispatchIndices(s: State, p: Pod, kind: SyncKind, mirror: Option<Pod>)
    ensures var t := Dispatch(s, p, kind, mirror); t == s.(statuses := t.statuses, dispatched := t.dispatched)
  {
  }

  /** All that an addition does to the pod manager is to make the pod known. */
  lemma AddOneIndices(s: State, p: Pod, kind: SyncKind, admitted: bool)
    ensures var t := AddOne(s, p, kind, admitted);
            t == Known(s, p).(statuses := t.statuses, dispatched := t.dispatched)
  {
    var t := Known(s, p);
    if p.mirror {
      if p.fullName in t.byFullName { DispatchIndices(t, t.byFullName[p.fullName], SyncUpdate, Some(p)); }
    } else {
      DispatchIndices(t, p, kind, MirrorOf(t, p));
    }
  }

  /** The others that admission looks at are exactly the active pods known before. */
  ghost predicate Others(s: State, others: seq<Pod>, p: Pod) {
    forall q :: q in others <==> q.uid in s.pods && s.pods[q.uid] == q && !Terminated(Known(s, p), q)
  }

  // ------------------------------------------------------------------ the claim

  /** Whether pods fit together on the node. */
  type Fit = set<Uid> -> bool

  ghost predicate FitShrinks(fits: Fit) {
    fits({}) && forall a, b :: a <= b && fits(b) ==> fits(a)
  }

  function Uids(pods: seq<Pod>): set<Uid> {
    set p | p in pods :: p.uid
  }

  /** The handlers together admit a pod only if it fits with the others. */
  ghost predicate Sound(handlers: seq<Handler>, fits: Fit) {
    forall others, p :: AllAdmit(handlers, others, p) ==> fits(Uids(others) + {p.uid})
  }

  /** Keys are the pods' own UIDs, and the name index points at pods that are known. */
  ghost predicate WellFormed(s: State) {
    && (forall u :: u in s.pods ==> s.pods[u].uid == u)
    && (forall n :: n in s.byFullName ==>
          var p := s.byFullName[n];
          p.fullName == n && p.uid in s.pods && s.pods[p.uid] == p)
  }

  /** A UID never changes its name. */
  ghost predicate SameName(s: State, p: Pod) {
    p.uid in s.pods ==> s.pods[p.uid].fullName == p.fullName
  }

  lemma KnownWellFormed(s: State, p: Pod)
    requires WellFormed(s) && SameName(s, p)
    ensures WellFormed(Known(s, p))
  {
  }

  /** Dispatching a pod that is to be deleted records its containers as ended, and it was terminated already. */
  lemma DispatchTerminated(s: State, p: Pod, kind: SyncKind, mirror: Option<Pod>, u: Uid)
    requires WellFormed(s) && p.uid in s.pods && s.pods[p.uid] == p && u in s.pods
    ensures Terminated(Dispatch(s, p, kind, mirror), s.pods[u]) <==> Terminated(s, s.pods[u])
  {
    if u == p.uid && Terminated(s, p) && p.deleting {
      assert NotRunning(Exits(StatusOf(s, p).containers));
    }
  }

  function WorkIf(active: bool, work: Work): seq<Work> {
    if active then [work] else []
  }

  lemma DispatchShrinks(s: State, p: Pod, kind: SyncKind, mirror: Option<Pod>)
    requires WellFormed(s) && p.uid in s.pods && s.pods[p.uid] == p
    ensures Active(Dispatch(s, p, kind, mirror)) == Active(s) && WellFormed(Dispatch(s, p, kind, mirror))
    ensures Dispatch(s, p, kind, mirror).pods == s.pods
    ensures Dispatch(s, p, kind, mirror).dispatched ==
            s.dispatched + WorkIf(p.uid in Active(s), Work(p.uid, kind, mirror))
  {
    var t := Dispatch(s, p, kind, mirror);
    assert t.pods == s.pods && t.byFullName == s.byFullName;
    forall u | u in s.pods ensures Terminated(t, s.pods[u]) <==> Terminated(s, s.pods[u]) {
      DispatchTerminated(s, p, kind, mirror, u);
    }
  }

  lemma RejectShrinks(s: State, p: Pod)
    requires WellFormed(s) && p.uid in s.pods && s.pods[p.uid] == p
    ensures Active(Reject(s, p)) == Active(s) - {p.uid} && WellFormed(Reject(s, p))
  {
    var t := Reject(s, p);
    forall u | u in s.pods && u != p.uid ensures Terminated(t, s.pods[u]) <==> Terminated(s, s.pods[u]) {}
  }

  lemma KnownActive(s: State, p: Pod)
    requires WellFormed(s) && !p.mirror
    ensures Active(Known(s, p)) == (Active(s) - {p.uid}) + if Terminated(Known(s, p), p) then {} else {p.uid}
  {
    var t := Known(s, p);
    forall u | u in s.pods && u != p.uid ensures u in Active(t) <==> u in Active(s) {}
  }

  lemma MirrorActive(s: State, p: Pod, kind: SyncKind, admitted: bool)
    requires WellFormed(s) && SameName(s, p) && p.mirror
    ensures WellFormed(AddOne(s, p, kind, admitted)) && Active(AddOne(s, p, kind, admitted)) == Active(s)
  {
    var t := Known(s, p);
    KnownWellFormed(s, p);
    assert Active(t) == Active(s);
    if p.fullName in t.byFullName { DispatchShrinks(t, t.byFullName[p.fullName], SyncUpdate, Some(p)); }
  }

  /** One more pod, whatever it is: afterwards it is active exactly if it is not terminated and was admitted, and the
      other pods are as active as before.  A pod that was turned away is not handed to a worker. */
  lemma AddOneActive(s: State, p: Pod, kind: SyncKind, admitted: bool)
    requires WellFormed(s) && SameName(s, p)
    ensures WellFormed(AddOne(s, p, kind, admitted))
    ensures p.mirror ==> Active(AddOne(s, p, kind, admitted)) == Active(s)
    ensures !p.mirror ==>
              Active(AddOne(s, p, kind, admitted)) ==
              (Active(s) - {p.uid}) + (if admitted && !Terminated(Known(s, p), p) then {p.uid} else {})
    ensures !p.mirror ==>
              AddOne(s, p, kind, admitted).dispatched ==
              s.dispatched +
              WorkIf(p.uid in Active(AddOne(s, p, kind, admitted)), Work(p.uid, kind, MirrorOf(s, p)))
  {
    if p.mirror {
      MirrorActive(s, p, kind, admitted);
    } else {
      var t := Known(s, p);
      KnownWellFormed(s, p);
      KnownActive(s, p);
      if !Terminated(t, p) && !admitted {
        RejectShrinks(t, p);
      } else {
        DispatchShrinks(t, p, kind, MirrorOf(t, p));
      }
    }
  }

  lemma AddKeeps(handlers: seq<Handler>, fits: Fit, s: State, p: Pod, others: seq<Pod>)
    requires FitShrinks(fits) && Sound(handlers, fits) && WellFormed(s) && SameName(s, p) && Others(s, others, p)
    requires fits(Active(s))
    ensures fits(Active(AddOne(s, p, SyncCreate, AllAdmit(handlers, others, p))))
  {
    var admitted := AllAdmit(handlers, others, p);
    AddOneActive(s, p, SyncCreate, admitted);
    var r := AddOne(s, p, SyncCreate, admitted);
    if !p.mirror && admitted {
      forall u | u in Active(r) ensures u in Uids(others) + {p.uid} {
        if u != p.uid {
          assert u in Active(s);
          assert s.pods[u] in others;
        }
      }
      assert Active(r) <= Uids(others) + {p.uid};
      assert fits(Uids(others) + {p.uid});
    } else {
      assert Active(r) <= Active(s);
    }
  }

  // ------------------------------------------------------------------ whole runs

  /** What happens to the kubelet's pods.  Additions come with the others that admission looked at; the rest of the
      world changes statuses, updates pods and removes them. */
  datatype Step =
    | Add(pod: Pod, others: seq<Pod>)
    | Update(pod: Pod)
    | SetStatus(uid: Uid, status: Status)
    | Remove(uid: Uid)

  /** Terminated pods stay terminated, and an update is for a pod that is known. */
  ghost predicate Enabled(s: State, step: Step) {
    match step
    case Add(p, others) => SameName(s, p) && Others(s, others, p)
    case Update(p) =>
      SameName(s, p) && (!p.mirror ==> p.uid in s.pods && (Terminated(s, s.pods[p.uid]) ==> Terminated(s, p)))
    case SetStatus(u, st) =>
      u in s.pods && Terminated(s, s.pods[u]) ==> Terminated(s.(statuses := s.statuses[u := st]), s.pods[u])
    case Remove(u) => u in s.pods
  }

  /** HandlePodUpdates does what HandlePodAdditions does, but asks no admit handler. */
  function Next(handlers: seq<Handler>, s: State, step: Step): State {
    match step
    case Add(p, others) => AddOne(s, p, SyncCreate, AllAdmit(handlers, others, p))
    case Update(p) => AddOne(s, p, SyncUpdate, true)
    case SetStatus(u, st) => s.(statuses := s.statuses[u := st])
    case Remove(u) =>
      s.(pods := s.pods - {u}, byFullName := if u in s.pods then s.byFullName - {s.pods[u].fullName} else s.byFullName)
  }

  ghost predicate IsTrace(handlers: seq<Handler>, states: seq<State>, steps: seq<Step>) {
    && |states| == |steps| + 1
    && forall i :: 0 <= i < |steps| ==>
         Enabled(states[i], steps[i]) && states[i + 1] == Next(handlers, states[i], steps[i])
  }

  const Init := State(map[], map[], map[], map[], map[], map[], [])

  lemma OtherStepKeeps(handlers: seq<Handler>, s: State, step: Step)
    requires WellFormed(s) && Enabled(s, step) && !step.Add?
    ensures WellFormed(Next(handlers, s, step)) && Active(Next(handlers, s, step)) <= Active(s)
  {
    if step.Update? {
      AddOneActive(s, step.pod, SyncUpdate, true);
    } else {
      var t := Next(handlers, s, step);
      forall u | u in Active(t) ensures u in Active(s) {}
    }
  }

  lemma {:induction false} TraceFits(handlers: seq<Handler>, fits: Fit, states: seq<State>, steps: seq<Step>, n: nat)
    requires FitShrinks(fits) && Sound(handlers, fits) && IsTrace(handlers, states, steps) && n < |states|
    requires WellFormed(states[0]) && fits(Active(states[0]))
    ensures WellFormed(states[n]) && fits(Active(states[n]))
  {
    if n > 0 {
      TraceFits(handlers, fits, states, steps, n - 1);
      var s, step := states[n - 1], steps[n - 1];
      if step.Add? {
        AddOneActive(s, step.pod, SyncCreate, AllAdmit(handlers, step.others, step.pod));
        AddKeeps(handlers, fits, s, step.pod, step.others);
      } else {
        OtherStepKeeps(handlers, s, step);
      }
    }
  }

  /** Which others admission looks at, said of the statuses: the pods known before that did not end, and that are not
      being deleted with every container ended or waiting. */
  lemma OthersAre(handlers: seq<Handler>, states: seq<State>, steps: seq<Step>, n: nat, q: Pod)
    requires IsTrace(handlers, states, steps) && n < |steps| && steps[n].Add?
    ensures var s := states[n];
            var status := if q.uid in s.statuses then s.statuses[q.uid] else q.status;
            q in steps[n].others <==>
              && q.uid in s.pods && s.pods[q.uid] == q && status.phase != Succeeded && status.phase != Failed
              && (q.deleting ==> exists i :: 0 <= i < |status.containers| &&
                                             status.containers[i].state.terminated == None &&
                                             !status.containers[i].state.waiting)
  {
  }

  /** A pod that is refused becomes Failed and is not handed to a worker, and nothing else changes for the others. */
  lemma RefusedFails(handlers: seq<Handler>, s: State, p: Pod, others: seq<Pod>)
    requires !p.mirror && !Terminated(s, p) && exists i :: 0 <= i < |handlers| && !handlers[i](others, p).admit
    ensures var t := Next(handlers, s, Add(p, others));
            && p.uid in t.statuses && t.statuses[p.uid].phase == Failed && t.dispatched == s.dispatched
            && forall u :: u != p.uid ==>
                 (u in t.statuses <==> u in s.statuses) && (u in s.statuses ==> t.statuses[u] == s.statuses[u])
  {
  }

  /** A pod that is being deleted and does not run any more is not handed to a worker; all its containers are recorded
      as ended with code 0, and it keeps its phase. */
  lemma DeletedIsEnded(handlers: seq<Handler>, s: State, p: Pod, others: seq<Pod>)
    requires !p.mirror && Terminated(s, p) && p.deleting
    ensures var t := Next(handlers, s, Add(p, others));
            && t.dispatched == s.dispatched && p.uid in t.statuses
            && var before, after := StatusOf(s, p), t.statuses[p.uid];
               && after.phase == before.phase
               && |after.containers| == |before.containers| && |after.initContainers| == |before.initContainers|
               && (forall i :: 0 <= i < |before.containers| ==> EndedNow(before.containers[i], after.containers[i]))
               && forall i :: 0 <= i < |before.initContainers| ==>
                    EndedNow(before.initContainers[i], after.initContainers[i])
  {
  }

  predicate EndedNow(before: ContainerStatus, after: ContainerStatus) {
    && after.name == before.name && after.lastExit == before.lastExit
    && after.state.terminated == Some(0) && !after.state.running && !after.state.waiting
  }

  /** The mirror indices agree, and a mirror pod is translated to the pod of its name that is known. */
  ghost predicate Translates(s: State) {
    && (forall n :: n in s.mirrors ==>
          var p := s.mirrors[n];
          p.fullName == n && p.uid in s.mirrorsByUid && s.mirrorsByUid[p.uid] == p)
    && (forall n :: n in s.mirrors && n in s.byFullName ==>
          s.mirrors[n].uid in s.translation && s.translation[s.mirrors[n].uid] == s.byFullName[n].uid)
  }

  /** A mirror pod's UID never changes its name either. */
  ghost predicate SameMirrorName(s: State, step: Step) {
    (step.Add? || step.Update?) && step.pod.mirror && step.pod.uid in s.mirrorsByUid ==>
      s.mirrorsByUid[step.pod.uid].fullName == step.pod.fullName
  }

  lemma KnownTranslates(s: State, p: Pod)
    requires Translates(s)
    requires p.mirror && p.uid in s.mirrorsByUid ==> s.mirrorsByUid[p.uid].fullName == p.fullName
    ensures Translates(Known(s, p))
  {
  }

  lemma SameIndices(s: State, s': State)
    requires Translates(s) && s'.mirrors == s.mirrors && s'.mirrorsByUid == s.mirrorsByUid
    requires s'.translation == s.translation
    requires forall n :: n in s'.byFullName ==> n in s.byFullName && s'.byFullName[n] == s.byFullName[n]
    ensures Translates(s')
  {
  }

  lemma AddOneTranslates(s: State, p: Pod, kind: SyncKind, admitted: bool)
    requires Translates(s)
    requires p.mirror && p.uid in s.mirrorsByUid ==> s.mirrorsByUid[p.uid].fullName == p.fullName
    ensures Translates(AddOne(s, p, kind, admitted))
  {
    KnownTranslates(s, p);
    AddOneIndices(s, p, kind, admitted);
    SameIndices(Known(s, p), AddOne(s, p, kind, admitted));
  }

  lemma StepTranslates(handlers: seq<Handler>, s: State, step: Step)
    requires Translates(s) && SameMirrorName(s, step)
    ensures Translates(Next(handlers, s, step))
  {
    match step
    case Add(p, others) => AddOneTranslates(s, p, SyncCreate, AllAdmit(handlers, others, p));
    case Update(p) => AddOneTranslates(s, p, SyncUpdate, true);
    case _ => SameIndices(s, Next(handlers, s, step));
  }

  /** At every point of every run a mirror pod whose pod is known is translated to it. */
  lemma {:induction false} MirrorsTranslated(handlers: seq<Handler>, states: seq<State>, steps: seq<Step>, n: nat)
    requires IsTrace(handlers, states, steps) && states[0] == Init && n < |states|
    requires forall i :: 0 <= i < n ==> SameMirrorName(states[i], steps[i])
    ensures Translates(states[n])
  {
    if n > 0 {
      MirrorsTranslated(handlers, states, steps, n - 1);
      StepTranslates(handlers, states[n - 1], steps[n - 1]);
    }
  }

  /** The step makes this pod known. */
  predicate Brings(step: Step, p: Pod) {
    (step.Add? || step.Update?) && step.pod == p
  }

  /** It makes a pod of this name known, or removes one. */
  ghost predicate TouchesName(s: State, step: Step, name: string, mirror: bool) {
    match step
    case Add(p, _) => p.fullName == name && p.mirror == mirror
    case Update(p) => p.fullName == name && p.mirror == mirror
    case SetStatus(_, _) => false
    case Remove(u) => !mirror && u in s.pods && s.pods[u].fullName == name
  }

  lemma KnownKeepsNames(s: State, p: Pod, name: string, mirror: bool)
    requires p.fullName != name || p.mirror != mirror
    ensures !mirror ==>
              (name in Known(s, p).byFullName <==> name in s.byFullName) &&
              (name in s.byFullName ==> Known(s, p).byFullName[name] == s.byFullName[name])
    ensures mirror ==>
              (name in Known(s, p).mirrors <==> name in s.mirrors) &&
              (name in s.mirrors ==> Known(s, p).mirrors[name] == s.mirrors[name])
  {
  }

  ghost predicate Found(s: State, p: Pod) {
    var index := if p.mirror then s.mirrors else s.byFullName;
    p.fullName in index && index[p.fullName] == p
  }

  lemma BroughtIsFound(handlers: seq<Handler>, s: State, step: Step, p: Pod)
    requires Brings(step, p)
    ensures Found(Next(handlers, s, step), p)
  {
    match step
    case Add(_, others) => AddOneIndices(s, p, SyncCreate, AllAdmit(handlers, others, p));
    case Update(_) => AddOneIndices(s, p, SyncUpdate, true);
  }

  lemma StaysFound(handlers: seq<Handler>, s: State, step: Step, p: Pod)
    requires Found(s, p) && !TouchesName(s, step, p.fullName, p.mirror)
    ensures Found(Next(handlers, s, step), p)
  {
    match step
    case Add(q, others) => AddStaysFound(s, q, SyncCreate, AllAdmit(handlers, others, q), p);
    case Update(q) => AddStaysFound(s, q, SyncUpdate, true, p);
    case _ =>
  }

  lemma AddStaysFound(s: State, q: Pod, kind: SyncKind, admitted: bool, p: Pod)
    requires Found(s, p) && (q.fullName != p.fullName || q.mirror != p.mirror)
    ensures Found(AddOne(s, q, kind, admitted), p)
  {
    AddOneIndices(s, q, kind, admitted);
    KnownKeepsNames(s, q, p.fullName, p.mirror);
  }

  /** The pod or mirror pod found under a name is the one that was last made known under it, unless a pod of that name
      was removed since. */
  lemma {:induction false} NameFindsLatest(handlers: seq<Handler>, states: seq<State>, steps: seq<Step>, p: Pod,
                                           from: nat, n: nat)
    requires IsTrace(handlers, states, steps) && from < n < |states| && Brings(steps[from], p)
    requires forall i :: from < i < n ==> !TouchesName(states[i], steps[i], p.fullName, p.mirror)
    ensures Found(states[n], p)
  {
    if from + 1 < n {
      NameFindsLatest(handlers, states, steps, p, from, n - 1);
      StaysFound(handlers, states[n - 1], steps[n - 1], p);
    } else {
      BroughtIsFound(handlers, states[n - 1], steps[n - 1], p);
    }
  }

  /** Work for a pod goes out with the mirror pod found under its name; a mirror pod sends its pod to a worker as an
      update, with that mirror pod, if there is one and it is not terminated. */
  lemma WorkCarriesMirror(handlers: seq<Handler>, s: State, p: Pod, others: seq<Pod>, work: Work)
    requires WellFormed(s) && SameName(s, p)
    requires Next(handlers, s, Add(p, others)).dispatched == s.dispatched + [work]
    ensures p.mirror ==> p.fullName in s.byFullName && work == Work(s.byFullName[p.fullName].uid, SyncUpdate, Some(p))
    ensures !p.mirror ==>
              && work.uid == p.uid && work.kind == SyncCreate
              && (work.mirror.Some? <==> p.fullName in s.mirrors)
              && (work.mirror.Some? ==> work.mirror.value == s.mirrors[p.fullName])
  {
    var t := Next(handlers, s, Add(p, others));
    assert t.dispatched[|s.dispatched|] == work;
    if !p.mirror { AddOneActive(s, p, SyncCreate, AllAdmit(handlers, others, p)); }
  }

  /** At every point of every run, the pods that the kubelet knows and does not consider terminated fit together: a pod
      that did not fit was made Failed, and Failed pods are filtered out. */
  lemma ActivePodsFit(handlers: seq<Handler>, fits: Fit, states: seq<State>, steps: seq<Step>, n: nat)
    requires FitShrinks(fits) && Sound(handlers, fits) && IsTrace(handlers, states, steps) && states[0] == Init
    requires n < |states|
    ensures fits(Active(states[n]))
  {
    assert Active(Init) == {};
    TraceFits(handlers, fits, states, steps, n);
  }

  // ------------------------------------------------------------------ the code

  /** PodsByCreationTime */
  predicate NotYounger(p: Pod, q: Pod) {
    p.created <= q.created
  }

  ghost predicate Oldest(pods: seq<Pod>) {
    forall i, j :: 0 <= i < j < |pods| ==> pods[i].created <= pods[j].created
  }

  method SortByCreationTime(pods: seq<Pod>) returns (sorted: seq<Pod>)
    ensures Oldest(sorted) && multiset(sorted) == multiset(pods)
  {
    sorted := InsertionSort(pods, NotYounger);
    assert forall i, j :: 0 <= i < j < |sorted| ==> NotYounger(sorted[i], sorted[j]);
  }

  /** notRunning */
  method HaveStopped(containers: seq<ContainerStatus>) returns (stopped: bool)
    ensures stopped <==> NotRunning(containers)
  {
    for i := 0 to |containers|
      invariant forall j :: 0 <= j < i ==> containers[j].state.terminated.Some? || containers[j].state.waiting
    {
      if containers[i].state.terminated.None? && !containers[i].state.waiting { return false; }
    }
    return true;
  }

  /** One of the two loops of TerminatePod. */
  method ExitAll(cs: seq<ContainerStatus>) returns (r: seq<ContainerStatus>)
    ensures r == Exits(cs)
  {
    r := [];
    for i := 0 to |cs|
      invariant |r| == i && forall j :: 0 <= j < i ==> r[j] == Exit(cs[j])
    {
      r := r + [Exit(cs[i])];
    }
  }

  /** A UID never changes its name: `names` gives it. */
  ghost predicate Named(names: Uid -> string, s: State) {
    forall u :: u in s.pods ==> s.pods[u].fullName == names(u)
  }

  lemma AddOneNamed(names: Uid -> string, s: State, p: Pod, kind: SyncKind, admitted: bool)
    requires Named(names, s) && p.fullName == names(p.uid)
    ensures Named(names, AddOne(s, p, kind, admitted))
  {
    AddOneIndices(s, p, kind, admitted);
  }

  lemma TraceGrows(handlers: seq<Handler>, states: seq<State>, steps: seq<Step>, step: Step)
    requires IsTrace(handlers, states, steps) && Enabled(states[|steps|], step)
    ensures IsTrace(handlers, states + [Next(handlers, states[|steps|], step)], steps + [step])
  {
    var states', steps' := states + [Next(handlers, states[|steps|], step)], steps + [step];
    forall i | 0 <= i < |steps'|
      ensures Enabled(states'[i], steps'[i]) && states'[i + 1] == Next(handlers, states'[i], steps'[i])
    {
      if i < |steps| { assert states'[i] == states[i] && states'[i + 1] == states[i + 1] && steps'[i] == steps[i]; }
    }
  }

  /** The pods that a trace of additions takes, in order. */
  ghost function Added(steps: seq<Step>): seq<Pod>
    requires forall i :: 0 <= i < |steps| ==> steps[i].Add?
  {
    seq(|steps|, i requires 0 <= i < |steps| => steps[i].pod)
  }

  class Kubelet {
    const handlers: seq<Handler>
    var pods: map<Uid, Pod>
    var byFullName: map<string, Pod>
    var mirrorsByUid: map<Uid, Pod>
    var mirrors: map<string, Pod>
    var translation: map<Uid, Uid>
    var statuses: map<Uid, Status>
    var dispatched: seq<Work>

    ghost function View(): State
      reads this
    {
      State(pods, byFullName, mirrorsByUid, mirrors, translation, statuses, dispatched)
    }

    constructor (handlers: seq<Handler>)
      ensures View() == Init && this.handlers == handlers
    {
      this.handlers := handlers;
      pods, byFullName, mirrorsByUid, mirrors := map[], map[], map[], map[];
      translation, statuses, dispatched := map[], map[], [];
    }

    method GetPods() returns (all: seq<Pod>)
      requires WellFormed(View())
      ensures forall q :: q in all <==> q.uid in pods && pods[q.uid] == q
    {
      all := [];
      var left := pods.Keys;
      while left != {}
        invariant left <= pods.Keys
        invariant forall q :: q in all <==> q.uid in pods && pods[q.uid] == q && q.uid !in left
        decreases |left|
      {
        var u :| u in left;
        all := all + [pods[u]];
        left := left - {u};
      }
    }

    method AddPod(p: Pod)
      modifies this
      ensures View() == Known(old(View()), p)
    {
      if p.mirror {
        mirrorsByUid := mirrorsByUid[p.uid := p];
        mirrors := mirrors[p.fullName := p];
        if p.fullName in byFullName { translation := translation[p.uid := byFullName[p.fullName].uid]; }
      } else {
        pods := pods[p.uid := p];
        byFullName := byFullName[p.fullName := p];
        if p.fullName in mirrors { translation := translation[mirrors[p.fullName].uid := p.uid]; }
      }
    }

    method PodIsTerminated(p: Pod) returns (terminated: bool)
      ensures terminated <==> Terminated(View(), p)
    {
      var status := p.status;
      if p.uid in statuses { status := statuses[p.uid]; }
      var stopped := HaveStopped(status.containers);
      terminated := status.phase == Failed || status.phase == Succeeded || (p.deleting && stopped);
    }

    method DispatchWork(p: Pod, kind: SyncKind, mirror: Option<Pod>)
      modifies this
      ensures View() == Dispatch(old(View()), p, kind, mirror)
    {
      var terminated := PodIsTerminated(p);
      if terminated {
        if p.deleting {
          var status := if p.uid in statuses then statuses[p.uid] else p.status;
          var exited := ExitAll(status.containers);
          var initExited := ExitAll(status.initContainers);
          statuses := statuses[p.uid := Status(status.phase, exited, initExited)];
        }
        return;
      }
      dispatched := dispatched + [Work(p.uid, kind, mirror)];
    }

    method RejectPod(p: Pod)
      modifies this
      ensures View() == Reject(old(View()), p)
    {
      statuses := statuses[p.uid := Status(Failed, [], [])];
    }

    /** One pod of a batch. */
    method HandlePodAddition(p: Pod) returns (ghost others: seq<Pod>)
      requires WellFormed(View()) && SameName(View(), p)
      modifies this
      ensures Others(old(View()), others, p)
      ensures View() == AddOne(old(View()), p, SyncCreate, AllAdmit(handlers, others, p))
    {
      var existing := GetPods();
      AddPod(p);
      ghost var known := View();
      var now := State(pods, byFullName, mirrorsByUid, mirrors, translation, statuses, dispatched);
      var active := FilterOutTerminatedPods(now, existing);
      others := active;
      if p.mirror {
        if p.fullName in byFullName { DispatchWork(byFullName[p.fullName], SyncUpdate, Some(p)); }
        return;
      }
      var terminated := PodIsTerminated(p);
      if !terminated {
        var ok, reason := CanAdmitPod(handlers, active, p);
        if !ok {
          RejectPod(p);
          return;
        }
      }
      DispatchWork(p, SyncCreate, if p.fullName in mirrors then Some(mirrors[p.fullName]) else None);
    }

    /** A batch is a trace of additions, oldest pod first, of exactly the pods in it. */
    method HandlePodAdditions(batch: seq<Pod>, ghost names: Uid -> string)
      returns (ghost states: seq<State>, ghost steps: seq<Step>)
      requires WellFormed(View()) && Named(names, View()) && forall p :: p in batch ==> p.fullName == names(p.uid)
      modifies this
      ensures IsTrace(handlers, states, steps) && states[0] == old(View()) && states[|steps|] == View()
      ensures forall i :: 0 <= i < |steps| ==> steps[i].Add?
      ensures Oldest(Added(steps)) && multiset(Added(steps)) == multiset(batch)
      ensures WellFormed(View()) && Named(names, View())
    {
      var sorted := SortByCreationTime(batch);
      forall p | p in sorted ensures p.fullName == names(p.uid) {
        assert p in multiset(sorted);
      }
      states, steps := [View()], [];
      for i := 0 to |sorted|
        invariant |steps| == i && IsTrace(handlers, states, steps)
        invariant states[0] == old(View()) && states[i] == View()
        invariant forall j :: 0 <= j < i ==> steps[j].Add? && steps[j].pod == sorted[j]
        invariant WellFormed(View()) && Named(names, View())
      {
        ghost var before := View();
        ghost var others := HandlePodAddition(sorted[i]);
        AddOneActive(before, sorted[i], SyncCreate, AllAdmit(handlers, others, sorted[i]));
        AddOneNamed(names, before, sorted[i], SyncCreate, AllAdmit(handlers, others, sorted[i]));
        TraceGrows(handlers, states, steps, Add(sorted[i], others));
        states, steps := states + [View()], steps + [Add(sorted[i], others)];
      }
      assert Added(steps) == sorted;
    }
  }
}
