/** The phase of a pod (pkg/kubelet/kubelet_pods.go, `getPhase` and the phase part of `generateAPIPodStatus`). */
module PodPhase {
  import opened Options

  datatype Phase = Pending | Running | Succeeded | Failed

  datatype RestartPolicy = Always | OnFailure | Never

  /** v1.ContainerState: three optional parts, of which nothing forces exactly one to be set. */
  datatype ContainerState = ContainerState(running: bool, terminated: Option<int>, waiting: bool)

  /** v1.ContainerStatus; `lastExit` is the exit code of LastTerminationState. */
  datatype ContainerStatus = ContainerStatus(name: string, state: ContainerState, lastExit: Option<int>)

  datatype PodSpec = PodSpec(initContainers: seq<string>, containers: seq<string>, policy: RestartPolicy)

  predicate IsTerminal(p: Phase) {
    p == Succeeded || p == Failed
  }

  /** `info[i]` is the first status with this name. */
  ghost predicate FirstAt(info: seq<ContainerStatus>, name: string, i: nat) {
    i < |info| && info[i].name == name && forall j :: 0 <= j < i ==> info[j].name != name
  }

  /** podutil.GetContainerStatus: the first status with this name. */
  function Find(info: seq<ContainerStatus>, name: string): (r: Option<ContainerStatus>)
    ensures r.None? <==> forall i :: 0 <= i < |info| ==> info[i].name != name
    ensures r.Some? ==> exists i: nat :: FirstAt(info, name, i) && info[i] == r.value
  {
    if info == [] then None
    else if info[0].name == name then
      assert FirstAt(info, name, 0);
      Some(info[0])
    else
      var r := Find(info[1..], name);
      assert r.Some? ==> exists i: nat :: FirstAt(info, name, i) && info[i] == r.value by {
        if r.Some? {
          var k: nat :| FirstAt(info[1..], name, k) && info[1..][k] == r.value;
          assert FirstAt(info, name, k + 1) && info[k + 1] == r.value;
        }
      }
      assert forall i :: 1 <= i < |info| ==> info[i] == info[1..][i - 1];
      r
  }

  // ------------------------------------------------------------------ what is known of one container

  /** The exit code that counts for an init container: of its last end, unless it runs again. */
  function InitExit(info: seq<ContainerStatus>, name: string): Option<int> {
    match Find(info, name)
    case None => None
    case Some(c) =>
      if c.state.running then None
      else if c.state.terminated.Some? then c.state.terminated
      else if c.state.waiting then c.lastExit
      else None
  }

  datatype AppState = Unknown | IsRunning | IsWaiting | Exited(code: int) | BetweenRuns

  function AppStateOf(info: seq<ContainerStatus>, name: string): AppState {
    match Find(info, name)
    case None => Unknown
    case Some(c) =>
      if c.state.running then IsRunning
      else if c.state.terminated.Some? then Exited(c.state.terminated.value)
      else if c.state.waiting then (if c.lastExit.Some? then BetweenRuns else IsWaiting)
      else Unknown
  }

  ghost predicate InitPending(spec: PodSpec, info: seq<ContainerStatus>) {
    exists i :: 0 <= i < |spec.initContainers| && InitExit(info, spec.initContainers[i]) == None
  }

  ghost predicate InitFailed(spec: PodSpec, info: seq<ContainerStatus>) {
    exists i :: 0 <= i < |spec.initContainers| && InitExit(info, spec.initContainers[i]).Some? &&
                InitExit(info, spec.initContainers[i]) != Some(0)
  }

  /** Some app container is in this state. */
  ghost predicate SomeApp(spec: PodSpec, info: seq<ContainerStatus>, state: AppState) {
    exists i :: 0 <= i < |spec.containers| && AppStateOf(info, spec.containers[i]) == state
  }

  /** There are app containers, and all have ended at least once and are not running. */
  ghost predicate AllStopped(spec: PodSpec, info: seq<ContainerStatus>) {
    |spec.containers| > 0 && forall i :: 0 <= i < |spec.containers| ==>
      AppStateOf(info, spec.containers[i]).Exited? || AppStateOf(info, spec.containers[i]).BetweenRuns?
  }

  ghost predicate AllSucceeded(spec: PodSpec, info: seq<ContainerStatus>) {
    forall i :: 0 <= i < |spec.containers| ==> AppStateOf(info, spec.containers[i]) == Exited(0)
  }

  ghost predicate Doomed(spec: PodSpec, info: seq<ContainerStatus>) {
    InitFailed(spec, info) && spec.policy == Never
  }

  /** Every container has been started at least once. */
  ghost predicate Started(spec: PodSpec, info: seq<ContainerStatus>) {
    !InitPending(spec, info) && !SomeApp(spec, info, IsWaiting) && !SomeApp(spec, info, Unknown)
  }

  // ------------------------------------------------------------------ getPhase

  /** How many of the first `n` names satisfy `p`. */
  ghost function Count(names: seq<string>, n: nat, p: string -> bool): nat
    requires n <= |names|
  {
    if n == 0 then 0 else Count(names, n - 1, p) + if p(names[n - 1]) then 1 else 0
  }

  lemma {:induction false} CountIsSome(names: seq<string>, n: nat, p: string -> bool)
    requires n <= |names|
    ensures Count(names, n, p) <= n
    ensures Count(names, n, p) > 0 <==> exists i :: 0 <= i < n && p(names[i])
    ensures Count(names, n, p) == n <==> forall i :: 0 <= i < n ==> p(names[i])
  {
    if n > 0 { CountIsSome(names, n - 1, p); }
  }

  function InState(info: seq<ContainerStatus>, state: AppState): string -> bool {
    x => AppStateOf(info, x) == state
  }

  function HasNotExited(info: seq<ContainerStatus>): string -> bool {
    x => InitExit(info, x) == None
  }

  function HasFailed(info: seq<ContainerStatus>): string -> bool {
    x => InitExit(info, x).Some? && InitExit(info, x) != Some(0)
  }

  function IsStopped(info: seq<ContainerStatus>): string -> bool {
    x => AppStateOf(info, x).Exited? || AppStateOf(info, x).BetweenRuns?
  }

  method CountInit(spec: PodSpec, info: seq<ContainerStatus>) returns (pending: nat, failed: nat)
    ensures pending > 0 <==> InitPending(spec, info)
    ensures failed > 0 <==> InitFailed(spec, info)
  {
    CountIsSome(spec.initContainers, |spec.initContainers|, HasNotExited(info));
    CountIsSome(spec.initContainers, |spec.initContainers|, HasFailed(info));
    pending, failed := 0, 0;
    var initialized := 0;
    for i := 0 to |spec.initContainers|
      invariant pending == Count(spec.initContainers, i, HasNotExited(info))
      invariant failed == Count(spec.initContainers, i, HasFailed(info))
    {
      var status := Find(info, spec.initContainers[i]);
      if status.None? {
        pending := pending + 1;
        continue;
      }
      var c := status.value;
      if c.state.running {
        pending := pending + 1;
      } else if c.state.terminated.Some? {
        if c.state.terminated.value == 0 { initialized := initialized + 1; } else { failed := failed + 1; }
      } else if c.state.waiting {
        if c.lastExit.Some? {
          if c.lastExit.value == 0 { initialized := initialized + 1; } else { failed := failed + 1; }
        } else {
          pending := pending + 1;
        }
      } else {
        pending := pending + 1;
      }
    }
  }

  method CountApps(spec: PodSpec, info: seq<ContainerStatus>)
    returns (unknown: nat, running: nat, waiting: nat, stopped: nat, succeeded: nat)
    ensures unknown == Count(spec.containers, |spec.containers|, InState(info, Unknown))
    ensures running == Count(spec.containers, |spec.containers|, InState(info, IsRunning))
    ensures waiting == Count(spec.containers, |spec.containers|, InState(info, IsWaiting))
    ensures stopped == Count(spec.containers, |spec.containers|, IsStopped(info))
    ensures succeeded == Count(spec.containers, |spec.containers|, InState(info, Exited(0)))
  {
    unknown, running, waiting, stopped, succeeded := 0, 0, 0, 0, 0;
    var failed := 0;
    for i := 0 to |spec.containers|
      invariant unknown == Count(spec.containers, i, InState(info, Unknown))
      invariant running == Count(spec.containers, i, InState(info, IsRunning))
      invariant waiting == Count(spec.containers, i, InState(info, IsWaiting))
      invariant stopped == Count(spec.containers, i, IsStopped(info))
      invariant succeeded == Count(spec.containers, i, InState(info, Exited(0)))
    {
      var status := Find(info, spec.containers[i]);
      if status.None? {
        unknown := unknown + 1;
        continue;
      }
      var c := status.value;
      if c.state.running {
        running := running + 1;
      } else if c.state.terminated.Some? {
        stopped := stopped + 1;
        if c.state.terminated.value == 0 { succeeded := succeeded + 1; } else { failed := failed + 1; }
      } else if c.state.waiting {
        if c.lastExit.Some? { stopped := stopped + 1; } else { waiting := waiting + 1; }
      } else {
        unknown := unknown + 1;
      }
    }
  }

  /** What the four phases mean.  They exclude each other and leave no case out. */
  ghost predicate IsPhase(spec: PodSpec, info: seq<ContainerStatus>, p: Phase) {
    match p
    case Succeeded =>
      !Doomed(spec, info) && !InitPending(spec, info) && |spec.containers| > 0 && AllSucceeded(spec, info) &&
      spec.policy != Always
    case Failed =>
      Doomed(spec, info) ||
      (!InitPending(spec, info) && AllStopped(spec, info) && !AllSucceeded(spec, info) && spec.policy == Never)
    case Running =>
      !Doomed(spec, info) && Started(spec, info) &&
      (SomeApp(spec, info, IsRunning) ||
       (AllStopped(spec, info) && (spec.policy == Always || (spec.policy == OnFailure && !AllSucceeded(spec, info)))))
    case Pending =>
      !Doomed(spec, info) && (!Started(spec, info) || spec.containers == [])
  }

  // ---- the same, said of the container states alone

  /** There is a status for this name, and the first one satisfies `p`. */
  ghost predicate HasStatus(info: seq<ContainerStatus>, name: string, p: ContainerStatus -> bool) {
    exists i: nat :: FirstAt(info, name, i) && p(info[i])
  }

  lemma FoundIs(info: seq<ContainerStatus>, name: string, p: ContainerStatus -> bool)
    ensures HasStatus(info, name, p) <==> Find(info, name).Some? && p(Find(info, name).value)
  {
    if Find(info, name).Some? {
      var k: nat :| FirstAt(info, name, k) && info[k] == Find(info, name).value;
      assert forall i: nat :: FirstAt(info, name, i) ==> i == k;
    }
  }

  predicate Runs(c: ContainerStatus) {
    c.state.running
  }

  /** It is not running, and has ended, now or before it began to wait. */
  predicate HasRun(c: ContainerStatus) {
    !c.state.running && (c.state.terminated.Some? || (c.state.waiting && c.lastExit.Some?))
  }

  /** And the last time with an error. */
  predicate HasBroken(c: ContainerStatus) {
    HasRun(c) && (if c.state.terminated.Some? then c.state.terminated.value else c.lastExit.value) != 0
  }

  predicate RunsOrHasRun(c: ContainerStatus) {
    Runs(c) || HasRun(c)
  }

  /** It has ended without an error, and is not waiting to be started again. */
  predicate IsDone(c: ContainerStatus) {
    !c.state.running && c.state.terminated == Some(0)
  }

  ghost predicate EachOf(names: seq<string>, info: seq<ContainerStatus>, p: ContainerStatus -> bool) {
    forall i :: 0 <= i < |names| ==> HasStatus(info, names[i], p)
  }

  ghost predicate SomeOf(names: seq<string>, info: seq<ContainerStatus>, p: ContainerStatus -> bool) {
    exists i :: 0 <= i < |names| && HasStatus(info, names[i], p)
  }

  /** All init containers have run, and all app containers, of which there are some, run or have run. */
  ghost predicate AllRan(spec: PodSpec, info: seq<ContainerStatus>) {
    spec.containers != [] && EachOf(spec.initContainers, info, HasRun) && EachOf(spec.containers, info, RunsOrHasRun)
  }

  ghost predicate MeansPhase(spec: PodSpec, info: seq<ContainerStatus>, p: Phase) {
    var broken := spec.policy == Never && SomeOf(spec.initContainers, info, HasBroken);
    var idle := AllRan(spec, info) && !SomeOf(spec.containers, info, Runs);
    var done := EachOf(spec.containers, info, IsDone);
    match p
    case Pending => !broken && !AllRan(spec, info)
    case Running =>
      !broken && AllRan(spec, info) && (idle ==> spec.policy == Always || (spec.policy == OnFailure && !done))
    case Succeeded => !broken && idle && done && spec.policy != Always
    case Failed => broken || (idle && !done && spec.policy == Never)
  }

  /** The phase, on the states of the containers: in particular a pod whose containers have all ended and wait to be
      started again is Running under the policies that restart them. */
  lemma PhaseMeans(spec: PodSpec, info: seq<ContainerStatus>, p: Phase)
    ensures IsPhase(spec, info, p) <==> MeansPhase(spec, info, p)
  {
    InitMeans(spec, info);
    AppsMean(spec, info);
  }

  lemma InitMeans(spec: PodSpec, info: seq<ContainerStatus>)
    ensures InitPending(spec, info) <==> !EachOf(spec.initContainers, info, HasRun)
    ensures InitFailed(spec, info) <==> SomeOf(spec.initContainers, info, HasBroken)
  {
    forall i | 0 <= i < |spec.initContainers|
      ensures HasStatus(info, spec.initContainers[i], HasRun) <==> InitExit(info, spec.initContainers[i]).Some?
      ensures HasStatus(info, spec.initContainers[i], HasBroken) <==>
              InitExit(info, spec.initContainers[i]).Some? && InitExit(info, spec.initContainers[i]) != Some(0)
    {
      FoundIs(info, spec.initContainers[i], HasRun);
      FoundIs(info, spec.initContainers[i], HasBroken);
    }
  }

  lemma AppMeans(info: seq<ContainerStatus>, name: string)
    ensures HasStatus(info, name, Runs) <==> AppStateOf(info, name) == IsRunning
    ensures HasStatus(info, name, IsDone) <==> AppStateOf(info, name) == Exited(0)
    ensures HasStatus(info, name, RunsOrHasRun) <==>
            AppStateOf(info, name) != IsWaiting && AppStateOf(info, name) != Unknown
  {
    FoundIs(info, name, Runs);
    FoundIs(info, name, IsDone);
    FoundIs(info, name, RunsOrHasRun);
  }

  lemma AppsMean(spec: PodSpec, info: seq<ContainerStatus>)
    ensures SomeApp(spec, info, IsRunning) <==> SomeOf(spec.containers, info, Runs)
    ensures AllSucceeded(spec, info) <==> EachOf(spec.containers, info, IsDone)
    ensures !SomeApp(spec, info, IsWaiting) && !SomeApp(spec, info, Unknown) <==>
            EachOf(spec.containers, info, RunsOrHasRun)
  {
    forall i | 0 <= i < |spec.containers|
      ensures HasStatus(info, spec.containers[i], Runs) <==> AppStateOf(info, spec.containers[i]) == IsRunning
      ensures HasStatus(info, spec.containers[i], IsDone) <==> AppStateOf(info, spec.containers[i]) == Exited(0)
      ensures HasStatus(info, spec.containers[i], RunsOrHasRun) <==>
              AppStateOf(info, spec.containers[i]) != IsWaiting && AppStateOf(info, spec.containers[i]) != Unknown
    {
      AppMeans(info, spec.containers[i]);
    }
  }

  method GetPhase(spec: PodSpec, info: seq<ContainerStatus>) returns (p: Phase)
    ensures IsPhase(spec, info, p) && MeansPhase(spec, info, p)
  {
    forall q { PhaseMeans(spec, info, q); }
    var pendingInitialization, failedInitialization := CountInit(spec, info);
    var unknown, running, waiting, stopped, succeeded := CountApps(spec, info);
    AppCounts(spec, info, unknown, running, waiting, stopped, succeeded);
    if failedInitialization > 0 && spec.policy == Never { return Failed; }
    if pendingInitialization > 0 || waiting > 0 { return Pending; }
    if running > 0 && unknown == 0 { return Running; }
    if running == 0 && stopped > 0 && unknown == 0 {
      if spec.policy == Always { return Running; }
      if stopped == succeeded { return Succeeded; }
      if spec.policy == Never { return Failed; }
      return Running;
    }
    return Pending;
  }

  lemma AppCounts(spec: PodSpec, info: seq<ContainerStatus>, unknown: nat, running: nat, waiting: nat, stopped: nat,
                  succeeded: nat)
    requires unknown == Count(spec.containers, |spec.containers|, InState(info, Unknown))
    requires running == Count(spec.containers, |spec.containers|, InState(info, IsRunning))
    requires waiting == Count(spec.containers, |spec.containers|, InState(info, IsWaiting))
    requires stopped == Count(spec.containers, |spec.containers|, IsStopped(info))
    requires succeeded == Count(spec.containers, |spec.containers|, InState(info, Exited(0)))
    ensures unknown > 0 <==> SomeApp(spec, info, Unknown)
    ensures running > 0 <==> SomeApp(spec, info, IsRunning)
    ensures waiting > 0 <==> SomeApp(spec, info, IsWaiting)
    ensures unknown == 0 && running == 0 && waiting == 0 && stopped > 0 <==> AllStopped(spec, info)
    ensures AllStopped(spec, info) ==> (stopped == succeeded <==> AllSucceeded(spec, info))
  {
    SomeAppCount(spec, info, Unknown);
    SomeAppCount(spec, info, IsRunning);
    SomeAppCount(spec, info, IsWaiting);
    AllStoppedCount(spec, info);
    SucceededCount(spec, info);
    NoneOtherIsStopped(spec, info);
  }

  lemma AllStoppedCount(spec: PodSpec, info: seq<ContainerStatus>)
    ensures AllStopped(spec, info) <==>
            |spec.containers| > 0 && Count(spec.containers, |spec.containers|, IsStopped(info)) == |spec.containers|
    ensures Count(spec.containers, |spec.containers|, IsStopped(info)) > 0 ==> |spec.containers| > 0
  {
    CountIsSome(spec.containers, |spec.containers|, IsStopped(info));
  }

  lemma SucceededCount(spec: PodSpec, info: seq<ContainerStatus>)
    ensures AllSucceeded(spec, info) <==>
            Count(spec.containers, |spec.containers|, InState(info, Exited(0))) == |spec.containers|
  {
    CountIsSome(spec.containers, |spec.containers|, InState(info, Exited(0)));
  }

  ghost predicate NoneOther(spec: PodSpec, info: seq<ContainerStatus>) {
    !SomeApp(spec, info, Unknown) && !SomeApp(spec, info, IsRunning) && !SomeApp(spec, info, IsWaiting)
  }

  lemma NoneOtherIsStopped(spec: PodSpec, info: seq<ContainerStatus>)
    ensures AllStopped(spec, info) <==>
            |spec.containers| > 0 && NoneOther(spec, info)
  {
    if |spec.containers| > 0 && NoneOther(spec, info) {
      forall i | 0 <= i < |spec.containers|
        ensures AppStateOf(info, spec.containers[i]).Exited? || AppStateOf(info, spec.containers[i]).BetweenRuns?
      {
        var state := AppStateOf(info, spec.containers[i]);
        assert SomeApp(spec, info, state);
      }
    }
  }

  lemma SomeAppCount(spec: PodSpec, info: seq<ContainerStatus>, state: AppState)
    ensures Count(spec.containers, |spec.containers|, InState(info, state)) > 0 <==> SomeApp(spec, info, state)
  {
    CountIsSome(spec.containers, |spec.containers|, InState(info, state));
  }

  /** The definition picks exactly one phase for every pod. */
  lemma PhaseIsUnique(spec: PodSpec, info: seq<ContainerStatus>, p: Phase, q: Phase)
    requires IsPhase(spec, info, p) && IsPhase(spec, info, q)
    ensures p == q
  {
  }

  // ------------------------------------------------------------------ the phase reported to the API server

  /** What one sync sees: whether a sync handler wants the pod evicted, and the container states. */
  datatype Sight = Sight(evict: bool, info: seq<ContainerStatus>)

  /** generateAPIPodStatus may report `p` for a pod whose copy, as the worker has it, shows the phase `seen`. */
  ghost predicate Reports(spec: PodSpec, seen: Phase, sight: Sight, p: Phase) {
    if sight.evict then p == Failed
    else if IsTerminal(seen) then p == seen
    else IsPhase(spec, sight.info, p)
  }

  method GenerateAPIPodPhase(spec: PodSpec, seen: Phase, sight: Sight) returns (p: Phase)
    ensures Reports(spec, seen, sight, p)
  {
    if sight.evict { return Failed; }
    p := GetPhase(spec, sight.info);
    if seen == Failed || seen == Succeeded {
      if p != seen { p := seen; }
    }
  }

  /** The containers alone make the phase terminal. */
  ghost predicate Ended(spec: PodSpec, info: seq<ContainerStatus>) {
    IsPhase(spec, info, Succeeded) || IsPhase(spec, info, Failed)
  }

  /** A report is terminal if and only if the pod is evicted, the copy seen is terminal, or the containers are. */
  lemma ReportTerminalIff(spec: PodSpec, seen: Phase, sight: Sight, p: Phase)
    requires Reports(spec, seen, sight, p)
    ensures IsTerminal(p) <==> sight.evict || IsTerminal(seen) || Ended(spec, sight.info)
  {
    if !sight.evict && !IsTerminal(seen) {
      if IsPhase(spec, sight.info, Succeeded) { PhaseIsUnique(spec, sight.info, p, Succeeded); }
      if IsPhase(spec, sight.info, Failed) { PhaseIsUnique(spec, sight.info, p, Failed); }
    }
  }

  /** A run of syncs.  `server[i]` is the API server's phase at sync `i`; the worker's copy shows what the server had
      then or at some time before; and the report may or may not have reached the server by the next sync. */
  ghost predicate IsRun(spec: PodSpec, server: seq<Phase>, seen: seq<Phase>, sights: seq<Sight>,
                        reported: seq<Phase>)
  {
    && |server| == |sights| + 1 && |seen| == |reported| == |sights|
    && forall i :: 0 <= i < |sights| ==>
         && seen[i] in server[..i + 1]
         && Reports(spec, seen[i], sights[i], reported[i])
         && (server[i + 1] == server[i] || server[i + 1] == reported[i])
  }

  /** From sync `from` to before sync `to`, a copy is not older than the server's terminal phase. */
  ghost predicate UpToDate(server: seq<Phase>, seen: seq<Phase>, from: nat, to: nat)
    requires from <= to <= |seen| < |server|
  {
    forall i :: from <= i < to && IsTerminal(server[i]) ==> seen[i] == server[i]
  }

  lemma {:induction false} ServerStays(spec: PodSpec, server: seq<Phase>, seen: seq<Phase>, sights: seq<Sight>,
                                       reported: seq<Phase>, from: nat, to: nat)
    requires IsRun(spec, server, seen, sights, reported) && from <= to < |server| && IsTerminal(server[from])
    requires UpToDate(server, seen, from, to)
    ensures IsTerminal(server[to])
    ensures server[to] == server[from] || (server[to] == Failed && exists i :: from <= i < to && sights[i].evict)
  {
    if from < to { ServerStays(spec, server, seen, sights, reported, from, to - 1); }
  }

  /** Once the API server shows a terminal phase, and as long as the copies show it too, every later report is terminal,
      and the same one unless a sync handler evicted the pod in the meantime, after which it is Failed or still what it
      was. */
  lemma TerminalStays(spec: PodSpec, server: seq<Phase>, seen: seq<Phase>, sights: seq<Sight>, reported: seq<Phase>,
                      from: nat, to: nat)
    requires IsRun(spec, server, seen, sights, reported) && from <= to < |reported| && IsTerminal(server[from])
    requires UpToDate(server, seen, from, to + 1)
    ensures IsTerminal(server[to]) && IsTerminal(reported[to]) && IsTerminal(server[to + 1])
    ensures reported[to] != server[from] ==>
              reported[to] == Failed && exists i :: from <= i <= to && sights[i].evict
  {
    ServerStays(spec, server, seen, sights, reported, from, to);
    ServerStays(spec, server, seen, sights, reported, from, to + 1);
  }

  /** Without that, the reports of some syncs are all terminal if and only if at each of them the pod is evicted, the
      copy shows a terminal phase, or the containers make one. */
  lemma ReportsTerminalIff(spec: PodSpec, server: seq<Phase>, seen: seq<Phase>, sights: seq<Sight>,
                           reported: seq<Phase>, from: nat, to: nat)
    requires IsRun(spec, server, seen, sights, reported) && from <= to <= |reported|
    ensures (forall i :: from <= i < to ==> IsTerminal(reported[i])) <==>
            (forall i :: from <= i < to ==> sights[i].evict || IsTerminal(seen[i]) || Ended(spec, sights[i].info))
  {
    forall i | from <= i < to
      ensures IsTerminal(reported[i]) <==> sights[i].evict || IsTerminal(seen[i]) || Ended(spec, sights[i].info)
    {
      ReportTerminalIff(spec, seen[i], sights[i], reported[i]);
    }
  }

  /** An old copy can bring a pod back: it succeeds, and the next sync, which still has the copy from before, sees it
      running and says so. */
  lemma OldCopyRevives(spec: PodSpec, done: seq<ContainerStatus>, again: seq<ContainerStatus>)
    requires IsPhase(spec, done, Succeeded) && IsPhase(spec, again, Running)
    ensures IsRun(spec, [Running, Succeeded, Running], [Running, Running], [Sight(false, done), Sight(false, again)],
                  [Succeeded, Running])
  {
    var server := [Running, Succeeded, Running];
    assert server[..1] == [Running] && server[..2] == [Running, Succeeded];
  }
}
