/** The kubelet's per-pod workers (pkg/kubelet/pod_workers.go).

    Three maps guarded by one lock, and one goroutine per channel that ever existed.  A step is one
    lock-protected section or one phase change of a goroutine, so a run is any interleaving of them.
    A send or close that Go would refuse is not ruled out by a precondition: it moves the state to an
    unhealthy one, and the run theorems show that this never happens. */
module PodWorkers {
  import opened Options
  import opened Sequences

  type Uid = string

  datatype SyncType = SyncPodCreate | SyncPodUpdate | SyncPodSync | SyncPodKill

  /** UpdatePodOptions; `tag` stands for the pod, mirror pod, callback and kill options carried along. */
  datatype Update = Update(uid: Uid, kind: SyncType, tag: nat)

  /** A `chan UpdatePodOptions` of capacity one, and the pod whose goroutine ranges over it. */
  datatype Channel = Channel(owner: Uid, buffer: seq<Update>, closed: bool)

  const CAPACITY: nat := 1

  /** Where the goroutine of a channel is inside managePodLoop. */
  datatype Phase = Idle | Syncing(update: Update) | WrappingUp(update: Update) | Exited

  datatype Health = Healthy | Panicked | Blocked

  /** A channel is named by its position; forgotten channels stay, because their goroutine still drains them.
      `sent` records every update ever put into a channel, in order. */
  datatype State = State(
    podUpdates: map<Uid, nat>,
    isWorking: map<Uid, bool>,
    undelivered: map<Uid, Update>,
    channels: seq<Channel>,
    workers: seq<Phase>,
    sent: seq<Update>,
    health: Health)

  datatype Action =
    | UpdatePod(options: Update)
    | ForgetWorker(uid: Uid)
    | ForgetNonExistingPodWorkers(desired: set<Uid>)
    | Receive(c: nat)
    | EndSync(c: nat)
    | CheckForUpdates(c: nat)
    | Exit(c: nat)

  const Init := State(map[], map[], map[], [], [], [], Healthy)

  /** A missing entry of a Go map of booleans reads as false. */
  predicate Working(s: State, uid: Uid) {
    uid in s.isWorking && s.isWorking[uid]
  }

  /** `ch <- update`: a nil or full channel blocks (with the lock held), a closed one panics. */
  function Send(s: State, ch: int, update: Update): State {
    if !(0 <= ch < |s.channels|) then s.(health := Blocked)
    else if s.channels[ch].closed then s.(health := Panicked)
    else if |s.channels[ch].buffer| >= CAPACITY then s.(health := Blocked)
    else
      var channel := s.channels[ch];
      s.(channels := s.channels[ch := channel.(buffer := channel.buffer + [update])], sent := s.sent + [update])
  }

  /** The first half of UpdatePod: make a channel and start its goroutine when the pod has none. */
  function WithWorker(s: State, uid: Uid): State {
    if uid in s.podUpdates then s
    else s.(podUpdates := s.podUpdates[uid := |s.channels|],
            channels := s.channels + [Channel(uid, [], false)],
            workers := s.workers + [Idle])
  }

  function Deliver(s: State, options: Update): State {
    var t := WithWorker(s, options.uid);
    if !Working(t, options.uid) then
      Send(t.(isWorking := t.isWorking[options.uid := true]), t.podUpdates[options.uid], options)
    else if options.uid !in t.undelivered || t.undelivered[options.uid].kind != SyncPodKill then
      t.(undelivered := t.undelivered[options.uid := options])
    else t
  }

  /** Channel `c` is the one a pod of `gone` currently uses. */
  predicate Closes(s: State, gone: set<Uid>, c: nat)
    requires c < |s.channels|
  {
    var uid := s.channels[c].owner;
    uid in gone && uid in s.podUpdates && s.podUpdates[uid] == c
  }

  /** removeWorker for every pod of `gone` that has a worker. */
  function Remove(s: State, gone: set<Uid>): State {
    var live := gone * s.podUpdates.Keys;
    State(
      s.podUpdates - live,
      s.isWorking,
      s.undelivered - live,
      seq(|s.channels|, c requires 0 <= c < |s.channels| =>
            if Closes(s, gone, c) then s.channels[c].(closed := true) else s.channels[c]),
      s.workers,
      s.sent,
      if exists c :: 0 <= c < |s.channels| && Closes(s, gone, c) && s.channels[c].closed then Panicked else s.health)
  }

  function CheckUpdates(s: State, uid: Uid): State {
    if uid in s.undelivered then
      var ch: int := if uid in s.podUpdates then s.podUpdates[uid] else -1;
      var t := Send(s, ch, s.undelivered[uid]);
      t.(undelivered := t.undelivered - {uid})
    else s.(isWorking := s.isWorking[uid := false])
  }

  predicate Enabled(s: State, a: Action) {
    s.health == Healthy &&
    match a
    case UpdatePod(_) => true
    case ForgetWorker(_) => true
    case ForgetNonExistingPodWorkers(_) => true
    case Receive(c) => c < |s.workers| && c < |s.channels| && s.workers[c] == Idle && s.channels[c].buffer != []
    case EndSync(c) => c < |s.workers| && s.workers[c].Syncing?
    case CheckForUpdates(c) => c < |s.workers| && s.workers[c].WrappingUp?
    case Exit(c) =>
      c < |s.workers| && c < |s.channels| && s.workers[c] == Idle && s.channels[c].buffer == [] && s.channels[c].closed
  }

  function Next(s: State, a: Action): State
    requires Enabled(s, a)
  {
    match a
    case UpdatePod(options) => Deliver(s, options)
    case ForgetWorker(uid) => Remove(s, {uid})
    case ForgetNonExistingPodWorkers(desired) => Remove(s, s.podUpdates.Keys - desired)
    case Receive(c) =>
      // A closed channel still yields what was buffered before the close.
      var channel := s.channels[c];
      s.(workers := s.workers[c := Syncing(channel.buffer[0])],
         channels := s.channels[c := channel.(buffer := channel.buffer[1..])])
    case EndSync(c) => s.(workers := s.workers[c := WrappingUp(s.workers[c].update)])
    case CheckForUpdates(c) =>
      CheckUpdates(s, s.workers[c].update.uid).(workers := s.workers[c := Idle])
    case Exit(c) => s.(workers := s.workers[c := Exited])
  }

  // ------------------------------------------------------------------ one token per working pod

  /** A unit of work for a pod: an update waiting in some channel, or one being processed by some goroutine. */
  datatype Token = Buffered(c: nat, i: nat) | InProgress(c: nat)

  ghost predicate IsToken(s: State, uid: Uid, t: Token) {
    match t
    case Buffered(c, i) => c < |s.channels| && i < |s.channels[c].buffer| && s.channels[c].buffer[i].uid == uid
    case InProgress(c) =>
      c < |s.workers| && (s.workers[c].Syncing? || s.workers[c].WrappingUp?) && s.workers[c].update.uid == uid
  }

  ghost function Tokens(s: State, uid: Uid): set<Token> {
    (set c: nat, i: nat | c < |s.channels| && i < |s.channels[c].buffer| && IsToken(s, uid, Buffered(c, i))
      :: Buffered(c, i))
    + (set c: nat | c < |s.workers| && IsToken(s, uid, InProgress(c)) :: InProgress(c))
  }

  lemma TokensAre(s: State, uid: Uid)
    ensures forall t :: t in Tokens(s, uid) <==> IsToken(s, uid, t)
  {
    forall t ensures t in Tokens(s, uid) <==> IsToken(s, uid, t) {
      match t
      case Buffered(c, i) =>
      case InProgress(c) =>
    }
  }

  /** Channels and goroutines of one pod carry only that pod's updates; a live worker's channel is open. */
  ghost predicate Shape(s: State) {
    && s.health == Healthy
    && |s.workers| == |s.channels|
    && (forall uid :: uid in s.podUpdates ==>
          var c := s.podUpdates[uid];
          c < |s.channels| && s.channels[c].owner == uid && !s.channels[c].closed && s.workers[c] != Exited)
    && (forall c, i :: 0 <= c < |s.channels| && 0 <= i < |s.channels[c].buffer| ==>
          s.channels[c].buffer[i].uid == s.channels[c].owner)
    && (forall c :: 0 <= c < |s.channels| && (s.workers[c].Syncing? || s.workers[c].WrappingUp?) ==>
          s.workers[c].update.uid == s.channels[c].owner)
    && (forall c :: 0 <= c < |s.channels| && s.channels[c].buffer != [] ==> s.workers[c] != Exited)
  }

  /** An update waits outside the channel only while the pod is being worked on and still has its worker. */
  ghost predicate PendingOk(s: State) {
    forall uid :: uid in s.undelivered ==> s.undelivered[uid].uid == uid && Working(s, uid) && uid in s.podUpdates
  }

  ghost predicate OneToken(s: State, uid: Uid) {
    && (forall t :: IsToken(s, uid, t) ==> Working(s, uid))
    && (forall t, t' :: IsToken(s, uid, t) && IsToken(s, uid, t') ==> t == t')
    && (Working(s, uid) ==> exists t :: IsToken(s, uid, t))
  }

  ghost predicate Inv(s: State) {
    Shape(s) && PendingOk(s) && forall uid :: OneToken(s, uid)
  }

  /** Only the tokens and the flag of `uid` may differ between the two states. */
  ghost predicate SameElsewhere(s: State, s': State, uid: Uid) {
    && (forall u, k :: u != uid ==> (IsToken(s', u, k) <==> IsToken(s, u, k)))
    && (forall u :: u != uid ==> (Working(s', u) <==> Working(s, u)))
  }

  lemma TokenAt(s: State, s': State, uid: Uid)
    requires forall u :: OneToken(s, u)
    requires SameElsewhere(s, s', uid) && OneToken(s', uid)
    ensures forall u :: OneToken(s', u)
  {
    forall u ensures OneToken(s', u) {
      assert OneToken(s, u);
      if u != uid && Working(s', u) {
        var t :| IsToken(s, u, t);
        assert IsToken(s', u, t);
      }
    }
  }

  lemma SameTokens(s: State, s': State)
    requires forall u :: OneToken(s, u)
    requires forall u, k :: IsToken(s', u, k) <==> IsToken(s, u, k)
    requires s'.isWorking == s.isWorking
    ensures forall u :: OneToken(s', u)
  {
    forall u ensures OneToken(s', u) { assert OneToken(s, u); }
  }

  /** The only token of `uid` after the step is `k`. */
  lemma TokenBecomes(s: State, s': State, uid: Uid, k: Token)
    requires forall u :: OneToken(s, u)
    requires SameElsewhere(s, s', uid) && Working(s', uid)
    requires forall k' :: IsToken(s', uid, k') <==> k' == k
    ensures forall u :: OneToken(s', u)
  {
    assert IsToken(s', uid, k);
    TokenAt(s, s', uid);
  }

  lemma TokenGone(s: State, s': State, uid: Uid)
    requires forall u :: OneToken(s, u)
    requires SameElsewhere(s, s', uid) && !Working(s', uid)
    requires forall k :: !IsToken(s', uid, k)
    ensures forall u :: OneToken(s', u)
  {
    TokenAt(s, s', uid);
  }

  /** A send into the pod's open, empty channel goes through and adds exactly one token. */
  lemma SendAdds(s: State, c: nat, update: Update)
    requires Shape(s) && c < |s.channels|
    requires s.channels[c].owner == update.uid && !s.channels[c].closed && s.channels[c].buffer == []
    requires s.workers[c] != Exited
    ensures Shape(Send(s, c, update))
    ensures forall u, k :: IsToken(Send(s, c, update), u, k) <==>
              IsToken(s, u, k) || (u == update.uid && k == Buffered(c, 0))
  {
  }

  lemma StartKeeps(s: State, uid: Uid)
    requires Inv(s)
    ensures Inv(WithWorker(s, uid))
    ensures forall u, k :: IsToken(WithWorker(s, uid), u, k) <==> IsToken(s, u, k)
  {
    var t := WithWorker(s, uid);
    StartShape(s, uid);
    forall u, k ensures IsToken(t, u, k) <==> IsToken(s, u, k) { StartTokens(s, uid, u, k); }
    SameTokens(s, t);
  }

  lemma StartShape(s: State, uid: Uid)
    requires Shape(s)
    ensures Shape(WithWorker(s, uid))
  {
  }

  lemma StartTokens(s: State, uid: Uid, u: Uid, k: Token)
    requires Shape(s)
    ensures IsToken(WithWorker(s, uid), u, k) <==> IsToken(s, u, k)
  {
  }

  /** No token of `uid` means its live channel is empty. */
  lemma LiveChannelEmpty(s: State, uid: Uid)
    requires Shape(s) && uid in s.podUpdates
    requires forall k :: IsToken(s, uid, k) ==> k.InProgress?
    ensures s.channels[s.podUpdates[uid]].buffer == []
  {
    var c := s.podUpdates[uid];
    if s.channels[c].buffer != [] {
      assert IsToken(s, uid, Buffered(c, 0));
    }
  }

  lemma FirstUpdateKeeps(s: State, options: Update)
    requires Inv(s) && options.uid in s.podUpdates && !Working(s, options.uid)
    ensures Inv(Deliver(s, options))
  {
    var uid := options.uid;
    var c := s.podUpdates[uid];
    assert OneToken(s, uid);
    LiveChannelEmpty(s, uid);
    var busy := s.(isWorking := s.isWorking[uid := true]);
    assert forall u, k :: IsToken(busy, u, k) <==> IsToken(s, u, k);
    SendAdds(busy, c, options);
    TokenBecomes(s, Deliver(s, options), uid, Buffered(c, 0));
  }

  lemma LaterUpdateKeeps(s: State, options: Update)
    requires Inv(s) && options.uid in s.podUpdates && Working(s, options.uid)
    ensures Inv(Deliver(s, options))
  {
    var r := Deliver(s, options);
    assert r == s.(undelivered := r.undelivered);
    SameTokens(s, r);
  }

  lemma DeliverKeeps(s: State, options: Update)
    requires Inv(s)
    ensures Inv(Deliver(s, options))
  {
    StartKeeps(s, options.uid);
    var t := WithWorker(s, options.uid);
    assert WithWorker(t, options.uid) == t;
    if Working(t, options.uid) {
      LaterUpdateKeeps(t, options);
    } else {
      FirstUpdateKeeps(t, options);
    }
  }

  lemma RemoveKeeps(s: State, gone: set<Uid>)
    requires Inv(s)
    ensures Inv(Remove(s, gone))
    ensures forall u, k :: IsToken(Remove(s, gone), u, k) <==> IsToken(s, u, k)
  {
    var r := Remove(s, gone);
    assert Shape(r);
    SameTokens(s, r);
  }

  lemma ReceiveKeeps(s: State, c: nat)
    requires Inv(s) && Enabled(s, Receive(c))
    ensures Inv(Next(s, Receive(c)))
  {
    var r := Next(s, Receive(c));
    var uid := s.channels[c].owner;
    assert IsToken(s, uid, Buffered(c, 0));
    assert OneToken(s, uid);
    assert IsToken(s, uid, Buffered(c, |s.channels[c].buffer| - 1));
    assert Shape(r);
    assert IsToken(r, uid, InProgress(c));
    assert forall k :: IsToken(r, uid, k) ==> k == InProgress(c) || IsToken(s, uid, k);
    TokenAt(s, r, uid);
  }

  lemma EndSyncKeeps(s: State, c: nat)
    requires Inv(s) && Enabled(s, EndSync(c))
    ensures Inv(Next(s, EndSync(c)))
  {
    var r := Next(s, EndSync(c));
    assert Shape(r);
    SameTokens(s, r);
  }

  /** The goroutine that wraps up holds the pod's only token and gives it up before the lock is released. */
  lemma IdleDrops(s: State, c: nat, idle: State)
    requires Inv(s) && Enabled(s, CheckForUpdates(c)) && idle == s.(workers := s.workers[c := Idle])
    ensures Working(s, s.workers[c].update.uid) && Shape(idle)
    ensures forall k :: IsToken(s, s.workers[c].update.uid, k) ==> k == InProgress(c)
    ensures forall k :: !IsToken(idle, s.workers[c].update.uid, k)
    ensures forall u, k :: u != s.workers[c].update.uid ==> (IsToken(idle, u, k) <==> IsToken(s, u, k))
  {
    var uid := s.workers[c].update.uid;
    assert IsToken(s, uid, InProgress(c));
    assert OneToken(s, uid);
    assert forall u, k :: IsToken(idle, u, k) <==> IsToken(s, u, k) && k != InProgress(c);
  }

  lemma CheckKeeps(s: State, c: nat)
    requires Inv(s) && Enabled(s, CheckForUpdates(c))
    ensures Inv(Next(s, CheckForUpdates(c)))
  {
    var idle := s.(workers := s.workers[c := Idle]);
    if s.workers[c].update.uid in s.undelivered { CheckSends(s, c, idle); } else { CheckRests(s, c, idle); }
  }

  lemma CheckSends(s: State, c: nat, idle: State)
    requires Inv(s) && Enabled(s, CheckForUpdates(c)) && idle == s.(workers := s.workers[c := Idle])
    requires s.workers[c].update.uid in s.undelivered
    ensures Inv(Next(s, CheckForUpdates(c)))
  {
    var uid := s.workers[c].update.uid;
    var r := Next(s, CheckForUpdates(c));
    IdleDrops(s, c, idle);
    LiveChannelEmpty(s, uid);
    SendAdds(idle, s.podUpdates[uid], s.undelivered[uid]);
    var sent := Send(idle, s.podUpdates[uid], s.undelivered[uid]);
    assert r == sent.(undelivered := s.undelivered - {uid});
    assert forall u, k :: IsToken(r, u, k) <==> IsToken(sent, u, k);
    TokenBecomes(s, r, uid, Buffered(s.podUpdates[uid], 0));
  }

  /** The parked update is for an open, empty channel. */
  lemma ParkedGoesThrough(s: State, c: nat)
    requires Inv(s) && Enabled(s, CheckForUpdates(c)) && s.workers[c].update.uid in s.undelivered
    ensures var uid := s.workers[c].update.uid;
            && uid in s.podUpdates && s.podUpdates[uid] < |s.channels|
            && !s.channels[s.podUpdates[uid]].closed && s.channels[s.podUpdates[uid]].buffer == []
  {
    IdleDrops(s, c, s.(workers := s.workers[c := Idle]));
    LiveChannelEmpty(s, s.workers[c].update.uid);
  }

  lemma CheckRests(s: State, c: nat, idle: State)
    requires Inv(s) && Enabled(s, CheckForUpdates(c)) && idle == s.(workers := s.workers[c := Idle])
    requires s.workers[c].update.uid !in s.undelivered
    ensures Inv(Next(s, CheckForUpdates(c)))
  {
    var uid := s.workers[c].update.uid;
    var r := Next(s, CheckForUpdates(c));
    IdleDrops(s, c, idle);
    assert r == idle.(isWorking := s.isWorking[uid := false]);
    forall k ensures !IsToken(r, uid, k) { assert !IsToken(idle, uid, k); }
    TokenGone(s, r, uid);
  }

  lemma ExitKeeps(s: State, c: nat)
    requires Inv(s) && Enabled(s, Exit(c))
    ensures Inv(Next(s, Exit(c)))
  {
    var r := Next(s, Exit(c));
    assert Shape(r);
    SameTokens(s, r);
  }

  lemma StepKeeps(s: State, a: Action)
    requires Inv(s) && Enabled(s, a)
    ensures Inv(Next(s, a))
  {
    match a
    case UpdatePod(options) => DeliverKeeps(s, options);
    case ForgetWorker(uid) => RemoveKeeps(s, {uid});
    case ForgetNonExistingPodWorkers(desired) => RemoveKeeps(s, s.podUpdates.Keys - desired);
    case Receive(c) => ReceiveKeeps(s, c);
    case EndSync(c) => EndSyncKeeps(s, c);
    case CheckForUpdates(c) => CheckKeeps(s, c);
    case Exit(c) => ExitKeeps(s, c);
  }

  // ------------------------------------------------------------------ whole runs

  /** An interleaving from the empty start: `states[i+1]` is reached from `states[i]` by `actions[i]`. */
  ghost predicate IsRun(states: seq<State>, actions: seq<Action>) {
    && |states| == |actions| + 1
    && states[0] == Init
    && forall i {:trigger StepAt(states, actions, i)} :: 0 <= i < |actions| ==> StepAt(states, actions, i)
  }

  ghost predicate StepAt(states: seq<State>, actions: seq<Action>, i: nat)
    requires i < |actions| < |states|
  {
    Enabled(states[i], actions[i]) && states[i + 1] == Next(states[i], actions[i])
  }

  /** What is known of a step of a run. */
  lemma RunStep(states: seq<State>, actions: seq<Action>, i: nat)
    requires IsRun(states, actions) && i < |actions|
    ensures Inv(states[i]) && Enabled(states[i], actions[i]) && states[i + 1] == Next(states[i], actions[i])
  {
    assert StepAt(states, actions, i);
    RunKeeps(states, actions, i);
  }

  lemma {:induction false} RunKeeps(states: seq<State>, actions: seq<Action>, n: nat)
    requires IsRun(states, actions) && n < |states|
    ensures Inv(states[n])
  {
    if n > 0 {
      RunKeeps(states, actions, n - 1);
      assert StepAt(states, actions, n - 1);
      StepKeeps(states[n - 1], actions[n - 1]);
    }
  }

  /** In every interleaving, the updates buffered in all of a pod's channels, open or closed, plus its syncs in
      progress number one if the pod is marked as working and none otherwise. */
  lemma {:induction false} OneUnitOfWork(states: seq<State>, actions: seq<Action>, n: nat, uid: Uid)
    requires IsRun(states, actions) && n < |states|
    ensures |Tokens(states[n], uid)| == if Working(states[n], uid) then 1 else 0
  {
    RunKeeps(states, actions, n);
    var s := states[n];
    assert OneToken(s, uid);
    TokensAre(s, uid);
    if Working(s, uid) {
      var t :| IsToken(s, uid, t);
      assert Tokens(s, uid) == {t};
    } else {
      assert Tokens(s, uid) == {};
    }
  }

  /** Two goroutines never sync the same pod at once, even after it was forgotten and added again mid-sync. */
  lemma {:induction false} NeverSyncedTwice(states: seq<State>, actions: seq<Action>, n: nat, c: nat, c': nat)
    requires IsRun(states, actions) && n < |states|
    requires c < |states[n].workers| && c' < |states[n].workers|
    requires states[n].workers[c].Syncing? && states[n].workers[c'].Syncing?
    requires states[n].workers[c].update.uid == states[n].workers[c'].update.uid
    ensures c == c'
  {
    RunKeeps(states, actions, n);
    var uid := states[n].workers[c].update.uid;
    assert OneToken(states[n], uid);
    assert IsToken(states[n], uid, InProgress(c)) && IsToken(states[n], uid, InProgress(c'));
  }

  /** No send or close under the lock ever panics or blocks, and an update waits outside its channel only for a
      pod that is working and has a live, open channel. */
  lemma {:induction false} SendsAreSafe(states: seq<State>, actions: seq<Action>, n: nat)
    requires IsRun(states, actions) && n < |states|
    ensures states[n].health == Healthy
    ensures forall uid :: uid in states[n].undelivered ==>
              && Working(states[n], uid) && uid in states[n].podUpdates
              && states[n].podUpdates[uid] < |states[n].channels|
              && !states[n].channels[states[n].podUpdates[uid]].closed
  {
    RunKeeps(states, actions, n);
  }

  /** A pod marked as working is never stuck: some goroutine can take its next step for it. */
  lemma {:induction false} WorkGoesOn(states: seq<State>, actions: seq<Action>, n: nat, uid: Uid) returns (c: nat)
    requires IsRun(states, actions) && n < |states| && Working(states[n], uid)
    ensures c < |states[n].channels| && states[n].channels[c].owner == uid
    ensures Enabled(states[n], Receive(c)) || Enabled(states[n], EndSync(c)) || Enabled(states[n], CheckForUpdates(c))
  {
    RunKeeps(states, actions, n);
    var s := states[n];
    assert OneToken(s, uid);
    var t :| IsToken(s, uid, t);
    c := t.c;
    if t.Buffered? && s.workers[c] != Idle {
      assert IsToken(s, uid, InProgress(c));
    }
  }

  // ------------------------------------------------------------------ a pending kill

  ghost predicate KillPending(s: State, kill: Update) {
    kill.kind == SyncPodKill && kill.uid in s.undelivered && s.undelivered[kill.uid] == kill
  }

  ghost predicate Forgets(s: State, a: Action, uid: Uid) {
    match a
    case ForgetWorker(u) => u == uid
    case ForgetNonExistingPodWorkers(desired) => uid !in desired
    case _ => false
  }

  function For(updates: seq<Update>, uid: Uid): seq<Update> {
    if updates == [] then []
    else For(updates[..|updates| - 1], uid) +
         (if updates[|updates| - 1].uid == uid then [updates[|updates| - 1]] else [])
  }

  lemma ForOneMore(updates: seq<Update>, update: Update, uid: Uid)
    ensures For(updates + [update], uid) == For(updates, uid) + if update.uid == uid then [update] else []
  {
    assert (updates + [update])[..|updates|] == updates;
  }

  /** What a step puts into channels: at most one update, the one given or the one that waited. */
  lemma SentGrows(s: State, a: Action)
    requires Enabled(s, a)
    ensures Next(s, a).sent == s.sent ||
            (a.UpdatePod? && !Working(s, a.options.uid) && Next(s, a).sent == s.sent + [a.options]) ||
            (a.CheckForUpdates? && s.workers[a.c].update.uid in s.undelivered &&
             Next(s, a).sent == s.sent + [s.undelivered[s.workers[a.c].update.uid]])
  {
    match a
    case UpdatePod(options) => assert WithWorker(s, options.uid).sent == s.sent;
    case _ =>
  }

  /** The goroutine that finishes a sync of the pod sends the kill. */
  lemma KillGoesOut(s: State, c: nat, kill: Update)
    requires Inv(s) && Enabled(s, CheckForUpdates(c)) && KillPending(s, kill) && s.workers[c].update.uid == kill.uid
    ensures Next(s, CheckForUpdates(c)).sent == s.sent + [kill]
  {
    IdleDrops(s, c, s.(workers := s.workers[c := Idle]));
    LiveChannelEmpty(s, kill.uid);
  }

  /** Any other step leaves the kill pending and sends nothing to its pod. */
  lemma KillWaits(s: State, a: Action, kill: Update)
    requires PendingOk(s) && Enabled(s, a) && KillPending(s, kill) && !Forgets(s, a, kill.uid)
    requires a.CheckForUpdates? ==> s.workers[a.c].update.uid != kill.uid
    ensures KillPending(Next(s, a), kill) && For(Next(s, a).sent, kill.uid) == For(s.sent, kill.uid)
  {
    match a
    case UpdatePod(options) => KillOutlives(s, options, kill);
    case CheckForUpdates(c) =>
      var uid := s.workers[c].update.uid;
      SentGrows(s, a);
      if uid in s.undelivered { ForOneMore(s.sent, s.undelivered[uid], kill.uid); }
    case _ =>
  }

  lemma KillOutlives(s: State, options: Update, kill: Update)
    requires PendingOk(s) && Enabled(s, UpdatePod(options)) && KillPending(s, kill)
    ensures KillPending(Next(s, UpdatePod(options)), kill)
    ensures For(Next(s, UpdatePod(options)).sent, kill.uid) == For(s.sent, kill.uid)
  {
    SentGrows(s, UpdatePod(options));
    ForOneMore(s.sent, options, kill.uid);
  }

  /** One step leaves a pending kill in place with nothing sent to its pod, or sends exactly the kill. */
  lemma KillStep(s: State, a: Action, kill: Update)
    requires Inv(s) && Enabled(s, a) && KillPending(s, kill) && !Forgets(s, a, kill.uid)
    ensures (KillPending(Next(s, a), kill) && For(Next(s, a).sent, kill.uid) == For(s.sent, kill.uid))
            || For(Next(s, a).sent, kill.uid) == For(s.sent, kill.uid) + [kill]
  {
    if a.CheckForUpdates? && s.workers[a.c].update.uid == kill.uid {
      KillGoesOut(s, a.c, kill);
      ForOneMore(s.sent, kill, kill.uid);
    } else {
      KillWaits(s, a, kill);
    }
  }

  lemma ForGrows(s: State, a: Action, uid: Uid)
    requires Enabled(s, a)
    ensures For(s.sent, uid) <= For(Next(s, a).sent, uid)
  {
    SentGrows(s, a);
    var r := Next(s, a);
    if r.sent != s.sent { ForOneMore(s.sent, r.sent[|s.sent|], uid); }
  }

  /** Seen from a moment when `before` had been sent to the pod: the kill is still pending and nothing was sent
      since, or the first thing sent since was the kill. */
  ghost predicate KillNext(before: seq<Update>, s: State, kill: Update) {
    (KillPending(s, kill) && For(s.sent, kill.uid) == before) || before + [kill] <= For(s.sent, kill.uid)
  }

  lemma KillNextStep(before: seq<Update>, s: State, a: Action, kill: Update)
    requires Inv(s) && Enabled(s, a) && KillNext(before, s, kill) && !Forgets(s, a, kill.uid)
    ensures KillNext(before, Next(s, a), kill)
  {
    if KillPending(s, kill) && For(s.sent, kill.uid) == before {
      KillStep(s, a, kill);
    } else {
      ForGrows(s, a, kill.uid);
    }
  }

  /** A pending kill is the next update sent to its pod, unless the worker is forgotten first. */
  lemma {:induction false} KillIsNext(states: seq<State>, actions: seq<Action>, from: nat, to: nat, kill: Update)
    requires IsRun(states, actions) && from <= to < |states|
    requires KillPending(states[from], kill)
    requires forall i :: from <= i < to ==> !Forgets(states[i], actions[i], kill.uid)
    ensures KillNext(For(states[from].sent, kill.uid), states[to], kill)
  {
    if from < to {
      KillIsNext(states, actions, from, to - 1, kill);
      RunStep(states, actions, to - 1);
      KillNextStep(For(states[from].sent, kill.uid), states[to - 1], actions[to - 1], kill);
    }
  }

  // ------------------------------------------------------------------ what is sent next

  /** What the step gives the pod. */
  ghost function GivenBy(a: Action, uid: Uid): seq<Update> {
    if a.UpdatePod? && a.options.uid == uid then [a.options] else []
  }

  /** The updates that UpdatePod is given for the pod from step `from` to before step `to`. */
  ghost function Given(actions: seq<Action>, from: nat, to: nat, uid: Uid): seq<Update>
    requires from <= to <= |actions|
  {
    if from == to then []
    else Given(actions, from, to - 1, uid) + GivenBy(actions[to - 1], uid)
  }

  predicate KillAt(given: seq<Update>, i: int) {
    0 <= i < |given| && given[i].kind == SyncPodKill
  }

  ghost predicate FirstKillAt(given: seq<Update>, i: int, update: Update) {
    KillAt(given, i) && given[i] == update && forall j :: j < i ==> !KillAt(given, j)
  }

  /** The first kill among them, or the last of them if there is none. */
  ghost predicate Favoured(given: seq<Update>, update: Update) {
    if exists i :: KillAt(given, i) then exists i :: FirstKillAt(given, i, update)
    else given != [] && update == given[|given| - 1]
  }

  /** What waits for the pod. */
  ghost predicate Waits(s: State, uid: Uid, parked: Option<Update>) {
    if parked == None then uid !in s.undelivered else uid in s.undelivered && s.undelivered[uid] == parked.value
  }

  /** What waits after a step that does not clear it. */
  ghost function Parks(parked: Option<Update>, a: Action, uid: Uid): Option<Update> {
    if GivenBy(a, uid) == [] || (parked.Some? && parked.value.kind == SyncPodKill) then parked else Some(a.options)
  }

  ghost function Parked(actions: seq<Action>, from: nat, to: nat, uid: Uid): Option<Update>
    requires from <= to <= |actions|
  {
    if from == to then None else Parks(Parked(actions, from, to - 1, uid), actions[to - 1], uid)
  }

  /** It is the first kill given, or else the last update. */
  lemma {:induction false} ParkedIsFavoured(actions: seq<Action>, from: nat, to: nat, uid: Uid)
    requires from <= to <= |actions|
    ensures var given, parked := Given(actions, from, to, uid), Parked(actions, from, to, uid);
            if given == [] then parked == None else parked.Some? && Favoured(given, parked.value)
  {
    if from < to {
      ParkedIsFavoured(actions, from, to - 1, uid);
      var given, a := Given(actions, from, to - 1, uid), actions[to - 1];
      if GivenBy(a, uid) == [] {
        assert given + [] == given;
      } else if given == [] {
        assert [] + [a.options] == [a.options];
        OnlyGiven(a.options);
      } else {
        FavouredOneMore(given, Parked(actions, from, to - 1, uid).value, a.options);
      }
    }
  }

  lemma NextIsFavoured(actions: seq<Action>, from: nat, to: nat, uid: Uid, update: Update)
    requires from <= to < |actions| && Parks(Parked(actions, from, to, uid), actions[to], uid) == Some(update)
    ensures Favoured(Given(actions, from, to + 1, uid), update)
  {
    ParkedIsFavoured(actions, from, to + 1, uid);
    assert Parked(actions, from, to + 1, uid) == Some(update);
  }

  /** The step from `s` to `s'` sends something to the pod, or forgets its worker. */
  ghost predicate Clears(s: State, a: Action, s': State, uid: Uid) {
    Forgets(s, a, uid) || For(s'.sent, uid) != For(s.sent, uid)
  }

  /** No step from `from` to before `to` does. */
  ghost predicate Undisturbed(states: seq<State>, actions: seq<Action>, from: nat, to: nat, uid: Uid)
    requires from <= to <= |actions| < |states|
  {
    from < to ==>
      Undisturbed(states, actions, from, to - 1, uid) && !Clears(states[to - 1], actions[to - 1], states[to], uid)
  }

  lemma OnlyGiven(update: Update)
    ensures Favoured([update], update)
  {
    if update.kind == SyncPodKill { assert FirstKillAt([update], 0, update); }
  }

  lemma FavouredOneMore(given: seq<Update>, update: Update, next: Update)
    requires Favoured(given, update)
    ensures Favoured(given + [next], if update.kind == SyncPodKill then update else next)
  {
    var more := given + [next];
    forall i | i < |given| ensures KillAt(more, i) <==> KillAt(given, i) {}
    if update.kind == SyncPodKill {
      assert KillAt(given, |given| - 1) || exists i :: FirstKillAt(given, i, update);
      var i :| FirstKillAt(given, i, update);
      assert FirstKillAt(more, i, update);
    } else {
      assert forall i :: !KillAt(given, i);
      if KillAt(more, |given|) { assert FirstKillAt(more, |given|, next); }
    }
  }

  /** A pod that is not worked on gets an update at once. */
  lemma IdleIsSent(s: State, options: Update)
    requires Inv(s) && !Working(s, options.uid)
    ensures Next(s, UpdatePod(options)).sent == s.sent + [options]
    ensures Next(s, UpdatePod(options)).undelivered == s.undelivered
  {
    var uid := options.uid;
    var t := WithWorker(s, uid);
    StartKeeps(s, uid);
    assert OneToken(t, uid);
    LiveChannelEmpty(t, uid);
    SendsNow(t, options);
    assert WithWorker(t, uid) == t;
  }

  lemma SendsNow(s: State, options: Update)
    requires options.uid in s.podUpdates && s.podUpdates[options.uid] < |s.channels| && !Working(s, options.uid)
    requires !s.channels[s.podUpdates[options.uid]].closed && s.channels[s.podUpdates[options.uid]].buffer == []
    ensures Deliver(s, options).sent == s.sent + [options] && Deliver(s, options).undelivered == s.undelivered
  {
  }

  /** An update for a pod that is worked on waits, in place of what waited, unless that is a kill. */
  lemma BusyIsParked(s: State, options: Update)
    requires Inv(s) && Working(s, options.uid)
    ensures var s' := Next(s, UpdatePod(options));
            && s'.sent == s.sent && options.uid in s'.undelivered
            && s'.undelivered[options.uid] ==
               if options.uid in s.undelivered && s.undelivered[options.uid].kind == SyncPodKill
               then s.undelivered[options.uid] else options
  {
    assert WithWorker(s, options.uid).undelivered == s.undelivered;
  }

  /** A goroutine of the pod that sends nothing found nothing waiting. */
  lemma NothingParked(s: State, c: nat)
    requires Inv(s) && Enabled(s, CheckForUpdates(c))
    requires For(Next(s, CheckForUpdates(c)).sent, s.workers[c].update.uid) == For(s.sent, s.workers[c].update.uid)
    ensures s.workers[c].update.uid !in s.undelivered
  {
    var uid := s.workers[c].update.uid;
    if uid in s.undelivered {
      ParkedGoesThrough(s, c);
      ForOneMore(s.sent, s.undelivered[uid], uid);
    }
  }

  /** A step that gives the pod nothing, does not forget it and does not look after it leaves what waits for it. */
  lemma SameWaits(s: State, a: Action, uid: Uid)
    requires Enabled(s, a) && GivenBy(a, uid) == [] && !Forgets(s, a, uid)
    requires a.CheckForUpdates? ==> s.workers[a.c].update.uid != uid || uid !in s.undelivered
    ensures uid in Next(s, a).undelivered <==> uid in s.undelivered
    ensures uid in s.undelivered ==> Next(s, a).undelivered[uid] == s.undelivered[uid]
  {
    if a.UpdatePod? { assert WithWorker(s, a.options.uid).undelivered == s.undelivered; }
  }

  /** A step that neither sends to the pod nor forgets it parks what it gives the pod, unless a kill waits. */
  lemma WaitsOneMore(s: State, a: Action, uid: Uid, parked: Option<Update>)
    requires Inv(s) && Enabled(s, a) && Waits(s, uid, parked)
    requires !Forgets(s, a, uid) && For(Next(s, a).sent, uid) == For(s.sent, uid)
    ensures Waits(Next(s, a), uid, Parks(parked, a, uid))
  {
    if a.UpdatePod? && a.options.uid == uid {
      if !Working(s, uid) {
        IdleIsSent(s, a.options);
        ForOneMore(s.sent, a.options, uid);
      }
      BusyIsParked(s, a.options);
    } else {
      if a.CheckForUpdates? && s.workers[a.c].update.uid == uid { NothingParked(s, a.c); }
      SameWaits(s, a, uid);
    }
  }

  /** The step sends this update: the one it is given, to a pod that is not worked on, or the one that waits. */
  ghost predicate SendsIt(s: State, a: Action, update: Update) {
    if a.UpdatePod? then a.options == update && !Working(s, update.uid)
    else a.CheckForUpdates? && update.uid in s.undelivered && s.undelivered[update.uid] == update
  }

  lemma WhatIsSent(s: State, a: Action, s': State, uid: Uid) returns (update: Update)
    requires PendingOk(s) && Enabled(s, a) && s' == Next(s, a) && For(s'.sent, uid) != For(s.sent, uid)
    ensures For(s'.sent, uid) == For(s.sent, uid) + [update] && update.uid == uid && SendsIt(s, a, update)
  {
    SentGrows(s, a);
    update := s'.sent[|s.sent|];
    ForOneMore(s.sent, update, uid);
  }

  lemma ClearsWaiting(s: State, a: Action, s': State, uid: Uid)
    requires Inv(s) && Enabled(s, a) && s' == Next(s, a) && Clears(s, a, s', uid)
    ensures uid !in s'.undelivered
  {
    if !Forgets(s, a, uid) {
      var update := WhatIsSent(s, a, s', uid);
      if a.UpdatePod? { IdleIsSent(s, a.options); }
    }
  }

  lemma RunClears(states: seq<State>, actions: seq<Action>, i: nat, uid: Uid)
    requires IsRun(states, actions) && i < |actions| && Clears(states[i], actions[i], states[i + 1], uid)
    ensures uid !in states[i + 1].undelivered
  {
    RunStep(states, actions, i);
    ClearsWaiting(states[i], actions[i], states[i + 1], uid);
  }

  /** Nothing waits for the pod at the start, and after a step that sends something to it or forgets it. */
  lemma ClearedWaitsNot(states: seq<State>, actions: seq<Action>, n: nat, uid: Uid)
    requires IsRun(states, actions) && n < |states|
    requires n == 0 || Clears(states[n - 1], actions[n - 1], states[n], uid)
    ensures uid !in states[n].undelivered
  {
    if n == 0 { assert states[0].undelivered == map[]; } else { RunClears(states, actions, n - 1, uid); }
  }

  lemma RunWaits(states: seq<State>, actions: seq<Action>, i: nat, uid: Uid, parked: Option<Update>)
    requires IsRun(states, actions) && i < |actions| && !Clears(states[i], actions[i], states[i + 1], uid)
    requires Waits(states[i], uid, parked)
    ensures Waits(states[i + 1], uid, Parks(parked, actions[i], uid))
  {
    RunStep(states, actions, i);
    WaitsOneMore(states[i], actions[i], uid, parked);
  }

  /** What is sent to the pod is what waits, or what is given if nothing waits. */
  lemma RunSends(states: seq<State>, actions: seq<Action>, i: nat, uid: Uid, parked: Option<Update>)
    returns (update: Update)
    requires IsRun(states, actions) && i < |actions| && Waits(states[i], uid, parked)
    requires For(states[i + 1].sent, uid) != For(states[i].sent, uid)
    ensures For(states[i + 1].sent, uid) == For(states[i].sent, uid) + [update]
    ensures Parks(parked, actions[i], uid) == Some(update)
  {
    RunStep(states, actions, i);
    update := WhatIsSent(states[i], actions[i], states[i + 1], uid);
  }

  lemma {:induction false} WaitsForParked(states: seq<State>, actions: seq<Action>, from: nat, to: nat, uid: Uid)
    requires IsRun(states, actions) && from <= to <= |actions|
    requires from == 0 || Clears(states[from - 1], actions[from - 1], states[from], uid)
    requires Undisturbed(states, actions, from, to, uid)
    ensures Waits(states[to], uid, Parked(actions, from, to, uid))
  {
    if from == to {
      ClearedWaitsNot(states, actions, from, uid);
    } else {
      WaitsForParked(states, actions, from, to - 1, uid);
      RunWaits(states, actions, to - 1, uid, Parked(actions, from, to - 1, uid));
    }
  }

  /** Since the pod was last sent something or forgotten, what waits for it is the first kill given since, or else the
      last update given, and nothing if none was given. */
  lemma WaitsForFavoured(states: seq<State>, actions: seq<Action>, from: nat, to: nat, uid: Uid)
    requires IsRun(states, actions) && from <= to <= |actions|
    requires from == 0 || Clears(states[from - 1], actions[from - 1], states[from], uid)
    requires Undisturbed(states, actions, from, to, uid)
    ensures var given := Given(actions, from, to, uid);
            if given == [] then uid !in states[to].undelivered
            else uid in states[to].undelivered && Favoured(given, states[to].undelivered[uid])
  {
    WaitsForParked(states, actions, from, to, uid);
    ParkedIsFavoured(actions, from, to, uid);
  }

  /** Between two sends to a pod, with no forgetting in between, the second sends the first kill that was given after
      the first send, or else the last update given.  The same holds from the start, and from a forgetting. */
  lemma SendsFavoured(states: seq<State>, actions: seq<Action>, from: nat, to: nat, uid: Uid) returns (update: Update)
    requires IsRun(states, actions) && from <= to < |actions|
    requires from == 0 || Clears(states[from - 1], actions[from - 1], states[from], uid)
    requires Undisturbed(states, actions, from, to, uid)
    requires For(states[to + 1].sent, uid) != For(states[to].sent, uid)
    ensures For(states[to + 1].sent, uid) == For(states[to].sent, uid) + [update]
    ensures Favoured(Given(actions, from, to + 1, uid), update)
  {
    WaitsForParked(states, actions, from, to, uid);
    update := RunSends(states, actions, to, uid, Parked(actions, from, to, uid));
    NextIsFavoured(actions, from, to, uid, update);
  }

  /** In particular an update given to a pod at work, when no kill waits, is what waits right after. */
  lemma LatestWaits(states: seq<State>, actions: seq<Action>, n: nat, options: Update)
    requires IsRun(states, actions) && n < |actions| && actions[n] == UpdatePod(options)
    requires Working(states[n], options.uid) && !exists kill :: KillPending(states[n], kill) && kill.uid == options.uid
    ensures options.uid in states[n + 1].undelivered && states[n + 1].undelivered[options.uid] == options
  {
    var s, uid := states[n], options.uid;
    RunStep(states, actions, n);
    BusyIsParked(s, options);
    if uid in s.undelivered { assert KillPending(s, s.undelivered[uid]) || s.undelivered[uid].kind != SyncPodKill; }
  }

  /** Forgetting closes the pod's channel and drops what waits for it, and leaves every other pod alone. */
  lemma ForgetsOnlyIt(states: seq<State>, actions: seq<Action>, n: nat, uid: Uid)
    requires IsRun(states, actions) && n < |actions| && uid in states[n].podUpdates
    requires actions[n].ForgetWorker? || actions[n].ForgetNonExistingPodWorkers?
    ensures states[n].podUpdates[uid] < |states[n].channels| && |states[n].channels| == |states[n + 1].channels|
    ensures var s, s' := states[n], states[n + 1];
            if Forgets(s, actions[n], uid) then
              uid !in s'.podUpdates && uid !in s'.undelivered && s'.channels[s.podUpdates[uid]].closed
            else
              && uid in s'.podUpdates && s'.podUpdates[uid] == s.podUpdates[uid]
              && s'.channels[s.podUpdates[uid]] == s.channels[s.podUpdates[uid]]
              && (uid in s'.undelivered <==> uid in s.undelivered)
              && (uid in s.undelivered ==> s'.undelivered[uid] == s.undelivered[uid])
  {
    RunStep(states, actions, n);
  }

  // ------------------------------------------------------------------ what is sent is synced

  /** The updates that the goroutines of the pod took up in the first `n` steps, in order. */
  ghost function Synced(states: seq<State>, actions: seq<Action>, n: nat, uid: Uid): seq<Update>
    requires n <= |actions| < |states|
  {
    if n == 0 then [] else Synced(states, actions, n - 1, uid) + TakenUp(actions[n - 1], states[n], uid)
  }

  /** What the step that leads to `s` makes a goroutine of the pod sync. */
  ghost function TakenUp(a: Action, s: State, uid: Uid): seq<Update> {
    if a.Receive? && a.c < |s.workers| && s.workers[a.c].Syncing? && s.workers[a.c].update.uid == uid
    then [s.workers[a.c].update]
    else []
  }

  /** What lies in the pod's channels is `rest`. */
  ghost predicate Buffers(s: State, uid: Uid, rest: seq<Update>) {
    if rest == [] then forall c :: 0 <= c < |s.channels| && s.channels[c].owner == uid ==> s.channels[c].buffer == []
    else exists c :: 0 <= c < |s.channels| && s.channels[c].owner == uid && s.channels[c].buffer == rest
  }

  /** The pod's channels hold what they held. */
  ghost predicate SameBuffers(s: State, s': State, uid: Uid) {
    && |s.channels| <= |s'.channels|
    && (forall c :: 0 <= c < |s.channels| ==>
          s'.channels[c].owner == s.channels[c].owner &&
          (s.channels[c].owner == uid ==> s'.channels[c].buffer == s.channels[c].buffer))
    && (forall c :: |s.channels| <= c < |s'.channels| && s'.channels[c].owner == uid ==> s'.channels[c].buffer == [])
  }

  lemma StaysBuffered(s: State, s': State, uid: Uid, rest: seq<Update>)
    requires SameBuffers(s, s', uid) && Buffers(s, uid, rest)
    ensures Buffers(s', uid, rest)
  {
    if rest != [] {
      var c :| 0 <= c < |s.channels| && s.channels[c].owner == uid && s.channels[c].buffer == rest;
      assert s'.channels[c].owner == uid && s'.channels[c].buffer == rest;
    }
  }

  /** The pod's one token is all that its channels can hold. */
  lemma BufferIsRest(s: State, uid: Uid, rest: seq<Update>, c: nat)
    requires Inv(s) && Buffers(s, uid, rest)
    requires c < |s.channels| && s.channels[c].owner == uid && s.channels[c].buffer != []
    ensures s.channels[c].buffer == rest && |rest| == 1
  {
    assert OneToken(s, uid);
    assert IsToken(s, uid, Buffered(c, 0)) && IsToken(s, uid, Buffered(c, |s.channels[c].buffer| - 1));
    var d :| 0 <= d < |s.channels| && s.channels[d].owner == uid && s.channels[d].buffer == rest;
    assert IsToken(s, uid, Buffered(d, 0));
  }

  /** A pod without an update in a channel has nothing buffered. */
  lemma NothingBuffered(s: State, uid: Uid, rest: seq<Update>)
    requires Shape(s) && Buffers(s, uid, rest) && forall k :: IsToken(s, uid, k) ==> k.InProgress?
    ensures rest == []
  {
    if rest != [] {
      var c :| 0 <= c < |s.channels| && s.channels[c].owner == uid && s.channels[c].buffer == rest;
      assert IsToken(s, uid, Buffered(c, 0));
    }
  }

  /** Taking up the pod's one token leaves its channels empty. */
  lemma ReceiveEmpties(s: State, c: nat)
    requires Inv(s) && Enabled(s, Receive(c))
    ensures Buffers(Next(s, Receive(c)), s.channels[c].owner, [])
  {
    var uid, s' := s.channels[c].owner, Next(s, Receive(c));
    assert OneToken(s, uid);
    assert IsToken(s, uid, Buffered(c, 0)) && IsToken(s, uid, Buffered(c, |s.channels[c].buffer| - 1));
    forall d | 0 <= d < |s'.channels| && s'.channels[d].owner == uid ensures s'.channels[d].buffer == [] {
      if d != c && s.channels[d].buffer != [] { assert IsToken(s, uid, Buffered(d, 0)); }
    }
  }

  lemma ReceiveAccounts(s: State, c: nat, uid: Uid, rest: seq<Update>) returns (rest': seq<Update>)
    requires Inv(s) && Enabled(s, Receive(c)) && Buffers(s, uid, rest)
    ensures Buffers(Next(s, Receive(c)), uid, rest')
    ensures TakenUp(Receive(c), Next(s, Receive(c)), uid) + rest' == rest && |rest'| <= |rest|
  {
    if s.channels[c].owner == uid {
      BufferIsRest(s, uid, rest, c);
      ReceiveEmpties(s, c);
      rest' := [];
    } else {
      rest' := rest;
      StaysBuffered(s, Next(s, Receive(c)), uid, rest);
      assert [] + rest == rest;
    }
  }

  /** A send to the pod finds its channels empty. */
  lemma SendAccounts(s: State, a: Action, uid: Uid, rest: seq<Update>) returns (update: Update)
    requires Inv(s) && Enabled(s, a) && Buffers(s, uid, rest) && For(Next(s, a).sent, uid) != For(s.sent, uid)
    ensures rest == [] && Buffers(Next(s, a), uid, [update])
    ensures For(Next(s, a).sent, uid) == For(s.sent, uid) + [update] && !a.Receive?
  {
    update := WhatIsSent(s, a, Next(s, a), uid);
    if a.UpdatePod? {
      FirstBuffered(s, update, rest);
    } else {
      SendsOwn(s, a.c, uid);
      ParkedBuffered(s, a.c, rest);
    }
  }

  /** A goroutine sends only to its own pod. */
  lemma SendsOwn(s: State, c: nat, uid: Uid)
    requires PendingOk(s) && Enabled(s, CheckForUpdates(c))
    requires For(Next(s, CheckForUpdates(c)).sent, uid) != For(s.sent, uid)
    ensures s.workers[c].update.uid == uid && uid in s.undelivered
  {
    var own := s.workers[c].update.uid;
    SentGrows(s, CheckForUpdates(c));
    if own in s.undelivered { ForOneMore(s.sent, s.undelivered[own], uid); }
  }

  lemma FirstBuffered(s: State, options: Update, rest: seq<Update>)
    requires Inv(s) && Buffers(s, options.uid, rest) && !Working(s, options.uid)
    ensures rest == [] && Buffers(Next(s, UpdatePod(options)), options.uid, [options])
  {
    var uid := options.uid;
    assert OneToken(s, uid);
    NothingBuffered(s, uid, rest);
    var t := WithWorker(s, uid);
    StartKeeps(s, uid);
    assert OneToken(t, uid);
    LiveChannelEmpty(t, uid);
    var c, s' := t.podUpdates[uid], Next(s, UpdatePod(options));
    assert [] + [options] == [options];
    assert s'.channels[c].owner == uid && s'.channels[c].buffer == [options];
  }

  lemma ParkedBuffered(s: State, c: nat, rest: seq<Update>)
    requires Inv(s) && Enabled(s, CheckForUpdates(c)) && s.workers[c].update.uid in s.undelivered
    requires Buffers(s, s.workers[c].update.uid, rest)
    ensures var uid := s.workers[c].update.uid;
            rest == [] && Buffers(Next(s, CheckForUpdates(c)), uid, [s.undelivered[uid]])
  {
    var uid := s.workers[c].update.uid;
    IdleDrops(s, c, s.(workers := s.workers[c := Idle]));
    NothingBuffered(s, uid, rest);
    ParkedGoesThrough(s, c);
    var d, s' := s.podUpdates[uid], Next(s, CheckForUpdates(c));
    assert [] + [s.undelivered[uid]] == [s.undelivered[uid]];
    assert s'.channels[d].owner == uid && s'.channels[d].buffer == [s.undelivered[uid]];
  }

  /** Any other step leaves the pod's channels as they are. */
  lemma LeavesBuffers(s: State, a: Action, uid: Uid)
    requires Shape(s) && Enabled(s, a) && !a.Receive?
    requires a.UpdatePod? ==> a.options.uid != uid || Working(s, uid)
    requires a.CheckForUpdates? ==> s.workers[a.c].update.uid != uid || uid !in s.undelivered
    ensures SameBuffers(s, Next(s, a), uid)
  {
    match a
    case UpdatePod(options) => UpdateLeaves(s, options, uid);
    case CheckForUpdates(c) => CheckLeaves(s, c, uid);
    case _ =>
  }

  lemma UpdateLeaves(s: State, options: Update, uid: Uid)
    requires Shape(s) && Enabled(s, UpdatePod(options)) && (options.uid != uid || Working(s, uid))
    ensures SameBuffers(s, Next(s, UpdatePod(options)), uid)
  {
    var t, s' := WithWorker(s, options.uid), Next(s, UpdatePod(options));
    StartShape(s, options.uid);
    StartLeaves(s, options.uid, uid);
    if !Working(t, options.uid) {
      SendLeaves(t.(isWorking := t.isWorking[options.uid := true]), t.podUpdates[options.uid], options, uid);
    } else {
      assert s'.channels == t.channels;
    }
  }

  lemma StartLeaves(s: State, started: Uid, uid: Uid)
    ensures SameBuffers(s, WithWorker(s, started), uid)
  {
  }

  lemma SendLeaves(s: State, c: nat, update: Update, uid: Uid)
    requires c < |s.channels| && s.channels[c].owner != uid
    ensures SameBuffers(s, Send(s, c, update), uid)
  {
  }

  lemma CheckLeaves(s: State, c: nat, uid: Uid)
    requires Shape(s) && Enabled(s, CheckForUpdates(c))
    requires s.workers[c].update.uid != uid || uid !in s.undelivered
    ensures SameBuffers(s, Next(s, CheckForUpdates(c)), uid)
  {
  }

  lemma OtherAccounts(s: State, a: Action, uid: Uid)
    requires Inv(s) && Enabled(s, a) && !a.Receive? && For(Next(s, a).sent, uid) == For(s.sent, uid)
    ensures SameBuffers(s, Next(s, a), uid)
  {
    if a.UpdatePod? && a.options.uid == uid && !Working(s, uid) {
      IdleIsSent(s, a.options);
      ForOneMore(s.sent, a.options, uid);
    }
    if a.CheckForUpdates? && s.workers[a.c].update.uid == uid { NothingParked(s, a.c); }
    LeavesBuffers(s, a, uid);
  }

  lemma StepAccounts(s: State, a: Action, uid: Uid, synced: seq<Update>, rest: seq<Update>)
    returns (rest': seq<Update>)
    requires Inv(s) && Enabled(s, a) && Buffers(s, uid, rest) && |rest| <= 1 && For(s.sent, uid) == synced + rest
    ensures Buffers(Next(s, a), uid, rest') && |rest'| <= 1
    ensures For(Next(s, a).sent, uid) == synced + (TakenUp(a, Next(s, a), uid) + rest')
  {
    if a.Receive? {
      rest' := ReceiveAccounts(s, a.c, uid, rest);
    } else if For(Next(s, a).sent, uid) != For(s.sent, uid) {
      var update := SendAccounts(s, a, uid, rest);
      rest' := [update];
      assert synced + [] == synced && [] + rest' == rest';
    } else {
      OtherAccounts(s, a, uid);
      StaysBuffered(s, Next(s, a), uid, rest);
      rest' := rest;
      assert [] + rest == rest;
    }
  }

  lemma RunAccounts(states: seq<State>, actions: seq<Action>, i: nat, uid: Uid, synced: seq<Update>, rest: seq<Update>)
    returns (rest': seq<Update>)
    requires IsRun(states, actions) && i < |actions|
    requires Buffers(states[i], uid, rest) && |rest| <= 1 && For(states[i].sent, uid) == synced + rest
    ensures Buffers(states[i + 1], uid, rest') && |rest'| <= 1
    ensures For(states[i + 1].sent, uid) == (synced + TakenUp(actions[i], states[i + 1], uid)) + rest'
  {
    RunStep(states, actions, i);
    rest' := StepAccounts(states[i], actions[i], uid, synced, rest);
    Associative(synced, TakenUp(actions[i], states[i + 1], uid), rest');
  }

  /** Every update sent to a pod is taken up once, in the order of sending, by one goroutine or another, also when the
      pod is forgotten and updated again in between.  At most one is still under way, and it lies in a channel. */
  lemma {:induction false} SyncedInOrder(states: seq<State>, actions: seq<Action>, n: nat, uid: Uid)
    returns (rest: seq<Update>)
    requires IsRun(states, actions) && n <= |actions|
    ensures For(states[n].sent, uid) == Synced(states, actions, n, uid) + rest
    ensures Buffers(states[n], uid, rest) && |rest| <= 1
  {
    if n == 0 {
      rest := [];
      assert states[0].sent == [] && states[0].channels == [];
    } else {
      var before := SyncedInOrder(states, actions, n - 1, uid);
      var synced := Synced(states, actions, n - 1, uid);
      rest := RunAccounts(states, actions, n - 1, uid, synced, before);
      assert Synced(states, actions, n, uid) == synced + TakenUp(actions[n - 1], states[n], uid);
    }
  }

  /** A first pod is being synced. */
  function FirstSyncing(first: Update): State {
    var uid := first.uid;
    State(map[uid := 0], map[uid := true], map[], [Channel(uid, [], false)], [Syncing(first)], [first], Healthy)
  }

  lemma FirstRun(first: Update) returns (states: seq<State>, actions: seq<Action>)
    ensures IsRun(states, actions) && |actions| == 2 && states[2] == FirstSyncing(first)
  {
    var uid := first.uid;
    var one := State(map[uid := 0], map[uid := true], map[], [Channel(uid, [first], false)], [Idle], [first], Healthy);
    assert Next(Init, UpdatePod(first)) == one by {
      var r := Next(Init, UpdatePod(first));
      assert [] + [first] == [first];
      assert r.podUpdates == one.podUpdates && r.isWorking == one.isWorking && r.channels == one.channels;
    }
    assert Next(one, Receive(0)) == FirstSyncing(first) by { assert [first][1..] == []; }
    states, actions := [Init, one, FirstSyncing(first)], [UpdatePod(first), Receive(0)];
  }

  lemma RunGrows(states: seq<State>, actions: seq<Action>, a: Action)
    requires IsRun(states, actions) && Enabled(states[|actions|], a)
    ensures IsRun(states + [Next(states[|actions|], a)], actions + [a])
  {
    var states', actions' := states + [Next(states[|actions|], a)], actions + [a];
    forall i | 0 <= i < |actions'| ensures StepAt(states', actions', i) {
      if i < |actions| {
        assert StepAt(states, actions, i);
        assert states'[i] == states[i] && states'[i + 1] == states[i + 1] && actions'[i] == actions[i];
      }
    }
  }

  /** The hand-over is real: a pod forgotten and updated again while its first goroutine still syncs has two live
      goroutines, the first on a closed channel, and an update that waits for the first to finish. */
  lemma HandOver(first: Update, second: Update) returns (states: seq<State>, actions: seq<Action>)
    requires first.uid == second.uid
    ensures IsRun(states, actions) && |actions| == 4
    ensures states[4].workers == [Syncing(first), Idle]
    ensures states[4].channels == [Channel(first.uid, [], true), Channel(first.uid, [], false)]
    ensures states[4].podUpdates == map[first.uid := 1] && states[4].undelivered == map[first.uid := second]
  {
    var uid, two := first.uid, FirstSyncing(first);
    var three := two.(podUpdates := map[], channels := [Channel(uid, [], true)]);
    assert Next(two, ForgetWorker(uid)) == three by {
      RemoveOne(two, uid);
      assert two.podUpdates - {uid} == three.podUpdates && two.undelivered - {uid} == three.undelivered;
    }
    states, actions := FirstRun(first);
    RunGrows(states, actions, ForgetWorker(uid));
    states, actions := states + [three], actions + [ForgetWorker(uid)];
    RunGrows(states, actions, UpdatePod(second));
    states, actions := states + [Next(three, UpdatePod(second))], actions + [UpdatePod(second)];
  }

  // ------------------------------------------------------------------ the object

  lemma RemoveNone(s: State)
    ensures Remove(s, {}) == s
  {
    assert Remove(s, {}).channels == s.channels;
  }

  lemma RemoveOneMore(s: State, gone: set<Uid>, uid: Uid)
    requires Shape(s)
    ensures Remove(Remove(s, gone), {uid}) == Remove(s, gone + {uid})
  {
    var t, both := Remove(Remove(s, gone), {uid}), Remove(s, gone + {uid});
    forall c | 0 <= c < |s.channels| ensures t.channels[c] == both.channels[c] {
      assert Closes(s, gone + {uid}, c) <==> Closes(s, gone, c) || Closes(Remove(s, gone), {uid}, c);
    }
    assert t.channels == both.channels;
    assert t.podUpdates == both.podUpdates;
    assert t.undelivered == both.undelivered;
  }

  /** Closing the one channel that the pod uses is what `Remove` does for a single pod. */
  lemma RemoveOne(s: State, uid: Uid)
    requires Shape(s)
    ensures var r := Remove(s, {uid});
            if uid in s.podUpdates then
              r == s.(podUpdates := s.podUpdates - {uid}, undelivered := s.undelivered - {uid},
                      channels := s.channels[s.podUpdates[uid] := s.channels[s.podUpdates[uid]].(closed := true)])
            else r == s
  {
    var r := Remove(s, {uid});
    if uid in s.podUpdates {
      assert r.channels == s.channels[s.podUpdates[uid] := s.channels[s.podUpdates[uid]].(closed := true)];
    } else {
      assert r.channels == s.channels;
    }
  }

  /** podWorkers.  Every method is one section run under podLock, or one phase of a goroutine. */
  class Workers {
    var podUpdates: map<Uid, nat>
    var isWorking: map<Uid, bool>
    var undelivered: map<Uid, Update>
    var channels: seq<Channel>
    var workers: seq<Phase>
    ghost var sent: seq<Update>

    ghost function View(): State
      reads this
    {
      State(podUpdates, isWorking, undelivered, channels, workers, sent, Healthy)
    }

    ghost predicate Valid()
      reads this
    {
      Inv(View())
    }

    constructor ()
      ensures View() == Init && Valid()
    {
      podUpdates, isWorking, undelivered := map[], map[], map[];
      channels, workers, sent := [], [], [];
    }

    /** `ch <- update`, on a channel that is open and has room. */
    method SendTo(ch: nat, update: Update)
      requires ch < |channels| && !channels[ch].closed && |channels[ch].buffer| < CAPACITY
      modifies this`channels, this`sent
      ensures View() == Send(old(View()), ch, update)
    {
      channels := channels[ch := channels[ch].(buffer := channels[ch].buffer + [update])];
      sent := sent + [update];
    }

    /** A pod without a worker gets a channel and a goroutine. */
    method StartWorker(uid: Uid)
      requires Valid()
      modifies this`podUpdates, this`channels, this`workers
      ensures Valid() && View() == WithWorker(old(View()), uid)
    {
      StartKeeps(View(), uid);
      if uid !in podUpdates {
        podUpdates := podUpdates[uid := |channels|];
        channels := channels + [Channel(uid, [], false)];
        workers := workers + [Idle];
      }
    }

    method UpdatePod(options: Update)
      requires Valid()
      modifies this
      ensures Valid() && View() == Deliver(old(View()), options)
    {
      DeliverKeeps(View(), options);
      var uid := options.uid;
      StartWorker(uid);
      if !(uid in isWorking && isWorking[uid]) {
        assert OneToken(View(), uid);
        LiveChannelEmpty(View(), uid);
        isWorking := isWorking[uid := true];
        SendTo(podUpdates[uid], options);
      } else if uid !in undelivered || undelivered[uid].kind != SyncPodKill {
        undelivered := undelivered[uid := options];
      }
    }

    method RemoveWorker(uid: Uid)
      requires Valid()
      modifies this`podUpdates, this`undelivered, this`channels
      ensures Valid() && View() == Remove(old(View()), {uid})
    {
      RemoveKeeps(View(), {uid});
      RemoveOne(View(), uid);
      if uid in podUpdates {
        var ch := podUpdates[uid];
        channels := channels[ch := channels[ch].(closed := true)];
        podUpdates := podUpdates - {uid};
        if uid in undelivered {
          undelivered := undelivered - {uid};
        }
        assert undelivered == old(undelivered) - {uid};
      }
      assert View() == Remove(old(View()), {uid});
    }

    method ForgetWorker(uid: Uid)
      requires Valid()
      modifies this
      ensures Valid() && View() == Remove(old(View()), {uid})
    {
      RemoveWorker(uid);
    }

    /** One round of the loop below. */
    method ForgetNext(key: Uid, ghost start: State, ghost done: set<Uid>)
      requires Valid() && Inv(start) && View() == Remove(start, done)
      modifies this`podUpdates, this`undelivered, this`channels
      ensures Valid() && View() == Remove(start, done + {key})
    {
      RemoveOneMore(start, done, key);
      RemoveWorker(key);
    }

    method ForgetNonExistingPodWorkers(desired: set<Uid>)
      requires Valid()
      modifies this
      ensures Valid() && View() == Remove(old(View()), old(podUpdates.Keys) - desired)
    {
      ghost var start := View();
      var keys := podUpdates.Keys;
      ghost var all := keys - desired;
      ghost var done: set<Uid> := {};
      RemoveNone(start);
      while keys != {}
        invariant Valid() && View() == Remove(start, done)
        invariant done + (keys - desired) == all
        decreases keys
      {
        var key :| key in keys;
        keys := keys - {key};
        if key !in desired {
          ForgetNext(key, start, done);
          done := done + {key};
        }
      }
      assert done == all;
    }

    /** Goroutine `c` takes the next update from its channel, which may be closed by now, and starts to sync. */
    method Receive(c: nat) returns (update: Update)
      requires Valid() && Enabled(View(), Action.Receive(c))
      modifies this`channels, this`workers
      ensures Valid() && View() == Next(old(View()), Action.Receive(c)) && workers[c] == Syncing(update)
    {
      ReceiveKeeps(View(), c);
      update := channels[c].buffer[0];
      channels := channels[c := channels[c].(buffer := channels[c].buffer[1..])];
      workers := workers[c := Syncing(update)];
    }

    /** syncPodFn has returned. */
    method EndSync(c: nat)
      requires Valid() && Enabled(View(), Action.EndSync(c))
      modifies this`workers
      ensures Valid() && View() == Next(old(View()), Action.EndSync(c))
    {
      EndSyncKeeps(View(), c);
      workers := workers[c := WrappingUp(workers[c].update)];
    }

    /** The range over a closed and drained channel ends. */
    method Exit(c: nat)
      requires Valid() && Enabled(View(), Action.Exit(c))
      modifies this`workers
      ensures Valid() && View() == Next(old(View()), Action.Exit(c))
    {
      ExitKeeps(View(), c);
      workers := workers[c := Exited];
    }

    /** checkForUpdates, called by goroutine `c` at the end of wrapUp. */
    method CheckForUpdates(c: nat)
      requires Valid() && Enabled(View(), Action.CheckForUpdates(c))
      modifies this
      ensures Valid() && View() == Next(old(View()), Action.CheckForUpdates(c))
    {
      CheckKeeps(View(), c);
      var uid := workers[c].update.uid;
      if uid in undelivered {
        ParkedGoesThrough(View(), c);
        SendTo(podUpdates[uid], undelivered[uid]);
        undelivered := undelivered - {uid};
      } else {
        isWorking := isWorking[uid := false];
      }
      workers := workers[c := Idle];
    }
  }
}
