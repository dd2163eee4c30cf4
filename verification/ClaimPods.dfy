/** How a controller adopts and releases pods (pkg/controller/controller_ref_manager.go, `BaseControllerRefManager` and
    `PodControllerRefManager`). */
module ClaimPods {
  import opened Options

  type Uid = string

  datatype Error = NotFound | Invalid | Transient | CannotAdopt(cause: Error)

  datatype OwnerRef = OwnerRef(uid: Uid, controller: bool)

  datatype Pod = Pod(uid: Uid, name: string, labels: map<string, string>, deleting: bool, owners: seq<OwnerRef>)

  // ------------------------------------------------------------------ owner references

  /** metav1.GetControllerOf: the first reference that is marked as controller. */
  function ControllerOf(owners: seq<OwnerRef>): Option<Uid> {
    if owners == [] then None else if owners[0].controller then Some(owners[0].uid) else ControllerOf(owners[1..])
  }

  /** The references that are not the controller's own. */
  function Foreign(owners: seq<OwnerRef>, uid: Uid): (r: seq<OwnerRef>)
    ensures forall i :: 0 <= i < |r| ==> r[i].uid != uid
  {
    if owners == [] then [] else (if owners[0].uid == uid then [] else [owners[0]]) + Foreign(owners[1..], uid)
  }

  /** The adopting patch: references are merged by UID. */
  function AddRef(owners: seq<OwnerRef>, uid: Uid): seq<OwnerRef> {
    if owners == [] then [OwnerRef(uid, true)]
    else if owners[0].uid == uid then [OwnerRef(uid, true)] + owners[1..]
    else [owners[0]] + AddRef(owners[1..], uid)
  }

  /** All controller references carry one UID, as the server's validation demands. */
  ghost predicate OneController(owners: seq<OwnerRef>) {
    forall i, j :: 0 <= i < |owners| && 0 <= j < |owners| && owners[i].controller && owners[j].controller ==>
                     owners[i].uid == owners[j].uid
  }

  lemma {:induction false} ControllerListed(owners: seq<OwnerRef>)
    ensures ControllerOf(owners) == None ==> forall i :: 0 <= i < |owners| ==> !owners[i].controller
    ensures ControllerOf(owners).Some? ==> OwnerRef(ControllerOf(owners).value, true) in owners
  {
    if owners != [] && !owners[0].controller {
      ControllerListed(owners[1..]);
      assert forall i :: 1 <= i < |owners| ==> owners[i] == owners[1..][i - 1];
    }
  }

  /** The controller is the first reference that is marked as one. */
  lemma {:induction false} ControllerIsFirst(owners: seq<OwnerRef>, uid: Uid)
    ensures ControllerOf(owners) == Some(uid) <==>
            exists i :: 0 <= i < |owners| && owners[i] == OwnerRef(uid, true) &&
                        forall j :: 0 <= j < i ==> !owners[j].controller
  {
    if owners != [] && !owners[0].controller {
      var rest := owners[1..];
      ControllerIsFirst(rest, uid);
      assert forall i :: 1 <= i < |owners| ==> owners[i] == rest[i - 1];
      if ControllerOf(owners) == Some(uid) {
        var i :| 0 <= i < |rest| && rest[i] == OwnerRef(uid, true) && forall j :: 0 <= j < i ==> !rest[j].controller;
        assert owners[i + 1] == OwnerRef(uid, true);
      }
    }
  }

  lemma {:induction false} Adopted(owners: seq<OwnerRef>, uid: Uid)
    requires forall i :: 0 <= i < |owners| ==> owners[i].controller ==> owners[i].uid == uid
    ensures ControllerOf(AddRef(owners, uid)) == Some(uid) && Foreign(AddRef(owners, uid), uid) == Foreign(owners, uid)
    ensures OneController(AddRef(owners, uid))
    ensures forall i :: 0 <= i < |AddRef(owners, uid)| ==>
              AddRef(owners, uid)[i].controller ==> AddRef(owners, uid)[i].uid == uid
  {
    if owners == [] {
    } else if owners[0].uid == uid {
      assert ([OwnerRef(uid, true)] + owners[1..])[1..] == owners[1..];
    } else {
      Adopted(owners[1..], uid);
      var r := AddRef(owners[1..], uid);
      assert ([owners[0]] + r)[1..] == r;
    }
  }

  lemma {:induction false} ForeignOnly(owners: seq<OwnerRef>, uid: Uid, o: OwnerRef)
    ensures o in Foreign(owners, uid) <==> o in owners && o.uid != uid
  {
    if owners != [] {
      ForeignOnly(owners[1..], uid, o);
      assert owners == [owners[0]] + owners[1..];
    }
  }

  lemma {:induction false} ForeignAlready(owners: seq<OwnerRef>, uid: Uid)
    requires forall i :: 0 <= i < |owners| ==> owners[i].uid != uid
    ensures Foreign(owners, uid) == owners
  {
    if owners != [] { ForeignAlready(owners[1..], uid); }
  }

  /** The releasing patch leaves an orphan. */
  lemma Released(owners: seq<OwnerRef>, uid: Uid)
    requires OneController(owners) && ControllerOf(owners) == Some(uid)
    ensures ControllerOf(Foreign(owners, uid)) == None
  {
    ControllerListed(owners);
    var k :| 0 <= k < |owners| && owners[k] == OwnerRef(uid, true);
    var rest := Foreign(owners, uid);
    forall i | 0 <= i < |rest| ensures !rest[i].controller {
      ForeignOnly(owners, uid, rest[i]);
      var j :| 0 <= j < |owners| && owners[j] == rest[i];
      assert owners[k].controller && owners[j].uid != owners[k].uid;
    }
    ControllerListed(rest);
  }

  // ------------------------------------------------------------------ the API server

  /** Both patches name the pod and its UID, and the controller whose reference they add or delete. */
  datatype Patch = Adopt(name: string, pod: Uid, owner: Uid) | Release(name: string, pod: Uid, owner: Uid)

  /** What the server makes of a patch: the new owner references, or why it refuses. */
  function Outcome(pods: map<string, Pod>, patch: Patch): (Option<Error>, seq<OwnerRef>) {
    if patch.name !in pods then (Some(NotFound), [])
    else if pods[patch.name].uid != patch.pod then (Some(Invalid), [])
    else
      var owners := pods[patch.name].owners;
      match patch
      case Adopt(_, _, owner) =>
        if exists o :: o in owners && o.controller && o.uid != owner then (Some(Invalid), [])
        else (None, AddRef(owners, owner))
      case Release(_, _, owner) =>
        if owners == [] then (Some(Invalid), []) else (None, Foreign(owners, owner))
  }

  /** CanAdopt's memory: whether it has asked, the answer, and how often it asked. */
  datatype Memo = Memo(asked: bool, err: Option<Error>, calls: nat)

  /** The server's pods, all patches it was sent, and the manager's memory. */
  datatype World = World(pods: map<string, Pod>, log: seq<Patch>, memo: Memo)

  type CanAdoptFunc = Option<nat -> Option<Error>>

  /** The controller; `faults(n)` tells that the n-th patch is lost, `canAdopt` what CanAdoptFunc answers to its n-th
      call, and `match_` combines selector and filters. */
  datatype Manager = Manager(uid: Uid, deleting: bool, match_: Pod -> bool, faults: nat -> bool,
                             canAdopt: CanAdoptFunc)

  function SendPatch(m: Manager, w: World, patch: Patch): (World, Option<Error>) {
    var sent := w.(log := w.log + [patch]);
    if m.faults(|w.log|) then (sent, Some(Transient))
    else
      var (err, owners) := Outcome(w.pods, patch);
      if err.Some? then (sent, err)
      else (sent.(pods := w.pods[patch.name := w.pods[patch.name].(owners := owners)]), None)
  }

  // ------------------------------------------------------------------ one pod

  datatype Decision = Ignore | Keep | Take | Drop

  /** What ClaimObject sets out to do. */
  function Decide(m: Manager, p: Pod): Decision {
    match ControllerOf(p.owners)
    case Some(owner) =>
      if owner != m.uid then Ignore else if m.match_(p) then Keep else if m.deleting then Ignore else Drop
    case None =>
      if m.deleting || !m.match_(p) || p.deleting then Ignore else Take
  }

  function Asked(m: Manager, memo: Memo): Memo {
    if memo.asked then memo
    else if m.canAdopt.Some? then Memo(true, m.canAdopt.value(memo.calls), memo.calls + 1)
    else memo.(asked := true)
  }

  /** ClaimObject: whether the pod is owned now, and the error. */
  function ClaimOne(m: Manager, w: World, p: Pod): (World, bool, Option<Error>) {
    match Decide(m, p)
    case Ignore => (w, false, None)
    case Keep => (w, true, None)
    case Drop =>
      var (w', err) := SendPatch(m, w, Release(p.name, p.uid, m.uid));
      (w', false, if err == Some(NotFound) || err == Some(Invalid) then None else err)
    case Take =>
      var asked := w.(memo := Asked(m, w.memo));
      if asked.memo.err.Some? then (asked, false, Some(CannotAdopt(asked.memo.err.value)))
      else
        var (w', err) := SendPatch(m, asked, Adopt(p.name, p.uid, m.uid));
        (w', err == None, if err == Some(NotFound) then None else err)
  }

  /** ClaimPods: the claimed pods, and the errors. */
  function ClaimAll(m: Manager, w: World, pods: seq<Pod>): (World, seq<Pod>, seq<Error>) {
    if pods == [] then (w, [], [])
    else
      var n := |pods| - 1;
      var (w', claimed, errs) := ClaimAll(m, w, pods[..n]);
      var (w'', ok, err) := ClaimOne(m, w', pods[n]);
      (w'', if ok && err == None then claimed + [pods[n]] else claimed,
       if err == None then errs else errs + [err.value])
  }

  // ------------------------------------------------------------------ what never happens

  /** CanAdoptFunc was called at most once, and as long as it has not agreed no adopting patch was sent. */
  ghost predicate MemoInv(w: World) {
    && w.memo.calls <= 1
    && (!w.memo.asked ==> w.memo.calls == 0 && w.memo.err == None)
    && (forall i :: 0 <= i < |w.log| && w.log[i].Adopt? ==> w.memo.asked && w.memo.err == None)
  }

  lemma ClaimOneMemo(m: Manager, w: World, p: Pod)
    requires MemoInv(w)
    ensures var (w', ok, err) := ClaimOne(m, w, p);
            && MemoInv(w')
            && (w.memo.asked ==> w'.memo == w.memo)
            && (Decide(m, p) == Take ==> w'.memo.asked && (w'.memo.err.Some? ==> !ok && err.Some?))
  {
  }

  /** Whatever the lists and however many passes a manager makes, it asks at most once, and a refusal blocks every
      adoption: each pod it would take is an error and is not claimed. */
  lemma {:induction false} AsksOnce(m: Manager, w: World, pods: seq<Pod>)
    requires MemoInv(w)
    ensures var (w', claimed, errs) := ClaimAll(m, w, pods);
            && MemoInv(w')
            && (w.memo.asked ==> w'.memo == w.memo)
            && (forall p :: p in pods && Decide(m, p) == Take ==> w'.memo.asked)
            && (w'.memo.err.Some? ==> forall p :: p in pods && Decide(m, p) == Take ==> p !in claimed && errs != [])
            && (forall p :: p in claimed ==> p in pods && Decide(m, p) != Ignore && Decide(m, p) != Drop)
  {
    if pods != [] {
      var n := |pods| - 1;
      AsksOnce(m, w, pods[..n]);
      var (w', claimed, errs) := ClaimAll(m, w, pods[..n]);
      ClaimOneMemo(m, w', pods[n]);
      assert pods == pods[..n] + [pods[n]];
    }
  }

  /** One pass after another; selector, filters and lost patches may be others each time. */
  function Passes(w: World, passes: seq<(Manager, seq<Pod>)>): World {
    if passes == [] then w
    else
      var n := |passes| - 1;
      ClaimAll(passes[n].0, Passes(w, passes[..n]), passes[n].1).0
  }

  /** Over all passes of a new manager CanAdoptFunc runs at most once, and if it refuses no pod is ever adopted. */
  lemma {:induction false} AsksOnceEver(pods: map<string, Pod>, passes: seq<(Manager, seq<Pod>)>)
    ensures var w := Passes(World(pods, [], Memo(false, None, 0)), passes);
            MemoInv(w) && (w.memo.err.Some? ==> forall i :: 0 <= i < |w.log| ==> w.log[i].Release?)
  {
    if passes != [] {
      var n := |passes| - 1;
      AsksOnceEver(pods, passes[..n]);
      AsksOnce(passes[n].0, Passes(World(pods, [], Memo(false, None, 0)), passes[..n]), passes[n].1);
    }
  }

  /** What is remembered is the answer of the one call that was made, if there is a function to call; and without its
      consent no adopting patch was sent. */
  ghost predicate Remembers(canAdopt: CanAdoptFunc, w: World) {
    && (if w.memo.asked && canAdopt.Some? then w.memo == Memo(true, canAdopt.value(0), 1)
        else w.memo == Memo(w.memo.asked, None, 0))
    && (forall i :: 0 <= i < |w.log| && w.log[i].Adopt? ==> w.memo.asked && w.memo.err == None)
  }

  lemma {:induction false} PassRemembers(m: Manager, w: World, pods: seq<Pod>)
    requires Remembers(m.canAdopt, w)
    ensures Remembers(m.canAdopt, ClaimAll(m, w, pods).0)
  {
    if pods != [] {
      var n := |pods| - 1;
      PassRemembers(m, w, pods[..n]);
      OneRemembers(m, ClaimAll(m, w, pods[..n]).0, pods[n]);
    }
  }

  lemma OneRemembers(m: Manager, w: World, p: Pod)
    requires Remembers(m.canAdopt, w)
    ensures Remembers(m.canAdopt, ClaimOne(m, w, p).0)
  {
  }

  /** Over all passes of a new manager that has a CanAdoptFunc, a pod is adopted only if that has run and agreed. */
  lemma {:induction false} AdoptsWithConsent(canAdopt: nat -> Option<Error>, pods: map<string, Pod>,
                                             passes: seq<(Manager, seq<Pod>)>)
    requires forall i :: 0 <= i < |passes| ==> passes[i].0.canAdopt == Some(canAdopt)
    ensures var w := Passes(World(pods, [], Memo(false, None, 0)), passes);
            && Remembers(Some(canAdopt), w)
            && forall i :: 0 <= i < |w.log| && w.log[i].Adopt? ==> w.memo.calls == 1 && canAdopt(0) == None
  {
    if passes != [] {
      var n := |passes| - 1;
      AdoptsWithConsent(canAdopt, pods, passes[..n]);
      PassRemembers(passes[n].0, Passes(World(pods, [], Memo(false, None, 0)), passes[..n]), passes[n].1);
    }
  }

  ghost predicate ServerValid(pods: map<string, Pod>) {
    forall n :: n in pods ==> pods[n].name == n && OneController(pods[n].owners)
  }

  /** Only references of this controller differ. */
  ghost predicate OnlyOwnRefs(uid: Uid, pods: map<string, Pod>, pods': map<string, Pod>) {
    && pods.Keys == pods'.Keys
    && forall n :: n in pods ==>
         Foreign(pods'[n].owners, uid) == Foreign(pods[n].owners, uid) &&
         pods'[n] == pods[n].(owners := pods'[n].owners)
  }

  lemma OutcomeSafe(pods: map<string, Pod>, patch: Patch)
    requires ServerValid(pods) && Outcome(pods, patch).0 == None
    ensures OneController(Outcome(pods, patch).1)
    ensures Foreign(Outcome(pods, patch).1, patch.owner) == Foreign(pods[patch.name].owners, patch.owner)
  {
    var owners := pods[patch.name].owners;
    if patch.Adopt? {
      Adopted(owners, patch.owner);
    } else {
      var r := Foreign(owners, patch.owner);
      ForeignAlready(r, patch.owner);
      forall i, j | 0 <= i < |r| && 0 <= j < |r| && r[i].controller && r[j].controller ensures r[i].uid == r[j].uid {
        ForeignOnly(owners, patch.owner, r[i]);
        ForeignOnly(owners, patch.owner, r[j]);
      }
    }
  }

  lemma SendPatchSafe(m: Manager, w: World, patch: Patch)
    requires ServerValid(w.pods) && patch.owner == m.uid
    ensures ServerValid(SendPatch(m, w, patch).0.pods) && OnlyOwnRefs(m.uid, w.pods, SendPatch(m, w, patch).0.pods)
  {
    if Outcome(w.pods, patch).0 == None { OutcomeSafe(w.pods, patch); }
  }

  lemma ClaimOneSafe(m: Manager, w: World, p: Pod)
    requires ServerValid(w.pods)
    ensures ServerValid(ClaimOne(m, w, p).0.pods) && OnlyOwnRefs(m.uid, w.pods, ClaimOne(m, w, p).0.pods)
  {
    match Decide(m, p)
    case Drop =>
      SendPatchSafe(m, w, Release(p.name, p.uid, m.uid));
    case Take =>
      SendPatchSafe(m, w.(memo := Asked(m, w.memo)), Adopt(p.name, p.uid, m.uid));
    case _ =>
      assert ClaimOne(m, w, p).0 == w;
  }

  lemma OwnRefsCompose(uid: Uid, a: map<string, Pod>, b: map<string, Pod>, c: map<string, Pod>)
    requires OnlyOwnRefs(uid, a, b) && OnlyOwnRefs(uid, b, c)
    ensures OnlyOwnRefs(uid, a, c)
  {
  }

  /** With any list, however stale, and any lost patches, a pass changes nothing but this controller's own references,
      and no pod ever gets two controllers. */
  lemma {:induction false} PassIsSafe(m: Manager, w: World, pods: seq<Pod>)
    requires ServerValid(w.pods)
    ensures ServerValid(ClaimAll(m, w, pods).0.pods) && OnlyOwnRefs(m.uid, w.pods, ClaimAll(m, w, pods).0.pods)
  {
    if pods != [] {
      var n := |pods| - 1;
      PassIsSafe(m, w, pods[..n]);
      var w' := ClaimAll(m, w, pods[..n]).0;
      ClaimOneSafe(m, w', pods[n]);
      OwnRefsCompose(m.uid, w.pods, w'.pods, ClaimOne(m, w', pods[n]).0.pods);
    }
  }

  // ------------------------------------------------------------------ a second pass

  /** A list of up-to-date copies of different pods. */
  ghost predicate Fresh(pods: map<string, Pod>, list: seq<Pod>) {
    && (forall i :: 0 <= i < |list| ==> list[i].name in pods && pods[list[i].name] == list[i])
    && (forall i, j :: 0 <= i < j < |list| ==> list[i].name != list[j].name)
  }

  /** What the server holds for a pod after a pass without errors. */
  function After(m: Manager, p: Pod): Pod {
    match Decide(m, p)
    case Take => p.(owners := AddRef(p.owners, m.uid))
    case Drop => p.(owners := Foreign(p.owners, m.uid))
    case _ => p
  }

  function Afters(m: Manager, list: seq<Pod>): (r: seq<Pod>)
    ensures |r| == |list| && forall i :: 0 <= i < |list| ==> r[i] == After(m, list[i])
  {
    seq(|list|, i requires 0 <= i < |list| => After(m, list[i]))
  }

  predicate Owned(m: Manager, p: Pod) {
    Decide(m, p) == Keep || Decide(m, p) == Take
  }

  function OwnedOf(m: Manager, list: seq<Pod>): seq<Pod> {
    if list == [] then []
    else
      var n := |list| - 1;
      if Owned(m, list[n]) then OwnedOf(m, list[..n]) + [list[n]] else OwnedOf(m, list[..n])
  }

  lemma FreshOutcome(m: Manager, pods: map<string, Pod>, p: Pod)
    requires ServerValid(pods) && p.name in pods && pods[p.name] == p
    ensures Decide(m, p) == Take ==> Outcome(pods, Adopt(p.name, p.uid, m.uid)) == (None, After(m, p).owners)
    ensures Decide(m, p) == Drop ==> Outcome(pods, Release(p.name, p.uid, m.uid)) == (None, After(m, p).owners)
  {
    ControllerListed(p.owners);
  }

  lemma FirstPassOne(m: Manager, w: World, p: Pod)
    requires ServerValid(w.pods) && p.name in w.pods && w.pods[p.name] == p && ClaimOne(m, w, p).2 == None
    ensures ClaimOne(m, w, p).1 <==> Owned(m, p)
    ensures ClaimOne(m, w, p).0.pods == w.pods[p.name := After(m, p)]
  {
    FreshOutcome(m, w.pods, p);
    assert w.pods[p.name := p] == w.pods;
  }

  /** The server's pods once those of the list are patched. */
  function Updated(m: Manager, pods: map<string, Pod>, list: seq<Pod>): map<string, Pod> {
    if list == [] then pods
    else
      var n := |list| - 1;
      Updated(m, pods, list[..n])[list[n].name := After(m, list[n])]
  }

  lemma {:induction false} UpdatedAt(m: Manager, pods: map<string, Pod>, list: seq<Pod>, i: nat)
    requires Fresh(pods, list) && i < |list|
    ensures list[i].name in Updated(m, pods, list) && Updated(m, pods, list)[list[i].name] == After(m, list[i])
  {
    if i < |list| - 1 { UpdatedAt(m, pods, list[..|list| - 1], i); }
  }

  lemma {:induction false} UpdatedElsewhere(m: Manager, pods: map<string, Pod>, list: seq<Pod>, name: string)
    requires name in pods && forall i :: 0 <= i < |list| ==> list[i].name != name
    ensures name in Updated(m, pods, list) && Updated(m, pods, list)[name] == pods[name]
  {
    if list != [] { UpdatedElsewhere(m, pods, list[..|list| - 1], name); }
  }

  /** A pass over fresh copies that meets no error claims the pods it keeps and takes, and patches those it takes and
      drops. */
  lemma {:induction false} FirstPass(m: Manager, w: World, list: seq<Pod>)
    requires ServerValid(w.pods) && Fresh(w.pods, list) && ClaimAll(m, w, list).2 == []
    ensures ClaimAll(m, w, list).1 == OwnedOf(m, list)
    ensures ClaimAll(m, w, list).0.pods == Updated(m, w.pods, list)
  {
    if list != [] {
      var n := |list| - 1;
      var front, p := list[..n], list[n];
      FirstPass(m, w, front);
      PassIsSafe(m, w, front);
      UpdatedElsewhere(m, w.pods, front, p.name);
      FirstPassOne(m, ClaimAll(m, w, front).0, p);
    }
  }

  // ------------------------------------------------------------------ what is claimed, adopted and released

  /** Whatever the lists, errors and lost patches: a claimed pod matches, and in the copy that was listed it is this
      controller's, or nobody's and neither it nor the controller is being deleted. */
  lemma {:induction false} ClaimedAreOwn(m: Manager, w: World, list: seq<Pod>)
    ensures forall p :: p in ClaimAll(m, w, list).1 ==>
              && p in list && m.match_(p)
              && (ControllerOf(p.owners) == Some(m.uid) ||
                  (ControllerOf(p.owners) == None && !p.deleting && !m.deleting))
  {
    if list != [] {
      var n := |list| - 1;
      ClaimedAreOwn(m, w, list[..n]);
      assert list == list[..n] + [list[n]];
    }
  }

  /** What a pass over fresh copies that meets no error makes of each pod at the server: it releases exactly its own
      that do not match, adopts exactly the matching ones that nobody controls, and leaves all others as they are. */
  lemma PassDecides(m: Manager, w: World, list: seq<Pod>, i: nat)
    requires ServerValid(w.pods) && Fresh(w.pods, list) && ClaimAll(m, w, list).2 == [] && i < |list|
    ensures var p, pods := list[i], ClaimAll(m, w, list).0.pods;
            && p.name in pods && pods[p.name] == p.(owners := pods[p.name].owners)
            && var owners := pods[p.name].owners;
               if m.deleting then owners == p.owners
               else if ControllerOf(p.owners) == Some(m.uid) && !m.match_(p) then
                 ControllerOf(owners) == None && forall o :: o in owners <==> o in p.owners && o.uid != m.uid
               else if ControllerOf(p.owners) == None && m.match_(p) && !p.deleting then
                 ControllerOf(owners) == Some(m.uid) &&
                 forall o: OwnerRef :: o.uid != m.uid ==> (o in owners <==> o in p.owners)
               else owners == p.owners
  {
    var p := list[i];
    FirstPass(m, w, list);
    UpdatedAt(m, w.pods, list, i);
    ControllerListed(p.owners);
    if Decide(m, p) == Take {
      Adopted(p.owners, m.uid);
      var owners := AddRef(p.owners, m.uid);
      forall o: OwnerRef | o.uid != m.uid ensures o in owners <==> o in p.owners {
        ForeignOnly(owners, m.uid, o);
        ForeignOnly(p.owners, m.uid, o);
      }
    } else if Decide(m, p) == Drop {
      Released(p.owners, m.uid);
      forall o ensures o in Foreign(p.owners, m.uid) <==> o in p.owners && o.uid != m.uid {
        ForeignOnly(p.owners, m.uid, o);
      }
    }
  }

  /** The pods of the list for which `f` holds, in its order. */
  ghost function Where(list: seq<Pod>, f: Pod -> bool): seq<Pod> {
    if list == [] then []
    else
      var n := |list| - 1;
      if f(list[n]) then Where(list[..n], f) + [list[n]] else Where(list[..n], f)
  }

  lemma {:induction false} OwnedIsWhere(m: Manager, list: seq<Pod>, f: Pod -> bool)
    requires forall i :: 0 <= i < |list| ==> (Owned(m, list[i]) <==> f(list[i]))
    ensures OwnedOf(m, list) == Where(list, f)
  {
    if list != [] { OwnedIsWhere(m, list[..|list| - 1], f); }
  }

  /** Such a pass claims exactly the listed pods that match and whose controller at the server it then is. */
  lemma ClaimsExactly(m: Manager, w: World, list: seq<Pod>)
    requires ServerValid(w.pods) && Fresh(w.pods, list) && ClaimAll(m, w, list).2 == []
    ensures var pods := ClaimAll(m, w, list).0.pods;
            ClaimAll(m, w, list).1 ==
            Where(list, (p: Pod) =>
              p.name in pods && ControllerOf(pods[p.name].owners) == Some(m.uid) && m.match_(p))
  {
    var pods := ClaimAll(m, w, list).0.pods;
    var f := (p: Pod) => p.name in pods && ControllerOf(pods[p.name].owners) == Some(m.uid) && m.match_(p);
    FirstPass(m, w, list);
    forall i | 0 <= i < |list| ensures Owned(m, list[i]) <==> f(list[i]) { PassDecides(m, w, list, i); }
    OwnedIsWhere(m, list, f);
  }

  /** No pod that is not listed changes at the server. */
  lemma {:induction false} OthersUntouched(m: Manager, w: World, list: seq<Pod>, name: string)
    requires name in w.pods && forall i :: 0 <= i < |list| ==> list[i].name != name
    ensures name in ClaimAll(m, w, list).0.pods && ClaimAll(m, w, list).0.pods[name] == w.pods[name]
  {
    if list != [] { OthersUntouched(m, w, list[..|list| - 1], name); }
  }

  /** Pods that are gone from the server by now cause no error and change nothing; of these only those that the copies
      show as its own are claimed. */
  lemma {:induction false} GoneIsNoError(m: Manager, w: World, list: seq<Pod>)
    requires (forall n :: !m.faults(n)) && m.canAdopt == None && w.memo.err == None
    requires forall i :: 0 <= i < |list| ==> list[i].name !in w.pods
    ensures var (w', claimed, errs) := ClaimAll(m, w, list);
            && errs == [] && w'.pods == w.pods && w'.memo.err == None
            && claimed == Where(list, (p: Pod) => ControllerOf(p.owners) == Some(m.uid) && m.match_(p))
  {
    if list != [] {
      var n := |list| - 1;
      GoneIsNoError(m, w, list[..n]);
      OneGone(m, ClaimAll(m, w, list[..n]).0, list[n]);
    }
  }

  lemma OneGone(m: Manager, w: World, p: Pod)
    requires !m.faults(|w.log|) && m.canAdopt == None && w.memo.err == None && p.name !in w.pods
    ensures var (w', ok, err) := ClaimOne(m, w, p);
            && err == None && w'.pods == w.pods && w'.memo.err == None
            && (ok <==> ControllerOf(p.owners) == Some(m.uid) && m.match_(p))
  {
  }

  /** A patch that is lost shows as an error of the pass. */
  lemma {:induction false} LostPatchIsError(m: Manager, w: World, list: seq<Pod>, n: nat)
    requires |w.log| <= n < |ClaimAll(m, w, list).0.log| && m.faults(n)
    ensures Transient in ClaimAll(m, w, list).2
  {
    var last := |list| - 1;
    var w' := ClaimAll(m, w, list[..last]).0;
    if n < |w'.log| { LostPatchIsError(m, w, list[..last], n); }
  }

  /** A patch settles a pod if the pod then has nothing left to reconcile.  Selector and filters see the patched pod. */
  ghost predicate Settles(m: Manager, p: Pod) {
    && (Decide(m, p) == Take ==> m.match_(After(m, p)))
    && (Decide(m, p) == Drop ==> !m.match_(After(m, p)) || p.deleting)
  }

  /** Nothing left to do, and the pod is owned exactly if it was. */
  ghost predicate Quiet(m: Manager, p: Pod) {
    && (Decide(m, After(m, p)) == Keep || Decide(m, After(m, p)) == Ignore)
    && (Owned(m, After(m, p)) <==> Owned(m, p))
  }

  lemma SettledIsQuiet(m: Manager, p: Pod)
    requires OneController(p.owners)
    ensures Settles(m, p) <==> Quiet(m, p)
  {
    ControllerListed(p.owners);
    if Decide(m, p) == Take {
      Adopted(p.owners, m.uid);
    } else if Decide(m, p) == Drop {
      Released(p.owners, m.uid);
    }
  }

  lemma {:induction false} QuietPass(m: Manager, w: World, list: seq<Pod>)
    requires forall i :: 0 <= i < |list| ==> Decide(m, list[i]) == Keep || Decide(m, list[i]) == Ignore
    ensures ClaimAll(m, w, list) == (w, OwnedOf(m, list), [])
  {
    if list != [] { QuietPass(m, w, list[..|list| - 1]); }
  }

  lemma OneActs(m: Manager, w: World, p: Pod)
    ensures |ClaimOne(m, w, p).0.log| >= |w.log|
    ensures Decide(m, p) == Take || Decide(m, p) == Drop ==>
              |ClaimOne(m, w, p).0.log| > |w.log| || ClaimOne(m, w, p).2.Some?
  {
  }

  /** A pod to take or drop shows: a patch is sent, or there is an error. */
  lemma {:induction false} RestlessPass(m: Manager, w: World, list: seq<Pod>)
    ensures |ClaimAll(m, w, list).0.log| >= |w.log|
    ensures (exists i :: 0 <= i < |list| && (Decide(m, list[i]) == Take || Decide(m, list[i]) == Drop)) ==>
              |ClaimAll(m, w, list).0.log| > |w.log| || ClaimAll(m, w, list).2 != []
  {
    if list != [] {
      var n := |list| - 1;
      var front := list[..n];
      RestlessPass(m, w, front);
      OneActs(m, ClaimAll(m, w, front).0, list[n]);
      assert forall i :: 0 <= i < n ==> list[i] == front[i];
    }
  }

  lemma {:induction false} OwnedAfters(m: Manager, list: seq<Pod>)
    requires forall i :: 0 <= i < |list| ==> (Owned(m, After(m, list[i])) <==> Owned(m, list[i]))
    ensures OwnedOf(m, Afters(m, list)) == Afters(m, OwnedOf(m, list))
  {
    if list != [] {
      var n := |list| - 1;
      OwnedAfters(m, list[..n]);
      assert Afters(m, list)[..n] == Afters(m, list[..n]);
    }
  }

  lemma {:induction false} SameOwned(m: Manager, m2: Manager, list: seq<Pod>)
    requires m2.uid == m.uid && m2.deleting == m.deleting && m2.match_ == m.match_
    ensures OwnedOf(m2, list) == OwnedOf(m, list)
  {
    if list != [] { SameOwned(m, m2, list[..|list| - 1]); }
  }

  /** The pods of the second pass are those of the first, patched. */
  lemma PatchedList(m: Manager, w: World, list: seq<Pod>, list2: seq<Pod>)
    requires ServerValid(w.pods) && Fresh(w.pods, list) && ClaimAll(m, w, list).2 == []
    requires Fresh(ClaimAll(m, w, list).0.pods, list2)
    requires |list2| == |list| && forall i :: 0 <= i < |list| ==> list2[i].name == list[i].name
    ensures list2 == Afters(m, list)
  {
    FirstPass(m, w, list);
    forall i | 0 <= i < |list| ensures list2[i] == After(m, list[i]) {
      UpdatedAt(m, w.pods, list, i);
    }
  }

  lemma SettledPass(m: Manager, m2: Manager, w2: World, list: seq<Pod>)
    requires m2.uid == m.uid && m2.deleting == m.deleting && m2.match_ == m.match_
    requires forall i :: 0 <= i < |list| ==> OneController(list[i].owners)
    ensures ClaimAll(m2, w2, Afters(m, list)) == (w2, Afters(m, OwnedOf(m, list)), []) <==>
            forall i :: 0 <= i < |list| ==> Settles(m, list[i])
  {
    var list2 := Afters(m, list);
    if forall i :: 0 <= i < |list| ==> Settles(m, list[i]) {
      forall i | 0 <= i < |list| ensures Quiet(m, list[i]) {
        SettledIsQuiet(m, list[i]);
      }
      OwnedAfters(m, list);
      QuietPass(m2, w2, list2);
      SameOwned(m, m2, list2);
    } else {
      var i :| 0 <= i < |list| && !Settles(m, list[i]);
      UnsettledActs(m, list[i]);
      assert Decide(m2, list2[i]) == Decide(m, list2[i]);
      RestlessPass(m2, w2, list2);
    }
  }

  /** After a pass over fresh copies that met no error, a second pass over the patched pods, by this manager or a new
      one for the same controller, claims the same pods, sends no patch, asks nothing and meets no error, if and only if
      the patches of the first pass settle their pods. */
  lemma SecondPass(m: Manager, w: World, list: seq<Pod>, m2: Manager, w2: World, list2: seq<Pod>)
    requires ServerValid(w.pods) && Fresh(w.pods, list) && ClaimAll(m, w, list).2 == []
    requires m2.uid == m.uid && m2.deleting == m.deleting && m2.match_ == m.match_
    requires w2.pods == ClaimAll(m, w, list).0.pods && Fresh(w2.pods, list2)
    requires |list2| == |list| && forall i :: 0 <= i < |list| ==> list2[i].name == list[i].name
    ensures ClaimAll(m2, w2, list2) == (w2, Afters(m, ClaimAll(m, w, list).1), []) <==>
            forall i :: 0 <= i < |list| ==> Settles(m, list[i])
  {
    FirstPass(m, w, list);
    PatchedList(m, w, list, list2);
    SettledPass(m, m2, w2, list);
  }

  lemma UnsettledActs(m: Manager, p: Pod)
    requires OneController(p.owners) && !Settles(m, p)
    ensures Decide(m, After(m, p)) == Take || Decide(m, After(m, p)) == Drop
  {
    ControllerListed(p.owners);
    if Decide(m, p) == Take {
      Adopted(p.owners, m.uid);
    } else {
      Released(p.owners, m.uid);
    }
  }

  /** Selectors and filters that do not look at owner references always settle. */
  lemma OwnerBlindSettles(m: Manager, p: Pod)
    requires m.match_(After(m, p)) == m.match_(p)
    ensures Settles(m, p)
  {
  }

  /** A controller that may adopt, whose patches arrive, and whose filter wants pods without owners. */
  ghost predicate WantsOrphans(m: Manager) {
    && !m.deleting && m.canAdopt == None
    && (forall n :: !m.faults(n))
    && (forall p: Pod :: m.match_(p) <==> p.owners == [])
  }

  lemma ClaimJust(m: Manager, w: World, p: Pod)
    ensures ClaimAll(m, w, [p]) ==
            var (w', ok, err) := ClaimOne(m, w, p);
            (w', if ok && err == None then [p] else [], if err == None then [] else [err.value])
  {
    assert [p][..0] == [] && [] + [p] == [p];
    var err := ClaimOne(m, w, p).2;
    if err.Some? { assert [] + [err.value] == [err.value]; }
  }

  /** The pod on its server, before and after. */
  function OneOrphan(p: Pod): World {
    World(map[p.name := p], [], Memo(false, None, 0))
  }

  function OneAdopted(uid: Uid, p: Pod): World {
    World(map[p.name := p.(owners := [OwnerRef(uid, true)])], [Adopt(p.name, p.uid, uid)], Memo(true, None, 0))
  }

  lemma OrphanTaken(m: Manager, p: Pod)
    requires WantsOrphans(m) && p.owners == [] && !p.deleting
    ensures Decide(m, p) == Take && After(m, p) == p.(owners := [OwnerRef(m.uid, true)])
    ensures ClaimOne(m, OneOrphan(p), p) == (OneAdopted(m.uid, p), true, None)
  {
    var owners := AddRef(p.owners, m.uid);
    assert OneOrphan(p).pods[p.name := p.(owners := owners)] == OneAdopted(m.uid, p).pods;
    assert [] + [Adopt(p.name, p.uid, m.uid)] == [Adopt(p.name, p.uid, m.uid)];
  }

  lemma AdoptedDropped(m: Manager, p: Pod)
    requires WantsOrphans(m) && p.owners == []
    ensures var q := p.(owners := [OwnerRef(m.uid, true)]);
            ClaimOne(m, OneAdopted(m.uid, p), q) ==
            (World(map[p.name := p], [Adopt(p.name, p.uid, m.uid), Release(p.name, p.uid, m.uid)], Memo(true, None, 0)),
             false, None)
  {
    var q := p.(owners := [OwnerRef(m.uid, true)]);
    var w := OneAdopted(m.uid, p);
    assert Decide(m, q) == Drop;
    assert q.owners[1..] == [] && Foreign(q.owners, m.uid) == [];
    assert q.(owners := []) == p;
    assert w.pods[p.name := p] == map[p.name := p];
    assert w.log + [Release(p.name, p.uid, m.uid)] == [Adopt(p.name, p.uid, m.uid), Release(p.name, p.uid, m.uid)];
  }

  /** Such a filter does not settle.  The orphan is adopted and claimed; the second pass, over what the first one left,
      releases it again and claims nothing. */
  lemma OrphanFilterFlaps(m: Manager, p: Pod)
    requires WantsOrphans(m) && p.owners == [] && !p.deleting
    ensures ServerValid(OneOrphan(p).pods) && Fresh(OneOrphan(p).pods, [p]) && !Settles(m, p)
    ensures var (w, claimed, errs) := ClaimAll(m, OneOrphan(p), [p]);
            && claimed == [p] && errs == [] && p.name in w.pods
            && var (w2, claimed2, errs2) := ClaimAll(m, w, [w.pods[p.name]]);
               claimed2 == [] && errs2 == [] && w2.log == w.log + [Release(p.name, p.uid, m.uid)] &&
               w2.pods == OneOrphan(p).pods
  {
    OrphanTaken(m, p);
    ClaimJust(m, OneOrphan(p), p);
    AdoptedDropped(m, p);
    ClaimJust(m, OneAdopted(m.uid, p), p.(owners := [OwnerRef(m.uid, true)]));
  }

  // ------------------------------------------------------------------ the code

  /** The selector on the labels, then every filter. */
  function MatchOf(selector: map<string, string> -> bool, filters: seq<Pod -> bool>): Pod -> bool {
    (p: Pod) => selector(p.labels) && forall i :: 0 <= i < |filters| ==> filters[i](p)
  }

  class ApiServer {
    var pods: map<string, Pod>
    var log: seq<Patch>
    const faults: nat -> bool

    constructor (pods: map<string, Pod>, faults: nat -> bool)
      ensures this.pods == pods && log == [] && this.faults == faults
    {
      this.pods, log, this.faults := pods, [], faults;
    }

    method PatchPod(patch: Patch) returns (err: Option<Error>)
      modifies this
      ensures log == old(log) + [patch]
      ensures err == if faults(|old(log)|) then Some(Transient) else Outcome(old(pods), patch).0
      ensures err.Some? ==> pods == old(pods)
      ensures err == None ==>
                patch.name in old(pods) &&
                pods == old(pods)[patch.name := old(pods)[patch.name].(owners := Outcome(old(pods), patch).1)]
    {
      var (refused, owners) := Outcome(pods, patch);
      err := if faults(|log|) then Some(Transient) else refused;
      log := log + [patch];
      if err == None { pods := pods[patch.name := pods[patch.name].(owners := owners)]; }
    }
  }

  class PodControllerRefManager {
    const uid: Uid
    const deleting: bool
    const selector: map<string, string> -> bool
    const canAdoptFunc: CanAdoptFunc
    const server: ApiServer
    var asked: bool
    var canAdoptErr: Option<Error>
    var calls: nat

    ghost function View(): World
      reads this, server
    {
      World(server.pods, server.log, Memo(asked, canAdoptErr, calls))
    }

    ghost function Settings(filters: seq<Pod -> bool>): Manager {
      Manager(uid, deleting, MatchOf(selector, filters), server.faults, canAdoptFunc)
    }

    constructor (uid: Uid, deleting: bool, selector: map<string, string> -> bool,
                 canAdoptFunc: CanAdoptFunc, server: ApiServer)
      ensures View() == World(server.pods, server.log, Memo(false, None, 0)) && this.server == server
      ensures Settings([]) == Manager(uid, deleting, MatchOf(selector, []), server.faults, canAdoptFunc)
    {
      this.uid, this.deleting, this.selector, this.canAdoptFunc := uid, deleting, selector, canAdoptFunc;
      this.server, asked, canAdoptErr, calls := server, false, None, 0;
    }

    method CanAdopt() returns (err: Option<Error>)
      modifies this
      ensures View() == old(View()).(memo := Asked(Settings([]), old(View()).memo)) && err == canAdoptErr
    {
      if !asked {
        asked := true;
        if canAdoptFunc.Some? {
          canAdoptErr := canAdoptFunc.value(calls);
          calls := calls + 1;
        }
      }
      err := canAdoptErr;
    }

    method Match(filters: seq<Pod -> bool>, p: Pod) returns (ok: bool)
      ensures ok == MatchOf(selector, filters)(p)
    {
      if !selector(p.labels) { return false; }
      for i := 0 to |filters|
        invariant forall j :: 0 <= j < i ==> filters[j](p)
      {
        if !filters[i](p) { return false; }
      }
      return true;
    }

    method GetControllerOf(p: Pod) returns (owner: Option<Uid>)
      ensures owner == ControllerOf(p.owners)
    {
      for i := 0 to |p.owners|
        invariant ControllerOf(p.owners) == ControllerOf(p.owners[i..])
      {
        if p.owners[i].controller { return Some(p.owners[i].uid); }
      }
      return None;
    }

    method AdoptPod(p: Pod) returns (err: Option<Error>)
      modifies this, server
      ensures var asked := old(View()).(memo := Asked(Settings([]), old(View()).memo));
              if asked.memo.err.Some? then View() == asked && err == Some(CannotAdopt(asked.memo.err.value))
              else (View(), err) == SendPatch(Settings([]), asked, Adopt(p.name, p.uid, uid))
    {
      var refused := CanAdopt();
      if refused.Some? { return Some(CannotAdopt(refused.value)); }
      err := server.PatchPod(Adopt(p.name, p.uid, uid));
    }

    method ReleasePod(p: Pod) returns (err: Option<Error>)
      modifies server
      ensures var (w, refused) := SendPatch(Settings([]), old(View()), Release(p.name, p.uid, uid));
              View() == w && err == if refused == Some(NotFound) || refused == Some(Invalid) then None else refused
    {
      err := server.PatchPod(Release(p.name, p.uid, uid));
      if err.Some? && (err.value.NotFound? || err.value.Invalid?) { return None; }
    }

    method ClaimObject(p: Pod, filters: seq<Pod -> bool>) returns (ok: bool, err: Option<Error>)
      modifies this, server
      ensures (View(), ok, err) == ClaimOne(Settings(filters), old(View()), p)
    {
      var owner := GetControllerOf(p);
      if owner.Some? {
        if owner.value != uid { return false, None; }
        var matches := Match(filters, p);
        if matches { return true, None; }
        if deleting { return false, None; }
        err := ReleasePod(p);
        if err.Some? && err.value.NotFound? { return false, None; }
        return false, err;
      }
      var matches := Match(filters, p);
      if deleting || !matches { return false, None; }
      if p.deleting { return false, None; }
      err := AdoptPod(p);
      if err.Some? {
        if err.value.NotFound? { return false, None; }
        return false, err;
      }
      return true, None;
    }

    method ClaimPods(pods: seq<Pod>, filters: seq<Pod -> bool>) returns (claimed: seq<Pod>, errs: seq<Error>)
      modifies this, server
      ensures (View(), claimed, errs) == ClaimAll(Settings(filters), old(View()), pods)
    {
      claimed, errs := [], [];
      for i := 0 to |pods|
        invariant (View(), claimed, errs) == ClaimAll(Settings(filters), old(View()), pods[..i])
      {
        assert pods[..i + 1][..i] == pods[..i];
        var ok, err := ClaimObject(pods[i], filters);
        if err.Some? {
          errs := errs + [err.value];
          continue;
        }
        if ok { claimed := claimed + [pods[i]]; }
      }
      assert pods[..|pods|] == pods;
    }
  }
}
