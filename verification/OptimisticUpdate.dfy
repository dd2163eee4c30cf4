/** Writes under optimistic concurrency: updateRcWithRetries (pkg/kubectl/rolling_updater.go) and the scaler
    (pkg/kubectl/scale.go), against a server that accepts an update only at the stored version. */
module OptimisticUpdate {
  import opened Options

  /** An API object as a client holds it. */
  datatype Object<+T> = Object(version: nat, body: T)

  datatype Error = Conflict | NotFound | PreconditionFailed | TimedOut | Other

  datatype Result<+T> = Ok(value: T) | Err(error: Error)

  /** What else happens around one call: the writes of others that reach the server before it (None deletes), and
      whether the call fails for other reasons, before or after the server has acted. */
  datatype Fault = NoFault | LostRequest | LostReply

  datatype Around<+T> = Around(others: seq<Option<T>>, fault: Fault)

  /** Nobody else writes before the call, and it does not fail. */
  predicate Calm<T>(around: Around<T>) {
    |around.others| == 0 && around.fault.NoFault?
  }

  /** Nobody deletes the object. */
  predicate Spares<T>(around: Around<T>) {
    forall n :: 0 <= n < |around.others| ==> around.others[n].Some?
  }

  /** One of this client's accepted writes. */
  datatype Write<+T> = Write(before: Object<T>, after: Object<T>)

  /** Versions keep their bodies. */
  ghost predicate Extends<T>(before: map<nat, T>, after: map<nat, T>) {
    forall v :: v in before ==> v in after && after[v] == before[v]
  }

  class Server<T(!new)> {
    var stored: Option<Object<T>>
    var latest: nat
    ghost var history: map<nat, T>
    ghost var mine: seq<Write<T>>

    /** Versions are handed out once, so a version determines a body. */
    ghost predicate Valid()
      reads this
    {
      && (forall v :: v in history ==> v <= latest)
      && (stored.Some? ==> stored.value.version in history && history[stored.value.version] == stored.value.body)
    }

    /** The object is exactly what the server stored under its version. */
    ghost predicate Genuine(o: Object<T>)
      reads this
    {
      o.version in history && history[o.version] == o.body
    }

    /** The version has been superseded and will never be stored again. */
    ghost predicate Stale(v: nat)
      reads this
    {
      v <= latest && !(stored.Some? && stored.value.version == v)
    }

    constructor (body: T)
      ensures Valid() && mine == [] && stored == Some(Object(1, body))
    {
      stored, latest := Some(Object(1, body)), 1;
      history, mine := map[1 := body], [];
    }

    method Put(body: T)
      requires Valid()
      modifies this
      ensures Valid() && latest == old(latest) + 1 && stored == Some(Object(latest, body))
      ensures history == old(history)[latest := body] && mine == old(mine)
    {
      latest := latest + 1;
      history := history[latest := body];
      stored := Some(Object(latest, body));
    }

    /** The others write.  Whatever is stored afterwards is new, or nothing has changed. */
    method Interfere(others: seq<Option<T>>)
      requires Valid()
      modifies this
      ensures Valid() && latest >= old(latest) && mine == old(mine)
      ensures Extends(old(history), history)
      ensures stored.Some? ==> stored.value.version > old(latest) || stored == old(stored)
      ensures |others| == 0 ==> stored == old(stored) && latest == old(latest)
      ensures old(stored).Some? && (forall n :: 0 <= n < |others| ==> others[n].Some?) ==> stored.Some?
    {
      for n := 0 to |others|
        invariant Valid() && latest >= old(latest) && mine == old(mine)
        invariant Extends(old(history), history)
        invariant stored.Some? ==> stored.value.version > old(latest) || stored == old(stored)
        invariant n == 0 ==> stored == old(stored) && latest == old(latest)
        invariant old(stored).Some? && (forall n :: 0 <= n < |others| ==> others[n].Some?) ==> stored.Some?
      {
        if others[n].Some? { Put(others[n].value); } else { stored := None; }
      }
    }

    method Get(around: Around<T>) returns (r: Result<Object<T>>)
      requires Valid()
      modifies this
      ensures Valid() && latest >= old(latest) && mine == old(mine)
      ensures r == if !around.fault.NoFault? then Err(Other)
                   else if stored.None? then Err(NotFound) else Ok(stored.value)
      ensures old(stored).Some? && Spares(around) ==> stored.Some?
      ensures |around.others| == 0 ==> stored == old(stored)
      ensures Extends(old(history), history)
      ensures forall v :: old(Stale(v)) ==> Stale(v)
    {
      Interfere(around.others);
      if around.fault != NoFault { return Err(Other); }
      if stored.None? { return Err(NotFound); }
      r := Ok(stored.value);
    }

    /** Replaces the stored object, if the version still is the stored one. */
    method Update(o: Object<T>, around: Around<T>) returns (r: Result<Object<T>>)
      requires Valid() && o.version <= latest
      modifies this
      ensures Valid() && latest >= old(latest)
      ensures Extends(old(history), history)
      ensures forall v :: old(Stale(v)) ==> Stale(v)
      ensures r == Err(Conflict) ==> Stale(o.version)
      ensures old(Stale(o.version)) ==> r.Err?
      ensures mine == old(mine) ||
              (&& !old(Stale(o.version)) && o.version in history
               && mine == old(mine) + [Write(Object(o.version, history[o.version]), Object(latest, o.body))]
               && stored == Some(Object(latest, o.body)))
      ensures r.Ok? ==> mine != old(mine) && stored == Some(r.value) && r.value == Object(latest, o.body)
      ensures mine != old(mine) ==> r.Ok? || r == Err(Other)
      ensures old(stored).Some? && Spares(around) ==> stored.Some?
      ensures around.fault.NoFault? && r.Err? ==> r == Err(if stored.Some? then Conflict else NotFound)
      ensures Calm(around) && old(stored).Some? && old(stored.value.version) == o.version ==> r.Ok?
    {
      Interfere(around.others);
      if around.fault == LostRequest { return Err(Other); }
      if stored.None? { return Err(NotFound); }
      if stored.value.version != o.version { return Err(Conflict); }
      ghost var before := stored.value;
      Put(o.body);
      mine := mine + [Write(before, Object(latest, o.body))];
      if around.fault == LostReply { return Err(Other); }
      r := Ok(stored.value);
    }
  }

  // ------------------------------------------------------------------ updateRcWithRetries

  /** Steps of retry.DefaultBackoff. */
  const STEPS: nat := 4

  /** The calls around each attempt: the update, and the read after it failed. */
  datatype Attempt<+T> = Attempt(update: Around<T>, get: Around<T>)

  /** The update was applied to what was stored immediately before; only if that still is what the caller brought along
      does the caller's own copy count, with whatever the caller had changed in it. */
  ghost predicate AppliedTo<T>(w: Write<T>, rc: Object<T>, apply: T -> T) {
    w.after.body == apply(if w.before.version == rc.version then rc.body else w.before.body)
  }

  /** From attempt `k` on the client is alone with the server: up to then no update fails for other reasons than a
      conflict and nobody deletes the object, the last read succeeds, and the update of attempt `k` is undisturbed. */
  ghost predicate ClearAt<T>(attempts: seq<Attempt<T>>, k: nat) {
    && k < |attempts| && Calm(attempts[k].update)
    && (forall i :: 0 <= i < k ==>
          attempts[i].update.fault.NoFault? && Spares(attempts[i].update) && Spares(attempts[i].get))
    && (k > 0 ==> attempts[k - 1].get.fault.NoFault?)
  }

  /** It takes no more attempts than are made, and if it takes only one the caller's copy is up to date. */
  ghost predicate ClearsInTime<T>(attempts: seq<Attempt<T>>, upToDate: bool) {
    exists k: nat :: k < STEPS && ClearAt(attempts, k) && (k > 0 || upToDate)
  }

  /** `applyUpdate` runs in place on the local copy, which after a failed read is the saved copy itself, so a later
      attempt may apply it twice; such a copy carries a version that was refused already. */
  method UpdateRcWithRetries<T(!new)>(server: Server<T>, rc: Object<T>, apply: T -> T, attempts: seq<Attempt<T>>)
    returns (r: Result<Object<T>>)
    requires server.Valid() && rc.version <= server.latest && |attempts| >= STEPS
    modifies server
    ensures server.Valid()
    ensures server.mine == old(server.mine) ||
            (&& |server.mine| == |old(server.mine)| + 1 && server.mine[..|old(server.mine)|] == old(server.mine)
             && AppliedTo(server.mine[|old(server.mine)|], rc, apply)
             && (old(server.Genuine(rc)) ==>
                   server.mine[|old(server.mine)|].after.body == apply(server.mine[|old(server.mine)|].before.body)))
    ensures r.Ok? ==>
              && server.mine != old(server.mine)
              && r.value == server.mine[|old(server.mine)|].after && server.stored == Some(r.value)
    ensures r.Err? && server.mine != old(server.mine) ==> r.error == Other
    ensures old(server.stored).Some? && ClearsInTime(attempts, old(server.stored.value.version) == rc.version) ==> r.Ok?
  {
    ghost var k: nat := STEPS;
    if server.stored.Some? && ClearsInTime(attempts, server.stored.value.version == rc.version) {
      k :| k < STEPS && ClearAt(attempts, k) && (k > 0 || server.stored.value.version == rc.version);
    }
    var saved, local := rc, rc;
    var aliased := false;
    for i := 0 to STEPS
      invariant server.Valid() && server.mine == old(server.mine)
      invariant local.version <= server.latest && saved.version <= server.latest
      invariant i > 0 ==> server.Genuine(local) || server.Stale(local.version)
      invariant Extends(old(server.history), server.history)
      invariant saved.version == rc.version && (i > 0 ==> server.Stale(saved.version))
      invariant i == 0 ==> local == rc && !aliased
      invariant aliased ==> local == saved
      invariant k < STEPS ==> i <= k && server.stored.Some?
      invariant k < STEPS && i == k ==> server.stored.value.version == local.version
    {
      local := local.(body := apply(local.body));
      if aliased { saved := local; }
      var updated := server.Update(local, attempts[i].update);
      if updated.Ok? { return updated; }
      var latest := server.Get(attempts[i].get);
      aliased := latest.Err?;
      local := if latest.Ok? then latest.value else saved;
      if updated.error != Conflict { return Err(updated.error); }
    }
    r := Err(Conflict);
  }

  // ------------------------------------------------------------------ the scaler

  /** autoscaling Scale: the replica counts of the spec and of the status, and everything else in the object. */
  datatype Scale = Scale(replicas: int, status: int, rest: string)

  /** ScalePrecondition; a size of -1 and an empty resource version are not checked. */
  datatype Precondition = Precondition(size: int, resourceVersion: Option<nat>)

  /** validate: the error it would return, if any. */
  function Validate(pre: Precondition, o: Object<Scale>): (e: Option<Error>)
    ensures e.None? <==> Meets(pre, o)
  {
    if pre.size != -1 && o.body.replicas != pre.size then Some(PreconditionFailed)
    else if pre.resourceVersion.Some? && o.version != pre.resourceVersion.value then Some(PreconditionFailed)
    else None
  }

  ghost predicate Meets(pre: Precondition, o: Object<Scale>) {
    (pre.size == -1 || pre.size == o.body.replicas) &&
    (pre.resourceVersion == None || pre.resourceVersion == Some(o.version))
  }

  ghost predicate Unmet(pre: Option<Precondition>, o: Object<Scale>) {
    pre.Some? && !Meets(pre.value, o)
  }

  const TWO_32: int := 0x1_0000_0000

  /** Go's int32 of a uint. */
  function Int32(n: nat): (r: int)
    ensures -0x8000_0000 <= r < 0x8000_0000 && (n - r) % TWO_32 == 0
  {
    var low := n % TWO_32;
    if low < 0x8000_0000 then low else low - TWO_32
  }

  /** The write replaced an object that met the precondition and changed only its replica count. */
  ghost predicate ScaledOnly(w: Write<Scale>, pre: Option<Precondition>, newSize: nat) {
    (pre.Some? ==> Meets(pre.value, w.before)) && w.after.body == w.before.body.(replicas := Int32(newSize))
  }

  method ScaleSimple(server: Server<Scale>, pre: Option<Precondition>, newSize: nat,
                     get: Around<Scale>, update: Around<Scale>)
    returns (r: Result<nat>)
    requires server.Valid()
    modifies server
    ensures server.Valid()
    ensures server.mine == old(server.mine) ||
            (&& |server.mine| == |old(server.mine)| + 1 && server.mine[..|old(server.mine)|] == old(server.mine)
             && ScaledOnly(server.mine[|old(server.mine)|], pre, newSize) && (r.Ok? || r == Err(Other)))
    ensures r.Ok? ==> server.mine != old(server.mine) && r.value == server.mine[|old(server.mine)|].after.version
    ensures old(server.stored).Some? && Spares(get) && Spares(update) ==> server.stored.Some?
    ensures get.fault.NoFault? && update.fault.NoFault? && r.Err? && server.stored.Some? ==>
              r == Err(Conflict) || (r == Err(PreconditionFailed) && Unmet(pre, server.stored.value))
    ensures get.fault.NoFault? && Calm(update) && server.stored.Some? ==> r != Err(Conflict)
  {
    var scale := server.Get(get);
    if scale.Err? { return Err(scale.error); }
    if pre.Some? {
      var e := Validate(pre.value, scale.value);
      if e.Some? { return Err(e.value); }
    }
    var wanted := scale.value.(body := scale.value.body.(replicas := Int32(newSize)));
    var updated := server.Update(wanted, update);
    if updated.Err? { return Err(updated.error); }
    r := Ok(updated.value.version);
  }

  /** Someone else has set another size, or the status has reached this one. */
  predicate Reached(scale: Scale, size: int) {
    scale.replicas != size || scale.status == size
  }

  /** WaitForScaleHasDesiredReplicas; `polls` are those that fit before the time-out, and `seen` is what they read.  It
      only reads, and succeeds with the first poll that sees the size reached. */
  method WaitForScale(server: Server<Scale>, newSize: nat, polls: seq<Around<Scale>>)
    returns (r: Result<()>, ghost seen: seq<Scale>)
    requires server.Valid()
    modifies server
    ensures server.Valid() && server.mine == old(server.mine)
    ensures r.Ok? ==> server.stored.Some? && Reached(server.stored.value.body, Int32(newSize))
    ensures |seen| <= |polls| && forall i :: 0 <= i < |seen| ==>
              (Reached(seen[i], Int32(newSize)) <==> r.Ok? && i == |seen| - 1)
    ensures r == Err(TimedOut) ==> |seen| == |polls|
    ensures r.Err? && r != Err(TimedOut) ==>
              |seen| < |polls| && (r == Err(NotFound) || !polls[|seen|].fault.NoFault?)
  {
    seen := [];
    for i := 0 to |polls|
      invariant server.Valid() && server.mine == old(server.mine)
      invariant |seen| == i && forall j :: 0 <= j < i ==> !Reached(seen[j], Int32(newSize))
    {
      var actual := server.Get(polls[i]);
      if actual.Err? { return Err(actual.error), seen; }
      seen := seen + [actual.value.body];
      if actual.value.body.replicas != Int32(newSize) { return Ok(()), seen; }
      if actual.value.body.replicas == actual.value.body.status && Int32(newSize) == actual.value.body.status {
        return Ok(()), seen;
      }
    }
    r := Err(TimedOut);
  }

  /** From try `k` on the client is alone with the server, and up to then nothing fails but for conflicts. */
  ghost predicate TryClear(tries: seq<Attempt<Scale>>, k: nat) {
    && k < |tries| && Calm(tries[k].update)
    && forall i :: 0 <= i <= k ==>
         && tries[i].get.fault.NoFault? && Spares(tries[i].get)
         && tries[i].update.fault.NoFault? && Spares(tries[i].update)
  }

  /** Scale; `tries` are the polls that fit before the time-out, `waiting` those of the wait that may follow. */
  method ScaleWithRetries(server: Server<Scale>, pre: Option<Precondition>, newSize: nat, tries: seq<Attempt<Scale>>,
                          waiting: Option<seq<Around<Scale>>>)
    returns (r: Result<()>)
    requires server.Valid()
    modifies server
    ensures server.Valid()
    ensures server.mine == old(server.mine) ||
            (&& |server.mine| == |old(server.mine)| + 1 && server.mine[..|old(server.mine)|] == old(server.mine)
             && ScaledOnly(server.mine[|old(server.mine)|], pre, newSize)
             && (waiting.None? ==> r.Ok? || r == Err(Other)))
    ensures r.Ok? ==> server.mine != old(server.mine)
    ensures r.Ok? && waiting.Some? ==> server.stored.Some? && Reached(server.stored.value.body, Int32(newSize))
    ensures old(server.stored).Some? && (exists k :: TryClear(tries, k)) ==>
              server.mine != old(server.mine) ||
              (r == Err(PreconditionFailed) && server.stored.Some? && Unmet(pre, server.stored.value))
  {
    ghost var k: nat := |tries|;
    if server.stored.Some? && exists k :: TryClear(tries, k) { k :| TryClear(tries, k); }
    var checked := if pre.None? then Precondition(-1, None) else pre.value;
    for i := 0 to |tries|
      invariant server.Valid() && server.mine == old(server.mine)
      invariant k < |tries| ==> i <= k && server.stored.Some?
    {
      var once := ScaleSimple(server, Some(checked), newSize, tries[i].get, tries[i].update);
      if once.Ok? {
        if waiting.None? { return Ok(()); }
        ghost var seen;
        r, seen := WaitForScale(server, newSize, waiting.value);
        return;
      }
      if once.error != Conflict { return Err(once.error); }
    }
    r := Err(TimedOut);
  }
}
