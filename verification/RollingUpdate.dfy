/** kubectl's rolling update loop (pkg/kubectl/rolling_updater.go).  Counts are unbounded, and a scale request is
    honoured or fails. */
module RollingUpdate {

  /** The resolved settings of one update. */
  datatype Config = Config(desired: nat, maxSurge: nat, maxUnavailable: nat)

  /** Replica counts of the old and the new controller. */
  datatype Counts = Counts(old_: nat, new_: nat)

  function Min(a: int, b: int): int { if a < b then a else b }

  function Max(a: int, b: int): int { if a < b then b else a }

  /** Update refuses a configuration that could not make progress. */
  predicate Accepted(cfg: Config) {
    cfg.desired == 0 || cfg.maxUnavailable > 0 || cfg.maxSurge > 0
  }

  function MinAvailable(cfg: Config): nat {
    Max(0, cfg.desired - cfg.maxUnavailable)
  }

  /** scaleUp: the new controller's next replica count. */
  function Up(cfg: Config, c: Counts): nat {
    if c.new_ == cfg.desired then c.new_
    else
      var increment := if c.old_ == 0 then cfg.desired - c.new_ else cfg.desired + cfg.maxSurge - (c.old_ + c.new_);
      if increment <= 0 then c.new_ else Min(c.new_ + increment, cfg.desired)
  }

  /** scaleDown: the old controller's next replica count when `available` new pods are available. */
  function Down(cfg: Config, c: Counts, available: nat): nat {
    if c.old_ == 0 then 0
    else
      var decrement := (c.old_ + c.new_) - MinAvailable(cfg) - (c.new_ - available);
      if decrement <= 0 then c.old_
      else if c.new_ == cfg.desired && available == cfg.desired then 0
      else Max(0, c.old_ - decrement)
  }

  predicate Finished(cfg: Config, c: Counts) {
    c.new_ == cfg.desired && c.old_ == 0
  }

  // ------------------------------------------------------------------ what one scaling does

  /** scaleUp never exceeds the target or the surge limit, and goes as far as they allow. */
  lemma UpIsGreatest(cfg: Config, c: Counts, n: nat)
    requires c.new_ <= cfg.desired
    ensures c.new_ <= Up(cfg, c) <= cfg.desired
    ensures c.old_ + Up(cfg, c) <= Max(c.old_ + c.new_, cfg.desired + cfg.maxSurge)
    ensures c.new_ < n <= cfg.desired && (c.old_ == 0 || c.old_ + n <= cfg.desired + cfg.maxSurge) ==> n <= Up(cfg, c)
  {
  }

  /** scaleDown keeps all but `maxUnavailable` of the desired pods available, counting old replicas and available new
      pods, if they were so many; goes down as far as that allows; and does nothing when they already are fewer. */
  lemma DownIsLeast(cfg: Config, c: Counts, available: nat, n: nat)
    ensures Down(cfg, c, available) <= c.old_
    ensures c.old_ + available >= cfg.desired - cfg.maxUnavailable ==>
              Down(cfg, c, available) + available >= cfg.desired - cfg.maxUnavailable
    ensures c.old_ + available < cfg.desired - cfg.maxUnavailable ==> Down(cfg, c, available) == c.old_
    ensures Min(c.old_, n) + available >= cfg.desired - cfg.maxUnavailable ==> Down(cfg, c, available) <= n
  {
  }

  // ------------------------------------------------------------------ safety over whole runs

  datatype Step = ScaleUp | ScaleDown(available: nat)

  function Next(cfg: Config, c: Counts, step: Step): Counts {
    match step
    case ScaleUp => c.(new_ := Up(cfg, c))
    case ScaleDown(available) => c.(old_ := Down(cfg, c, available))
  }

  function After(cfg: Config, c: Counts, steps: seq<Step>): Counts {
    if steps == [] then c else Next(cfg, After(cfg, c, steps[..|steps| - 1]), steps[|steps| - 1])
  }

  lemma AfterOne(cfg: Config, c: Counts, steps: seq<Step>, step: Step)
    ensures After(cfg, c, steps + [step]) == Next(cfg, After(cfg, c, steps), step)
  {
    assert (steps + [step])[..|steps|] == steps;
  }

  /** At every point of any run, whatever pods become available when: the new controller stays within its target, the
      old one only shrinks, and the total stays within the larger of where it started and the surge limit. */
  lemma {:induction false} RunIsSafe(cfg: Config, start: Counts, steps: seq<Step>)
    requires start.new_ <= cfg.desired
    ensures var c := After(cfg, start, steps);
            && start.new_ <= c.new_ <= cfg.desired
            && c.old_ <= start.old_
            && c.old_ + c.new_ <= Max(start.old_ + start.new_, cfg.desired + cfg.maxSurge)
  {
    if steps != [] {
      var init, last := steps[..|steps| - 1], steps[|steps| - 1];
      RunIsSafe(cfg, start, init);
      var c := After(cfg, start, init);
      match last
      case ScaleUp => UpIsGreatest(cfg, c, 0);
      case ScaleDown(available) => DownIsLeast(cfg, c, available, 0);
    }
  }

  /** In a resumed update whose new controller starts above its target, the same bound on the total holds. */
  lemma {:induction false} TotalIsBounded(cfg: Config, start: Counts, steps: seq<Step>)
    ensures var c := After(cfg, start, steps);
            && c.new_ <= Max(start.new_, cfg.desired)
            && c.old_ <= start.old_
            && c.old_ + c.new_ <= Max(start.old_ + start.new_, cfg.desired + cfg.maxSurge)
  {
    if steps != [] {
      var init, last := steps[..|steps| - 1], steps[|steps| - 1];
      TotalIsBounded(cfg, start, init);
      if last.ScaleDown? { DownIsLeast(cfg, After(cfg, start, init), last.available, 0); }
    }
  }

  // ------------------------------------------------------------------ availability over whole runs

  /** No scale-down of any run takes the pods it counts below all but `maxUnavailable` of the desired ones; where they
      are fewer already it removes none. */
  lemma NeverUnderByScaling(cfg: Config, start: Counts, steps: seq<Step>, available: nat)
    ensures var before := After(cfg, start, steps);
            var after := After(cfg, start, steps + [ScaleDown(available)]);
            && after.old_ + available >= Min(before.old_ + available, cfg.desired - cfg.maxUnavailable)
            && after.old_ <= before.old_
  {
    AfterOne(cfg, start, steps, ScaleDown(available));
    DownIsLeast(cfg, After(cfg, start, steps), available, 0);
  }

  /** `available[i]` new pods are available before step `i`.  None becomes unavailable again, and a scale-down counts
      them at some time between the two moments. */
  ghost predicate NoneLost(steps: seq<Step>, available: seq<nat>) {
    && |available| == |steps| + 1
    && forall i :: 0 <= i < |steps| ==>
         && available[i] <= available[i + 1]
         && (steps[i].ScaleDown? ==> available[i] <= steps[i].available <= available[i + 1])
  }

  /** As long as no new pod becomes unavailable again, an update that has all but `maxUnavailable` of the desired pods
      available, old ones and new ones together, has so many at every later moment. */
  lemma {:induction false} AvailabilityKept(cfg: Config, start: Counts, steps: seq<Step>, available: seq<nat>, n: nat)
    requires NoneLost(steps, available) && n <= |steps|
    requires start.old_ + available[0] >= cfg.desired - cfg.maxUnavailable
    ensures After(cfg, start, steps[..n]).old_ + available[n] >= cfg.desired - cfg.maxUnavailable
  {
    if n > 0 {
      AvailabilityKept(cfg, start, steps, available, n - 1);
      var front, step := steps[..n - 1], steps[n - 1];
      assert steps[..n] == front + [step];
      AfterOne(cfg, start, front, step);
      if step.ScaleDown? { NeverUnderByScaling(cfg, start, front, step.available); }
    }
  }

  // ------------------------------------------------------------------ progress

  /** One pass of the loop with every new pod ready at the scale-down. */
  function Pass(cfg: Config, c: Counts): Counts {
    var up := Next(cfg, c, ScaleUp);
    Next(cfg, up, ScaleDown(up.new_))
  }

  function Passes(cfg: Config, c: Counts, n: nat): Counts
    decreases n
  {
    if n == 0 then c else Passes(cfg, Pass(cfg, c), n - 1)
  }

  /** How much of the old controller a pass must remove. */
  function Stride(cfg: Config): nat {
    cfg.maxSurge + Min(cfg.maxUnavailable, cfg.desired)
  }

  /** Every pass finishes the update, empties the old controller, or lowers it by the stride. */
  lemma PassProgresses(cfg: Config, c: Counts)
    requires Accepted(cfg) && c.new_ <= cfg.desired
    ensures Pass(cfg, c).new_ <= cfg.desired
    ensures c.old_ == 0 ==> Finished(cfg, Pass(cfg, c))
    ensures c.old_ > 0 ==> Pass(cfg, c).old_ == 0 || (Stride(cfg) > 0 && Pass(cfg, c).old_ + Stride(cfg) <= c.old_)
  {
  }

  /** Passes that suffice to remove `old_` replicas, `stride` at a time. */
  function PassesFor(old_: nat, stride: nat): nat
    decreases old_
  {
    if old_ == 0 then 1 else if stride == 0 || old_ <= stride then 2 else 1 + PassesFor(old_ - stride, stride)
  }

  lemma {:induction false} PassesForGrows(small: nat, large: nat, stride: nat)
    requires small <= large
    ensures PassesFor(small, stride) <= PassesFor(large, stride)
    decreases large
  {
    if stride > 0 && stride < small {
      PassesForGrows(small - stride, large - stride, stride);
    } else if stride > 0 && stride < large {
      PassesForGrows(0, large - stride, stride);
      PassesForPositive(large - stride, stride);
    }
  }

  lemma {:induction false} PassesForPositive(n: nat, stride: nat)
    ensures PassesFor(n, stride) >= 1 && (n > 0 ==> PassesFor(n, stride) >= 2)
    decreases n
  {
    if stride > 0 && n > stride { PassesForPositive(n - stride, stride); }
  }

  /** PassesFor is one more than the number of strides in `old_`, rounded up. */
  lemma {:induction false} PassesForIsCeiling(old_: nat, stride: nat)
    requires stride > 0
    ensures (PassesFor(old_, stride) - 2) * stride < old_ || old_ == 0
    ensures old_ <= (PassesFor(old_, stride) - 1) * stride
    decreases old_
  {
    if old_ > stride { PassesForIsCeiling(old_ - stride, stride); }
  }

  /** A bound on the number of passes: one for every stride of the old controller, and one for the rest. */
  lemma {:induction false} BoundedPasses(cfg: Config, c: Counts)
    requires Accepted(cfg) && c.new_ <= cfg.desired
    ensures Finished(cfg, Passes(cfg, c, PassesFor(c.old_, Stride(cfg))))
    decreases c.old_
  {
    PassProgresses(cfg, c);
    var next := Pass(cfg, c);
    if c.old_ == 0 {
      assert Passes(cfg, c, 1) == Passes(cfg, next, 0);
    } else {
      PassProgresses(cfg, next);
      StaysFinished(cfg, next, PassesFor(c.old_, Stride(cfg)) - 1);
      PassesForPositive(c.old_, Stride(cfg));
      if next.old_ > 0 {
        BoundedPasses(cfg, next);
        PassesForGrows(next.old_, c.old_ - Stride(cfg), Stride(cfg));
        MorePasses(cfg, next, PassesFor(next.old_, Stride(cfg)), PassesFor(c.old_, Stride(cfg)) - 1);
      } else {
        BoundedPasses(cfg, next);
        MorePasses(cfg, next, 1, PassesFor(c.old_, Stride(cfg)) - 1);
      }
    }
  }

  lemma {:induction false} StaysFinished(cfg: Config, c: Counts, n: nat)
    ensures Finished(cfg, c) ==> Passes(cfg, c, n) == c
    decreases n
  {
    if n > 0 && Finished(cfg, c) { StaysFinished(cfg, c, n - 1); }
  }

  lemma {:induction false} MorePasses(cfg: Config, c: Counts, n: nat, m: nat)
    requires n <= m && Finished(cfg, Passes(cfg, c, n))
    ensures Finished(cfg, Passes(cfg, c, m))
    decreases n
  {
    if n == 0 {
      StaysFinished(cfg, c, m);
      assert Passes(cfg, c, m) == c;
    } else {
      MorePasses(cfg, Pass(cfg, c), n - 1, m - 1);
    }
  }

  /** Some number of passes finishes the update. */
  ghost predicate Completes(cfg: Config, c: Counts) {
    exists n: nat :: Finished(cfg, Passes(cfg, c, n))
  }

  lemma CompletesAfter(cfg: Config, c: Counts, n: nat)
    requires Finished(cfg, Passes(cfg, c, n))
    ensures Completes(cfg, c)
  {
  }

  /** With every new pod ready in time, the update ends exactly when the new controller does not start above its target,
      or there is an old replica left and still room to surge, which brings the new controller back to its target. */
  lemma CompletesIff(cfg: Config, c: Counts)
    requires Accepted(cfg)
    ensures Completes(cfg, c) <==>
            c.new_ <= cfg.desired || (c.old_ > 0 && c.old_ + c.new_ < cfg.desired + cfg.maxSurge)
  {
    if c.new_ <= cfg.desired {
      BoundedPasses(cfg, c);
    } else if c.old_ > 0 && c.old_ + c.new_ < cfg.desired + cfg.maxSurge {
      assert Finished(cfg, Pass(cfg, c));
      assert Passes(cfg, c, 1) == Passes(cfg, Pass(cfg, c), 0);
      CompletesAfter(cfg, c, 1);
    } else {
      forall n: nat ensures !Finished(cfg, Passes(cfg, c, n)) { StuckAbove(cfg, c, n); }
    }
  }

  lemma {:induction false} StuckAbove(cfg: Config, c: Counts, n: nat)
    requires c.new_ > cfg.desired && !(c.old_ > 0 && c.old_ + c.new_ < cfg.desired + cfg.maxSurge)
    ensures Passes(cfg, c, n).new_ == c.new_
    decreases n
  {
    if n > 0 {
      assert Pass(cfg, c) == Counts(0, c.new_);
      StuckAbove(cfg, Pass(cfg, c), n - 1);
    }
  }

  // ------------------------------------------------------------------ the program

  /** v1.ReplicationController, as far as the loop writes it. */
  class ReplicationController {
    var replicas: nat

    constructor (replicas: nat)
      ensures this.replicas == replicas
    {
      this.replicas := replicas;
    }
  }

  /** scaleUp; `sent` tells that it made a scale request. */
  method ScaleUpRc(cfg: Config, newRc: ReplicationController, oldRc: ReplicationController) returns (sent: bool)
    requires newRc != oldRc
    modifies newRc
    ensures newRc.replicas == Up(cfg, Counts(oldRc.replicas, old(newRc.replicas)))
    ensures sent <==> newRc.replicas != old(newRc.replicas)
  {
    if newRc.replicas == cfg.desired { return false; }
    var increment := (cfg.desired + cfg.maxSurge) - (oldRc.replicas + newRc.replicas);
    if oldRc.replicas == 0 { increment := cfg.desired - newRc.replicas; }
    if increment <= 0 { return false; }
    newRc.replicas := newRc.replicas + increment;
    if newRc.replicas > cfg.desired { newRc.replicas := cfg.desired; }
    return true;
  }

  /** scaleDown, once the available pods are known; `sent` tells that it made a scale request. */
  method ScaleDownRc(cfg: Config, minAvailable: nat, newRc: ReplicationController, oldRc: ReplicationController,
                     newAvailable: nat)
    returns (sent: bool)
    requires newRc != oldRc && minAvailable == MinAvailable(cfg)
    modifies oldRc
    ensures oldRc.replicas == Down(cfg, Counts(old(oldRc.replicas), newRc.replicas), newAvailable)
    ensures sent <==> oldRc.replicas != old(oldRc.replicas)
  {
    if oldRc.replicas == 0 { return false; }
    var allPods := oldRc.replicas + newRc.replicas;
    var newUnavailable := newRc.replicas - newAvailable;
    var decrement := allPods - minAvailable - newUnavailable;
    if decrement <= 0 { return false; }
    var nextOldVal: int := oldRc.replicas - decrement;
    oldRc.replicas := if nextOldVal < 0 then 0 else nextOldVal;
    if newRc.replicas == cfg.desired && newAvailable == cfg.desired { oldRc.replicas := 0; }
    return true;
  }

  /** Which call of a pass would fail: a scale request, the count of available pods, or one of the two OnProgress. */
  datatype Trouble = NoTrouble | UpFails | UpReportFails | CountFails | DownFails | DownReportFails

  /** What the outside does during one pass: how many new pods are available, whether the deadline has passed, and what
      fails. */
  datatype Weather = Weather(available: nat, late: bool, trouble: Trouble)

  function UpOnly(cfg: Config, c: Counts): Counts {
    Next(cfg, c, ScaleUp)
  }

  function UpAndDown(cfg: Config, c: Counts, w: Weather): Counts {
    Next(cfg, UpOnly(cfg, c), ScaleDown(w.available))
  }

  /** A call fails only if it is made: no request is sent for a size that stays, and pods are counted only while there
      are old replicas. */
  predicate Fails(cfg: Config, c: Counts, w: Weather) {
    match w.trouble
    case NoTrouble => false
    case UpFails => UpOnly(cfg, c) != c
    case CountFails => c.old_ != 0
    case DownFails => UpAndDown(cfg, c, w) != UpOnly(cfg, c)
    case _ => true
  }

  /** Where a pass that fails leaves the controllers. */
  function Left(cfg: Config, c: Counts, w: Weather): Counts {
    if w.trouble.UpFails? || w.trouble.UpReportFails? || w.trouble.CountFails? then UpOnly(cfg, c)
    else UpAndDown(cfg, c, w)
  }

  /** The body of the loop, up to the question whether it made progress. */
  method OnePass(cfg: Config, minAvailable: nat, newRc: ReplicationController, oldRc: ReplicationController,
                 w: Weather)
    returns (failed: bool, progressMade: bool)
    requires newRc != oldRc && minAvailable == MinAvailable(cfg)
    modifies newRc, oldRc
    ensures var before := Counts(old(oldRc.replicas), old(newRc.replicas));
            var after := Counts(oldRc.replicas, newRc.replicas);
            && (failed <==> Fails(cfg, before, w))
            && after == (if failed then Left(cfg, before, w) else UpAndDown(cfg, before, w))
            && (!failed ==> (progressMade <==> after != before))
  {
    var newReplicas, oldReplicas := newRc.replicas, oldRc.replicas;
    progressMade := false;
    var sent := ScaleUpRc(cfg, newRc, oldRc);
    if sent && w.trouble.UpFails? { return true, false; }
    if w.trouble.UpReportFails? { return true, false; }
    if oldRc.replicas != 0 && w.trouble.CountFails? { return true, false; }
    sent := ScaleDownRc(cfg, minAvailable, newRc, oldRc, w.available);
    if sent && w.trouble.DownFails? { return true, false; }
    if w.trouble.DownReportFails? { return true, false; }
    progressMade := newRc.replicas != newReplicas || oldRc.replicas != oldReplicas;
    failed := false;
  }

  datatype Outcome = Rejected | Completed | TimedOut | Failed | StillRunning

  function StepsOf(weather: seq<Weather>): seq<Step> {
    if weather == [] then []
    else StepsOf(weather[..|weather| - 1]) + [ScaleUp, ScaleDown(weather[|weather| - 1].available)]
  }

  /** Where the controllers stand after the first `n` passes. */
  ghost function Stand(cfg: Config, c: Counts, weather: seq<Weather>, n: nat): Counts
    requires n <= |weather|
  {
    if n == 0 then c else UpAndDown(cfg, Stand(cfg, c, weather, n - 1), weather[n - 1])
  }

  /** Passes are runs of scale steps. */
  lemma {:induction false} StandIsAfter(cfg: Config, c: Counts, weather: seq<Weather>, n: nat)
    requires n <= |weather|
    ensures Stand(cfg, c, weather, n) == After(cfg, c, StepsOf(weather[..n]))
  {
    if n > 0 {
      StandIsAfter(cfg, c, weather, n - 1);
      var steps, w := StepsOf(weather[..n - 1]), weather[n - 1];
      assert weather[..n][..n - 1] == weather[..n - 1];
      assert StepsOf(weather[..n]) == (steps + [ScaleUp]) + [ScaleDown(w.available)];
      AfterOne(cfg, c, steps, ScaleUp);
      AfterOne(cfg, c, steps + [ScaleUp], ScaleDown(w.available));
    }
  }

  /** At the scale-down of this pass all pods of the new controller are available, and nothing fails. */
  ghost predicate ReadyAt(cfg: Config, c: Counts, weather: seq<Weather>, i: nat)
    requires i < |weather|
  {
    weather[i].available == UpOnly(cfg, Stand(cfg, c, weather, i)).new_ && weather[i].trouble.NoTrouble?
  }

  /** This holds of each of the first `n` passes. */
  ghost predicate AllReady(cfg: Config, c: Counts, weather: seq<Weather>, n: nat)
    requires n <= |weather|
  {
    n > 0 ==> AllReady(cfg, c, weather, n - 1) && ReadyAt(cfg, c, weather, n - 1)
  }

  lemma {:induction false} FewerReady(cfg: Config, c: Counts, weather: seq<Weather>, n: nat, m: nat)
    requires n <= m <= |weather| && AllReady(cfg, c, weather, m)
    ensures AllReady(cfg, c, weather, n) && (n < m ==> ReadyAt(cfg, c, weather, n))
  {
    if n < m { FewerReady(cfg, c, weather, n, m - 1); }
  }

  lemma {:induction false} PassesSnoc(cfg: Config, c: Counts, n: nat)
    ensures Passes(cfg, c, n + 1) == Pass(cfg, Passes(cfg, c, n))
    decreases n
  {
    if n > 0 { PassesSnoc(cfg, Pass(cfg, c), n - 1); }
  }

  /** With every new pod ready in time, what the loop does is a number of passes. */
  lemma {:induction false} ReadyIsPasses(cfg: Config, c: Counts, weather: seq<Weather>, n: nat)
    requires n <= |weather| && AllReady(cfg, c, weather, n)
    ensures Stand(cfg, c, weather, n) == Passes(cfg, c, n)
  {
    if n > 0 {
      ReadyIsPasses(cfg, c, weather, n - 1);
      PassesSnoc(cfg, c, n - 1);
    }
  }

  lemma {:induction false} PassesStayBelow(cfg: Config, c: Counts, n: nat)
    requires Accepted(cfg) && c.new_ <= cfg.desired
    ensures Passes(cfg, c, n).new_ <= cfg.desired
    decreases n
  {
    if n > 0 {
      PassProgresses(cfg, c);
      PassesStayBelow(cfg, Pass(cfg, c), n - 1);
    }
  }

  /** Enough passes, with every new pod ready in time, from at most the target. */
  ghost predicate Favourable(cfg: Config, c: Counts, weather: seq<Weather>) {
    && Accepted(cfg) && c.new_ <= cfg.desired
    && AllReady(cfg, c, weather, |weather|) && |weather| >= PassesFor(c.old_, Stride(cfg))
  }

  /** Then no pass of an unfinished update changes nothing, and the last one finishes it. */
  lemma FavourableMoves(cfg: Config, c: Counts, weather: seq<Weather>, n: nat)
    requires Favourable(cfg, c, weather) && n < |weather| && !Finished(cfg, Stand(cfg, c, weather, n))
    ensures Stand(cfg, c, weather, n + 1) != Stand(cfg, c, weather, n)
  {
    FewerReady(cfg, c, weather, n, |weather|);
    ReadyIsPasses(cfg, c, weather, n);
    PassesStayBelow(cfg, c, n);
    PassProgresses(cfg, Stand(cfg, c, weather, n));
    assert Stand(cfg, c, weather, n + 1) == Pass(cfg, Stand(cfg, c, weather, n));
  }

  lemma FavourableFinishes(cfg: Config, c: Counts, weather: seq<Weather>)
    requires Favourable(cfg, c, weather)
    ensures Finished(cfg, Stand(cfg, c, weather, |weather|))
  {
    ReadyIsPasses(cfg, c, weather, |weather|);
    BoundedPasses(cfg, c);
    MorePasses(cfg, c, PassesFor(c.old_, Stride(cfg)), |weather|);
  }

  /** The loop goes on after a pass unless it fails, or is late and changed nothing. */
  ghost predicate GoesOnAfter(cfg: Config, c: Counts, w: Weather) {
    !Fails(cfg, c, w) && !(w.late && UpAndDown(cfg, c, w) == c)
  }

  /** Before each of the first `n` passes the update is unfinished, and after each the loop goes on. */
  ghost predicate GoesOn(cfg: Config, start: Counts, weather: seq<Weather>, n: nat)
    requires n <= |weather|
  {
    n > 0 ==>
      && GoesOn(cfg, start, weather, n - 1) && !Finished(cfg, Stand(cfg, start, weather, n - 1))
      && GoesOnAfter(cfg, Stand(cfg, start, weather, n - 1), weather[n - 1])
  }

  lemma {:induction false} FewerGoOn(cfg: Config, start: Counts, weather: seq<Weather>, n: nat, m: nat)
    requires n <= m <= |weather| && GoesOn(cfg, start, weather, m)
    ensures GoesOn(cfg, start, weather, n)
    ensures n < m ==> !Finished(cfg, Stand(cfg, start, weather, n)) &&
                      GoesOnAfter(cfg, Stand(cfg, start, weather, n), weather[n])
  {
    if n < m { FewerGoOn(cfg, start, weather, n, m - 1); }
  }

  /** What fails, said of the calls that are made: a request for another size, the count of pods while there are old
      ones, and either report. */
  lemma FailsMeans(cfg: Config, c: Counts, w: Weather)
    ensures var after := UpAndDown(cfg, c, w);
            Fails(cfg, c, w) <==>
              || (w.trouble.UpFails? && after.new_ != c.new_) || w.trouble.UpReportFails?
              || (w.trouble.CountFails? && c.old_ > 0)
              || (w.trouble.DownFails? && after.old_ != c.old_) || w.trouble.DownReportFails?
  {
  }

  /** What the loop reports of the passes whose outside is given: the two controllers stand where that many passes take
      them, a completed update has replaced the old controller, an unfinished one has used up all passes, a time-out
      comes with the first late pass that changed nothing, and an error with the first pass in which a call fails. */
  ghost predicate Reports(cfg: Config, start: Counts, weather: seq<Weather>, outcome: Outcome, passes: nat,
                          end: Counts)
  {
    passes <= |weather| && (outcome.Rejected? <==> !Accepted(cfg)) &&
    match outcome
    case Rejected => passes == 0 && end == start
    case Completed =>
      GoesOn(cfg, start, weather, passes) && end == Stand(cfg, start, weather, passes) && Finished(cfg, end)
    case StillRunning =>
      GoesOn(cfg, start, weather, passes) && end == Stand(cfg, start, weather, passes) && passes == |weather| &&
      !Finished(cfg, end)
    case TimedOut =>
      passes > 0 && GoesOn(cfg, start, weather, passes - 1) &&
      var before := Stand(cfg, start, weather, passes - 1);
      !Finished(cfg, before) && !Fails(cfg, before, weather[passes - 1]) && weather[passes - 1].late &&
      end == before == UpAndDown(cfg, before, weather[passes - 1])
    case Failed =>
      passes < |weather| && GoesOn(cfg, start, weather, passes) &&
      var before := Stand(cfg, start, weather, passes);
      !Finished(cfg, before) && Fails(cfg, before, weather[passes]) && end == Left(cfg, before, weather[passes])
  }

  /** In which pass the loop ends, if it ends in one. */
  function LastPass(outcome: Outcome, passes: nat): nat {
    if outcome.TimedOut? && passes > 0 then passes - 1 else passes
  }

  lemma NotEarlier(cfg: Config, start: Counts, weather: seq<Weather>, one: Outcome, n: nat, end: Counts,
                   two: Outcome, m: nat, end': Counts)
    requires Reports(cfg, start, weather, one, n, end) && Reports(cfg, start, weather, two, m, end')
    ensures LastPass(one, n) >= LastPass(two, m)
  {
    var i, j := LastPass(one, n), LastPass(two, m);
    if i < j { FewerGoOn(cfg, start, weather, i, j); }
  }

  /** The report is determined by the start and by what the outside does. */
  lemma ReportIsDetermined(cfg: Config, start: Counts, weather: seq<Weather>, one: Outcome, n: nat, end: Counts,
                           two: Outcome, m: nat, end': Counts)
    requires Reports(cfg, start, weather, one, n, end) && Reports(cfg, start, weather, two, m, end')
    ensures one == two && n == m && end == end'
  {
    NotEarlier(cfg, start, weather, one, n, end, two, m, end');
    NotEarlier(cfg, start, weather, two, m, end', one, n, end);
  }

  lemma FavourableCompletes(cfg: Config, start: Counts, weather: seq<Weather>, outcome: Outcome, passes: nat,
                            end: Counts)
    requires Reports(cfg, start, weather, outcome, passes, end) && Favourable(cfg, start, weather)
    ensures outcome.Completed?
  {
    FavourableFinishes(cfg, start, weather);
    FewerReady(cfg, start, weather, passes, |weather|);
    var last: nat := if passes > 0 then passes - 1 else 0;
    if last < |weather| && !Finished(cfg, Stand(cfg, start, weather, last)) {
      FavourableMoves(cfg, start, weather, last);
    }
  }

  /** However the update ends, also by an error in the middle of a pass, it leaves the bounds intact. */
  lemma EndIsSafe(cfg: Config, start: Counts, weather: seq<Weather>, outcome: Outcome, passes: nat, end: Counts)
    requires Reports(cfg, start, weather, outcome, passes, end) && start.new_ <= cfg.desired
    ensures start.new_ <= end.new_ <= cfg.desired && end.old_ <= start.old_
    ensures end.old_ + end.new_ <= Max(start.old_ + start.new_, cfg.desired + cfg.maxSurge)
  {
    var steps := StepsOf(weather[..passes]);
    StandIsAfter(cfg, start, weather, passes);
    RunIsSafe(cfg, start, steps);
    if outcome.Failed? {
      var up, down := steps + [ScaleUp], steps + [ScaleUp] + [ScaleDown(weather[passes].available)];
      AfterOne(cfg, start, steps, ScaleUp);
      AfterOne(cfg, start, up, ScaleDown(weather[passes].available));
      RunIsSafe(cfg, start, up);
      RunIsSafe(cfg, start, down);
    }
  }

  /** No pass of the loop takes the pods it counts below all but `maxUnavailable` of the desired ones, nor does the last
      one that fails. */
  lemma LoopKeepsAvailable(cfg: Config, start: Counts, weather: seq<Weather>, outcome: Outcome, passes: nat,
                           end: Counts, n: nat)
    requires Reports(cfg, start, weather, outcome, passes, end)
    requires n < passes || (n == passes && outcome.Failed?)
    ensures var before, available := Stand(cfg, start, weather, n), weather[n].available;
            var after := if n < passes then Stand(cfg, start, weather, n + 1) else end;
            after.old_ + available >= Min(before.old_ + available, cfg.desired - cfg.maxUnavailable)
  {
    var before := Stand(cfg, start, weather, n);
    DownIsLeast(cfg, UpOnly(cfg, before), weather[n].available, 0);
  }

  /** What Update accepts is exactly what can always make progress: every update that does not start above its target
      ends if new pods are ready in time. */
  lemma AcceptedIffCompletes(cfg: Config)
    ensures Accepted(cfg) <==> forall c: Counts :: c.new_ <= cfg.desired ==> Completes(cfg, c)
  {
    if Accepted(cfg) {
      forall c: Counts | c.new_ <= cfg.desired ensures Completes(cfg, c) { CompletesIff(cfg, c); }
    } else {
      var c := Counts(cfg.desired, 0);
      assert Pass(cfg, c) == c;
      forall n: nat ensures !Finished(cfg, Passes(cfg, c, n)) { Stands(cfg, c, n); }
      assert !Completes(cfg, c);
    }
  }

  lemma {:induction false} Stands(cfg: Config, c: Counts, n: nat)
    requires Pass(cfg, c) == c
    ensures Passes(cfg, c, n) == c
    decreases n
  {
    if n > 0 { Stands(cfg, c, n - 1); }
  }

  method Loop(cfg: Config, newRc: ReplicationController, oldRc: ReplicationController, weather: seq<Weather>)
    returns (outcome: Outcome, passes: nat)
    requires newRc != oldRc
    modifies newRc, oldRc
    ensures Reports(cfg, Counts(old(oldRc.replicas), old(newRc.replicas)), weather, outcome, passes,
                    Counts(oldRc.replicas, newRc.replicas))
  {
    passes := 0;
    ghost var start := Counts(oldRc.replicas, newRc.replicas);
    if cfg.desired > 0 && cfg.maxUnavailable == 0 && cfg.maxSurge == 0 { return Rejected, 0; }
    // For desired == 0 the source takes 0 as the minimum, which the formula gives as well.
    var minAvailable := Max(0, cfg.desired - cfg.maxUnavailable);
    while newRc.replicas != cfg.desired || oldRc.replicas != 0
      invariant passes <= |weather| && GoesOn(cfg, start, weather, passes)
      invariant Counts(oldRc.replicas, newRc.replicas) == Stand(cfg, start, weather, passes)
      decreases |weather| - passes
    {
      if passes == |weather| { return StillRunning, passes; }
      var w := weather[passes];
      var failed, progressMade := OnePass(cfg, minAvailable, newRc, oldRc, w);
      if failed { return Failed, passes; }
      passes := passes + 1;
      if !progressMade && w.late { return TimedOut, passes; }
    }
    outcome := Completed;
  }

  /** The loop, over the first passes whose outside is given.  It completes if all new pods are ready in time, nothing
      fails and the passes suffice, so it does not time out then, however late it is. */
  method Update(cfg: Config, newRc: ReplicationController, oldRc: ReplicationController, weather: seq<Weather>)
    returns (outcome: Outcome, passes: nat)
    requires newRc != oldRc
    modifies newRc, oldRc
    ensures Reports(cfg, Counts(old(oldRc.replicas), old(newRc.replicas)), weather, outcome, passes,
                    Counts(oldRc.replicas, newRc.replicas))
    ensures Favourable(cfg, Counts(old(oldRc.replicas), old(newRc.replicas)), weather) ==> outcome.Completed?
  {
    ghost var start := Counts(oldRc.replicas, newRc.replicas);
    outcome, passes := Loop(cfg, newRc, oldRc, weather);
    ghost var end := Counts(oldRc.replicas, newRc.replicas);
    if Favourable(cfg, start, weather) { FavourableCompletes(cfg, start, weather, outcome, passes, end); }
  }
}
