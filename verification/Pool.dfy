/** The bounded and the rate-limited worker pool, as steps of workers that share a counter and a result array. */
module Pool {
  import opened Options

  datatype Outcome = Value(v: int) | Thrown(e: int)

  /** Spacing is the time window divided by the number of tasks; the bounded pool has no timers. */
  datatype Config = Config(total: nat, concurrency: nat, limited: bool, startAt: real, spacing: real)

  /** A worker between tasks, behind a timer, awaiting its task, returned, or rejected. */
  datatype Worker = Ready | Timed(i: nat, due: real) | Running(i: nat) | Returned | Rejected(i: nat)

  datatype Start = Start(i: nat, at: real)

  datatype State = State(next: nat, workers: seq<Worker>, results: seq<Option<Outcome>>, started: seq<Start>, now: real)

  datatype Step = Claim(w: nat) | Fire(w: nat) | Settle(w: nat, outcome: Outcome) | Tick(now: real)

  function Min(a: nat, b: nat): nat { if a < b then a else b }

  function Target(c: Config, i: nat): real { c.startAt + i as real * c.spacing }

  function Spacing(window: real, total: nat): real { window / (if total > 1 then total else 1) as real }

  /** The targets divide the time window evenly: the first is its start, and the last is one spacing before its end. */
  lemma TargetsDivideWindow(c: Config, window: real, i: nat)
    requires window > 0.0 && i < c.total && c.spacing == Spacing(window, c.total)
    ensures Target(c, 0) == c.startAt && Target(c, c.total - 1) + c.spacing == c.startAt + window
    ensures c.startAt <= Target(c, i) < c.startAt + window
    ensures Target(c, i + 1) - Target(c, i) == c.spacing
  {
    hide Spacing;
    SpacedOut(window, c.total);
    Spread(0, c.total, c.spacing);
    Spread(i, c.total, c.spacing);
  }

  lemma SpacedOut(window: real, total: nat)
    requires window > 0.0 && total > 0
    ensures Spacing(window, total) > 0.0 && total as real * Spacing(window, total) == window
  {
    Quotients(window, total as real);
  }

  lemma Quotients(a: real, b: real)
    requires a > 0.0 && b > 0.0
    ensures a / b > 0.0 && b * (a / b) == a
  {
  }

  lemma Spread(i: nat, n: nat, d: real)
    requires i < n && d > 0.0
    ensures 0.0 <= i as real * d < n as real * d
    ensures (n - 1) as real * d + d == n as real * d && (i + 1) as real * d == i as real * d + d
  {
    Stretch(i as real, n as real, d);
    OneMore((n - 1) as real, d);
    OneMore(i as real, d);
  }

  lemma Stretch(a: real, b: real, d: real)
    requires 0.0 <= a < b && d > 0.0
    ensures 0.0 <= a * d < b * d
  {
    assert (b - a) * d > 0.0;
  }

  lemma OneMore(a: real, d: real)
    ensures (a + 1.0) * d == a * d + d
  {
  }

  function Initial(c: Config, now: real): State {
    State(0, seq(Min(c.concurrency, c.total), _ => Ready), seq(c.total, _ => None), [], now)
  }

  /** One atomic step of one worker, or time passing; None when the step is not possible. A timer never fires early. */
  function Next(c: Config, s: State, step: Step): Option<State> {
    match step
    case Tick(now) => if now >= s.now then Some(s.(now := now)) else None
    case Claim(w) =>
      if w >= |s.workers| || s.workers[w] != Ready then None
      else if s.next >= c.total then
        Some(s.(next := if c.limited then s.next else s.next + 1, workers := s.workers[w := Returned]))
      else if c.limited then
        var delay := if Target(c, s.next) > s.now then Target(c, s.next) - s.now else 0.0;
        Some(s.(next := s.next + 1, workers := s.workers[w := Timed(s.next, s.now + delay)]))
      else
        var workers, started := s.workers[w := Running(s.next)], s.started + [Start(s.next, s.now)];
        Some(s.(next := s.next + 1, workers := workers, started := started))
    case Fire(w) =>
      if w >= |s.workers| || !s.workers[w].Timed? || s.now < s.workers[w].due then None
      else
        var i := s.workers[w].i;
        Some(s.(workers := s.workers[w := Running(i)], started := s.started + [Start(i, s.now)]))
    case Settle(w, outcome) =>
      if w >= |s.workers| || !s.workers[w].Running? || s.workers[w].i >= |s.results| then None
      else
        var i := s.workers[w].i;
        if outcome.Thrown? && !c.limited then Some(s.(workers := s.workers[w := Rejected(i)]))
        else Some(s.(workers := s.workers[w := Ready], results := s.results[i := Some(outcome)]))
  }

  /** The state after a schedule of steps, if each was possible. */
  function Run(c: Config, s: State, steps: seq<Step>): Option<State> {
    if steps == [] then Some(s)
    else
      var before := Run(c, s, steps[..|steps| - 1]);
      if before.None? then None else Next(c, before.value, steps[|steps| - 1])
  }

  // ----- which indices are where

  function HeldBy(w: Worker): set<nat> {
    match w
    case Ready => {}
    case Timed(i, _) => {i}
    case Running(i) => {i}
    case Returned => {}
    case Rejected(i) => {i}
  }

  function TimedBy(w: Worker): set<nat> { if w.Timed? then {w.i} else {} }

  ghost function HeldSet(ws: seq<Worker>): set<nat> { set w, i | 0 <= w < |ws| && i in HeldBy(ws[w]) :: i }

  ghost function TimedSet(ws: seq<Worker>): set<nat> { set w, i | 0 <= w < |ws| && i in TimedBy(ws[w]) :: i }

  ghost function StartedSet(started: seq<Start>): set<nat> { set k | 0 <= k < |started| :: started[k].i }

  function Resolved(results: seq<Option<Outcome>>): set<nat> { set i: nat | i < |results| && results[i].Some? }

  function Below(n: nat): (r: set<nat>)
    ensures forall i :: i in r <==> 0 <= i < n
  {
    if n == 0 then {} else Below(n - 1) + {n - 1}
  }

  ghost predicate Distinct(ws: seq<Worker>) {
    forall v, w :: 0 <= v < w < |ws| ==> HeldBy(ws[v]) !! HeldBy(ws[w])
  }

  lemma UpdateWorker(ws: seq<Worker>, w: nat, x: Worker)
    requires w < |ws| && Distinct(ws)
    requires HeldBy(x) !! HeldSet(ws) - HeldBy(ws[w])
    ensures Distinct(ws[w := x])
    ensures HeldSet(ws[w := x]) == HeldSet(ws) - HeldBy(ws[w]) + HeldBy(x)
    ensures TimedSet(ws[w := x]) == TimedSet(ws) - TimedBy(ws[w]) + TimedBy(x)
  {
    var ws' := ws[w := x];
    forall i ensures i in HeldSet(ws') <==> i in HeldSet(ws) - HeldBy(ws[w]) + HeldBy(x) {
      if i in HeldBy(x) { assert i in HeldBy(ws'[w]); }
      if i in HeldSet(ws) && i !in HeldBy(ws[w]) {
        var v :| 0 <= v < |ws| && i in HeldBy(ws[v]);
        assert i in HeldBy(ws'[v]);
      }
    }
    forall i ensures i in TimedSet(ws') <==> i in TimedSet(ws) - TimedBy(ws[w]) + TimedBy(x) {
      if i in TimedBy(x) { assert i in TimedBy(ws'[w]); }
      if i in TimedSet(ws) && i !in TimedBy(ws[w]) {
        var v :| 0 <= v < |ws| && i in TimedBy(ws[v]);
        assert i in TimedBy(ws'[v]);
      }
      if i in TimedSet(ws') && i !in TimedBy(x) {
        var v :| 0 <= v < |ws'| && i in TimedBy(ws'[v]);
        assert i in HeldBy(ws[v]) && v != w;
      }
    }
  }

  lemma TimedIsHeld(ws: seq<Worker>)
    ensures TimedSet(ws) <= HeldSet(ws)
  {
    forall i | i in TimedSet(ws) ensures i in HeldSet(ws) {
      var w :| 0 <= w < |ws| && i in TimedBy(ws[w]);
      assert i in HeldBy(ws[w]);
    }
  }

  lemma AddStart(started: seq<Start>, x: Start)
    ensures StartedSet(started + [x]) == StartedSet(started) + {x.i}
  {
    var more := started + [x];
    forall i ensures i in StartedSet(more) <==> i in StartedSet(started) + {x.i} {
      if i == x.i { assert more[|started|].i == i; }
      if i in StartedSet(started) {
        var k :| 0 <= k < |started| && started[k].i == i;
        assert more[k].i == i;
      }
    }
  }

  // ----- what every step keeps

  predicate WorkerOk(c: Config, next: nat, now: real, w: Worker) {
    && (w.Returned? ==> next >= c.total)
    && (w.Rejected? ==> !c.limited)
    && (w.Timed? ==> c.limited && Target(c, w.i) <= w.due && (w.due == Target(c, w.i) || w.due <= now))
  }

  /** Claimed indices are those below the counter: each is held by one worker or has its result, never both. */
  ghost predicate Claims(c: Config, s: State) {
    && Distinct(s.workers)
    && HeldSet(s.workers) !! Resolved(s.results)
    && HeldSet(s.workers) + Resolved(s.results) == Below(Min(s.next, c.total))
  }

  /** The started indices are the claimed ones no timer holds, each once. */
  ghost predicate Starts(c: Config, s: State) {
    && StartedSet(s.started) == Below(Min(s.next, c.total)) - TimedSet(s.workers)
    && (forall j, k :: 0 <= j < k < |s.started| ==> s.started[j].i != s.started[k].i)
  }

  ghost predicate Timely(c: Config, s: State) {
    c.limited ==> forall k :: 0 <= k < |s.started| ==> s.started[k].at >= Target(c, s.started[k].i)
  }

  /** Without timers tasks start in index order. */
  ghost predicate InOrder(c: Config, s: State) {
    !c.limited ==> |s.started| == Min(s.next, c.total) && forall k :: 0 <= k < |s.started| ==> s.started[k].i == k
  }

  ghost predicate Inv(c: Config, s: State) {
    && |s.workers| == Min(c.concurrency, c.total) && |s.results| == c.total
    && (c.limited ==> s.next <= c.total)
    && (forall w :: 0 <= w < |s.workers| ==> WorkerOk(c, s.next, s.now, s.workers[w]))
    && Claims(c, s) && Starts(c, s) && Timely(c, s) && InOrder(c, s)
  }

  lemma InitialInv(c: Config, now: real)
    ensures Inv(c, Initial(c, now))
  {
  }

  lemma NextKeeps(c: Config, s: State, step: Step)
    requires Inv(c, s) && Next(c, s, step).Some?
    ensures Inv(c, Next(c, s, step).value)
  {
    match step
    case Tick(_) =>
    case Claim(w) => ClaimKeeps(c, s, w);
    case Fire(w) => FireKeeps(c, s, w);
    case Settle(w, o) => SettleKeeps(c, s, w, o);
  }

  lemma ClaimKeeps(c: Config, s: State, w: nat)
    requires Inv(c, s) && Next(c, s, Claim(w)).Some?
    ensures Inv(c, Next(c, s, Claim(w)).value)
  {
    hide Inv, Next;
    if s.next >= c.total { LastClaimKeeps(c, s, w); }
    else if c.limited { TimedClaimKeeps(c, s, w); }
    else { RunningClaimKeeps(c, s, w); }
  }

  lemma LastClaimKeeps(c: Config, s: State, w: nat)
    requires Inv(c, s) && Next(c, s, Claim(w)).Some? && s.next >= c.total
    ensures Inv(c, Next(c, s, Claim(w)).value)
  {
    hide HeldSet, TimedSet, StartedSet, Resolved, Below;
    UpdateWorker(s.workers, w, Returned);
  }

  lemma TimedClaimKeeps(c: Config, s: State, w: nat)
    requires Inv(c, s) && Next(c, s, Claim(w)).Some? && s.next < c.total && c.limited
    ensures Inv(c, Next(c, s, Claim(w)).value)
  {
    hide HeldSet, TimedSet, StartedSet, Resolved;
    TimedIsHeld(s.workers);
    assert Below(s.next + 1) == Below(s.next) + {s.next};
    UpdateWorker(s.workers, w, Next(c, s, Claim(w)).value.workers[w]);
  }

  lemma RunningClaimKeeps(c: Config, s: State, w: nat)
    requires Inv(c, s) && Next(c, s, Claim(w)).Some? && s.next < c.total && !c.limited
    ensures Inv(c, Next(c, s, Claim(w)).value)
  {
    hide HeldSet, TimedSet, Resolved;
    TimedIsHeld(s.workers);
    assert Below(s.next + 1) == Below(s.next) + {s.next};
    AddStart(s.started, Start(s.next, s.now));
    UpdateWorker(s.workers, w, Running(s.next));
  }

  lemma FireKeeps(c: Config, s: State, w: nat)
    requires Inv(c, s) && Next(c, s, Fire(w)).Some?
    ensures Inv(c, Next(c, s, Fire(w)).value)
  {
    var t := Next(c, s, Fire(w)).value;
    UpdateWorker(s.workers, w, t.workers[w]);
    AddStart(s.started, Start(s.workers[w].i, s.now));
  }

  lemma SettleKeeps(c: Config, s: State, w: nat, o: Outcome)
    requires Inv(c, s) && Next(c, s, Settle(w, o)).Some?
    ensures Inv(c, Next(c, s, Settle(w, o)).value)
  {
    var t := Next(c, s, Settle(w, o)).value;
    UpdateWorker(s.workers, w, t.workers[w]);
  }

  /** Every schedule of steps. */
  lemma {:induction false} RunKeeps(c: Config, now: real, steps: seq<Step>)
    requires Run(c, Initial(c, now), steps).Some?
    ensures Inv(c, Run(c, Initial(c, now), steps).value)
  {
    hide Inv, Next;
    InitialInv(c, now);
    if steps != [] {
      RunKeeps(c, now, steps[..|steps| - 1]);
      NextKeeps(c, Run(c, Initial(c, now), steps[..|steps| - 1]).value, steps[|steps| - 1]);
    }
  }

  // ----- what a caller sees

  /** Tasks begun and not yet finished. */
  ghost function InFlight(s: State): set<nat> {
    set w | 0 <= w < |s.workers| && s.workers[w].Running? :: s.workers[w].i
  }

  lemma {:induction false} InFlightCount(ws: seq<Worker>, some: set<nat>)
    requires forall i :: i in some ==> exists w :: 0 <= w < |ws| && ws[w] == Running(i)
    ensures |some| <= |ws|
  {
    if ws == [] {
      assert some == {};
    } else {
      var n := |ws| - 1;
      var fewer := if ws[n].Running? then some - {ws[n].i} else some;
      forall i | i in fewer ensures exists w :: 0 <= w < n && ws[..n][w] == Running(i) {
        var w :| 0 <= w < |ws| && ws[w] == Running(i);
        assert ws[..n][w] == Running(i);
      }
      InFlightCount(ws[..n], fewer);
      assert ws[n].Running? && ws[n].i in some ==> some == fewer + {ws[n].i};
    }
  }

  /**
   * At every moment of every run: no task begun twice, none before its time, none waiting beyond it
   * once its timer is set, in index order without timers, and never more than min(concurrency, total)
   * in flight.
   */
  lemma RunIsSafe(c: Config, now: real, steps: seq<Step>)
    requires Run(c, Initial(c, now), steps).Some?
    ensures var s := Run(c, Initial(c, now), steps).value;
      && (forall j, k :: 0 <= j < k < |s.started| ==> s.started[j].i != s.started[k].i)
      && (c.limited ==> forall k :: 0 <= k < |s.started| ==>
            s.started[k].at >= c.startAt + s.started[k].i as real * c.spacing)
      && (forall w :: 0 <= w < |s.workers| && s.workers[w].Timed? && s.workers[w].due > s.now ==>
            s.workers[w].due == c.startAt + s.workers[w].i as real * c.spacing)
      && (!c.limited ==> forall k :: 0 <= k < |s.started| ==> s.started[k].i == k)
      && |InFlight(s)| <= Min(c.concurrency, c.total)
  {
    hide Run, Claims, HeldSet, TimedSet, StartedSet, Resolved, Below;
    RunKeeps(c, now, steps);
    var s := Run(c, Initial(c, now), steps).value;
    InFlightCount(s.workers, InFlight(s));
  }

  // ----- what the results hold

  /** Step k of the schedule is the end of task i, with this outcome. */
  ghost predicate SettledAt(c: Config, now: real, steps: seq<Step>, k: int, i: nat, o: Outcome) {
    && 0 <= k < |steps| && steps[k].Settle? && steps[k].outcome == o
    && var before := Run(c, Initial(c, now), steps[..k]);
       before.Some? && steps[k].w < |before.value.workers| && before.value.workers[steps[k].w] == Running(i)
  }

  ghost predicate Settled(c: Config, now: real, steps: seq<Step>, i: nat, o: Outcome) {
    exists k :: SettledAt(c, now, steps, k, i, o)
  }

  lemma SettledGrows(c: Config, now: real, steps: seq<Step>, i: nat, o: Outcome)
    requires steps != []
    ensures var n := |steps| - 1;
      Settled(c, now, steps, i, o) <==> Settled(c, now, steps[..n], i, o) || SettledAt(c, now, steps, n, i, o)
  {
    hide Run;
    var n := |steps| - 1;
    forall k | 0 <= k < n
      ensures SettledAt(c, now, steps, k, i, o) <==> SettledAt(c, now, steps[..n], k, i, o)
    {
      assert steps[..n][..k] == steps[..k];
    }
  }

  /**
   * In every run slot i holds an outcome exactly when task i ended with it, a thrown error only with
   * timers; without them the error is what rejects a worker.
   */
  lemma {:induction false} ResultsAreOutcomes(c: Config, now: real, steps: seq<Step>, i: nat, o: Outcome)
    requires Run(c, Initial(c, now), steps).Some?
    ensures var s := Run(c, Initial(c, now), steps).value;
      i < |s.results| && s.results[i] == Some(o) <==>
        Settled(c, now, steps, i, o) && (c.limited || o.Value?)
  {
    hide Inv, Next, Settled, SettledAt;
    RunKeeps(c, now, steps);
    if steps != [] {
      var n := |steps| - 1;
      ResultsAreOutcomes(c, now, steps[..n], i, o);
      SettledGrows(c, now, steps, i, o);
      RunKeeps(c, now, steps[..n]);
      StepStores(c, now, steps, i, o);
    } else {
      NeverSettled(c, now, i, o);
    }
  }

  lemma NeverSettled(c: Config, now: real, i: nat, o: Outcome)
    ensures !Settled(c, now, [], i, o)
  {
  }

  /** The last step stores an outcome exactly when it ends that task, and overwrites none. */
  lemma StepStores(c: Config, now: real, steps: seq<Step>, i: nat, o: Outcome)
    requires steps != [] && Run(c, Initial(c, now), steps).Some?
    requires Inv(c, Run(c, Initial(c, now), steps[..|steps| - 1]).value)
    ensures var s, t := Run(c, Initial(c, now), steps[..|steps| - 1]).value, Run(c, Initial(c, now), steps).value;
      && |t.results| == |s.results|
      && (i < |t.results| && t.results[i] == Some(o) <==>
            (i < |s.results| && s.results[i] == Some(o))
            || (SettledAt(c, now, steps, |steps| - 1, i, o) && (c.limited || o.Value?)))
  {
    hide Run, Distinct, Starts, Timely, InOrder, WorkerOk;
    var n := |steps| - 1;
    RunUnfolds(c, now, steps);
    var s := Run(c, Initial(c, now), steps[..n]).value;
    if steps[n].Settle? {
      var j := s.workers[steps[n].w].i;
      assert j in HeldBy(s.workers[steps[n].w]) && j in HeldSet(s.workers);
      assert j !in Resolved(s.results);
    }
  }

  lemma RunUnfolds(c: Config, now: real, steps: seq<Step>)
    requires steps != [] && Run(c, Initial(c, now), steps).Some?
    ensures var before := Run(c, Initial(c, now), steps[..|steps| - 1]);
      before.Some? && Run(c, Initial(c, now), steps) == Next(c, before.value, steps[|steps| - 1])
  {
  }

  predicate Halted(s: State) { forall w :: 0 <= w < |s.workers| ==> s.workers[w].Returned? || s.workers[w].Rejected? }

  predicate Awaited(s: State) { forall w :: 0 <= w < |s.workers| ==> s.workers[w].Returned? }

  /**
   * When every worker has returned, every index was begun and has its result, exactly when some
   * worker exists to do it.
   */
  lemma AwaitedIsComplete(c: Config, now: real, steps: seq<Step>)
    requires Run(c, Initial(c, now), steps).Some? && Awaited(Run(c, Initial(c, now), steps).value)
    ensures var s := Run(c, Initial(c, now), steps).value;
      Resolved(s.results) == Below(c.total) && StartedSet(s.started) == Below(c.total) <==>
        c.concurrency > 0 || c.total == 0
  {
    RunKeeps(c, now, steps);
    var s := Run(c, Initial(c, now), steps).value;
    assert HeldSet(s.workers) == {} && TimedSet(s.workers) == {};
    if |s.workers| > 0 {
      assert s.workers[0].Returned?;
    } else {
      NothingRuns(c, now, steps);
      assert StartedSet(s.started) == {};
      assert c.total > 0 ==> 0 in Below(c.total);
    }
  }

  lemma {:induction false} NothingRuns(c: Config, now: real, steps: seq<Step>)
    requires Run(c, Initial(c, now), steps).Some? && Min(c.concurrency, c.total) == 0
    ensures var s := Run(c, Initial(c, now), steps).value; s.(now := now) == Initial(c, now)
  {
    if steps != [] { NothingRuns(c, now, steps[..|steps| - 1]); }
  }

  // ----- every run ends

  function Weight(w: Worker): nat {
    match w
    case Ready => 1
    case Timed(_, _) => 3
    case Running(_) => 2
    case Returned => 0
    case Rejected(_) => 0
  }

  function TotalWeight(ws: seq<Worker>): nat {
    if ws == [] then 0 else TotalWeight(ws[..|ws| - 1]) + Weight(ws[|ws| - 1])
  }

  /** What is left to do: steps other than the passing of time use it up. */
  function Left(c: Config, s: State): nat { 3 * (c.total - Min(s.next, c.total)) + TotalWeight(s.workers) }

  lemma {:induction false} Reweigh(ws: seq<Worker>, w: nat, x: Worker)
    requires w < |ws|
    ensures TotalWeight(ws[w := x]) == TotalWeight(ws) - Weight(ws[w]) + Weight(x)
  {
    var n := |ws| - 1;
    if w == n {
      assert ws[w := x][..n] == ws[..n];
    } else {
      Reweigh(ws[..n], w, x);
      assert ws[w := x][..n] == ws[..n][w := x];
    }
  }

  lemma StepsUseUp(c: Config, s: State, step: Step)
    requires Next(c, s, step).Some? && !step.Tick?
    ensures Left(c, Next(c, s, step).value) < Left(c, s)
  {
    hide TotalWeight;
    Reweigh(s.workers, step.w, Next(c, s, step).value.workers[step.w]);
  }

  function Work(steps: seq<Step>): nat {
    if steps == [] then 0 else Work(steps[..|steps| - 1]) + if steps[|steps| - 1].Tick? then 0 else 1
  }

  /** No schedule has more than this many steps beside the passing of time. */
  lemma {:induction false} RunsEnd(c: Config, s: State, steps: seq<Step>)
    requires Run(c, s, steps).Some?
    ensures Work(steps) + Left(c, Run(c, s, steps).value) <= Left(c, s)
  {
    hide Left, Next;
    if steps != [] {
      var n := |steps| - 1;
      RunsEnd(c, s, steps[..n]);
      var before := Run(c, s, steps[..n]).value;
      if steps[n].Tick? { TimeIsFree(c, before, steps[n].now); } else { StepsUseUp(c, before, steps[n]); }
    }
  }

  lemma {:induction false} FreshWeight(n: nat)
    ensures TotalWeight(seq(n, _ => Ready)) == n
  {
    if n > 0 {
      FreshWeight(n - 1);
      assert seq(n, _ => Ready)[..n - 1] == seq(n - 1, _ => Ready);
    }
  }

  /** A whole run takes at most three steps a task and one a worker, beside the passing of time. */
  lemma WholeRunEnds(c: Config, now: real, steps: seq<Step>)
    requires Run(c, Initial(c, now), steps).Some?
    ensures Work(steps) <= 3 * c.total + c.concurrency && Work(steps) <= 4 * c.total
  {
    hide Run, Work, TotalWeight;
    RunsEnd(c, Initial(c, now), steps);
    FreshWeight(Min(c.concurrency, c.total));
  }

  lemma TimeIsFree(c: Config, s: State, now: real)
    requires Next(c, s, Tick(now)).Some?
    ensures Left(c, Next(c, s, Tick(now)).value) == Left(c, s)
  {
  }

  /** Unless all workers halted, one can go on, at once or when its timer is due. */
  lemma NeverStuck(c: Config, s: State)
    requires Inv(c, s) && !Halted(s)
    ensures exists steps :: 0 < Work(steps) && Run(c, s, steps).Some?
  {
    var w :| 0 <= w < |s.workers| && !s.workers[w].Returned? && !s.workers[w].Rejected?;
    match s.workers[w]
    case Ready => OneStep(c, s, Claim(w));
    case Running(i) =>
      assert i in HeldBy(s.workers[w]) && i in HeldSet(s.workers);
      OneStep(c, s, Settle(w, Value(0)));
    case Timed(_, due) =>
      var later := if due > s.now then due else s.now;
      TwoSteps(c, s, Tick(later), Fire(w));
    case Returned =>
    case Rejected(_) =>
  }

  lemma OneStep(c: Config, s: State, step: Step)
    requires Next(c, s, step).Some? && !step.Tick?
    ensures 0 < Work([step]) && Run(c, s, [step]).Some?
  {
    assert [step][..0] == [] && Run(c, s, []) == Some(s);
  }

  lemma TwoSteps(c: Config, s: State, one: Step, two: Step)
    requires Next(c, s, one).Some? && Next(c, Next(c, s, one).value, two).Some? && !two.Tick?
    ensures 0 < Work([one, two]) && Run(c, s, [one, two]).Some?
  {
    assert [one][..0] == [] && Run(c, s, []) == Some(s) && Run(c, s, [one]) == Next(c, s, one);
    assert [one, two][..1] == [one];
  }

  // ----- the shared variables, updated in place

  class Shared {
    const config: Config
    var next: nat
    var workers: seq<Worker>
    var results: seq<Option<Outcome>>
    var started: seq<Start>
    var now: real

    constructor (config: Config, now: real)
      ensures this.config == config && View() == Initial(config, now)
    {
      this.config, next, started, this.now := config, 0, [], now;
      results := seq(config.total, _ => None);
      workers := seq(Min(config.concurrency, config.total), _ => Ready);
    }

    function View(): State
      reads this
    {
      State(next, workers, results, started, now)
    }

    /** A worker takes the next index: it begins the job, sets its timer, or returns when none is left. */
    method TakeNext(w: nat)
      requires w < |workers| && workers[w] == Ready
      modifies this
      ensures Some(View()) == Next(config, old(View()), Claim(w))
    {
      if config.limited {
        if next >= config.total {
          workers := workers[w := Returned];
          return;
        }
        var i := next;
        next := next + 1;
        var targetStart := config.startAt + i as real * config.spacing;
        assert targetStart == Target(config, i);
        var delay := if targetStart > now then targetStart - now else 0.0;
        workers := workers[w := Timed(i, now + delay)];
      } else {
        var i := next;
        next := next + 1;
        if i >= config.total {
          workers := workers[w := Returned];
          return;
        }
        workers, started := workers[w := Running(i)], started + [Start(i, now)];
      }
    }

    method TimerFires(w: nat)
      requires w < |workers| && workers[w].Timed? && now >= workers[w].due
      modifies this
      ensures Some(View()) == Next(config, old(View()), Fire(w))
    {
      var i := workers[w].i;
      workers, started := workers[w := Running(i)], started + [Start(i, now)];
    }

    /** The result is stored; a thrown error is stored too with timers, and rejects the worker without. */
    method TaskSettles(w: nat, outcome: Outcome)
      requires w < |workers| && workers[w].Running? && workers[w].i < |results|
      modifies this
      ensures Some(View()) == Next(config, old(View()), Settle(w, outcome))
    {
      var i := workers[w].i;
      if outcome.Thrown? && !config.limited {
        workers := workers[w := Rejected(i)];
        return;
      }
      results, workers := results[i := Some(outcome)], workers[w := Ready];
    }
  }
}
