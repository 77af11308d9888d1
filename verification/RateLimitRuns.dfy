/** Every interleaving of calls from all instances and of cleanups. */
module RateLimitRuns {
  import opened Common
  import opened RateLimit

  /** `at` is the database's time of the statement, `clock` what the calling instance read. */
  datatype Step =
    | Call(key: string, limit: int, window: int, clock: nat, at: int)
    | Cleanup(at: int)

  function Next(rows: Rows, step: Step): Rows {
    match step
    case Call(key, limit, window, clock, _) =>
      if ValidCall(key, limit, window) then AfterCall(rows, key, window, clock) else rows
    case Cleanup(at) => AfterCleanup(rows, at)
  }

  function Run(steps: seq<Step>): Rows {
    if steps == [] then map[] else Next(Run(steps[..|steps| - 1]), steps[|steps| - 1])
  }

  /** The answer that the last step of a run gave. */
  predicate LastAdmitted(steps: seq<Step>)
    requires steps != [] && steps[|steps| - 1].Call?
  {
    var last := steps[|steps| - 1];
    && ValidCall(last.key, last.limit, last.window)
    && Counted(Run(steps[..|steps| - 1]), last.key, Start(last.clock, last.window),
               Stored(Start(last.clock, last.window) + last.window)).count <= last.limit
  }

  predicate CallIn(step: Step, key: string, start: int) {
    step.Call? && ValidCall(step.key, step.limit, step.window) && step.key == key
        && Start(step.clock, step.window) == start
  }

  /** Calls for a key that fall into the aligned window at `start`. */
  function Calls(steps: seq<Step>, key: string, start: int): nat {
    if steps == [] then 0
    else Calls(steps[..|steps| - 1], key, start) + if CallIn(steps[|steps| - 1], key, start) then 1 else 0
  }

  function Admitted(steps: seq<Step>, key: string, start: int): nat {
    if steps == [] then 0
    else Admitted(steps[..|steps| - 1], key, start)
         + if CallIn(steps[|steps| - 1], key, start) && LastAdmitted(steps) then 1 else 0
  }

  /** Calls of a key whose clock reading lies in a span, and how many of them were admitted. */
  function AdmittedDuring(steps: seq<Step>, key: string, from: int, to: int): nat {
    if steps == [] then 0
    else
      var last := steps[|steps| - 1];
      AdmittedDuring(steps[..|steps| - 1], key, from, to)
      + if last.Call? && last.key == key && from <= last.clock < to && LastAdmitted(steps) then 1 else 0
  }

  /** A key belongs to one route, which fixes its limit and its window. */
  predicate Uniform(steps: seq<Step>, key: string, limit: int, window: int) {
    forall i :: 0 <= i < |steps| && steps[i].Call? && steps[i].key == key ==>
        steps[i].limit == limit && steps[i].window == window
  }

  /** Database time counts microseconds and does not run backwards, and no instance lags it by more than `lag`. */
  predicate Clocks(steps: seq<Step>, lag: int) {
    && (forall i :: 0 <= i < |steps| ==> steps[i].at % MICROSECOND == 0)
    && (forall i, j :: 0 <= i < j < |steps| ==> steps[i].at <= steps[j].at)
    && (forall i :: 0 <= i < |steps| && steps[i].Call? ==> steps[i].clock >= steps[i].at - lag)
  }

  /**
   The lag that cleanups forgive: the grace of five minutes, one microsecond and the stored fraction that alignment
   drops.
   */
  function Tolerance(window: int): (lag: int)
    requires window >= SECOND
    ensures lag > GRACE
  {
    GRACE + MICROSECOND + (Stored(window) - Aligned(window))
  }

  /** A stored row tells the number of calls; a row that is gone can get no more of them. */
  ghost predicate Faithful(steps: seq<Step>, key: string, window: int, start: int) {
    if (key, start) in Run(steps)
    then Run(steps)[(key, start)] == RateLimit.Window(Calls(steps, key, start), Stored(start + window))
    else Calls(steps, key, start) == 0 || (steps != [] && Stored(start + window) < steps[|steps| - 1].at - GRACE)
  }

  lemma Multiple(a: int, b: int)
    requires a % MICROSECOND == 0 && b % MICROSECOND == 0 && a < b + MICROSECOND
    ensures a <= b
  {
  }

  lemma StoredShifts(clock: nat, window: int)
    requires window >= SECOND
    ensures Stored(Start(clock, window) + window) == Start(clock, window) + Stored(window)
    ensures Start(clock, window) % MICROSECOND == 0
  {
    var n := ((clock / SECOND) / (window / SECOND)) * (window / SECOND);
    assert Start(clock, window) == n * SECOND == (n * 1_000_000) * MICROSECOND;
    hide Start;
  }

  /** A window that a call can still be counted in is not old enough for a cleanup. */
  lemma LiveIsKept(clock: nat, window: int, lag: int, at: int)
    requires window >= SECOND && lag <= Tolerance(window) && at % MICROSECOND == 0 && clock >= at - lag
    ensures Stored(Start(clock, window) + window) >= at - GRACE
  {
    StoredShifts(clock, window);
    StartContains(clock, window);
    hide Start, Aligned, Stored;
    Multiple(at - GRACE, Start(clock, window) + Stored(window));
  }

  lemma CallStaysFaithful(steps: seq<Step>, key: string, limit: int, window: int, lag: int, start: int)
    requires ValidCall(key, limit, window) && steps != [] && Clocks(steps, lag) && lag <= Tolerance(window)
    requires Uniform(steps, key, limit, window)
    requires steps[|steps| - 1].Call? && Faithful(steps[..|steps| - 1], key, window, start)
    ensures Faithful(steps, key, window, start)
  {
    hide Start;
    var prior, last := steps[..|steps| - 1], steps[|steps| - 1];
    if CallIn(last, key, start) {
      LiveIsKept(last.clock, window, lag, last.at);
      if (key, start) !in Run(prior) && prior != [] {
        assert prior[|prior| - 1].at <= last.at;
        assert Calls(prior, key, start) == 0;
      }
    } else if (key, start) !in Run(prior) && prior != [] {
      assert prior[|prior| - 1].at <= last.at;
    }
  }

  lemma CleanupStaysFaithful(steps: seq<Step>, key: string, window: int, lag: int, start: int)
    requires steps != [] && Clocks(steps, lag) && steps[|steps| - 1].Cleanup?
    requires Faithful(steps[..|steps| - 1], key, window, start)
    ensures Faithful(steps, key, window, start)
  {
    var prior := steps[..|steps| - 1];
    if (key, start) !in Run(prior) && prior != [] {
      assert prior[|prior| - 1].at <= steps[|steps| - 1].at;
    }
  }

  lemma {:induction false} RunIsFaithful(steps: seq<Step>, key: string, limit: int, window: int, lag: int, start: int)
    requires ValidCall(key, limit, window) && Clocks(steps, lag) && lag <= Tolerance(window)
    requires Uniform(steps, key, limit, window)
    ensures Faithful(steps, key, window, start)
  {
    hide Next, Faithful;
    if steps == [] {
      NothingIsFaithful(key, window, start);
    } else {
      RunIsFaithful(steps[..|steps| - 1], key, limit, window, lag, start);
      if steps[|steps| - 1].Call? {
        CallStaysFaithful(steps, key, limit, window, lag, start);
      } else {
        CleanupStaysFaithful(steps, key, window, lag, start);
      }
    }
  }

  lemma NothingIsFaithful(key: string, window: int, start: int)
    ensures Faithful([], key, window, start)
  {
  }

  /** The last call of a run is admitted exactly when it is among the first `limit` of its window. */
  lemma LastIsAmongFirst(steps: seq<Step>, key: string, limit: int, window: int, lag: int, start: int)
    requires ValidCall(key, limit, window) && Clocks(steps, lag) && lag <= Tolerance(window)
    requires Uniform(steps, key, limit, window)
    requires steps != [] && CallIn(steps[|steps| - 1], key, start)
    ensures LastAdmitted(steps) <==> Calls(steps, key, start) <= limit
  {
    hide Start;
    var prior, last := steps[..|steps| - 1], steps[|steps| - 1];
    RunIsFaithful(prior, key, limit, window, lag, start);
    LiveIsKept(last.clock, window, lag, last.at);
    if prior != [] {
      assert prior[|prior| - 1].at <= last.at;
    }
  }

  /** Of all calls for one key in one aligned window exactly the first `limit` are admitted, whoever makes them. */
  lemma {:induction false} FirstCallsAreAdmitted(steps: seq<Step>, key: string, limit: int, window: int, lag: int,
                                                 start: int)
    requires ValidCall(key, limit, window) && Clocks(steps, lag) && lag <= Tolerance(window)
    requires Uniform(steps, key, limit, window)
    ensures Admitted(steps, key, start) == if Calls(steps, key, start) <= limit then Calls(steps, key, start) else limit
  {
    hide LastAdmitted, CallIn;
    if steps != [] {
      FirstCallsAreAdmitted(steps[..|steps| - 1], key, limit, window, lag, start);
      if CallIn(steps[|steps| - 1], key, start) {
        LastIsAmongFirst(steps, key, limit, window, lag, start);
      }
    }
  }

  // ----- Spans of time -----

  /** All readings in the span fall into one of two windows. */
  ghost predicate TwoWindows(window: int, from: int, to: int, one: int, two: int)
    requires window >= SECOND
  {
    forall clock: nat :: from <= clock < to ==> Start(clock, window) == one || Start(clock, window) == two
  }

  lemma {:induction false} DuringIsWithin(steps: seq<Step>, key: string, limit: int, window: int, from: int, to: int,
                                          one: int, two: int)
    requires ValidCall(key, limit, window) && Uniform(steps, key, limit, window)
    requires TwoWindows(window, from, to, one, two)
    ensures AdmittedDuring(steps, key, from, to) <= Admitted(steps, key, one) + Admitted(steps, key, two)
  {
    hide LastAdmitted, Start;
    if steps != [] {
      DuringIsWithin(steps[..|steps| - 1], key, limit, window, from, to, one, two);
    }
  }

  /** A span up to one nanosecond longer than the aligned length touches two windows at most. */
  lemma ShortSpanTouchesTwo(window: int, from: nat, to: int)
    requires window >= SECOND && to <= from + Aligned(window) + 1
    ensures TwoWindows(window, from, to, Start(from, window), Start(from, window) + Aligned(window))
  {
    hide Start, Aligned;
    forall clock: nat | from <= clock < to
      ensures Start(clock, window) == Start(from, window)
              || Start(clock, window) == Start(from, window) + Aligned(window)
    {
      StartContains(from, window);
      StartContains(clock, window);
      if Start(from, window) < Start(clock, window) {
        StartsAreApart(from, clock, window);
        StartIsNext(from, clock, window);
      } else if Start(clock, window) < Start(from, window) {
        StartsAreApart(clock, from, window);
        assert false;
      }
    }
  }

  lemma StartIsMultiple(clock: nat, window: int) returns (q: nat)
    requires window >= SECOND
    ensures Start(clock, window) == q * Aligned(window)
  {
    q := (clock / SECOND) / (window / SECOND);
    Associate(q, window / SECOND);
  }

  lemma StartIsNext(a: nat, b: nat, window: int)
    requires window >= SECOND && Start(a, window) + Aligned(window) <= Start(b, window) <= a + Aligned(window)
    ensures Start(b, window) == Start(a, window) + Aligned(window)
  {
    StartContains(a, window);
    var p := StartIsMultiple(a, window);
    var q := StartIsMultiple(b, window);
    hide Start, Aligned;
    var length := Aligned(window);
    Between(p + 1, q, length);
  }

  lemma Between(p: int, q: int, length: int)
    requires length >= 1 && p * length <= q * length < p * length + length
    ensures p == q
  {
    assert (p + 1) * length == p * length + length;
    Ordered(q, p + 1, length);
    Ordered(p, q + 1, length);
  }

  lemma StartAt(clock: nat, window: int, p: nat)
    requires window >= SECOND && p * Aligned(window) <= clock < p * Aligned(window) + Aligned(window)
    ensures Start(clock, window) == p * Aligned(window)
  {
    StartContains(clock, window);
    var q := StartIsMultiple(clock, window);
    hide Start, Aligned;
    var length := Aligned(window);
    assert (p + 1) * length == p * length + length && (q + 1) * length == q * length + length;
    Ordered(p, q + 1, length);
    Ordered(q, p + 1, length);
  }

  /** Any span of one aligned window length admits at most twice the limit. */
  lemma AtMostTwiceTheLimit(steps: seq<Step>, key: string, limit: int, window: int, lag: int, from: nat, to: int)
    requires ValidCall(key, limit, window) && Clocks(steps, lag) && lag <= Tolerance(window)
    requires Uniform(steps, key, limit, window)
    requires to <= from + Aligned(window) + 1
    ensures AdmittedDuring(steps, key, from, to) <= 2 * limit
  {
    hide Start, Aligned;
    ShortSpanTouchesTwo(window, from, to);
    var one, two := Start(from, window), Start(from, window) + Aligned(window);
    DuringIsWithin(steps, key, limit, window, from, to, one, two);
    FirstCallsAreAdmitted(steps, key, limit, window, lag, one);
    FirstCallsAreAdmitted(steps, key, limit, window, lag, two);
  }

  ghost predicate Bounded(steps: seq<Step>, key: string, limit: int, window: int, from: nat) {
    ValidCall(key, limit, window) && Clocks(steps, Tolerance(window)) && Uniform(steps, key, limit, window) ==>
      AdmittedDuring(steps, key, from, from + window) <= 2 * limit
  }

  /** Three calls in three windows, the first at the end of its window and the last at the start of its own. */
  function Edges(window: int): seq<Step>
    requires window >= SECOND
  {
    var length := Aligned(window);
    [Call("k", 1, window, length - 1, 0), Call("k", 1, window, length, 0), Call("k", 1, window, 2 * length, 0)]
  }

  lemma FreshWindowAdmits(steps: seq<Step>, window: int, start: int)
    requires window >= SECOND && Clocks(steps, 0) && Uniform(steps, "k", 1, window)
    requires steps != [] && CallIn(steps[|steps| - 1], "k", start) && Calls(steps[..|steps| - 1], "k", start) == 0
    ensures LastAdmitted(steps)
  {
    hide LastAdmitted;
    LastIsAmongFirst(steps, "k", 1, window, 0, start);
  }

  lemma EdgesAreAdmitted(window: int)
    requires window >= SECOND && window >= Aligned(window) + 2
    ensures var steps := Edges(window);
            Clocks(steps, 0) && Uniform(steps, "k", 1, window)
            && AdmittedDuring(steps, "k", Aligned(window) - 1, Aligned(window) - 1 + window) == 3
  {
    var length := Aligned(window);
    var steps := Edges(window);
    StartAt(length - 1, window, 0);
    StartAt(length, window, 1);
    StartAt(2 * length, window, 2);
    hide Start, LastAdmitted, Aligned, Run;
    var one, two := steps[..1], steps[..2];
    assert steps[..3] == steps && two[..1] == one && one[..0] == [] && steps[..2] == two;
    assert Calls([], "k", length) == 0 && Calls([], "k", 2 * length) == 0;
    assert Calls(one, "k", length) == 0 && Calls(one, "k", 2 * length) == 0;
    assert Calls(two, "k", 2 * length) == 0;
    FreshWindowAdmits(one, window, 0);
    FreshWindowAdmits(two, window, length);
    FreshWindowAdmits(steps, window, 2 * length);
    assert AdmittedDuring(one, "k", length - 1, length - 1 + window) == 1;
    assert AdmittedDuring(two, "k", length - 1, length - 1 + window) == 2;
  }

  /**
   A span of the requested window admits at most twice the limit exactly when the window is whole seconds, give or
   take one nanosecond.
   */
  lemma WindowSpanIsExact(window: int)
    requires window >= SECOND
    ensures (forall steps, key, limit, from: nat :: Bounded(steps, key, limit, window, from)) <==>
            window <= Aligned(window) + 1
  {
    hide Clocks, Uniform, AdmittedDuring, Edges, Aligned;
    if window <= Aligned(window) + 1 {
      forall steps, key, limit, from: nat
        ensures Bounded(steps, key, limit, window, from)
      {
        if ValidCall(key, limit, window) && Clocks(steps, Tolerance(window)) && Uniform(steps, key, limit, window) {
          AtMostTwiceTheLimit(steps, key, limit, window, Tolerance(window), from, from + window);
        }
      }
    } else {
      EdgesAreAdmitted(window);
      ClocksWithin(Edges(window), 0, Tolerance(window));
      assert !Bounded(Edges(window), "k", 1, window, Aligned(window) - 1);
    }
  }

  /** A call at the end of its window, a cleanup when that window has just become old enough, and the call again. */
  function Late(window: int): seq<Step>
    requires window >= SECOND
  {
    var clock, at := Aligned(window) - 1, Stored(window) + GRACE + MICROSECOND;
    [Call("k", 1, window, clock, 0), Cleanup(at), Call("k", 1, window, clock, at)]
  }

  /** A clock that lags one nanosecond more than the tolerance lets a cleanup reset its live window. */
  lemma LateIsAdmittedAgain(window: int)
    requires window >= SECOND
    ensures Clocks(Late(window), Tolerance(window) + 1) && Uniform(Late(window), "k", 1, window)
    ensures Admitted(Late(window), "k", 0) == 2
  {
    var length := Aligned(window);
    StartAt(length - 1, window, 0);
    hide Start, Aligned;
    var steps := Late(window);
    var one, two := steps[..1], steps[..2];
    assert steps[..3] == steps && two[..1] == one && one[..0] == [];
    assert Run(one) == map[("k", 0) := RateLimit.Window(1, Stored(window))];
    assert Run(two) == map[];
    assert Admitted(one, "k", 0) == 1;
    assert Admitted(two, "k", 0) == 1;
  }

  ghost predicate Limited(steps: seq<Step>, key: string, limit: int, window: int, lag: int, start: int) {
    ValidCall(key, limit, window) && Clocks(steps, lag) && Uniform(steps, key, limit, window) ==>
      Admitted(steps, key, start) <= limit
  }

  lemma ClocksWithin(steps: seq<Step>, lag: int, more: int)
    requires Clocks(steps, lag) && lag <= more
    ensures Clocks(steps, more)
  {
  }

  /**
   The limit of a window holds for every run exactly as long as no instance lags the database by more than the
   tolerance.
   */
  lemma LagIsExact(window: int, lag: int)
    requires window >= SECOND
    ensures (forall steps, key, limit, start :: Limited(steps, key, limit, window, lag, start)) <==>
            lag <= Tolerance(window)
  {
    hide Clocks, Uniform, Admitted, Late, Aligned, Tolerance, Calls;
    if lag <= Tolerance(window) {
      forall steps, key, limit, start
        ensures Limited(steps, key, limit, window, lag, start)
      {
        if ValidCall(key, limit, window) && Clocks(steps, lag) && Uniform(steps, key, limit, window) {
          FirstCallsAreAdmitted(steps, key, limit, window, lag, start);
        }
      }
    } else {
      LateIsAdmittedAgain(window);
      ClocksWithin(Late(window), Tolerance(window) + 1, lag);
      assert !Limited(Late(window), "k", 1, window, lag, 0);
    }
  }
}
