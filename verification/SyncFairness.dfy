/** No fork starves, as long as fewer attempts than the budget leave their clocks alone. */
module SyncFairness {
  import opened Basics
  import opened Text
  import opened Lists
  import opened SyncSpec
  import opened SyncTheorems

  function Clock(state: map<Fork, Entry>, fork: Fork): int {
    if fork in state then state[fork].lastSync else 0
  }

  /** The forks attempted since the log was `from` long. */
  function Since(log: seq<Attempt>, from: nat): set<Fork> {
    set k | from <= k < |log| :: log[k].fork
  }

  /** The attempt moves the fork's clock past `now`. */
  predicate MovesClock(o: Outcome, now: int) {
    match o
    case Synced(_, _, _, at, _) => at > now
    case PrOpened(at) => at > now
    case ConflictFailed(at, _) => at > now
    case PushFailed(at, _) => at > now
    case Stamped(at) => at > now
    case Threw => false
  }

  /** The forks whose attempt in this tick, if made, would leave the clock where it is. */
  function StuckForks(forks: seq<Fork>, views: Fork -> View, now: int): set<Fork> {
    set g | g in forks && !MovesClock(views(g).outcome, now)
  }

  /** What the first `n` turns of a sweep have done: attempts of that many different forks, the clocks moved of
      those whose attempts do that, and every other clock untouched. */
  ghost predicate Swept0(s: Sweep, r: Sweep, ordered: seq<Fork>, n: nat, views: Fork -> View, now: int)
    requires n <= |ordered|
  {
    && s.m.h.log <= r.m.h.log && |r.m.h.log| - |s.m.h.log| == s.budget - r.budget
    && Since(r.m.h.log, |s.m.h.log|) <= Firsts(ordered, n)
    && |Since(r.m.h.log, |s.m.h.log|)| == s.budget - r.budget
    && Moved(s.m.state, r.m.state, Since(r.m.h.log, |s.m.h.log|), views, now)
  }

  /** Only clocks of `done` changed, and those the attempt moves are past `now`. */
  ghost predicate Moved(before: map<Fork, Entry>, after: map<Fork, Entry>, done: set<Fork>, views: Fork -> View, now: int) {
    && (forall g :: g !in done ==> Clock(after, g) == Clock(before, g))
    && (forall g :: g in done && MovesClock(views(g).outcome, now) ==> Clock(after, g) > now)
  }

  function Firsts(ordered: seq<Fork>, n: nat): set<Fork>
    requires n <= |ordered|
  {
    set i | 0 <= i < n :: ordered[i]
  }

  lemma SinceMore(log: seq<Attempt>, a: Attempt, from: nat)
    requires from <= |log|
    ensures Since(log + [a], from) == Since(log, from) + {a.fork}
  {
    var more := log + [a];
    assert more[|log|] == a;
    forall g | g in Since(log, from) + {a.fork} ensures g in Since(more, from) {
      if g != a.fork {
        var k :| from <= k < |log| && log[k].fork == g;
        assert more[k].fork == g;
      }
    }
  }

  lemma FirstsMore(ordered: seq<Fork>, n: nat)
    requires n < |ordered|
    ensures Firsts(ordered, n + 1) == Firsts(ordered, n) + {ordered[n]}
    ensures Distinct(ordered) ==> ordered[n] !in Firsts(ordered, n)
  {
  }

  lemma AttemptSweeps(s: Sweep, r: Sweep, ordered: seq<Fork>, n: nat, views: Fork -> View, now: int)
    requires n < |ordered| && Distinct(ordered) && views(ordered[n]).info.Some? && Swept0(s, r, ordered, n, views, now)
    ensures Swept0(s, Sweep(Attempted(r.m, ordered[n], views(ordered[n])), r.budget - 1), ordered, n + 1, views, now)
  {
    var f, v := ordered[n], views(ordered[n]);
    var done := Since(r.m.h.log, |s.m.h.log|);
    FirstsMore(ordered, n);
    SinceMore(r.m.h.log, Attempt(f, v.info.value.upstreamSha, v.outcome), |s.m.h.log|);
    assert f !in done;
    OneClockMoves(s.m.state, r.m, f, views, done, now);
  }

  lemma OneClockMoves(before: map<Fork, Entry>, m: Model, f: Fork, views: Fork -> View, done: set<Fork>, now: int)
    requires views(f).info.Some? && Moved(before, m.state, done, views, now)
    ensures Moved(before, Attempted(m, f, views(f)).state, done + {f}, views, now)
  {
    var after := Attempted(m, f, views(f)).state;
    assert MovesClock(views(f).outcome, now) ==> Clock(after, f) > now;
    assert forall g :: g != f ==> Clock(after, g) == Clock(m.state, g);
  }

  lemma VisitSweeps(s: Sweep, r: Sweep, ordered: seq<Fork>, n: nat, cfgs: Fork -> Config, views: Fork -> View, now: int)
    requires n < |ordered| && Distinct(ordered) && Swept0(s, r, ordered, n, views, now)
    ensures Swept0(s, Visit(r, ordered[n], cfgs(ordered[n]), views(ordered[n]), now, false), ordered, n + 1, views, now)
  {
    var f := ordered[n];
    var next := Visit(r, f, cfgs(f), views(f), now, false);
    if next.budget != r.budget {
      AttemptSweeps(s, r, ordered, n, views, now);
    } else {
      FirstsMore(ordered, n);
      assert next.m.h == r.m.h;
      assert forall g :: Clock(next.m.state, g) == Clock(r.m.state, g);
    }
  }

  lemma {:induction false} SweepingSweeps(s: Sweep, ordered: seq<Fork>, n: nat, cfgs: Fork -> Config, views: Fork -> View, now: int)
    requires n <= |ordered| && Distinct(ordered)
    ensures Swept0(s, Sweeping(s, ordered, n, cfgs, views, now, false), ordered, n, views, now)
  {
    if n > 0 {
      SweepingSweeps(s, ordered, n - 1, cfgs, views, now);
      VisitSweeps(s, Sweeping(s, ordered, n - 1, cfgs, views, now, false), ordered, n - 1, cfgs, views, now);
    } else {
      assert Since(s.m.h.log, |s.m.h.log|) == {};
    }
  }

  /** Nothing done to other forks touches this one's entry. */
  lemma {:induction false} UntouchedBefore(s: Sweep, ordered: seq<Fork>, n: nat, cfgs: Fork -> Config, views: Fork -> View, now: int, f: Fork)
    requires n <= |ordered| && f !in Firsts(ordered, n)
    ensures Get(Sweeping(s, ordered, n, cfgs, views, now, false).m.state, f) == Get(s.m.state, f)
  {
    if n > 0 {
      FirstsMore(ordered, n - 1);
      UntouchedBefore(s, ordered, n - 1, cfgs, views, now, f);
    }
  }

  /** An eligible fork is attempted, or the whole budget goes to different forks in front of it. */
  lemma AttemptedOrSpent(s: Sweep, ordered: seq<Fork>, cfgs: Fork -> Config, views: Fork -> View, now: int, f: Fork, p: nat)
    requires p < |ordered| && ordered[p] == f && Distinct(ordered)
    requires s.budget >= 0 && Eligible(Get(s.m.state, f), cfgs(f), views(f), now)
    ensures var r := SweptAll(s, ordered, cfgs, views, now, false);
            var done := Since(r.m.h.log, |s.m.h.log|);
            && s.m.h.log <= r.m.h.log
            && (f in done || (|done| == s.budget && done <= Firsts(ordered, p)))
            && Moved(s.m.state, r.m.state, done, views, now)
  {
    var before := Sweeping(s, ordered, p, cfgs, views, now, false);
    SweepingSweeps(s, ordered, p, cfgs, views, now);
    SpendsBudget(s, ordered, p, cfgs, views, now, false);
    if p == 0 {
      assert f !in Firsts(ordered, p);
    } else {
      FirstsMore(ordered, p);
    }
    UntouchedBefore(s, ordered, p, cfgs, views, now, f);
    SweepingSweeps(s, ordered, |ordered|, cfgs, views, now);
    var r := SweptAll(s, ordered, cfgs, views, now, false);
    if before.budget <= 0 {
      SpentStays(s, ordered, p, cfgs, views, now);
    } else {
      var at := Sweeping(s, ordered, p + 1, cfgs, views, now, false);
      assert at.m.h.log == before.m.h.log + [Attempt(f, views(f).info.value.upstreamSha, views(f).outcome)];
      LogGrows(s, ordered, p + 1, |ordered|, cfgs, views, now);
      assert r.m.h.log[|before.m.h.log|] == at.m.h.log[|before.m.h.log|];
    }
  }

  lemma {:induction false} LogGrows(s: Sweep, ordered: seq<Fork>, n: nat, k: nat, cfgs: Fork -> Config, views: Fork -> View, now: int)
    requires n <= k <= |ordered|
    ensures Sweeping(s, ordered, n, cfgs, views, now, false).m.h.log <= Sweeping(s, ordered, k, cfgs, views, now, false).m.h.log
  {
    if n < k {
      LogGrows(s, ordered, n, k - 1, cfgs, views, now);
    }
  }

  /** The other forks whose turn may come before this one's. */
  function Older(state: map<Fork, Entry>, forks: set<Fork>, f: Fork): set<Fork> {
    set g | g in forks && g != f && Clock(state, g) <= Clock(state, f)
  }

  function Members(forks: seq<Fork>): set<Fork> {
    set g | g in forks
  }

  /** One tick of the fork's wait: it is due all along, and at most `k` attempts of the tick would move no clock. */
  ghost predicate Due(m: Model, t: Tick, cfgs: Fork -> Config, k: nat, forks: set<Fork>, f: Fork) {
    && t.only.None? && Distinct(t.forks) && Members(t.forks) == forks && f in forks
    && |StuckForks(t.forks, t.views, t.now)| <= k
    && Eligible(Get(Seen(m, t, cfgs).state, f), cfgs(f), t.views(f), t.now)
    && Clock(m.state, f) <= t.now
  }

  lemma OrderedFacts(state: map<Fork, Entry>, forks: seq<Fork>, f: Fork)
    requires Distinct(forks) && f in forks
    ensures var ordered := Ordered(state, forks);
            && Distinct(ordered) && |ordered| == |forks| && (forall g :: g in ordered <==> g in forks)
            && (forall i, j :: 0 <= i < j < |ordered| ==> Clock(state, ordered[i]) <= Clock(state, ordered[j]))
  {
    SortIsStable(Staleness(state), forks, 0);
    SortKeepsDistinct(Staleness(state), forks, |forks|);
    var ordered := Ordered(state, forks);
    forall i, j | 0 <= i < j < |ordered| ensures Clock(state, ordered[i]) <= Clock(state, ordered[j]) {
      assert Staleness(state)(ordered[i]) >= Staleness(state)(ordered[j]);
    }
  }

  lemma {:induction false} SortKeepsDistinct(key: Fork -> int, s: seq<Fork>, n: nat)
    requires n <= |s| && Distinct(s)
    ensures Distinct(SortTo(key, s, n)) && forall g :: g in SortTo(key, s, n) <==> g in s[..n]
  {
    if n > 0 {
      SortKeepsDistinct(key, s, n - 1);
      assert s[n - 1] !in s[..n - 1];
      InsertAt(s[n - 1], SortTo(key, s, n - 1), Place(key, s[n - 1], SortTo(key, s, n - 1), 0));
      assert s[..n] == s[..n - 1] + [s[n - 1]];
    }
  }

  /** A tick either attempts the fork or moves as many forks as the budget allows out of its way, less those that
      cannot be moved. */
  lemma TickMakesWay(m: Model, t: Tick, cfgs: Fork -> Config, b: nat, k: nat, forks: set<Fork>, f: Fork)
    requires k <= b && Due(m, t, cfgs, k, forks, f)
    ensures var r := Ticked(m, t, cfgs, b);
            && m.h.log <= r.h.log
            && (f in Since(r.h.log, |m.h.log|) || |Older(r.state, forks, f)| + (b - k) <= |Older(m.state, forks, f)|)
  {
    var seen := Seen(m, t, cfgs);
    SeenKeepsClocks(m, t, cfgs);
    ListedAll(t);
    var ordered := Ordered(seen.state, t.forks);
    OrderedFacts(seen.state, t.forks, f);
    var p :| 0 <= p < |ordered| && ordered[p] == f;
    AttemptedOrSpent(Sweep(seen, b), ordered, cfgs, t.views, t.now, f, p);
    var r := Ticked(m, t, cfgs, b);
    var done := Since(r.h.log, |m.h.log|);
    if f !in done {
      var stuck := StuckForks(t.forks, t.views, t.now);
      forall g | g in done ensures g in Older(m.state, forks, f) && (g in stuck || g !in Older(r.state, forks, f)) {
        var i :| 0 <= i < p && ordered[i] == g;
        assert g in t.forks;
      }
      Smaller(Older(r.state, forks, f), Older(m.state, forks, f), done, stuck);
    }
  }

  lemma Smaller(after: set<Fork>, before: set<Fork>, done: set<Fork>, stuck: set<Fork>)
    requires done <= before && after <= before && forall g :: g in done && g !in stuck ==> g !in after
    ensures |after| + |done| <= |before| + |stuck|
  {
    var moved := done - stuck;
    assert |before - moved| + |moved| == |before| by {
      assert before == (before - moved) + moved;
    }
    SubsetIsSmaller(after, before - moved);
    assert done == moved + (done * stuck);
    SubsetIsSmaller(done * stuck, stuck);
  }

  lemma SeenKeepsClocks(m: Model, t: Tick, cfgs: Fork -> Config)
    ensures Seen(m, t, cfgs).h.log == m.h.log
    ensures forall g: Fork :: Clock(Seen(m, t, cfgs).state, g) == Clock(m.state, g)
  {
    VerifyingKeepsLog(m, t.keys, |t.keys|, cfgs, t.views);
    forall g: Fork ensures Clock(Seen(m, t, cfgs).state, g) == Clock(m.state, g) {
      VerifyingKeeps(m, t.keys, |t.keys|, cfgs, t.views, g);
    }
  }

  lemma ListedAll(t: Tick)
    requires t.only.None?
    ensures Listed(t) == t.forks
  {
    FilterAll((fork: Fork) => Wanted(t.only, fork), t.forks);
  }

  lemma {:induction false} FilterAll(keep: Fork -> bool, s: seq<Fork>)
    requires forall x :: keep(x)
    ensures Filter(keep, s) == s
  {
    if s != [] {
      FilterAll(keep, s[1..]);
    }
  }

  ghost predicate HadItsTurn(m: Model, r: Model, f: Fork) {
    m.h.log <= r.h.log && f in Since(r.h.log, |m.h.log|)
  }

  /** In each of the first `n` ticks the fork is due, unless it has had its turn before. */
  ghost predicate DueUntilServed(m: Model, ticks: seq<Tick>, n: nat, cfgs: Fork -> Config, b: nat, k: nat, forks: set<Fork>, f: Fork)
    requires n <= |ticks|
  {
    n == 0
    || (DueUntilServed(m, ticks, n - 1, cfgs, b, k, forks, f)
        && (HadItsTurn(m, Run(m, ticks, n - 1, cfgs, b), f) || Due(Run(m, ticks, n - 1, cfgs, b), ticks[n - 1], cfgs, k, forks, f)))
  }

  /** The fork has had its turn, or `gone` forks are out of its way. */
  ghost predicate Nearer(m: Model, r: Model, forks: set<Fork>, f: Fork, gone: nat) {
    && m.h.log <= r.h.log
    && (HadItsTurn(m, r, f) || |Older(r.state, forks, f)| + gone <= |Older(m.state, forks, f)|)
  }

  lemma TickBringsNearer(m: Model, before: Model, t: Tick, cfgs: Fork -> Config, b: nat, k: nat, forks: set<Fork>, f: Fork, gone: nat)
    requires k <= b && Nearer(m, before, forks, f, gone) && (HadItsTurn(m, before, f) || Due(before, t, cfgs, k, forks, f))
    ensures Nearer(m, Ticked(before, t, cfgs, b), forks, f, gone + (b - k))
  {
    var r := Ticked(before, t, cfgs, b);
    BudgetHolds(before, t, cfgs, b);
    SinceSplits(m.h.log, before.h.log, r.h.log);
    if !HadItsTurn(m, before, f) {
      TickMakesWay(before, t, cfgs, b, k, forks, f);
    }
  }

  /** n budgets. */
  function Budgets(n: nat, b: nat): nat {
    if n == 0 then 0 else Budgets(n - 1, b) + b
  }

  lemma {:induction false} BudgetsIs(n: nat, b: nat)
    ensures Budgets(n, b) == n * b
  {
    if n > 0 {
      BudgetsIs(n - 1, b);
      assert n * b == (n - 1) * b + b;
    }
  }

  lemma {:induction false} BudgetsReach(n: nat, b: nat, size: nat)
    requires n * b >= size
    ensures Budgets(n, b) >= size
  {
    BudgetsIs(n, b);
  }

  /** While the fork waits, each tick takes that many forks out of its way. */
  lemma {:induction false} QueueShrinks(m: Model, ticks: seq<Tick>, n: nat, cfgs: Fork -> Config, b: nat, k: nat, forks: set<Fork>, f: Fork)
    requires k <= b && n <= |ticks| && DueUntilServed(m, ticks, n, cfgs, b, k, forks, f)
    ensures Nearer(m, Run(m, ticks, n, cfgs, b), forks, f, Budgets(n, b - k))
  {
    if n > 0 {
      QueueShrinks(m, ticks, n - 1, cfgs, b, k, forks, f);
      TickBringsNearer(m, Run(m, ticks, n - 1, cfgs, b), ticks[n - 1], cfgs, b, k, forks, f, Budgets(n - 1, b - k));
    }
  }

  lemma SinceSplits(a: seq<Attempt>, b: seq<Attempt>, c: seq<Attempt>)
    requires a <= b <= c
    ensures Since(c, |a|) == Since(b, |a|) + Since(c, |b|)
  {
    forall g | g in Since(b, |a|) + Since(c, |b|) ensures g in Since(c, |a|) {
      if g in Since(b, |a|) {
        var k :| |a| <= k < |b| && b[k].fork == g;
        assert c[k].fork == g;
      }
    }
  }

  /** Starvation freedom: among n forks, with fewer than b attempts a tick that move no clock, say k, a fork that is due
      until its turn comes is attempted within n / (b - k) ticks, rounded up, whatever the others do. */
  lemma {:induction false} NoForkStarves(m: Model, ticks: seq<Tick>, cfgs: Fork -> Config, b: nat, k: nat, forks: set<Fork>, f: Fork)
    requires k < b && f in forks && |ticks| * (b - k) >= |forks|
    requires DueUntilServed(m, ticks, |ticks|, cfgs, b, k, forks, f)
    ensures HadItsTurn(m, Run(m, ticks, |ticks|, cfgs, b), f)
  {
    BudgetsReach(|ticks|, b - k, |forks|);
    ServedInTime(m, ticks, |ticks|, cfgs, b, k, forks, f);
  }

  lemma {:induction false} ServedInTime(m: Model, ticks: seq<Tick>, n: nat, cfgs: Fork -> Config, b: nat, k: nat, forks: set<Fork>, f: Fork)
    requires k <= b && f in forks && n <= |ticks| && Budgets(n, b - k) >= |forks|
    requires DueUntilServed(m, ticks, n, cfgs, b, k, forks, f)
    ensures HadItsTurn(m, Run(m, ticks, n, cfgs, b), f)
  {
    QueueShrinks(m, ticks, n, cfgs, b, k, forks, f);
    ServedWhenAllAreGone(m, Run(m, ticks, n, cfgs, b), forks, f, Budgets(n, b - k));
  }

  lemma ServedWhenAllAreGone(m: Model, r: Model, forks: set<Fork>, f: Fork, gone: nat)
    requires f in forks && Nearer(m, r, forks, f, gone) && gone >= |forks|
    ensures HadItsTurn(m, r, f)
  {
    OthersAreFewer(m.state, forks, f);
  }

  lemma OthersAreFewer(state: map<Fork, Entry>, forks: set<Fork>, f: Fork)
    requires f in forks
    ensures |Older(state, forks, f)| < |forks|
  {
    SubsetIsSmaller(Older(state, forks, f), forks - {f});
    assert forks == (forks - {f}) + {f};
  }

  // The other side: as many forks that throw as the budget allows

  /** In this tick each fork of `front` is ready, and its attempt throws before it can write its entry. */
  ghost predicate FrontThrows(entries: map<Fork, Entry>, t: Tick, cfgs: Fork -> Config, front: set<Fork>) {
    forall g :: g in front ==>
      g in t.forks && Throws(Get(entries, g), cfgs(g), t.views(g), t.now)
  }

  /** The forks of `front` are as they were at first, unwatched and staler than `f`, which has not been attempted. */
  ghost predicate Shadowed(first: Model, m: Model, front: set<Fork>, f: Fork) {
    && first.h.log <= m.h.log && f !in Since(m.h.log, |first.h.log|) && Clock(m.state, f) == Clock(first.state, f)
    && (forall g :: g in front ==> Get(m.state, g) == Get(first.state, g))
    && (forall g :: g in front ==> Get(first.state, g).watch.None? && Clock(first.state, g) < Clock(first.state, f))
  }

  /** The fork is ready, and its attempt throws. */
  predicate Throws(e: Entry, cfg: Config, v: View, now: int) {
    Eligible(e, cfg, v, now) && v.outcome == Threw
  }

  /** An attempt that throws costs a place in the budget and changes no entry. */
  lemma ThrowCosts(r: Sweep, f: Fork, cfg: Config, v: View, now: int)
    requires Throws(Get(r.m.state, f), cfg, v, now)
    ensures var next := Visit(r, f, cfg, v, now, false);
            && (if r.budget > 0 then next.budget == r.budget - 1 else next == r)
            && Get(next.m.state, f) == Get(r.m.state, f)
  {
  }

  /** A fork that throws keeps its entry through the sweep. */
  lemma {:induction false} ThrowingStays(s: Sweep, ordered: seq<Fork>, n: nat, cfgs: Fork -> Config, views: Fork -> View, now: int, g: Fork)
    requires n <= |ordered| && Throws(Get(s.m.state, g), cfgs(g), views(g), now)
    ensures Get(Sweeping(s, ordered, n, cfgs, views, now, false).m.state, g) == Get(s.m.state, g)
  {
    if n > 0 {
      ThrowingStays(s, ordered, n - 1, cfgs, views, now, g);
      if ordered[n - 1] == g {
        ThrowCosts(Sweeping(s, ordered, n - 1, cfgs, views, now, false), g, cfgs(g), views(g), now);
      }
    }
  }

  /** The turn of a fork that throws takes one off the budget, if anything is left of it; no turn adds to it. */
  lemma TurnSpends(s: Sweep, ordered: seq<Fork>, n: nat, cfgs: Fork -> Config, views: Fork -> View, now: int, left: int, next: int)
    requires 0 < n <= |ordered|
    requires left == Sweeping(s, ordered, n - 1, cfgs, views, now, false).budget && next == Sweeping(s, ordered, n, cfgs, views, now, false).budget
    ensures next <= left
    ensures Throws(Get(s.m.state, ordered[n - 1]), cfgs(ordered[n - 1]), views(ordered[n - 1]), now) && left > 0 ==> next == left - 1
  {
    var f := ordered[n - 1];
    if Throws(Get(s.m.state, f), cfgs(f), views(f), now) {
      ThrowingStays(s, ordered, n - 1, cfgs, views, now, f);
      ThrowCosts(Sweeping(s, ordered, n - 1, cfgs, views, now, false), f, cfgs(f), views(f), now);
    }
  }

  ghost predicate AllThrow(state: map<Fork, Entry>, front: set<Fork>, cfgs: Fork -> Config, views: Fork -> View, now: int) {
    forall g :: g in front ==> Throws(Get(state, g), cfgs(g), views(g), now)
  }

  /** How many of `front` are among the first `n`. */
  function Passed(front: set<Fork>, ordered: seq<Fork>, n: nat): nat
    requires n <= |ordered|
  {
    if n == 0 then 0 else Passed(front, ordered, n - 1) + if ordered[n - 1] in front then 1 else 0
  }

  /** All of `front` is passed where all of it is among the first `n`. */
  lemma {:induction false} PassedAll(front: set<Fork>, ordered: seq<Fork>, n: nat)
    requires n <= |ordered| && front <= Firsts(ordered, n)
    ensures Passed(front, ordered, n) >= |front|
  {
    if n > 0 {
      var f := ordered[n - 1];
      FirstsMore(ordered, n - 1);
      PassedAll(front - {f}, ordered, n - 1);
      PassedLess(front, f, ordered, n - 1);
      assert front <= (front - {f}) + {f};
    }
  }

  lemma {:induction false} PassedLess(front: set<Fork>, f: Fork, ordered: seq<Fork>, n: nat)
    requires n <= |ordered|
    ensures Passed(front - {f}, ordered, n) <= Passed(front, ordered, n)
  {
    if n > 0 {
      PassedLess(front, f, ordered, n - 1);
    }
  }

  /** Every fork of `front` that had its turn took one off the budget, unless nothing was left. */
  lemma {:induction false} FrontSpends(s: Sweep, ordered: seq<Fork>, n: nat, cfgs: Fork -> Config, views: Fork -> View, now: int, front: set<Fork>)
    requires n <= |ordered| && AllThrow(s.m.state, front, cfgs, views, now)
    ensures var left := Sweeping(s, ordered, n, cfgs, views, now, false).budget;
            left <= 0 || left + Passed(front, ordered, n) <= s.budget
  {
    if n > 0 {
      FrontSpends(s, ordered, n - 1, cfgs, views, now, front);
      TurnSpends(s, ordered, n, cfgs, views, now, Sweeping(s, ordered, n - 1, cfgs, views, now, false).budget,
                 Sweeping(s, ordered, n, cfgs, views, now, false).budget);
    }
  }

  /** So nothing is left when the turn of `f` comes. */
  lemma FrontSpendsAll(s: Sweep, ordered: seq<Fork>, p: nat, cfgs: Fork -> Config, views: Fork -> View, now: int, front: set<Fork>)
    requires p < |ordered| && Distinct(ordered) && s.budget <= |front| && front <= Firsts(ordered, p)
    requires AllThrow(s.m.state, front, cfgs, views, now)
    ensures var r := SweptAll(s, ordered, cfgs, views, now, false);
            && s.m.h.log <= r.m.h.log && ordered[p] !in Since(r.m.h.log, |s.m.h.log|)
            && Clock(r.m.state, ordered[p]) == Clock(s.m.state, ordered[p])
            && forall g :: g in front ==> Get(r.m.state, g) == Get(s.m.state, g)
  {
    FrontSpends(s, ordered, p, cfgs, views, now, front);
    PassedAll(front, ordered, p);
    SpentStays(s, ordered, p, cfgs, views, now);
    SweepingSweeps(s, ordered, p, cfgs, views, now);
    FirstsMore(ordered, p);
    forall g | g in front ensures Get(SweptAll(s, ordered, cfgs, views, now, false).m.state, g) == Get(s.m.state, g) {
      ThrowingStays(s, ordered, |ordered|, cfgs, views, now, g);
    }
  }

  /** The place of `f` is behind all of `front`. */
  lemma FrontIsFirst(state: map<Fork, Entry>, forks: seq<Fork>, front: set<Fork>, f: Fork) returns (p: nat)
    requires Distinct(forks) && f in forks
    requires forall g :: g in front ==> g in forks && Clock(state, g) < Clock(state, f)
    ensures var ordered := Ordered(state, forks);
            p < |ordered| && ordered[p] == f && Distinct(ordered) && front <= Firsts(ordered, p)
  {
    var ordered := Ordered(state, forks);
    OrderedFacts(state, forks, f);
    p :| 0 <= p < |ordered| && ordered[p] == f;
    forall g | g in front ensures g in Firsts(ordered, p) {
      var i :| 0 <= i < |ordered| && ordered[i] == g;
      assert i != p;
      assert Clock(state, ordered[i]) < Clock(state, ordered[p]);
    }
  }

  lemma TickStaysShadowed(first: Model, m: Model, t: Tick, cfgs: Fork -> Config, b: nat, front: set<Fork>, f: Fork)
    requires Shadowed(first, m, front, f) && b <= |front| && f !in front
    requires t.only.None? && Distinct(t.forks) && f in t.forks && FrontThrows(first.state, t, cfgs, front)
    ensures Shadowed(first, Ticked(m, t, cfgs, b), front, f)
  {
    var seen := Seen(m, t, cfgs);
    SeenKeepsClocks(m, t, cfgs);
    forall g | g in front ensures Get(seen.state, g) == Get(first.state, g) {
      UnwatchedStays(m, t.keys, |t.keys|, cfgs, t.views, g);
    }
    ListedAll(t);
    var ordered := Ordered(seen.state, t.forks);
    forall g | g in front ensures g in t.forks && Clock(seen.state, g) < Clock(seen.state, f) {
      assert Clock(seen.state, g) == Get(seen.state, g).lastSync == Get(first.state, g).lastSync;
    }
    var p := FrontIsFirst(seen.state, t.forks, front, f);
    FrontSpendsAll(Sweep(seen, b), ordered, p, cfgs, t.views, t.now, front);
    SinceSplits(first.h.log, m.h.log, Ticked(m, t, cfgs, b).h.log);
  }

  lemma {:induction false} UnwatchedStays(m: Model, keys: seq<Fork>, n: nat, cfgs: Fork -> Config, views: Fork -> View, g: Fork)
    requires n <= |keys| && Get(m.state, g).watch.None?
    ensures Get(Verifying(m, keys, n, cfgs, views).state, g) == Get(m.state, g)
  {
    if n > 0 {
      UnwatchedStays(m, keys, n - 1, cfgs, views, g);
    }
  }

  /** The bound on k is exact: when as many forks as the budget allows are staler than `f`, ready in every tick, and
      throw, `f` is never attempted, in however many ticks, whatever the rest do. */
  lemma {:induction false} ThrowingForksStarve(m: Model, ticks: seq<Tick>, n: nat, cfgs: Fork -> Config, b: nat, front: set<Fork>, f: Fork)
    requires n <= |ticks| && b <= |front| && f !in front
    requires forall g :: g in front ==> Get(m.state, g).watch.None? && Clock(m.state, g) < Clock(m.state, f)
    requires forall i :: 0 <= i < n ==>
               ticks[i].only.None? && Distinct(ticks[i].forks) && f in ticks[i].forks && FrontThrows(m.state, ticks[i], cfgs, front)
    ensures f !in Since(Run(m, ticks, n, cfgs, b).h.log, |m.h.log|)
    ensures Shadowed(m, Run(m, ticks, n, cfgs, b), front, f)
  {
    if n > 0 {
      ThrowingForksStarve(m, ticks, n - 1, cfgs, b, front, f);
      TickStaysShadowed(m, Run(m, ticks, n - 1, cfgs, b), ticks[n - 1], cfgs, b, front, f);
    }
  }

  /** The budget of the worker. */
  const MAX_PER_TICK := 2

  /** With it, one fork that throws holds up nobody for long, by NoForkStarves; two that never got as far as an entry
      starve every fork that did. */
  lemma TwoThrowingForksStarve(t: Tick, n: nat, cfgs: Fork -> Config, a: Fork, c: Fork, f: Fork, synced: Entry)
    requires a != c && f != a && f != c && synced.lastSync > 0
    requires t == Tick(t.now, t.views, t.keys, [a, c, f], None)
    requires FrontThrows(map[], t, cfgs, {a, c})
    ensures var m := Model(map[f := synced], 0, History([], [], 0, 0, []));
            f !in Since(Run(m, seq(n, _ => t), n, cfgs, MAX_PER_TICK).h.log, 0)
  {
    var m := Model(map[f := synced], 0, History([], [], 0, 0, []));
    assert |{a, c}| == 2;
    ThrowingForksStarve(m, seq(n, _ => t), n, cfgs, MAX_PER_TICK, {a, c}, f);
  }
}
