/** What one tick leaves of one fork, told from what it was answered, and what becomes of a watch over runs. */
module SyncTurns {
  import opened Basics
  import opened Text
  import opened Lists
  import opened SyncSpec
  import opened SyncTheorems
  import opened SyncFairness

  // The watch in a tick

  /** The watch reads a failure it may act on. */
  predicate Red(w: Watch, cfg: Config, v: View) {
    && w.sha != "" && v.hasToken && cfg.verifyCi && v.verifyAt - w.pushedAt <= cfg.maxAge
    && (v.tip == "" || v.tip == w.sha) && exists i :: 0 <= i < |v.checks| && v.checks[i].failure
  }

  /** Nothing can be done about the watch, or nothing is decided yet: no check failed and one is still running, or there is
      none and there may yet be one. */
  predicate Open(w: Watch, cfg: Config, v: View) {
    || w.sha == "" || !v.hasToken
    || (&& cfg.verifyCi && v.verifyAt - w.pushedAt <= cfg.maxAge && (v.tip == "" || v.tip == w.sha)
        && (forall i :: 0 <= i < |v.checks| ==> !v.checks[i].failure)
        && if v.checks == [] then v.verifyAt - w.pushedAt < cfg.noCiGrace else exists i :: 0 <= i < |v.checks| && !v.checks[i].completed)
  }

  /** What a watched entry is after its verification. */
  function Checked(e: Entry, cfg: Config, v: View): Entry {
    if e.watch.None? then e
    else e.(watch := if Open(e.watch.value, cfg, v) then e.watch else None,
            lastMerged := if Red(e.watch.value, cfg, v) then "" else e.lastMerged)
  }

  lemma {:induction false} JudgeIs(w: Watch, cfg: Config, v: View)
    ensures Judge(w, cfg, v).Undo? <==> Red(w, cfg, v)
    ensures Judge(w, cfg, v).Wait? <==> Open(w, cfg, v)
  {
    FailureIs(v.checks);
    RunningIs(v.checks);
  }

  lemma {:induction false} FailureIs(checks: seq<Check>)
    ensures AnyFailure(checks) <==> exists i :: 0 <= i < |checks| && checks[i].failure
  {
    if i :| 0 <= i < |checks| && checks[i].failure {
      assert checks[i] in checks;
    }
  }

  lemma {:induction false} RunningIs(checks: seq<Check>)
    ensures AnyRunning(checks) <==> exists i :: 0 <= i < |checks| && !checks[i].completed
  {
    if i :| 0 <= i < |checks| && !checks[i].completed {
      assert checks[i] in checks;
    }
  }

  lemma {:induction false} VerifiedChecks(m: Model, key: Fork, cfg: Config, v: View, fork: Fork)
    ensures Get(Verified(m, key, cfg, v).state, fork) == if key == fork then Checked(Get(m.state, fork), cfg, v) else Get(m.state, fork)
  {
    var e := Get(m.state, key);
    if e.watch.Some? {
      JudgeIs(e.watch.value, cfg, v);
    }
  }

  lemma {:induction false} VerifyingChecks(m: Model, keys: seq<Fork>, n: nat, cfgs: Fork -> Config, views: Fork -> View, fork: Fork)
    requires n <= |keys| && forall i, j :: 0 <= i < j < |keys| ==> keys[i] != keys[j]
    ensures Get(Verifying(m, keys, n, cfgs, views).state, fork) ==
            if fork in keys[..n] then Checked(Get(m.state, fork), cfgs(fork), views(fork)) else Get(m.state, fork)
  {
    if n > 0 {
      VerifyingChecks(m, keys, n - 1, cfgs, views, fork);
      TakesOneMore(keys, n - 1);
      VerifiedChecks(Verifying(m, keys, n - 1, cfgs, views), keys[n - 1], cfgs(keys[n - 1]), views(keys[n - 1]), fork);
    }
  }

  /** The verification of a tick, for every fork. */
  lemma {:induction false} VerificationLeaves(m: Model, t: Tick, cfgs: Fork -> Config, fork: Fork)
    requires forall i, j :: 0 <= i < j < |t.keys| ==> t.keys[i] != t.keys[j]
    ensures Get(Seen(m, t, cfgs).state, fork) ==
            if fork in t.keys then Checked(Get(m.state, fork), cfgs(fork), t.views(fork)) else Get(m.state, fork)
  {
    VerifyingChecks(m, t.keys, |t.keys|, cfgs, t.views, fork);
    assert t.keys[..|t.keys|] == t.keys;
  }

  // The sweep, from one fork's side

  /** Attempts were made for the fork since the log was `from` long. */
  predicate TriedSince(log: seq<Attempt>, from: nat, fork: Fork) {
    exists k :: from <= k < |log| && log[k].fork == fork
  }

  /** Every gate is open. */
  predicate Gates(e: Entry, cfg: Config, v: View, now: int) {
    && cfg.enabled && v.info.Some? && v.info.value.mergeCount > 0 && !v.openPr
    && e.lastAttempt != Some(v.info.value.upstreamSha) && now - e.lastSync >= cfg.interval
  }

  /** What an attempt writes into the entry, field by field. */
  ghost predicate Wrote(e: Entry, r: Entry, tip: Sha, o: Outcome) {
    && (if o.Threw? then r.lastSync == e.lastSync else r.lastSync == o.at)
    && r.lastAttempt == (if o.Threw? || o.Stamped? then e.lastAttempt else Some(tip))
    && r.lastMerged == (if o.Synced? then tip else if o.PrOpened? then "" else e.lastMerged)
    && r.skipReason == (match o case ConflictFailed(_, note) => note case PushFailed(_, note) => note case Synced(_, _, _, _, _) => "" case PrOpened(_) => ""
                                case _ => e.skipReason)
    && r.notified == (o.ConflictFailed? || ((o.Threw? || o.Stamped?) && e.notified))
    && (if o.Synced?
        then r.watch.Some? && r.watch.value.sha == o.merged && r.watch.value.preMerge == o.preMerge
             && r.watch.value.branch == o.branch && r.watch.value.pushedAt == o.pushedAt
        else r.watch == e.watch)
  }

  lemma {:induction false} OtherTurn(from: nat, s: Sweep, g: Fork, cfg: Config, v: View, now: int, unlimited: bool, fork: Fork)
    requires g != fork && from <= |s.m.h.log| && !TriedSince(s.m.h.log, from, fork)
    ensures var r := Visit(s, g, cfg, v, now, unlimited).m;
            Get(r.state, fork) == Get(s.m.state, fork) && s.m.h.log <= r.h.log && !TriedSince(r.h.log, from, fork)
  {
  }

  /** The rest of a sweep, with other forks' turns, leaves the fork alone. */
  lemma {:induction false} OthersTurns(s: Sweep, ordered: seq<Fork>, from: nat, n: nat, cfgs: Fork -> Config, views: Fork -> View, now: int, unlimited: bool, fork: Fork)
    requires from <= n <= |ordered| && forall i :: from <= i < n ==> ordered[i] != fork
    ensures var a, b := Sweeping(s, ordered, from, cfgs, views, now, unlimited).m, Sweeping(s, ordered, n, cfgs, views, now, unlimited).m;
            && Get(b.state, fork) == Get(a.state, fork) && a.h.log <= b.h.log && !TriedSince(b.h.log, |a.h.log|, fork)
    decreases n
  {
    if from < n {
      OthersTurns(s, ordered, from, n - 1, cfgs, views, now, unlimited, fork);
      OtherTurn(|Sweeping(s, ordered, from, cfgs, views, now, unlimited).m.h.log|, Sweeping(s, ordered, n - 1, cfgs, views, now, unlimited),
                ordered[n - 1], cfgs(ordered[n - 1]), views(ordered[n - 1]), now, unlimited, fork);
    }
  }

  /** The fork's own turn. */
  lemma {:induction false} OwnTurn(s: Sweep, fork: Fork, cfg: Config, v: View, now: int, unlimited: bool, r: Sweep)
    requires r == Visit(s, fork, cfg, v, now, unlimited)
    ensures s.m.h.log <= r.m.h.log && |r.m.h.log| <= |s.m.h.log| + 1
    ensures var e := Get(s.m.state, fork);
            var tried := |r.m.h.log| > |s.m.h.log|;
            && (tried <==> Gates(e, cfg, v, now) && (s.budget > 0 || unlimited))
            && (tried ==> r.m.h.log[|s.m.h.log|].fork == fork && Wrote(e, Get(r.m.state, fork), v.info.value.upstreamSha, v.outcome))
            && (!tried ==> Get(r.m.state, fork) == if Settled(cfg, v) && (s.budget > 0 || unlimited) then e.(skipReason := "") else e)
  {
    assert Eligible(Get(s.m.state, fork), cfg, v, now) == Gates(Get(s.m.state, fork), cfg, v, now);
  }

  /** There is nothing to merge. */
  predicate Settled(cfg: Config, v: View) {
    cfg.enabled && v.info.Some? && v.info.value.mergeCount <= 0
  }

  /** What a sweep does to one fork: from its entry `e` before to `r` after. */
  ghost predicate TurnOf(e: Entry, r: Entry, cfg: Config, v: View, now: int, listed: bool, tried: bool, spent: bool) {
    && (tried ==> listed && Gates(e, cfg, v, now) && Wrote(e, r, v.info.value.upstreamSha, v.outcome))
    && (listed && Gates(e, cfg, v, now) ==> tried || spent)
    && (!tried ==> r == e || (listed && Settled(cfg, v) && r == e.(skipReason := "")))
    && (listed && Settled(cfg, v) ==> r.skipReason == "" || spent)
  }

  lemma {:induction false} TriedAtIts(a: seq<Attempt>, b: seq<Attempt>, c: seq<Attempt>, d: seq<Attempt>, fork: Fork)
    requires a <= b && b <= c && c <= d && |c| <= |b| + 1 && !TriedSince(b, |a|, fork) && !TriedSince(d, |c|, fork)
    requires |c| > |b| ==> c[|b|].fork == fork
    ensures TriedSince(d, |a|, fork) <==> |c| > |b|
  {
    if |c| > |b| {
      assert d[|b|].fork == fork;
    }
  }

  lemma {:induction false} SweepTurn(s: Sweep, ordered: seq<Fork>, cfgs: Fork -> Config, views: Fork -> View, now: int, unlimited: bool, fork: Fork, p: nat)
    requires p < |ordered| && ordered[p] == fork && Distinct(ordered) && s.budget >= 0
    ensures var r := SweptAll(s, ordered, cfgs, views, now, unlimited);
            && s.m.h.log <= r.m.h.log
            && TurnOf(Get(s.m.state, fork), Get(r.m.state, fork), cfgs(fork), views(fork), now, true,
                      TriedSince(r.m.h.log, |s.m.h.log|, fork), !unlimited && |r.m.h.log| == |s.m.h.log| + s.budget)
  {
    var before, at, r := Sweeping(s, ordered, p, cfgs, views, now, unlimited), Sweeping(s, ordered, p + 1, cfgs, views, now, unlimited),
                         SweptAll(s, ordered, cfgs, views, now, unlimited);
    OthersTurns(s, ordered, 0, p, cfgs, views, now, unlimited, fork);
    OwnTurn(before, fork, cfgs(fork), views(fork), now, unlimited, at);
    OthersTurns(s, ordered, p + 1, |ordered|, cfgs, views, now, unlimited, fork);
    TriedAtIts(s.m.h.log, before.m.h.log, at.m.h.log, r.m.h.log, fork);
    SpendsBudget(s, ordered, p, cfgs, views, now, unlimited);
    if before.budget <= 0 && !unlimited {
      SpentStays(s, ordered, p, cfgs, views, now);
    }
  }

  lemma {:induction false} NoTurn(s: Sweep, ordered: seq<Fork>, cfgs: Fork -> Config, views: Fork -> View, now: int, unlimited: bool, fork: Fork)
    requires fork !in ordered
    ensures var r := SweptAll(s, ordered, cfgs, views, now, unlimited);
            s.m.h.log <= r.m.h.log && !TriedSince(r.m.h.log, |s.m.h.log|, fork) && Get(r.m.state, fork) == Get(s.m.state, fork)
  {
    OthersTurns(s, ordered, 0, |ordered|, cfgs, views, now, unlimited, fork);
  }

  lemma {:induction false} DistinctListed(state: map<Fork, Entry>, t: Tick)
    requires Distinct(t.forks)
    ensures Distinct(Ordered(state, Listed(t))) && forall g :: g in Ordered(state, Listed(t)) <==> g in t.forks && Wanted(t.only, g)
  {
    var keep := (fork: Fork) => Wanted(t.only, fork);
    FilterMembers(keep, t.forks);
    FilterKeepsDistinct(keep, t.forks);
    SortKeepsDistinct(Staleness(state), Listed(t), |Listed(t)|);
    assert Listed(t)[..|Listed(t)|] == Listed(t);
  }

  lemma {:induction false} FilterKeepsDistinct(keep: Fork -> bool, s: seq<Fork>)
    requires Distinct(s)
    ensures Distinct(Filter(keep, s))
  {
    if s != [] {
      FilterKeepsDistinct(keep, s[1..]);
      FilterMembers(keep, s[1..]);
    }
  }

  /** One tick, for any fork, whatever the others do. It is attempted only if it is listed and every gate is open, and
      then it is, unless the whole budget goes to others; what the attempt leaves in its entry; and that a fork not
      attempted keeps its entry, but for the note of an earlier skip, which goes when there is nothing to merge. */
  lemma {:induction false} TickTurn(m: Model, t: Tick, cfgs: Fork -> Config, maxPerTick: nat, fork: Fork)
    requires Distinct(t.forks)
    ensures var r := Ticked(m, t, cfgs, maxPerTick);
            && m.h.log <= r.h.log
            && TurnOf(Get(Seen(m, t, cfgs).state, fork), Get(r.state, fork), cfgs(fork), t.views(fork), t.now,
                      fork in t.forks && Wanted(t.only, fork), TriedSince(r.h.log, |m.h.log|, fork),
                      t.only.None? && |r.h.log| == |m.h.log| + maxPerTick)
  {
    var seen := Seen(m, t, cfgs);
    VerifyingKeepsLog(m, t.keys, |t.keys|, cfgs, t.views);
    DistinctListed(seen.state, t);
    var ordered := Ordered(seen.state, Listed(t));
    if fork in ordered {
      var p :| 0 <= p < |ordered| && ordered[p] == fork;
      SweepTurn(Sweep(seen, maxPerTick), ordered, cfgs, t.views, t.now, t.only.Some?, fork, p);
    } else {
      NoTurn(Sweep(seen, maxPerTick), ordered, cfgs, t.views, t.now, t.only.Some?, fork);
    }
  }

  /** A fork whose tip was handled, whose interval has not elapsed, which has an open pull request for its sync, which is
      switched off, or which is not asked for when another one is, is not attempted in the tick, and any other is unless the
      budget goes to others; told from the state before the tick. */
  lemma {:induction false} ShutGateIsRespected(m: Model, t: Tick, cfgs: Fork -> Config, maxPerTick: nat, fork: Fork)
    requires Distinct(t.forks)
    ensures var r, e, cfg, v := Ticked(m, t, cfgs, maxPerTick), Get(m.state, fork), cfgs(fork), t.views(fork);
            && ((!cfg.enabled || v.openPr || t.now - e.lastSync < cfg.interval || v.info.None? || v.info.value.mergeCount <= 0
                 || e.lastAttempt == Some(v.info.value.upstreamSha))
                ==> !TriedSince(r.h.log, |m.h.log|, fork))
            && ((fork !in t.forks || (t.only.Some? && t.only.value != fork)) ==> !TriedSince(r.h.log, |m.h.log|, fork))
            && ((cfg.enabled && !v.openPr && t.now - e.lastSync >= cfg.interval && v.info.Some? && v.info.value.mergeCount > 0
                 && e.lastAttempt != Some(v.info.value.upstreamSha) && fork in t.forks && (t.only.None? || t.only.value == fork))
                ==> TriedSince(r.h.log, |m.h.log|, fork) || (t.only.None? && |r.h.log| == |m.h.log| + maxPerTick))
  {
    TickTurn(m, t, cfgs, maxPerTick, fork);
    VerifyingKeeps(m, t.keys, |t.keys|, cfgs, t.views, fork);
  }

  // The watch, over a tick and over runs

  lemma {:induction false} SweepKeepsWatch(s: Sweep, ordered: seq<Fork>, n: nat, cfgs: Fork -> Config, views: Fork -> View, now: int, unlimited: bool, fork: Fork)
    requires n <= |ordered|
    ensures var r := Sweeping(s, ordered, n, cfgs, views, now, unlimited).m;
            s.m.h.log <= r.h.log && (SyncedSince(r.h.log, |s.m.h.log|, fork) || Get(r.state, fork).watch == Get(s.m.state, fork).watch)
  {
    if n > 0 {
      SweepKeepsWatch(s, ordered, n - 1, cfgs, views, now, unlimited, fork);
      VisitKeepsWatch(|s.m.h.log|, Sweeping(s, ordered, n - 1, cfgs, views, now, unlimited), ordered[n - 1], cfgs(ordered[n - 1]),
                      views(ordered[n - 1]), now, unlimited, fork, Get(s.m.state, fork).watch);
    }
  }

  lemma {:induction false} VisitKeepsWatch(from: nat, s: Sweep, g: Fork, cfg: Config, v: View, now: int, unlimited: bool, fork: Fork, watch: Option<Watch>)
    requires from <= |s.m.h.log| && (SyncedSince(s.m.h.log, from, fork) || Get(s.m.state, fork).watch == watch)
    ensures var r := Visit(s, g, cfg, v, now, unlimited).m;
            s.m.h.log <= r.h.log && (SyncedSince(r.h.log, from, fork) || Get(r.state, fork).watch == watch)
  {
    var r := Visit(s, g, cfg, v, now, unlimited).m;
    if k :| from <= k < |s.m.h.log| && s.m.h.log[k].fork == fork && s.m.h.log[k].outcome.Synced? {
      assert r.h.log[k] == s.m.h.log[k];
    } else if |r.h.log| > |s.m.h.log| && g == fork && v.outcome.Synced? {
      assert r.h.log[|s.m.h.log|].fork == fork;
    }
  }

  /** With nothing synced for the fork in a tick, its watch stands afterwards exactly if nothing could be done about it or
      nothing was decided yet. */
  lemma {:induction false} WatchStandsIff(m: Model, t: Tick, cfgs: Fork -> Config, maxPerTick: int, fork: Fork, w: Watch)
    requires Get(m.state, fork).watch == Some(w) && fork in t.keys
    requires forall i, j :: 0 <= i < j < |t.keys| ==> t.keys[i] != t.keys[j]
    requires !SyncedSince(Ticked(m, t, cfgs, maxPerTick).h.log, |m.h.log|, fork)
    ensures Get(Ticked(m, t, cfgs, maxPerTick).state, fork).watch == if Open(w, cfgs(fork), t.views(fork)) then Some(w) else None
  {
    var seen := Seen(m, t, cfgs);
    VerificationLeaves(m, t, cfgs, fork);
    VerifyingKeepsLog(m, t.keys, |t.keys|, cfgs, t.views);
    var ordered := Ordered(seen.state, Listed(t));
    SweepKeepsWatch(Sweep(seen, maxPerTick), ordered, |ordered|, cfgs, t.views, t.now, t.only.Some?, fork);
  }

  /** In each of the first `n` ticks the watch is looked at once and reads as undecided. */
  ghost predicate OpenThrough(ticks: seq<Tick>, n: nat, cfgs: Fork -> Config, fork: Fork, w: Watch)
    requires n <= |ticks|
  {
    n == 0 || (OpenThrough(ticks, n - 1, cfgs, fork, w) && Looks(ticks[n - 1], fork) && Open(w, cfgs(fork), ticks[n - 1].views(fork)))
  }

  predicate Looks(t: Tick, fork: Fork) {
    fork in t.keys && forall i, j :: 0 <= i < j < |t.keys| ==> t.keys[i] != t.keys[j]
  }

  lemma {:induction false} SyncedStays(log: seq<Attempt>, more: seq<Attempt>, from: nat, mid: nat, fork: Fork)
    requires log <= more && from <= mid
    ensures SyncedSince(log, from, fork) || SyncedSince(more, mid, fork) ==> SyncedSince(more, from, fork)
  {
    if k :| from <= k < |log| && log[k].fork == fork && log[k].outcome.Synced? {
      assert more[k] == log[k];
    }
  }

  lemma {:induction false} OpenTickStands(from: nat, m: Model, t: Tick, cfgs: Fork -> Config, maxPerTick: nat, fork: Fork, w: Watch)
    requires StandsUnless(from, m, fork, w) && Looks(t, fork) && Open(w, cfgs(fork), t.views(fork))
    ensures StandsUnless(from, Ticked(m, t, cfgs, maxPerTick), fork, w)
  {
    var r := Ticked(m, t, cfgs, maxPerTick);
    BudgetHolds(m, t, cfgs, maxPerTick);
    SyncedStays(m.h.log, r.h.log, from, |m.h.log|, fork);
    if !SyncedSince(r.h.log, from, fork) {
      WatchStandsIff(m, t, cfgs, maxPerTick, fork, w);
    }
  }

  lemma {:induction false} OpenRunStands(m: Model, ticks: seq<Tick>, n: nat, cfgs: Fork -> Config, maxPerTick: nat, fork: Fork, w: Watch)
    requires n <= |ticks| && Get(m.state, fork).watch == Some(w) && OpenThrough(ticks, n, cfgs, fork, w)
    ensures StandsUnless(|m.h.log|, Run(m, ticks, n, cfgs, maxPerTick), fork, w)
  {
    if n > 0 {
      OpenRunStands(m, ticks, n - 1, cfgs, maxPerTick, fork, w);
      OpenTickStands(|m.h.log|, Run(m, ticks, n - 1, cfgs, maxPerTick), ticks[n - 1], cfgs, maxPerTick, fork, w);
    }
  }

  /** Over every run: a watch stands through any number of ticks that read it as undecided, unless its fork is synced anew. */
  lemma {:induction false} UndecidedWatchStands(m: Model, ticks: seq<Tick>, n: nat, cfgs: Fork -> Config, maxPerTick: nat, fork: Fork, w: Watch)
    requires n <= |ticks| && Get(m.state, fork).watch == Some(w) && OpenThrough(ticks, n, cfgs, fork, w)
    requires !SyncedSince(Run(m, ticks, n, cfgs, maxPerTick).h.log, |m.h.log|, fork)
    ensures Get(Run(m, ticks, n, cfgs, maxPerTick).state, fork).watch == Some(w)
  {
    OpenRunStands(m, ticks, n, cfgs, maxPerTick, fork, w);
  }

  /** And the first tick that reads a failure starts its revert, however many ticks read it as undecided before. */
  lemma {:induction false} FirstFailureStartsTheRevert(m: Model, ticks: seq<Tick>, n: nat, cfgs: Fork -> Config, maxPerTick: nat, fork: Fork, w: Watch)
    requires n < |ticks| && Get(m.state, fork).watch == Some(w) && OpenThrough(ticks, n, cfgs, fork, w)
    requires !SyncedSince(Run(m, ticks, n, cfgs, maxPerTick).h.log, |m.h.log|, fork)
    requires Looks(ticks[n], fork) && Red(w, cfgs(fork), ticks[n].views(fork))
    ensures fork in StartedSince(Run(m, ticks, n + 1, cfgs, maxPerTick).h.reverts, |Run(m, ticks, n, cfgs, maxPerTick).h.reverts|)
  {
    UndecidedWatchStands(m, ticks, n, cfgs, maxPerTick, fork, w);
    FailureIs(ticks[n].views(fork).checks);
    TickRevertsIff(Run(m, ticks, n, cfgs, maxPerTick), ticks[n], cfgs, maxPerTick, fork, w);
  }
}
