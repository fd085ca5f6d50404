/** What every tick, and every run of ticks, keeps: the budget, one attempt a tip, and no watch lost or undone twice. */
module SyncTheorems {
  import opened Text
  import opened SyncSpec

  /** Whatever every tick keeps, every run keeps. */
  lemma {:induction false} Always(P: Model -> bool, m: Model, ticks: seq<Tick>, n: nat, cfgs: Fork -> Config, maxPerTick: int)
    requires n <= |ticks| && P(m)
    requires forall x: Model, i :: 0 <= i < |ticks| && P(x) ==> P(Ticked(x, ticks[i], cfgs, maxPerTick))
    ensures P(Run(m, ticks, n, cfgs, maxPerTick))
  {
    if n > 0 {
      Always(P, m, ticks, n - 1, cfgs, maxPerTick);
    }
  }

  // The budget

  lemma {:induction false} SpendsBudget(s: Sweep, ordered: seq<Fork>, n: nat, cfgs: Fork -> Config, views: Fork -> View, now: int, unlimited: bool)
    requires n <= |ordered|
    ensures var r := Sweeping(s, ordered, n, cfgs, views, now, unlimited);
            && s.m.h.log <= r.m.h.log && |r.m.h.log| - |s.m.h.log| == s.budget - r.budget <= n
            && (!unlimited ==> r.budget >= 0 || r.budget == s.budget)
  {
    if n > 0 {
      SpendsBudget(s, ordered, n - 1, cfgs, views, now, unlimited);
    }
  }

  lemma {:induction false} VerifyingKeepsLog(m: Model, keys: seq<Fork>, n: nat, cfgs: Fork -> Config, views: Fork -> View)
    requires n <= |keys|
    ensures Verifying(m, keys, n, cfgs, views).h.log == m.h.log
  {
    if n > 0 {
      VerifyingKeepsLog(m, keys, n - 1, cfgs, views);
    }
  }

  lemma {:induction false} VerifyingKeeps(m: Model, keys: seq<Fork>, n: nat, cfgs: Fork -> Config, views: Fork -> View, fork: Fork)
    requires n <= |keys|
    ensures var r := Verifying(m, keys, n, cfgs, views);
            && Get(r.state, fork).lastSync == Get(m.state, fork).lastSync
            && Get(r.state, fork).lastAttempt == Get(m.state, fork).lastAttempt
  {
    if n > 0 {
      VerifyingKeeps(m, keys, n - 1, cfgs, views, fork);
    }
  }

  /** No tick makes more attempts than the budget, unless a fork was asked for by hand; then it makes one for each. */
  lemma BudgetHolds(m: Model, t: Tick, cfgs: Fork -> Config, maxPerTick: nat)
    ensures m.h.log <= Ticked(m, t, cfgs, maxPerTick).h.log
    ensures t.only.None? ==> |Ticked(m, t, cfgs, maxPerTick).h.log| - |m.h.log| <= maxPerTick
    ensures |Ticked(m, t, cfgs, maxPerTick).h.log| - |m.h.log| <= |Listed(t)|
  {
    var seen := Seen(m, t, cfgs);
    var ordered := Ordered(seen.state, Listed(t));
    VerifyingKeepsLog(m, t.keys, |t.keys|, cfgs, t.views);
    SpendsBudget(Sweep(seen, maxPerTick), ordered, |ordered|, cfgs, t.views, t.now, t.only.Some?);
  }

  // One attempt a tip

  /** The tip last recorded for a fork by the first `n` attempts, on top of what the state file already held. */
  function LastKnown(first: map<Fork, Entry>, log: seq<Attempt>, n: nat, fork: Fork): Option<Sha>
    requires n <= |log|
  {
    if n == 0 then Get(first, fork).lastAttempt
    else if log[n - 1].fork == fork && Records(log[n - 1].outcome) then Some(log[n - 1].sha)
    else LastKnown(first, log, n - 1, fork)
  }

  lemma {:induction false} LastKnownPrefix(first: map<Fork, Entry>, log: seq<Attempt>, more: seq<Attempt>, n: nat, fork: Fork)
    requires n <= |log| && log <= more
    ensures LastKnown(first, more, n, fork) == LastKnown(first, log, n, fork)
  {
    if n > 0 {
      LastKnownPrefix(first, log, more, n - 1, fork);
    }
  }

  /** The state remembers the last recorded tip of every fork. */
  ghost predicate Remembers(first: map<Fork, Entry>, m: Model) {
    forall fork: Fork :: Get(m.state, fork).lastAttempt == LastKnown(first, m.h.log, |m.h.log|, fork)
  }

  /** No attempt was at a tip already recorded for its fork. */
  ghost predicate NeverRepeats(first: map<Fork, Entry>, log: seq<Attempt>) {
    forall j :: 0 <= j < |log| ==> LastKnown(first, log, j, log[j].fork) != Some(log[j].sha)
  }

  lemma AttemptRemembers(first: map<Fork, Entry>, m: Model, fork: Fork, v: View)
    requires v.info.Some? && Remembers(first, m) && NeverRepeats(first, m.h.log)
    requires Get(m.state, fork).lastAttempt != Some(v.info.value.upstreamSha)
    ensures Remembers(first, Attempted(m, fork, v)) && NeverRepeats(first, Attempted(m, fork, v).h.log)
  {
    var r := Attempted(m, fork, v);
    var log, more := m.h.log, r.h.log;
    assert more == log + [Attempt(fork, v.info.value.upstreamSha, v.outcome)];
    forall g: Fork ensures Get(r.state, g).lastAttempt == LastKnown(first, more, |more|, g) {
      LastKnownPrefix(first, log, more, |log|, g);
      assert g != fork ==> Get(r.state, g) == Get(m.state, g);
    }
    RepeatsExtend(first, log, more);
  }

  lemma {:induction false} RepeatsExtend(first: map<Fork, Entry>, log: seq<Attempt>, more: seq<Attempt>)
    requires NeverRepeats(first, log) && log <= more && |more| == |log| + 1
    requires LastKnown(first, log, |log|, more[|log|].fork) != Some(more[|log|].sha)
    ensures NeverRepeats(first, more)
  {
    forall j | 0 <= j < |more| ensures LastKnown(first, more, j, more[j].fork) != Some(more[j].sha) {
      LastKnownPrefix(first, log, more, j, more[j].fork);
    }
  }

  lemma VisitRemembers(first: map<Fork, Entry>, s: Sweep, fork: Fork, cfg: Config, v: View, now: int, unlimited: bool)
    requires Remembers(first, s.m) && NeverRepeats(first, s.m.h.log)
    ensures var r := Visit(s, fork, cfg, v, now, unlimited).m;
            Remembers(first, r) && NeverRepeats(first, r.h.log)
  {
    var r := Visit(s, fork, cfg, v, now, unlimited).m;
    if r.h.log != s.m.h.log {
      AttemptRemembers(first, s.m, fork, v);
    } else {
      assert forall g: Fork :: Get(r.state, g).lastAttempt == Get(s.m.state, g).lastAttempt;
    }
  }

  lemma {:induction false} SweepRemembers(first: map<Fork, Entry>, s: Sweep, ordered: seq<Fork>, n: nat, cfgs: Fork -> Config, views: Fork -> View, now: int, unlimited: bool)
    requires n <= |ordered| && Remembers(first, s.m) && NeverRepeats(first, s.m.h.log)
    ensures var r := Sweeping(s, ordered, n, cfgs, views, now, unlimited).m;
            Remembers(first, r) && NeverRepeats(first, r.h.log)
  {
    if n > 0 {
      SweepRemembers(first, s, ordered, n - 1, cfgs, views, now, unlimited);
      VisitRemembers(first, Sweeping(s, ordered, n - 1, cfgs, views, now, unlimited), ordered[n - 1], cfgs(ordered[n - 1]),
                     views(ordered[n - 1]), now, unlimited);
    }
  }

  lemma TickRemembers(first: map<Fork, Entry>, m: Model, t: Tick, cfgs: Fork -> Config, maxPerTick: int)
    requires Remembers(first, m) && NeverRepeats(first, m.h.log)
    ensures var r := Ticked(m, t, cfgs, maxPerTick);
            Remembers(first, r) && NeverRepeats(first, r.h.log)
  {
    var seen := Seen(m, t, cfgs);
    VerifyingKeepsLog(m, t.keys, |t.keys|, cfgs, t.views);
    forall fork: Fork ensures Get(seen.state, fork).lastAttempt == Get(m.state, fork).lastAttempt {
      VerifyingKeeps(m, t.keys, |t.keys|, cfgs, t.views, fork);
    }
    var ordered := Ordered(seen.state, Listed(t));
    SweepRemembers(first, Sweep(seen, maxPerTick), ordered, |ordered|, cfgs, t.views, t.now, t.only.Some?);
  }

  /** Over every run, from whatever the state file holds: a tip recorded for a fork is not attempted again until another
      tip has been recorded for it. A merge the watch reverted counts as recorded. */
  lemma {:induction false} OneAttemptATip(state: map<Fork, Entry>, ticks: seq<Tick>, n: nat, cfgs: Fork -> Config, maxPerTick: int)
    requires n <= |ticks|
    ensures var r := Run(Model(state, 0, History([], [], 0, 0, [])), ticks, n, cfgs, maxPerTick);
            Remembers(state, r) && NeverRepeats(state, r.h.log)
  {
    var m := Model(state, 0, History([], [], 0, 0, []));
    var P := (x: Model) => Remembers(state, x) && NeverRepeats(state, x.h.log);
    forall x: Model, i | 0 <= i < |ticks| && P(x) ensures P(Ticked(x, ticks[i], cfgs, maxPerTick)) {
      TickRemembers(state, x, ticks[i], cfgs, maxPerTick);
    }
    Always(P, m, ticks, n, cfgs, maxPerTick);
  }

  /** What NeverRepeats means for two attempts at the same tip. */
  lemma {:induction false} BetweenTwoAttempts(first: map<Fork, Entry>, log: seq<Attempt>, i: nat, j: nat)
    requires i < j < |log| && NeverRepeats(first, log)
    requires log[i].fork == log[j].fork && log[i].sha == log[j].sha && Records(log[i].outcome)
    ensures exists k :: i < k < j && log[k].fork == log[i].fork && Records(log[k].outcome) && log[k].sha != log[i].sha
  {
    if !exists k :: i < k < j && log[k].fork == log[i].fork && Records(log[k].outcome) && log[k].sha != log[i].sha {
      StillKnown(first, log, i, j);
    }
  }

  lemma {:induction false} StillKnown(first: map<Fork, Entry>, log: seq<Attempt>, i: nat, n: nat)
    requires i < n <= |log| && Records(log[i].outcome)
    requires forall k :: i < k < n && log[k].fork == log[i].fork && Records(log[k].outcome) ==> log[k].sha == log[i].sha
    ensures LastKnown(first, log, n, log[i].fork) == Some(log[i].sha)
  {
    if i < n - 1 {
      StillKnown(first, log, i, n - 1);
    }
  }

  /** The note in verify.ts says that clearing the merged sha lets the next tick try the same tip again. It does not: the
      gate reads the attempted sha, which a revert leaves alone. */
  lemma RevertDoesNotReopenTip(m: Model, fork: Fork, cfg: Config, v: View, cfg2: Config, v2: View, now: int)
    requires Get(m.state, fork).watch.Some? && Judge(Get(m.state, fork).watch.value, cfg, v).Undo?
    requires v2.info.Some? && Get(m.state, fork).lastAttempt == Some(v2.info.value.upstreamSha)
    ensures Get(Verified(m, fork, cfg, v).state, fork).lastMerged == ""
    ensures !Eligible(Get(Verified(m, fork, cfg, v).state, fork), cfg2, v2, now)
  {
  }

  // Watches

  function Pending(state: map<Fork, Entry>): map<Fork, Watch> {
    map fork | fork in state && state[fork].watch.Some? :: state[fork].watch.value
  }

  /** Every pending watch is in the books under its number. */
  ghost predicate Booked(pending: map<Fork, Watch>, armed: nat, arms: seq<Arm>) {
    && armed == |arms|
    && forall fork :: fork in pending ==> pending[fork].serial < armed && arms[pending[fork].serial] == Arm(fork, pending[fork])
  }

  /** A revert of a watch that was armed, to that watch's own pre-merge commit. */
  predicate RevertBooked(r: Revert, arms: seq<Arm>) {
    && r.serial < |arms| && arms[r.serial].fork == r.fork
    && r.target == arms[r.serial].watch.preMerge && r.branch == (if arms[r.serial].watch.branch == "" then "main" else arms[r.serial].watch.branch)
  }

  ghost predicate NotPending(pending: map<Fork, Watch>, serial: nat) {
    forall fork :: fork in pending ==> pending[fork].serial != serial
  }

  /** Every revert is booked, of a watch that is over, and the only one of its watch. */
  ghost predicate RevertsBooked(pending: map<Fork, Watch>, arms: seq<Arm>, reverts: seq<Revert>) {
    && (forall i :: 0 <= i < |reverts| ==> RevertBooked(reverts[i], arms) && NotPending(pending, reverts[i].serial))
    && (forall i, j :: 0 <= i < j < |reverts| ==> reverts[i].serial != reverts[j].serial)
  }

  /** Armed = finished + overwritten + pending, and the reverts are in order. */
  ghost predicate Books(pending: map<Fork, Watch>, armed: nat, h: History) {
    && Booked(pending, armed, h.arms) && RevertsBooked(pending, h.arms, h.reverts)
    && armed == h.finished + h.overwritten + |pending|
  }

  ghost predicate WatchInv(m: Model) {
    Books(Pending(m.state), m.armed, m.h)
  }

  lemma PendingAfter(state: map<Fork, Entry>, fork: Fork, e: Entry)
    ensures Pending(state[fork := e]) == match e.watch { case Some(w) => Pending(state)[fork := w] case None => Pending(state) - {fork} }
  {
  }

  lemma FinishKeepsBooks(pending: map<Fork, Watch>, armed: nat, h: History, fork: Fork)
    requires Books(pending, armed, h) && fork in pending
    ensures Books(pending - {fork}, armed, h.(finished := h.finished + 1))
    ensures NotPending(pending - {fork}, pending[fork].serial)
    ensures forall i :: 0 <= i < |h.reverts| ==> h.reverts[i].serial != pending[fork].serial
  {
    assert pending.Keys == (pending - {fork}).Keys + {fork};
  }

  lemma RevertKeepsBooks(pending: map<Fork, Watch>, armed: nat, h: History, r: Revert)
    requires Books(pending, armed, h) && RevertBooked(r, h.arms) && NotPending(pending, r.serial)
    requires forall i :: 0 <= i < |h.reverts| ==> h.reverts[i].serial != r.serial
    ensures Books(pending, armed, h.(reverts := h.reverts + [r]))
  {
  }

  lemma VerifiedKeepsWatches(m: Model, fork: Fork, cfg: Config, v: View)
    requires WatchInv(m)
    ensures WatchInv(Verified(m, fork, cfg, v))
  {
    var e := Get(m.state, fork);
    if e.watch.Some? && !Judge(e.watch.value, cfg, v).Wait? {
      var w := e.watch.value;
      FinishKeepsBooks(Pending(m.state), m.armed, m.h, fork);
      PendingAfter(m.state, fork, Verified(m, fork, cfg, v).state[fork]);
      if Judge(w, cfg, v).Undo? {
        RevertKeepsBooks(Pending(m.state) - {fork}, m.armed, m.h.(finished := m.h.finished + 1),
                         RevertOf(w, fork, v));
      }
    }
  }

  lemma SamePending(state: map<Fork, Entry>, fork: Fork, e: Entry)
    requires e.watch == Get(state, fork).watch
    ensures Pending(state[fork := e]) == Pending(state)
  {
    PendingAfter(state, fork, e);
  }

  lemma MapGrows(pending: map<Fork, Watch>, fork: Fork, w: Watch)
    ensures |pending[fork := w]| == |pending| + (if fork in pending then 0 else 1)
  {
    assert pending[fork := w].Keys == pending.Keys + {fork};
    if fork in pending {
      assert pending.Keys + {fork} == pending.Keys;
    }
  }

  lemma ArmKeepsBooked(pending: map<Fork, Watch>, armed: nat, arms: seq<Arm>, fork: Fork, w: Watch)
    requires Booked(pending, armed, arms) && w.serial == armed
    ensures Booked(pending[fork := w], armed + 1, arms + [Arm(fork, w)])
  {
    var after, more := pending[fork := w], arms + [Arm(fork, w)];
    forall g | g in after ensures after[g].serial < armed + 1 && more[after[g].serial] == Arm(g, after[g]) {
      if g != fork {
        assert g in pending && after[g] == pending[g];
      }
    }
  }

  lemma ArmKeepsReverts(pending: map<Fork, Watch>, arms: seq<Arm>, reverts: seq<Revert>, fork: Fork, w: Watch)
    requires RevertsBooked(pending, arms, reverts) && w.serial == |arms|
    ensures RevertsBooked(pending[fork := w], arms + [Arm(fork, w)], reverts)
  {
    forall i | 0 <= i < |reverts|
      ensures RevertBooked(reverts[i], arms + [Arm(fork, w)]) && NotPending(pending[fork := w], reverts[i].serial)
    {
      assert RevertBooked(reverts[i], arms) && NotPending(pending, reverts[i].serial);
    }
  }

  lemma ArmKeepsBooks(pending: map<Fork, Watch>, armed: nat, h: History, fork: Fork, w: Watch)
    requires Books(pending, armed, h) && w.serial == armed
    ensures Books(pending[fork := w], armed + 1,
                  h.(arms := h.arms + [Arm(fork, w)], overwritten := h.overwritten + (if fork in pending then 1 else 0)))
  {
    MapGrows(pending, fork, w);
    ArmKeepsBooked(pending, armed, h.arms, fork, w);
    ArmKeepsReverts(pending, h.arms, h.reverts, fork, w);
  }

  lemma AttemptKeepsWatches(m: Model, fork: Fork, v: View)
    requires WatchInv(m) && v.info.Some?
    ensures WatchInv(Attempted(m, fork, v))
  {
    var e := Attempted(m, fork, v).state[fork];
    if v.outcome.Synced? {
      PendingAfter(m.state, fork, e);
      ArmKeepsBooks(Pending(m.state), m.armed, m.h.(log := Attempted(m, fork, v).h.log), fork, e.watch.value);
    } else {
      SamePending(m.state, fork, e);
    }
  }

  lemma VisitKeepsWatches(s: Sweep, fork: Fork, cfg: Config, v: View, now: int, unlimited: bool)
    requires WatchInv(s.m)
    ensures WatchInv(Visit(s, fork, cfg, v, now, unlimited).m)
  {
    var r := Visit(s, fork, cfg, v, now, unlimited);
    if r.budget != s.budget {
      AttemptKeepsWatches(s.m, fork, v);
    } else if r.m != s.m {
      SamePending(s.m.state, fork, r.m.state[fork]);
    }
  }

  lemma {:induction false} SweepKeepsWatches(s: Sweep, ordered: seq<Fork>, n: nat, cfgs: Fork -> Config, views: Fork -> View, now: int, unlimited: bool)
    requires n <= |ordered| && WatchInv(s.m)
    ensures WatchInv(Sweeping(s, ordered, n, cfgs, views, now, unlimited).m)
  {
    if n > 0 {
      SweepKeepsWatches(s, ordered, n - 1, cfgs, views, now, unlimited);
      VisitKeepsWatches(Sweeping(s, ordered, n - 1, cfgs, views, now, unlimited), ordered[n - 1], cfgs(ordered[n - 1]),
                        views(ordered[n - 1]), now, unlimited);
    }
  }

  lemma {:induction false} VerifyingKeepsWatches(m: Model, keys: seq<Fork>, n: nat, cfgs: Fork -> Config, views: Fork -> View)
    requires n <= |keys| && WatchInv(m)
    ensures WatchInv(Verifying(m, keys, n, cfgs, views))
  {
    if n > 0 {
      VerifyingKeepsWatches(m, keys, n - 1, cfgs, views);
      VerifiedKeepsWatches(Verifying(m, keys, n - 1, cfgs, views), keys[n - 1], cfgs(keys[n - 1]), views(keys[n - 1]));
    }
  }

  lemma TickKeepsWatches(m: Model, t: Tick, cfgs: Fork -> Config, maxPerTick: int)
    requires WatchInv(m)
    ensures WatchInv(Ticked(m, t, cfgs, maxPerTick))
  {
    var seen := Seen(m, t, cfgs);
    VerifyingKeepsWatches(m, t.keys, |t.keys|, cfgs, t.views);
    var ordered := Ordered(seen.state, Listed(t));
    SweepKeepsWatches(Sweep(seen, maxPerTick), ordered, |ordered|, cfgs, t.views, t.now, t.only.Some?);
  }

  lemma {:induction false} RunKeepsBooks(m: Model, ticks: seq<Tick>, n: nat, cfgs: Fork -> Config, maxPerTick: int)
    requires n <= |ticks| && WatchInv(m)
    ensures WatchInv(Run(m, ticks, n, cfgs, maxPerTick))
  {
    var P := (x: Model) => WatchInv(x);
    forall x: Model, i | 0 <= i < |ticks| && P(x) ensures P(Ticked(x, ticks[i], cfgs, maxPerTick)) {
      TickKeepsWatches(x, ticks[i], cfgs, maxPerTick);
    }
    Always(P, m, ticks, n, cfgs, maxPerTick);
  }

  /** The books opened on a state file: each watch it holds gets a number, and counts as armed. */
  function Opened(state: map<Fork, Entry>, watched: seq<Fork>, n: nat): Model
    requires n <= |watched| && forall i :: 0 <= i < |watched| ==> Get(state, watched[i]).watch.Some?
  {
    if n == 0 then Model(map fork | fork in state :: state[fork].(watch := None), 0, History([], [], 0, 0, []))
    else
      var m, fork := Opened(state, watched, n - 1), watched[n - 1];
      var w := Get(state, fork).watch.value.(serial := n - 1);
      Model(m.state[fork := Get(state, fork).(watch := Some(w))], m.armed + 1, m.h.(arms := m.h.arms + [Arm(fork, w)]))
  }

  /** The forks the file watches, each once. */
  ghost predicate Watched(state: map<Fork, Entry>, watched: seq<Fork>) {
    && (forall i, j :: 0 <= i < j < |watched| ==> watched[i] != watched[j])
    && (forall fork :: fork in watched <==> fork in state && state[fork].watch.Some?)
  }

  lemma TakesOneMore(watched: seq<Fork>, n: nat)
    requires n < |watched| && forall i, j :: 0 <= i < j < |watched| ==> watched[i] != watched[j]
    ensures watched[n] !in watched[..n] && forall fork :: fork in watched[..n + 1] <==> fork in watched[..n] || fork == watched[n]
  {
    assert watched[..n + 1] == watched[..n] + [watched[n]];
  }

  lemma {:induction false} OpenedPending(state: map<Fork, Entry>, watched: seq<Fork>, n: nat)
    requires n <= |watched| && Watched(state, watched)
    ensures forall fork :: fork in Pending(Opened(state, watched, n).state) <==> fork in watched[..n]
  {
    if n > 0 {
      OpenedPending(state, watched, n - 1);
      TakesOneMore(watched, n - 1);
      var m, fork := Opened(state, watched, n - 1), watched[n - 1];
      var w := Get(state, fork).watch.value.(serial := n - 1);
      PendingAfter(m.state, fork, Get(state, fork).(watch := Some(w)));
    }
  }

  lemma {:induction false} BooksOpen(state: map<Fork, Entry>, watched: seq<Fork>, n: nat)
    requires n <= |watched| && Watched(state, watched)
    ensures WatchInv(Opened(state, watched, n)) && Opened(state, watched, n).armed == n
  {
    if n == 0 {
      assert Pending(Opened(state, watched, 0).state) == map[];
    } else {
      BooksOpen(state, watched, n - 1);
      OpenedPending(state, watched, n - 1);
      TakesOneMore(watched, n - 1);
      ArmFresh(Opened(state, watched, n - 1), watched[n - 1], Get(state, watched[n - 1]), Get(state, watched[n - 1]).watch.value);
    }
  }

  /** A watch put into the books of a fork that has none. */
  lemma ArmFresh(m: Model, fork: Fork, e: Entry, w0: Watch)
    requires WatchInv(m) && fork !in Pending(m.state)
    ensures var w := w0.(serial := m.armed);
            WatchInv(Model(m.state[fork := e.(watch := Some(w))], m.armed + 1, m.h.(arms := m.h.arms + [Arm(fork, w)])))
  {
    var w := w0.(serial := m.armed);
    PendingAfter(m.state, fork, e.(watch := Some(w)));
    ArmKeepsBooks(Pending(m.state), m.armed, m.h, fork, w);
  }

  /** Over every run, from whatever watches the state file holds: armed, those of the file included, = finished +
      overwritten + pending, and for each watch at most one revert is started, to the commit recorded when it was armed. */
  lemma {:induction false} WatchesAreConserved(state: map<Fork, Entry>, watched: seq<Fork>, ticks: seq<Tick>, n: nat, cfgs: Fork -> Config, maxPerTick: int)
    requires n <= |ticks| && Watched(state, watched)
    ensures var r := Run(Opened(state, watched, |watched|), ticks, n, cfgs, maxPerTick);
            && |r.h.arms| == r.h.finished + r.h.overwritten + |Pending(r.state)|
            && RevertsBooked(Pending(r.state), r.h.arms, r.h.reverts)
  {
    BooksOpen(state, watched, |watched|);
    RunKeepsBooks(Opened(state, watched, |watched|), ticks, n, cfgs, maxPerTick);
  }

  // What a revert rests on

  /** The revert was started because of the fork's own watch, named and in time, after a failed check, and after reading a
      tip that was the watched merge or nothing. */
  predicate Justified(r: Revert, arms: seq<Arm>, cfg: Config) {
    && r.serial < |arms|
    && var w := arms[r.serial].watch;
       w.sha != "" && cfg.verifyCi && r.at - w.pushedAt <= cfg.maxAge && (r.tip == "" || r.tip == w.sha) && AnyFailure(r.checks)
  }

  ghost predicate AllJustified(h: History, cfgs: Fork -> Config) {
    forall i :: 0 <= i < |h.reverts| ==> Justified(h.reverts[i], h.arms, cfgs(h.reverts[i].fork))
  }

  lemma VerifiedJustifies(m: Model, fork: Fork, cfgs: Fork -> Config, v: View)
    requires WatchInv(m) && AllJustified(m.h, cfgs)
    ensures AllJustified(Verified(m, fork, cfgs(fork), v).h, cfgs)
  {
    var e, cfg := Get(m.state, fork), cfgs(fork);
    if e.watch.Some? && Judge(e.watch.value, cfg, v).Undo? {
      var w := e.watch.value;
      assert fork in Pending(m.state) && m.h.arms[w.serial].watch == w;
      assert Justified(RevertOf(w, fork, v), m.h.arms, cfg);
    }
  }

  lemma {:induction false} VerifyingJustifies(m: Model, keys: seq<Fork>, n: nat, cfgs: Fork -> Config, views: Fork -> View)
    requires n <= |keys| && WatchInv(m) && AllJustified(m.h, cfgs)
    ensures AllJustified(Verifying(m, keys, n, cfgs, views).h, cfgs)
  {
    if n > 0 {
      VerifyingJustifies(m, keys, n - 1, cfgs, views);
      VerifyingKeepsWatches(m, keys, n - 1, cfgs, views);
      VerifiedJustifies(Verifying(m, keys, n - 1, cfgs, views), keys[n - 1], cfgs, views(keys[n - 1]));
    }
  }

  /** A sweep adds to the arms and leaves the reverts alone. */
  lemma {:induction false} SweepingKeepsReverts(s: Sweep, ordered: seq<Fork>, n: nat, cfgs: Fork -> Config, views: Fork -> View, now: int, unlimited: bool)
    requires n <= |ordered|
    ensures Sweeping(s, ordered, n, cfgs, views, now, unlimited).m.h.reverts == s.m.h.reverts
    ensures s.m.h.arms <= Sweeping(s, ordered, n, cfgs, views, now, unlimited).m.h.arms
  {
    if n > 0 {
      SweepingKeepsReverts(s, ordered, n - 1, cfgs, views, now, unlimited);
    }
  }

  lemma TickJustifies(m: Model, t: Tick, cfgs: Fork -> Config, maxPerTick: int)
    requires WatchInv(m) && AllJustified(m.h, cfgs)
    ensures AllJustified(Ticked(m, t, cfgs, maxPerTick).h, cfgs)
  {
    var seen := Seen(m, t, cfgs);
    VerifyingJustifies(m, t.keys, |t.keys|, cfgs, t.views);
    var ordered := Ordered(seen.state, Listed(t));
    SweepingKeepsReverts(Sweep(seen, maxPerTick), ordered, |ordered|, cfgs, t.views, t.now, t.only.Some?);
  }

  /** Over every run, from whatever the state file holds, no revert is started but for a watch of the fork's own that was
      named, in time and failing, on reading a tip that was the watched merge, or on reading nothing. */
  lemma {:induction false} EveryRevertIsJustified(state: map<Fork, Entry>, watched: seq<Fork>, ticks: seq<Tick>, n: nat, cfgs: Fork -> Config, maxPerTick: int)
    requires n <= |ticks| && Watched(state, watched)
    ensures AllJustified(Run(Opened(state, watched, |watched|), ticks, n, cfgs, maxPerTick).h, cfgs)
  {
    var m := Opened(state, watched, |watched|);
    BooksOpen(state, watched, |watched|);
    NoRevertsYet(state, watched, |watched|);
    var P := (x: Model) => WatchInv(x) && AllJustified(x.h, cfgs);
    forall x: Model, i | 0 <= i < |ticks| && P(x) ensures P(Ticked(x, ticks[i], cfgs, maxPerTick)) {
      TickKeepsWatches(x, ticks[i], cfgs, maxPerTick);
      TickJustifies(x, ticks[i], cfgs, maxPerTick);
    }
    Always(P, m, ticks, n, cfgs, maxPerTick);
  }

  lemma {:induction false} NoRevertsYet(state: map<Fork, Entry>, watched: seq<Fork>, n: nat)
    requires n <= |watched| && Watched(state, watched)
    ensures Opened(state, watched, n).h.reverts == []
  {
    if n > 0 {
      NoRevertsYet(state, watched, n - 1);
    }
  }

  /** The forks for which a revert was started since the list was `from` long, and those whose branch it moved. */
  function StartedSince(reverts: seq<Revert>, from: nat): set<Fork> {
    set k | from <= k < |reverts| :: reverts[k].fork
  }

  function ForcedSince(reverts: seq<Revert>, from: nat): set<Fork> {
    set k | from <= k < |reverts| && reverts[k].moved :: reverts[k].fork
  }

  lemma RevertedMore(reverts: seq<Revert>, r: Revert, from: nat)
    requires from <= |reverts|
    ensures StartedSince(reverts + [r], from) == StartedSince(reverts, from) + {r.fork}
    ensures ForcedSince(reverts + [r], from) == ForcedSince(reverts, from) + (if r.moved then {r.fork} else {})
  {
    var more := reverts + [r];
    assert more[|reverts|] == r;
    forall g | g in StartedSince(reverts, from) ensures g in StartedSince(more, from) {
      var k :| from <= k < |reverts| && reverts[k].fork == g;
      assert more[k].fork == g;
    }
    forall g | g in ForcedSince(reverts, from) ensures g in ForcedSince(more, from) {
      var k :| from <= k < |reverts| && reverts[k].moved && reverts[k].fork == g;
      assert more[k].moved && more[k].fork == g;
    }
  }

  /** Where the first `n` reverts leave the branch of a fork whose tip was `tip` and which nobody else moves. */
  function TipAfter(tip: Sha, reverts: seq<Revert>, n: nat, fork: Fork): Sha
    requires n <= |reverts|
  {
    if n == 0 then tip
    else if reverts[n - 1].fork == fork && reverts[n - 1].moved then reverts[n - 1].target
    else TipAfter(tip, reverts, n - 1, fork)
  }

  /** One fork's part in a verification: its entry waits for its turn, and then the watch is judged once. */
  ghost predicate JudgedOnce(m: Model, r: Model, judged: bool, cfg: Config, v: View, fork: Fork, w: Watch) {
    && m.h.reverts <= r.h.reverts
    && (!judged ==> Get(r.state, fork) == Get(m.state, fork))
    && (fork in StartedSince(r.h.reverts, |m.h.reverts|) <==> judged && Judge(w, cfg, v).Undo?)
    && (fork in ForcedSince(r.h.reverts, |m.h.reverts|) <==> judged && Judge(w, cfg, v).Undo? && Forces(w, v))
  }

  lemma VerifiedJudges(m: Model, before: Model, key: Fork, cfgs: Fork -> Config, views: Fork -> View, fork: Fork, w: Watch, judged: bool)
    requires Get(m.state, fork).watch == Some(w) && JudgedOnce(m, before, judged, cfgs(fork), views(fork), fork, w)
    requires judged ==> key != fork
    ensures JudgedOnce(m, Verified(before, key, cfgs(key), views(key)), judged || key == fork, cfgs(fork), views(fork), fork, w)
  {
    var e := Get(before.state, key);
    if e.watch.Some? && Judge(e.watch.value, cfgs(key), views(key)).Undo? {
      RevertedMore(before.h.reverts, RevertOf(e.watch.value, key, views(key)), |m.h.reverts|);
    }
  }

  lemma {:induction false} VerifyingReverts(m: Model, keys: seq<Fork>, n: nat, cfgs: Fork -> Config, views: Fork -> View, fork: Fork, w: Watch)
    requires n <= |keys| && Get(m.state, fork).watch == Some(w)
    requires forall i, j :: 0 <= i < j < |keys| ==> keys[i] != keys[j]
    ensures JudgedOnce(m, Verifying(m, keys, n, cfgs, views), fork in keys[..n], cfgs(fork), views(fork), fork, w)
  {
    if n > 0 {
      VerifyingReverts(m, keys, n - 1, cfgs, views, fork, w);
      TakesOneMore(keys, n - 1);
      VerifiedJudges(m, Verifying(m, keys, n - 1, cfgs, views), keys[n - 1], cfgs, views, fork, w, fork in keys[..n - 1]);
    }
  }

  /** In a tick, a revert of a watched fork is started if and only if the watch is named, the worker may act, the watch is
      on and in time, the tip reads as the watched merge or as nothing, and a check failed; and the branch is forced back
      if and only if, besides, the clone works, the pre-merge commit has a name and is in it, and the push is accepted. */
  lemma TickRevertsIff(m: Model, t: Tick, cfgs: Fork -> Config, maxPerTick: int, fork: Fork, w: Watch)
    requires Get(m.state, fork).watch == Some(w) && fork in t.keys
    requires forall i, j :: 0 <= i < j < |t.keys| ==> t.keys[i] != t.keys[j]
    ensures var cfg, v := cfgs(fork), t.views(fork);
            var reverts := Ticked(m, t, cfgs, maxPerTick).h.reverts;
            var due := w.sha != "" && v.hasToken && cfg.verifyCi && v.verifyAt - w.pushedAt <= cfg.maxAge
                       && (v.tip == "" || v.tip == w.sha) && AnyFailure(v.checks);
            && (fork in StartedSince(reverts, |m.h.reverts|) <==> due)
            && (fork in ForcedSince(reverts, |m.h.reverts|) <==> due && v.cloned && w.preMerge != "" && v.found && v.pushed)
  {
    var seen := Seen(m, t, cfgs);
    VerifyingReverts(m, t.keys, |t.keys|, cfgs, t.views, fork, w);
    assert t.keys[..|t.keys|] == t.keys;
    var ordered := Ordered(seen.state, Listed(t));
    SweepingKeepsReverts(Sweep(seen, maxPerTick), ordered, |ordered|, cfgs, t.views, t.now, t.only.Some?);
  }

  // A revert that fails

  lemma VerifiedGrows(m: Model, fork: Fork, cfg: Config, v: View)
    ensures m.h.reverts <= Verified(m, fork, cfg, v).h.reverts
  {
  }

  lemma {:induction false} VerifyingGrows(m: Model, keys: seq<Fork>, n: nat, cfgs: Fork -> Config, views: Fork -> View)
    requires n <= |keys|
    ensures m.h.reverts <= Verifying(m, keys, n, cfgs, views).h.reverts
  {
    if n > 0 {
      VerifyingGrows(m, keys, n - 1, cfgs, views);
      VerifiedGrows(Verifying(m, keys, n - 1, cfgs, views), keys[n - 1], cfgs(keys[n - 1]), views(keys[n - 1]));
    }
  }

  lemma TickGrows(m: Model, t: Tick, cfgs: Fork -> Config, maxPerTick: int)
    ensures m.h.reverts <= Ticked(m, t, cfgs, maxPerTick).h.reverts
  {
    var seen := Seen(m, t, cfgs);
    VerifyingGrows(m, t.keys, |t.keys|, cfgs, t.views);
    var ordered := Ordered(seen.state, Listed(t));
    SweepingKeepsReverts(Sweep(seen, maxPerTick), ordered, |ordered|, cfgs, t.views, t.now, t.only.Some?);
  }

  /** The revert stands where it was in the list, no other in it is of the same watch, and that watch is over. */
  ghost predicate StartedForGood(h: History, pending: map<Fork, Watch>, i: nat, r: Revert) {
    && i < |h.reverts| && h.reverts[i] == r && NotPending(pending, r.serial)
    && forall j :: 0 <= j < |h.reverts| && j != i ==> h.reverts[j].serial != r.serial
  }

  /** Over every run from anywhere in any run: a revert once started, whether it moved the branch or not, is the only one
      of its watch that ever is, and the watch never comes back. */
  lemma {:induction false} RevertIsNeverStartedAgain(m: Model, i: nat, ticks: seq<Tick>, n: nat, cfgs: Fork -> Config, maxPerTick: int)
    requires WatchInv(m) && i < |m.h.reverts| && n <= |ticks|
    ensures var r := Run(m, ticks, n, cfgs, maxPerTick);
            StartedForGood(r.h, Pending(r.state), i, m.h.reverts[i])
  {
    var P := (x: Model) => WatchInv(x) && m.h.reverts <= x.h.reverts;
    forall x: Model, k | 0 <= k < |ticks| && P(x) ensures P(Ticked(x, ticks[k], cfgs, maxPerTick)) {
      TickKeepsWatches(x, ticks[k], cfgs, maxPerTick);
      TickGrows(x, ticks[k], cfgs, maxPerTick);
    }
    Always(P, m, ticks, n, cfgs, maxPerTick);
    OnlyOneOfItsWatch(Run(m, ticks, n, cfgs, maxPerTick), i);
  }

  lemma OnlyOneOfItsWatch(m: Model, i: nat)
    requires WatchInv(m) && i < |m.h.reverts|
    ensures StartedForGood(m.h, Pending(m.state), i, m.h.reverts[i])
  {
    assert RevertsBooked(Pending(m.state), m.h.arms, m.h.reverts);
  }

  /** One tick in which the revert of a red merge fails, for want of a clone, of the commit or of the push: the branch stays
      where it is, while the watch is finished and counted, and the merged sha forgotten. */
  lemma {:induction false} FailedRevertLeavesTheMerge(fork: Fork, e: Entry, t: Tick, cfgs: Fork -> Config, maxPerTick: int, tip: Sha)
    requires e.watch.Some? && t.keys == [fork] && t.forks == [] && t.only.None?
    requires Judge(e.watch.value, cfgs(fork), t.views(fork)).Undo? && !Forces(e.watch.value, t.views(fork))
    ensures Watched(map[fork := e], [fork])
    ensures var r := Ticked(Opened(map[fork := e], [fork], 1), t, cfgs, maxPerTick);
            && WatchInv(r) && |r.h.reverts| == 1 && r.h.reverts[0].serial == 0 && !r.h.reverts[0].moved
            && TipAfter(tip, r.h.reverts, 1, fork) == tip
            && r.h.finished == 1 && Pending(r.state) == map[] && Get(r.state, fork) == e.(watch := None, lastMerged := "")
  {
    var state, w := map[fork := e], e.watch.value.(serial := 0);
    BooksOpen(state, [fork], 1);
    NoRevertsYet(state, [fork], 1);
    var m := Opened(state, [fork], 1);
    assert Opened(state, [fork], 0).state == map[fork := e.(watch := None)];
    assert m.state == map[fork := e.(watch := Some(w))];
    assert Judge(w, cfgs(fork), t.views(fork)) == Judge(e.watch.value, cfgs(fork), t.views(fork));
    assert Verifying(m, t.keys, 0, cfgs, t.views) == m;
    var seen := Seen(m, t, cfgs);
    assert seen == Verified(m, fork, cfgs(fork), t.views(fork));
    TickKeepsWatches(m, t, cfgs, maxPerTick);
    assert Listed(t) == [];
    assert Ticked(m, t, cfgs, maxPerTick) == seen;
    assert Pending(seen.state) == map[];
  }

  /** And so it stays: in no run that follows is a revert of that watch started, though the merge is still there. */
  lemma {:induction false} FailedRevertIsFinal(fork: Fork, e: Entry, t: Tick, ticks: seq<Tick>, n: nat, cfgs: Fork -> Config, maxPerTick: int)
    requires e.watch.Some? && t.keys == [fork] && t.forks == [] && t.only.None? && n <= |ticks|
    requires Judge(e.watch.value, cfgs(fork), t.views(fork)).Undo? && !Forces(e.watch.value, t.views(fork))
    ensures Watched(map[fork := e], [fork])
    ensures var r := Run(Ticked(Opened(map[fork := e], [fork], 1), t, cfgs, maxPerTick), ticks, n, cfgs, maxPerTick);
            && |r.h.reverts| >= 1 && !r.h.reverts[0].moved
            && forall j :: 1 <= j < |r.h.reverts| ==> r.h.reverts[j].serial != r.h.reverts[0].serial
  {
    FailedRevertLeavesTheMerge(fork, e, t, cfgs, maxPerTick, "");
    RevertIsNeverStartedAgain(Ticked(Opened(map[fork := e], [fork], 1), t, cfgs, maxPerTick), 0, ticks, n, cfgs, maxPerTick);
  }

  // A watch without a commit

  /** Some attempt for the fork ended synced since the log was `from` long. */
  predicate SyncedSince(log: seq<Attempt>, from: nat, fork: Fork) {
    exists k :: from <= k < |log| && log[k].fork == fork && log[k].outcome.Synced?
  }

  /** The nameless watch stands, or an attempt has ended synced. */
  ghost predicate StandsUnless(from: nat, m: Model, fork: Fork, w: Watch) {
    from <= |m.h.log| && (SyncedSince(m.h.log, from, fork) || Get(m.state, fork).watch == Some(w))
  }

  lemma VisitStands(from: nat, s: Sweep, g: Fork, cfg: Config, v: View, now: int, unlimited: bool, fork: Fork, w: Watch)
    requires StandsUnless(from, s.m, fork, w)
    ensures StandsUnless(from, Visit(s, g, cfg, v, now, unlimited).m, fork, w)
  {
    var r := Visit(s, g, cfg, v, now, unlimited).m;
    if k :| from <= k < |s.m.h.log| && s.m.h.log[k].fork == fork && s.m.h.log[k].outcome.Synced? {
      assert r.h.log[k] == s.m.h.log[k];
    } else if |r.h.log| > |s.m.h.log| && g == fork && v.outcome.Synced? {
      assert r.h.log[|s.m.h.log|].fork == fork;
    }
  }

  lemma {:induction false} SweepingStands(from: nat, s: Sweep, ordered: seq<Fork>, n: nat, cfgs: Fork -> Config, views: Fork -> View, now: int, unlimited: bool, fork: Fork, w: Watch)
    requires n <= |ordered| && StandsUnless(from, s.m, fork, w)
    ensures StandsUnless(from, Sweeping(s, ordered, n, cfgs, views, now, unlimited).m, fork, w)
  {
    if n > 0 {
      SweepingStands(from, s, ordered, n - 1, cfgs, views, now, unlimited, fork, w);
      VisitStands(from, Sweeping(s, ordered, n - 1, cfgs, views, now, unlimited), ordered[n - 1], cfgs(ordered[n - 1]),
                  views(ordered[n - 1]), now, unlimited, fork, w);
    }
  }

  lemma {:induction false} VerifyingStands(from: nat, m: Model, keys: seq<Fork>, n: nat, cfgs: Fork -> Config, views: Fork -> View, fork: Fork, w: Watch)
    requires n <= |keys| && StandsUnless(from, m, fork, w) && w.sha == ""
    ensures StandsUnless(from, Verifying(m, keys, n, cfgs, views), fork, w)
  {
    if n > 0 {
      VerifyingStands(from, m, keys, n - 1, cfgs, views, fork, w);
    }
  }

  lemma TickStands(from: nat, m: Model, t: Tick, cfgs: Fork -> Config, maxPerTick: int, fork: Fork, w: Watch)
    requires StandsUnless(from, m, fork, w) && w.sha == ""
    ensures StandsUnless(from, Ticked(m, t, cfgs, maxPerTick), fork, w)
  {
    var seen := Seen(m, t, cfgs);
    VerifyingStands(from, m, t.keys, |t.keys|, cfgs, t.views, fork, w);
    var ordered := Ordered(seen.state, Listed(t));
    SweepingStands(from, Sweep(seen, maxPerTick), ordered, |ordered|, cfgs, t.views, t.now, t.only.Some?, fork, w);
  }

  /** A merge whose own commit could not be read is watched under no name. Over every run, such a watch stands as it was
      recorded until a later attempt for its fork ends synced and overwrites it; no check, age or tip ends it. */
  lemma {:induction false} NamelessWatchStays(m: Model, ticks: seq<Tick>, n: nat, cfgs: Fork -> Config, maxPerTick: int, fork: Fork, w: Watch)
    requires n <= |ticks| && Get(m.state, fork).watch == Some(w) && w.sha == ""
    ensures var r := Run(m, ticks, n, cfgs, maxPerTick);
            |m.h.log| <= |r.h.log| && (SyncedSince(r.h.log, |m.h.log|, fork) || Get(r.state, fork).watch == Some(w))
  {
    var P := (x: Model) => StandsUnless(|m.h.log|, x, fork, w);
    forall x: Model, i | 0 <= i < |ticks| && P(x) ensures P(Ticked(x, ticks[i], cfgs, maxPerTick)) {
      TickStands(|m.h.log|, x, ticks[i], cfgs, maxPerTick, fork, w);
    }
    Always(P, m, ticks, n, cfgs, maxPerTick);
  }
}
