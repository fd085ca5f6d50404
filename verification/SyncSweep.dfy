/** The upstream-sync tick: verify what was pushed, then offer every fork a turn, stalest first. */
module SyncSpec {
  import opened Text
  import opened Lists

  /** A repository's full name. */
  type Fork(==, !new)

  type Sha = string

  /** Seconds, in place of the configured hours. */
  datatype Config = Config(enabled: bool, interval: int, verifyCi: bool, maxAge: int, noCiGrace: int)

  /** pending_verify; `serial` numbers the watches as they are armed, to tell them apart. */
  datatype Watch = Watch(serial: nat, sha: Sha, preMerge: Sha, branch: string, pushedAt: int)

  datatype Entry = Entry(lastSync: int, lastAttempt: Option<Sha>, lastMerged: Sha, skipReason: string, notified: bool,
                         watch: Option<Watch>)

  /** What a missing entry reads as. */
  const FRESH := Entry(0, None, "", "", false, None)

  function Get(state: map<Fork, Entry>, fork: Fork): Entry {
    if fork in state then state[fork] else FRESH
  }

  /** How a sync attempt ended, with the clock readings it took. Stamped is an error that still moves the clock: a failed
      clone, fetch or merge, or a protected branch whose pull request could not be opened. Threw is a caught exception. */
  datatype Outcome =
    | Synced(merged: Sha, preMerge: Sha, branch: string, at: int, pushedAt: int)
    | PrOpened(at: int)
    | ConflictFailed(at: int, note: string)
    | PushFailed(at: int, note: string)
    | Stamped(at: int)
    | Threw

  datatype Info = Info(mergeCount: int, upstreamSha: Sha)

  datatype Check = Check(failure: bool, completed: bool)

  /** Everything the outside world answers about one fork during one tick; the last three are for a revert: its clone, the
      search for the pre-merge commit in it, and the forced push. */
  datatype View = View(info: Option<Info>, openPr: bool, outcome: Outcome,
                       hasToken: bool, verifyAt: int, tip: Sha, checks: seq<Check>,
                       cloned: bool, found: bool, pushed: bool)

  datatype Attempt = Attempt(fork: Fork, sha: Sha, outcome: Outcome)

  datatype Arm = Arm(fork: Fork, watch: Watch)

  /** A revert that was started, with what was read before: the tip, the checks and the clock; and whether it moved the
      branch. */
  datatype Revert = Revert(serial: nat, fork: Fork, branch: string, target: Sha, tip: Sha, checks: seq<Check>, at: int, moved: bool)

  /** What happened over all ticks. */
  datatype History = History(log: seq<Attempt>, arms: seq<Arm>, finished: nat, overwritten: nat, reverts: seq<Revert>)

  datatype Model = Model(state: map<Fork, Entry>, armed: nat, h: History)

  // The sweep

  /** The outcomes that record the upstream tip as handled. */
  predicate Records(o: Outcome) {
    o.Synced? || o.PrOpened? || o.ConflictFailed? || o.PushFailed?
  }

  /** What a finished attempt leaves in the entry, the reporter's flag included. */
  function Record(e: Entry, sha: Sha, o: Outcome, serial: nat): Entry {
    match o
    case Synced(merged, preMerge, branch, at, pushedAt) =>
      Entry(at, Some(sha), sha, "", false, Some(Watch(serial, merged, preMerge, branch, pushedAt)))
    case PrOpened(at) => e.(lastSync := at, lastAttempt := Some(sha), lastMerged := "", skipReason := "", notified := false)
    case ConflictFailed(at, note) => e.(lastSync := at, lastAttempt := Some(sha), skipReason := note, notified := true)
    case PushFailed(at, note) => e.(lastSync := at, lastAttempt := Some(sha), skipReason := note, notified := false)
    case Stamped(at) => e.(lastSync := at)
    case Threw => e
  }

  /** Nothing to merge. */
  predicate InSync(v: View) {
    v.info.Some? && v.info.value.mergeCount <= 0
  }

  /** All gates open: the fork would be attempted if the budget reaches it. */
  predicate Eligible(e: Entry, cfg: Config, v: View, now: int) {
    && cfg.enabled && v.info.Some? && v.info.value.mergeCount > 0
    && e.lastAttempt != Some(v.info.value.upstreamSha)
    && now - e.lastSync >= cfg.interval
    && !v.openPr
  }

  function Attempted(m: Model, fork: Fork, v: View): Model
    requires v.info.Some?
  {
    var e, sha := Get(m.state, fork), v.info.value.upstreamSha;
    var after := Record(e, sha, v.outcome, m.armed);
    var h := m.h.(log := m.h.log + [Attempt(fork, sha, v.outcome)]);
    if v.outcome.Synced?
    then Model(m.state[fork := after], m.armed + 1,
               h.(arms := h.arms + [Arm(fork, after.watch.value)], overwritten := h.overwritten + (if e.watch.Some? then 1 else 0)))
    else Model(m.state[fork := after], m.armed, h)
  }

  datatype Sweep = Sweep(m: Model, budget: int)

  /** One turn of the sweep. */
  function Visit(s: Sweep, fork: Fork, cfg: Config, v: View, now: int, unlimited: bool): Sweep {
    var e := Get(s.m.state, fork);
    if !cfg.enabled || (s.budget <= 0 && !unlimited) || v.info.None? then s
    else if InSync(v) then (if e.skipReason == "" then s else s.(m := s.m.(state := s.m.state[fork := e.(skipReason := "")])))
    else if !Eligible(e, cfg, v, now) then s
    else Sweep(Attempted(s.m, fork, v), s.budget - 1)
  }

  function Sweeping(s: Sweep, ordered: seq<Fork>, n: nat, cfgs: Fork -> Config, views: Fork -> View, now: int, unlimited: bool): Sweep
    requires n <= |ordered|
  {
    if n == 0 then s
    else
      Visit(Sweeping(s, ordered, n - 1, cfgs, views, now, unlimited), ordered[n - 1], cfgs(ordered[n - 1]), views(ordered[n - 1]),
            now, unlimited)
  }

  /** Oldest attempt first. */
  function Staleness(state: map<Fork, Entry>): Fork -> int {
    (fork: Fork) => if fork in state then -state[fork].lastSync else 0
  }

  function Ordered(state: map<Fork, Entry>, forks: seq<Fork>): seq<Fork> {
    SortDown(Staleness(state), forks)
  }

  // The watch

  datatype Verdict = Wait | Stop | Undo

  predicate AnyFailure(checks: seq<Check>) {
    exists c | c in checks :: c.failure
  }

  predicate AnyRunning(checks: seq<Check>) {
    exists c | c in checks :: !c.completed
  }

  /** The exits of the watch, in order. */
  function Judge(w: Watch, cfg: Config, v: View): Verdict {
    var age := v.verifyAt - w.pushedAt;
    if w.sha == "" || !v.hasToken then Wait
    else if !cfg.verifyCi || age > cfg.maxAge then Stop
    else if v.tip != "" && v.tip != w.sha then Stop
    else if AnyFailure(v.checks) then Undo
    else if v.checks == [] then (if age < cfg.noCiGrace then Wait else Stop)
    else if AnyRunning(v.checks) then Wait
    else Stop
  }

  function BranchOf(w: Watch): string {
    if w.branch == "" then "main" else w.branch
  }

  /** syncRevertMerge moves the branch: the clone and the push work, and the commit to go back to is in the clone, which
      one without a name never is. */
  predicate Forces(w: Watch, v: View) {
    v.cloned && w.preMerge != "" && v.found && v.pushed
  }

  function RevertOf(w: Watch, fork: Fork, v: View): Revert {
    Revert(w.serial, fork, BranchOf(w), w.preMerge, v.tip, v.checks, v.verifyAt, Forces(w, v))
  }

  function Verified(m: Model, fork: Fork, cfg: Config, v: View): Model {
    var e := Get(m.state, fork);
    if e.watch.None? then m
    else
      var w := e.watch.value;
      match Judge(w, cfg, v)
      case Wait => m
      case Stop => m.(state := m.state[fork := e.(watch := None)], h := m.h.(finished := m.h.finished + 1))
      case Undo =>
        m.(state := m.state[fork := e.(watch := None, lastMerged := "")],
           h := m.h.(finished := m.h.finished + 1, reverts := m.h.reverts + [RevertOf(w, fork, v)]))
  }

  function Verifying(m: Model, keys: seq<Fork>, n: nat, cfgs: Fork -> Config, views: Fork -> View): Model
    requires n <= |keys|
  {
    if n == 0 then m
    else Verified(Verifying(m, keys, n - 1, cfgs, views), keys[n - 1], cfgs(keys[n - 1]), views(keys[n - 1]))
  }

  // The tick

  /** One tick's inputs: the clock, the answers, the entries' keys in the record's order, and a fork asked for by hand. */
  datatype Tick = Tick(now: int, views: Fork -> View, keys: seq<Fork>, forks: seq<Fork>, only: Option<Fork>)

  predicate Wanted(only: Option<Fork>, fork: Fork) {
    only.None? || only.value == fork
  }

  function Listed(t: Tick): seq<Fork> {
    Filter((fork: Fork) => Wanted(t.only, fork), t.forks)
  }

  function VerifiedAll(m: Model, keys: seq<Fork>, cfgs: Fork -> Config, views: Fork -> View): Model {
    Verifying(m, keys, |keys|, cfgs, views)
  }

  function Seen(m: Model, t: Tick, cfgs: Fork -> Config): Model {
    VerifiedAll(m, t.keys, cfgs, t.views)
  }

  function SweptAll(s: Sweep, ordered: seq<Fork>, cfgs: Fork -> Config, views: Fork -> View, now: int, unlimited: bool): Sweep {
    Sweeping(s, ordered, |ordered|, cfgs, views, now, unlimited)
  }

  function Swept(m: Model, ordered: seq<Fork>, t: Tick, cfgs: Fork -> Config, maxPerTick: int): Sweep {
    SweptAll(Sweep(m, maxPerTick), ordered, cfgs, t.views, t.now, t.only.Some?)
  }

  function Ticked(m: Model, t: Tick, cfgs: Fork -> Config, maxPerTick: int): Model {
    Swept(Seen(m, t, cfgs), Ordered(Seen(m, t, cfgs).state, Listed(t)), t, cfgs, maxPerTick).m
  }

  function Run(m: Model, ticks: seq<Tick>, n: nat, cfgs: Fork -> Config, maxPerTick: int): Model
    requires n <= |ticks|
  {
    if n == 0 then m else Ticked(Run(m, ticks, n - 1, cfgs, maxPerTick), ticks[n - 1], cfgs, maxPerTick)
  }

  /** Once the budget is spent, the rest of the sweep changes nothing, so the loop may leave. */
  lemma {:induction false} SpentStays(s: Sweep, ordered: seq<Fork>, n: nat, cfgs: Fork -> Config, views: Fork -> View, now: int)
    requires n <= |ordered| && Sweeping(s, ordered, n, cfgs, views, now, false).budget <= 0
    ensures Sweeping(s, ordered, |ordered|, cfgs, views, now, false) == Sweeping(s, ordered, n, cfgs, views, now, false)
    decreases |ordered| - n
  {
    if n < |ordered| {
      SpentStays(s, ordered, n + 1, cfgs, views, now);
    }
  }
}

/** The worker's side: loops that change the state in place. */
module SyncWorkers {
  import opened Text
  import opened SyncSpec

  class SyncWorker {
    var state: map<Fork, Entry>
    var armed: nat
    ghost var history: History
    const cfgs: Fork -> Config
    const maxPerTick: int

    constructor (cfgs: Fork -> Config, maxPerTick: int, state: map<Fork, Entry>)
      ensures this.cfgs == cfgs && this.maxPerTick == maxPerTick
      ensures M() == Model(state, 0, History([], [], 0, 0, []))
    {
      this.cfgs, this.maxPerTick, this.state := cfgs, maxPerTick, state;
      armed, history := 0, History([], [], 0, 0, []);
    }

    ghost function M(): Model
      reads this
    {
      Model(state, armed, history)
    }

    /** A sync attempt's writes, and the reporter's. */
    method SyncOne(fork: Fork, sha: Sha, o: Outcome, ghost v: View)
      requires v.info.Some? && v.info.value.upstreamSha == sha && v.outcome == o
      modifies this
      ensures M() == Attempted(old(M()), fork, v)
    {
      var entry := Get(state, fork);
      history := history.(log := history.log + [Attempt(fork, sha, o)]);
      match o {
        case Synced(merged, preMerge, branch, at, pushedAt) =>
          var watch := Watch(armed, merged, preMerge, branch, pushedAt);
          history := history.(arms := history.arms + [Arm(fork, watch)],
                              overwritten := history.overwritten + (if entry.watch.Some? then 1 else 0));
          state, armed := state[fork := Entry(at, Some(sha), sha, "", false, Some(watch))], armed + 1;
        case PrOpened(at) =>
          state := state[fork := entry.(lastSync := at, lastAttempt := Some(sha), lastMerged := "", skipReason := "", notified := false)];
        case ConflictFailed(at, note) =>
          state := state[fork := entry.(lastSync := at, lastAttempt := Some(sha), skipReason := note, notified := false)];
          if !state[fork].notified {
            state := state[fork := state[fork].(notified := true)];
          }
          assert state == old(state)[fork := Record(entry, sha, o, armed)];
        case PushFailed(at, note) =>
          state := state[fork := entry.(lastSync := at, lastAttempt := Some(sha), skipReason := note, notified := false)];
        case Stamped(at) =>
          state := state[fork := entry.(lastSync := at)];
        case Threw =>
          state := state[fork := entry];
      }
    }

    method SweepForks(ordered: seq<Fork>, views: Fork -> View, now: int, only: bool, budget0: int) returns (budget: int)
      modifies this
      ensures Sweep(M(), budget) == SweptAll(Sweep(old(M()), budget0), ordered, cfgs, views, now, only)
    {
      budget := budget0;
      var i := 0;
      while i < |ordered|
        invariant i <= |ordered|
        invariant Sweep(M(), budget) == Sweeping(Sweep(old(M()), budget0), ordered, i, cfgs, views, now, only)
      {
        var fork := ordered[i];
        var cfg, v := cfgs(fork), views(fork);
        i := i + 1;
        if !cfg.enabled {
          continue;
        }
        if budget <= 0 && !only {
          SpentStays(Sweep(old(M()), budget0), ordered, i - 1, cfgs, views, now);
          break;
        }
        if v.info.None? {
          continue;
        }
        var entry := Get(state, fork);
        if v.info.value.mergeCount <= 0 {
          if entry.skipReason != "" {
            state := state[fork := entry.(skipReason := "")];
          }
          continue;
        }
        if entry.lastAttempt == Some(v.info.value.upstreamSha) {
          continue;
        }
        if now - entry.lastSync < cfg.interval {
          continue;
        }
        if v.openPr {
          continue;
        }
        SyncOne(fork, v.info.value.upstreamSha, v.outcome, v);
        budget := budget - 1;
      }
    }

    /** syncRevertMerge: true when the branch was forced back. Its caller only reports the answer. */
    static method RevertMerge(w: Watch, v: View) returns (ok: bool)
      ensures ok <==> Forces(w, v)
    {
      if !v.cloned {
        return false;
      }
      var have := w.preMerge != "" && v.found;
      if !have {
        return false;
      }
      ok := v.pushed;
    }

    method VerifyPendingSyncs(keys: seq<Fork>, views: Fork -> View)
      modifies this
      ensures M() == VerifiedAll(old(M()), keys, cfgs, views)
    {
      var i := 0;
      while i < |keys|
        invariant i <= |keys| && M() == Verifying(old(M()), keys, i, cfgs, views)
      {
        var fork := keys[i];
        var cfg, v, entry := cfgs(fork), views(fork), Get(state, fork);
        i := i + 1;
        if entry.watch.None? || entry.watch.value.sha == "" || !v.hasToken {
          continue;
        }
        var pending := entry.watch.value;
        var age := v.verifyAt - pending.pushedAt;
        var running := AnyRunning(v.checks);
        if !cfg.verifyCi || age > cfg.maxAge || (v.tip != "" && v.tip != pending.sha) {
          state := state[fork := entry.(watch := None)];
          history := history.(finished := history.finished + 1);
        } else if AnyFailure(v.checks) {
          var moved := RevertMerge(pending, v);
          history := history.(finished := history.finished + 1,
                              reverts := history.reverts + [Revert(pending.serial, fork, BranchOf(pending), pending.preMerge,
                                                                   v.tip, v.checks, v.verifyAt, moved)]);
          state := state[fork := entry.(watch := None, lastMerged := "")];
        } else if |v.checks| == 0 {
          if age < cfg.noCiGrace {
            continue;
          }
          state := state[fork := entry.(watch := None)];
          history := history.(finished := history.finished + 1);
        } else if !running {
          state := state[fork := entry.(watch := None)];
          history := history.(finished := history.finished + 1);
        }
      }
    }

    /** runUpstreamSync up to the sweep: verification first, then the order of staleness. */
    method Begin(t: Tick) returns (ordered: seq<Fork>)
      modifies this
      ensures M() == Seen(old(M()), t, cfgs) && ordered == Ordered(M().state, Listed(t))
    {
      VerifyPendingSyncs(t.keys, t.views);
      ordered := Ordered(state, Listed(t));
    }

    method RunUpstreamSync(t: Tick)
      modifies this
      ensures M() == Ticked(old(M()), t, cfgs, maxPerTick)
    {
      var ordered := Begin(t);
      TickedIs(old(M()), t, cfgs, maxPerTick, M(), ordered);
      var left := SweepForks(ordered, t.views, t.now, t.only.Some?, maxPerTick);
    }

    static lemma TickedIs(m: Model, t: Tick, cfgs: Fork -> Config, maxPerTick: int, seen: Model, ordered: seq<Fork>)
      requires seen == Seen(m, t, cfgs) && ordered == Ordered(seen.state, Listed(t))
      ensures Ticked(m, t, cfgs, maxPerTick) == Swept(seen, ordered, t, cfgs, maxPerTick).m
    {
    }
  }
}
