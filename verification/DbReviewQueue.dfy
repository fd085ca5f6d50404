/**
 One process pumping the rows, with every `await` a place where any other step may happen. A step is the
 synchronous code between two awaits, or the commit of one statement. A store call that throws is taken to have
 left the rows as they were.
 */
module DbQueueSpec {
  import opened Basics
  import opened Text
  import opened Jobs
  import opened QueueRows

  /** Where pump() stands: `pumping` is true in all but the first. */
  datatype Phase = Resting | Claiming(slots: nat) | Claimed(batch: seq<Key>)

  /**
   `active`: executions from their start to the commit of complete(); `again` and `plain`: executions between that
   commit and their `finally`, by the `rerun` they hold; `settlers`: open `pump().then(settleIfIdle)`; `waiters`: the poll
   loop parked for idleness; `stranded`: rows left `running` by nobody, after a crash or a complete() that threw twice.
   */
  datatype Proc = Proc(rows: Table, cap: nat, up: bool, inFlight: nat, phase: Phase, active: multiset<Key>,
                       again: nat, plain: nat, settlers: nat, waiters: nat, stranded: multiset<Key>)

  datatype Event =
    | Request(key: Key, id: nat, jsNow: int, dbNow: int)
    | PumpBegins
    | ClaimCommits(now: int, locked: set<Key>, keys: seq<Key>)
    | ClaimFails
    | Delivers
    | Settles(key: Key, error: Option<string>, now: int)
    | SettleLost(key: Key)
    | Finishes(rerun: bool)
    | SettleIfIdle
    | LoopParks
    | Crash
    | Boot

  function PumpBegun(p: Proc): Proc {
    if p.phase.Resting? && p.inFlight < p.cap then p.(phase := Claiming(p.cap - p.inFlight)) else p
  }

  function Released(p: Proc): Proc {
    if p.inFlight == 0 then p.(waiters := 0) else p
  }

  function InBatch(p: Proc): multiset<Key> {
    if p.phase.Claimed? then multiset(p.phase.batch) else multiset{}
  }

  /** Slots that a pump in progress has spoken for. */
  function Reserved(p: Proc): nat {
    match p.phase case Resting => 0 case Claiming(slots) => slots case Claimed(batch) => |batch|
  }

  ghost predicate Possible(p: Proc, e: Event) {
    match e
    case Request(_, id, _, _) => p.up && forall k :: k in p.rows ==> p.rows[k].id < id
    case PumpBegins => p.up
    case ClaimCommits(now, locked, keys) => p.up && p.phase.Claiming? && Batch(p.rows, locked, now, p.phase.slots, keys)
    case ClaimFails => p.up && p.phase.Claiming?
    case Delivers => p.up && p.phase.Claimed?
    case Settles(key, _, _) => p.up && key in p.active
    case SettleLost(key) => p.up && key in p.active
    case Finishes(rerun) => p.up && (if rerun then p.again else p.plain) > 0 && p.inFlight > 0
    case SettleIfIdle => p.up && p.settlers > 0
    case LoopParks => p.up && p.inFlight >= p.cap
    case Crash => p.up
    case Boot => !p.up
  }

  function Decision(p: Proc, key: Key, error: Option<string>): bool {
    key in p.rows && RerunDecision(p.rows[key], error)
  }

  function Delivered(p: Proc): Proc
    requires p.phase.Claimed?
  {
    p.(phase := Resting, inFlight := p.inFlight + |p.phase.batch|, active := p.active + multiset(p.phase.batch))
  }

  function Settled(p: Proc, key: Key, error: Option<string>, now: int): Proc {
    p.(rows := AfterComplete(p.rows, key, error, now), active := p.active - multiset{key},
       again := p.again + (if Decision(p, key, error) then 1 else 0),
       plain := p.plain + (if Decision(p, key, error) then 0 else 1))
  }

  function Finished(p: Proc, rerun: bool): Proc
    requires p.inFlight > 0 && (if rerun then p.again else p.plain) > 0
  {
    if rerun then PumpBegun(p.(inFlight := p.inFlight - 1, again := p.again - 1, settlers := p.settlers + 1))
    else Released(p.(inFlight := p.inFlight - 1, plain := p.plain - 1))
  }

  function Booted(p: Proc): Proc {
    p.(up := true, rows := AfterRequeue(p.rows), stranded := multiset{})
  }

  ghost function Step(p: Proc, e: Event): Proc
    requires Possible(p, e)
  {
    match e
    case Request(key, id, jsNow, dbNow) => p.(rows := AfterEnqueue(p.rows, key, id, jsNow, dbNow))
    case PumpBegins => PumpBegun(p)
    case ClaimCommits(_, _, keys) => p.(rows := AfterClaim(p.rows, keys), phase := Claimed(keys))
    case ClaimFails => p.(phase := Resting)
    case Delivers => Delivered(p)
    case Settles(key, error, now) => Settled(p, key, error, now)
    case SettleLost(key) =>
      p.(active := p.active - multiset{key}, plain := p.plain + 1,
         stranded := p.stranded + multiset{key})
    case Finishes(rerun) => Finished(p, rerun)
    case SettleIfIdle => Released(p.(settlers := p.settlers - 1))
    case LoopParks => p.(waiters := p.waiters + 1)
    case Crash =>
      p.(up := false, inFlight := 0, phase := Resting, active := multiset{}, again := 0, plain := 0, settlers := 0,
         waiters := 0, stranded := p.stranded + p.active + InBatch(p))
    case Boot => Booted(p)
  }

  /** The row table as a previous process left it: whoever ran, nobody does now. */
  function Cold(rows: Table, cap: nat): Proc {
    Proc(rows, cap, false, 0, Resting, multiset{}, 0, 0, 0, 0, multiset(RunningKeys(rows)))
  }

  ghost predicate Inv(p: Proc) {
    && p.cap >= 1
    && DistinctIds(p.rows) && NoFlagOnDone(p.rows)
    && p.active + InBatch(p) + p.stranded == multiset(RunningKeys(p.rows))
    && p.inFlight == |p.active| + p.again + p.plain
    && p.inFlight + Reserved(p) <= p.cap
    && (p.phase.Claiming? ==> p.phase.slots > 0)
    && (p.waiters > 0 && p.inFlight == 0 ==> p.settlers > 0)
    && (!p.up ==> p.inFlight == 0 && p.phase == Resting && p.waiters == 0)
  }

  ghost predicate Run(ps: seq<Proc>, es: seq<Event>) {
    && |ps| == |es| + 1
    && ps[0] == Cold(ps[0].rows, ps[0].cap) && ps[0].cap >= 1 && DistinctIds(ps[0].rows) && NoFlagOnDone(ps[0].rows)
    && forall i :: 0 <= i < |es| ==> Possible(ps[i], es[i]) && ps[i + 1] == Step(ps[i], es[i])
  }

  lemma OneStepMore(ps: seq<Proc>, es: seq<Event>, e: Event) returns (qs: seq<Proc>, fs: seq<Event>)
    requires Run(ps, es) && Possible(ps[|es|], e)
    ensures Run(qs, fs) && fs == es + [e] && qs[|fs|] == Step(ps[|es|], e)
  {
    qs, fs := ps + [Step(ps[|es|], e)], es + [e];
    forall i | 0 <= i < |fs| ensures Possible(qs[i], fs[i]) && qs[i + 1] == Step(qs[i], fs[i]) {
      if i < |es| {
        assert qs[i] == ps[i] && qs[i + 1] == ps[i + 1] && fs[i] == es[i];
      }
    }
  }

  lemma ClaimMovesKeys(rows: Table, keys: seq<Key>)
    requires Distinct(keys) && forall k :: k in keys ==> k in rows && rows[k].state == Pending
    ensures multiset(RunningKeys(AfterClaim(rows, keys))) == multiset(RunningKeys(rows)) + multiset(keys)
  {
    DistinctCounts(keys);
    forall k ensures multiset(RunningKeys(AfterClaim(rows, keys)))[k] == (multiset(RunningKeys(rows)) + multiset(keys))[k] {
      assert k in keys <==> k in multiset(keys);
    }
  }

  lemma {:induction false} DistinctCounts(keys: seq<Key>)
    requires Distinct(keys)
    ensures forall k :: multiset(keys)[k] == if k in keys then 1 else 0
  {
    if keys != [] {
      var front, last := keys[..|keys| - 1], keys[|keys| - 1];
      assert keys == front + [last];
      DistinctCounts(front);
    }
  }

  lemma CompleteFreesKey(rows: Table, key: Key, error: Option<string>, now: int)
    requires key in rows && rows[key].state == Running
    ensures multiset(RunningKeys(AfterComplete(rows, key, error, now))) == multiset(RunningKeys(rows)) - multiset{key}
  {
    assert RunningKeys(AfterComplete(rows, key, error, now)) == RunningKeys(rows) - {key};
  }

  lemma ActiveIsRunning(p: Proc, key: Key)
    requires Inv(p) && key in p.active
    ensures key in p.rows && p.rows[key].state == Running
  {
    assert key in p.active + InBatch(p) + p.stranded;
    assert key in multiset(RunningKeys(p.rows));
  }

  lemma RequestKeeps(p: Proc, e: Event)
    requires Inv(p) && Possible(p, e) && e.Request?
    ensures Inv(Step(p, e))
  {
    assert RunningKeys(Step(p, e).rows) == RunningKeys(p.rows);
  }

  lemma ClaimKeeps(p: Proc, e: Event)
    requires Inv(p) && Possible(p, e) && e.ClaimCommits?
    ensures Inv(Step(p, e))
  {
    ClaimMovesKeys(p.rows, e.keys);
    var q := Step(p, e);
    assert NoFlagOnDone(q.rows) && DistinctIds(q.rows);
  }

  lemma SettleKeeps(p: Proc, e: Event)
    requires Inv(p) && Possible(p, e) && e.Settles?
    ensures Inv(Step(p, e))
  {
    ActiveIsRunning(p, e.key);
    CompleteFreesKey(p.rows, e.key, e.error, e.now);
    var q := Step(p, e);
    assert q.active + multiset{e.key} == p.active;
  }

  lemma LostKeeps(p: Proc, e: Event)
    requires Inv(p) && Possible(p, e) && e.SettleLost?
    ensures Inv(Step(p, e))
  {
    MoveOne(p.active, InBatch(p), p.stranded, e.key);
  }

  lemma MoveOne(a: multiset<Key>, b: multiset<Key>, c: multiset<Key>, key: Key)
    requires key in a
    ensures (a - multiset{key}) + b + (c + multiset{key}) == a + b + c
    ensures |a - multiset{key}| == |a| - 1
  {
    assert (a - multiset{key}) + multiset{key} == a;
  }

  lemma LifecycleKeeps(p: Proc, e: Event)
    requires Inv(p) && Possible(p, e) && (e.Crash? || e.Boot?)
    ensures Inv(Step(p, e))
  {
    var q := Step(p, e);
    if e.Boot? {
      assert RunningKeys(q.rows) == {};
      assert |p.active| == 0;
    }
  }

  lemma PumpKeeps(p: Proc, e: Event)
    requires Inv(p) && Possible(p, e)
    requires e.PumpBegins? || e.ClaimFails? || e.Delivers? || e.SettleIfIdle? || e.LoopParks?
    ensures Inv(Step(p, e))
  {
  }

  lemma FinishKeeps(p: Proc, e: Event)
    requires Inv(p) && Possible(p, e) && e.Finishes?
    ensures Inv(Step(p, e))
  {
  }

  /** What every interleaving keeps. */
  lemma {:induction false} EveryRunKeepsTheInvariant(ps: seq<Proc>, es: seq<Event>, n: nat)
    requires Run(ps, es) && n < |ps|
    ensures Inv(ps[n])
  {
    if n > 0 {
      EveryRunKeepsTheInvariant(ps, es, n - 1);
      var p, e := ps[n - 1], es[n - 1];
      match e {
        case Request(_, _, _, _) => RequestKeeps(p, e);
        case ClaimCommits(_, _, _) => ClaimKeeps(p, e);
        case Settles(_, _, _) => SettleKeeps(p, e);
        case SettleLost(_) => LostKeeps(p, e);
        case Crash => LifecycleKeeps(p, e);
        case Boot => LifecycleKeeps(p, e);
        case Finishes(_) => FinishKeeps(p, e);
        case _ => PumpKeeps(p, e);
      }
    }
  }

  /** The cap, in any state of any run: executions plus jobs claimed and not yet started stay within it, and the
      rows marked `running` are exactly those and the stranded ones. */
  lemma CapHolds(ps: seq<Proc>, es: seq<Event>, n: nat)
    requires Run(ps, es) && n < |ps|
    ensures var p := ps[n];
            && p.inFlight + |InBatch(p)| <= p.cap
            && |RunningKeys(p.rows)| == |p.active| + |InBatch(p)| + |p.stranded|
            && (p.stranded == multiset{} ==> |RunningKeys(p.rows)| <= p.inFlight + |InBatch(p)| <= p.cap)
  {
    EveryRunKeepsTheInvariant(ps, es, n);
    var p := ps[n];
    assert |p.active + InBatch(p) + p.stranded| == |RunningKeys(p.rows)|;
  }

  /** No key has two executions at once, and a batch never starts a key that still has one. */
  lemma OneExecutionPerKey(ps: seq<Proc>, es: seq<Event>, n: nat, key: Key)
    requires Run(ps, es) && n < |ps|
    ensures ps[n].active[key] + InBatch(ps[n])[key] <= 1
  {
    EveryRunKeepsTheInvariant(ps, es, n);
    var p := ps[n];
    assert (p.active + InBatch(p) + p.stranded)[key] <= 1;
  }

  /** The parked poll loop is always woken: when nothing is in flight, a settleIfIdle is still to come. */
  lemma ParkedLoopIsWoken(ps: seq<Proc>, es: seq<Event>, n: nat)
    requires Run(ps, es) && n < |ps| && ps[n].waiters > 0
    ensures ps[n].inFlight > 0 || (Possible(ps[n], SettleIfIdle) && Step(ps[n], SettleIfIdle).waiters == 0)
  {
    EveryRunKeepsTheInvariant(ps, es, n);
  }

  ghost predicate ClaimsKey(e: Event, key: Key) {
    e.ClaimCommits? && key in e.keys
  }

  lemma RequestKeepsWaiting(rows: Table, other: Key, id: nat, jsNow: int, dbNow: int, key: Key)
    requires Waiting(rows, key)
    ensures Waiting(AfterEnqueue(rows, other, id, jsNow, dbNow), key)
  {
  }

  lemma ClaimKeepsWaiting(rows: Table, keys: seq<Key>, key: Key)
    requires Waiting(rows, key) && key !in keys
    ensures Waiting(AfterClaim(rows, keys), key)
  {
  }

  lemma SettleKeepsWaiting(rows: Table, other: Key, error: Option<string>, now: int, key: Key)
    requires Waiting(rows, key) && other in rows && rows[other].state == Running
    ensures Waiting(AfterComplete(rows, other, error, now), key)
  {
  }

  lemma RequeueKeepsWaiting(rows: Table, key: Key)
    requires Waiting(rows, key)
    ensures Waiting(AfterRequeue(rows), key)
  {
  }

  /** Any step but a claim of the key leaves an accepted request accepted: settled well or badly, settlement lost,
      crash and boot included. */
  lemma StepKeepsWaiting(p: Proc, e: Event, key: Key)
    requires Inv(p) && Possible(p, e) && !ClaimsKey(e, key)
    requires Waiting(p.rows, key)
    ensures Waiting(Step(p, e).rows, key)
  {
    match e
    case Request(other, id, jsNow, dbNow) => RequestKeepsWaiting(p.rows, other, id, jsNow, dbNow, key);
    case ClaimCommits(_, _, keys) => ClaimKeepsWaiting(p.rows, keys, key);
    case Settles(other, error, now) =>
      ActiveIsRunning(p, other);
      SettleKeepsWaiting(p.rows, other, error, now, key);
    case Boot => RequeueKeepsWaiting(p.rows, key);
    case _ =>
  }

  /** A request taken on a row that was not `done` is owed a claim until one happens, whatever else does. */
  lemma {:induction false} RequestIsOwedUntilClaimed(ps: seq<Proc>, es: seq<Event>, i: nat, n: nat)
    requires Run(ps, es) && i < n < |ps| && es[i].Request?
    requires es[i].key in ps[i].rows ==> ps[i].rows[es[i].key].state != Done
    requires forall j :: i < j < n ==> !ClaimsKey(es[j], es[i].key)
    ensures Waiting(ps[n].rows, es[i].key)
    decreases n
  {
    EveryRunKeepsTheInvariant(ps, es, n - 1);
    if n == i + 1 {
      EnqueueIsTakenIff(ps[i].rows, es[i].key, es[i].id, es[i].jsNow, es[i].dbNow);
    } else {
      RequestIsOwedUntilClaimed(ps, es, i, n - 1);
      StepKeepsWaiting(ps[n - 1], es[n - 1], es[i].key);
    }
  }

  /** And with nothing stranded or executing for it, "owed" means claimable as soon as it is due, or failed with
      the flag kept, which only the next request turns into `pending`. */
  lemma OwedIsPendingOrFlagged(ps: seq<Proc>, es: seq<Event>, n: nat, key: Key)
    requires Run(ps, es) && n < |ps| && Waiting(ps[n].rows, key)
    ensures var p := ps[n];
            || p.rows[key].state == Pending
            || (p.rows[key].rerun && p.rows[key].state == Failed)
            || (p.rows[key].rerun && p.active[key] + InBatch(p)[key] + p.stranded[key] == 1)
  {
    EveryRunKeepsTheInvariant(ps, es, n);
    var p := ps[n];
    if p.rows[key].state == Running {
      assert key in RunningKeys(p.rows);
      assert (p.active + InBatch(p) + p.stranded)[key] == 1;
    }
  }

  /** Why one process is assumed: a second one that boots re-arms a row whose review is still running, and then
      claims it too. */
  lemma SecondBootBreaksExclusion(key: Key) returns (live: Proc, rows: Table)
    ensures Inv(live) && live.up && key in live.active
    ensures rows == AfterRequeue(live.rows) && Batch(rows, {}, 0, 1, [key])
  {
    var row := Row(0, Running, 1, false, 0, None);
    live := Proc(map[key := row], 1, true, 1, Resting, multiset{key}, 0, 0, 0, 0, multiset{});
    assert RunningKeys(live.rows) == {key};
    rows := AfterRequeue(live.rows);
    assert Claimable(rows, {}, 0) == {key};
  }

  /** The waiting rows that are older than a waiting row. */
  function Ahead(rows: Table, key: Key): set<Key>
    requires key in rows
  {
    set k | k in rows && k != key && rows[k].state == Pending && Before(rows[k], rows[key])
  }

  /** The step is no boot, its clock is past `due`, and a claim finds no row locked by others. */
  predicate After(e: Event, due: int) {
    match e
    case Request(_, _, jsNow, dbNow) => jsNow > due && dbNow > due
    case ClaimCommits(now, locked, _) => now >= due && locked == {}
    case Settles(_, _, now) => now > due
    case Boot => false
    case _ => true
  }

  /** A claim that passes a due row over takes only rows ahead of it, and fills all its slots with them. */
  lemma ClaimAdvances(p: Proc, e: Event, key: Key)
    requires Inv(p) && Possible(p, e) && e.ClaimCommits? && key in p.rows && p.rows[key].state == Pending
    requires After(e, p.rows[key].runAfter) && key !in e.keys
    ensures key in Step(p, e).rows && Step(p, e).rows[key] == p.rows[key]
    ensures |Ahead(Step(p, e).rows, key)| < |Ahead(p.rows, key)|
  {
    assert key in Claimable(p.rows, {}, e.now);
    assert |e.keys| == p.phase.slots > 0;
    var first := e.keys[0];
    assert first in Ahead(p.rows, key) && first !in Ahead(Step(p, e).rows, key);
    assert Ahead(Step(p, e).rows, key) <= Ahead(p.rows, key) - {first};
    SubsetIsSmaller(Ahead(Step(p, e).rows, key), Ahead(p.rows, key) - {first});
  }

  /** A waiting row keeps its place, and whoever is ahead of it afterwards was ahead of it before. */
  ghost predicate KeepsPlace(rows: Table, after: Table, key: Key)
    requires key in rows
  {
    && key in after && after[key].state == Pending && after[key].runAfter == rows[key].runAfter && after[key].id == rows[key].id
    && forall k :: k in Ahead(after, key) ==> k in Ahead(rows, key)
  }

  lemma RequestOvertakesNobody(rows: Table, other: Key, id: nat, jsNow: int, dbNow: int, key: Key)
    requires key in rows && rows[key].state == Pending && jsNow > rows[key].runAfter && dbNow > rows[key].runAfter
    ensures KeepsPlace(rows, AfterEnqueue(rows, other, id, jsNow, dbNow), key)
  {
  }

  lemma SettleOvertakesNobody(rows: Table, other: Key, error: Option<string>, now: int, key: Key)
    requires key in rows && rows[key].state == Pending && other != key && now > rows[key].runAfter
    ensures KeepsPlace(rows, AfterComplete(rows, other, error, now), key)
  {
  }

  /** No other step puts a row ahead of a due one. */
  lemma NobodyOvertakes(p: Proc, e: Event, key: Key)
    requires Inv(p) && Possible(p, e) && !e.ClaimCommits? && key in p.rows && p.rows[key].state == Pending
    requires After(e, p.rows[key].runAfter)
    ensures KeepsPlace(p.rows, Step(p, e).rows, key)
  {
    match e
    case Request(other, id, jsNow, dbNow) => RequestOvertakesNobody(p.rows, other, id, jsNow, dbNow, key);
    case Settles(other, error, now) =>
      ActiveIsRunning(p, other);
      SettleOvertakesNobody(p.rows, other, error, now, key);
    case _ =>
  }

  function Claims(es: seq<Event>, from: nat, n: nat): nat
    requires from <= n <= |es|
  {
    if n == from then 0 else Claims(es, from, n - 1) + if es[n - 1].ClaimCommits? then 1 else 0
  }

  /** The row waits, due since `due`. */
  predicate InLine(p: Proc, key: Key, due: int) {
    key in p.rows && p.rows[key].state == Pending && p.rows[key].runAfter == due
  }

  /** None of the steps claims the row, though it is due. */
  ghost predicate PassesOver(es: seq<Event>, from: nat, n: nat, key: Key, due: int)
    requires from <= n <= |es|
  {
    n == from || (PassesOver(es, from, n - 1, key, due) && After(es[n - 1], due) && !ClaimsKey(es[n - 1], key))
  }

  /** Oldest first, over whole runs: a due row is passed over by at most as many claims as rows were waiting ahead
      of it, unless the process reboots in between. */
  lemma {:induction false} DueRowIsPassedOverBoundedly(ps: seq<Proc>, es: seq<Event>, from: nat, n: nat, key: Key, due: int)
    requires Run(ps, es) && from <= n < |ps|
    requires InLine(ps[from], key, due) && PassesOver(es, from, n, key, due)
    ensures InLine(ps[n], key, due)
    ensures Claims(es, from, n) + |Ahead(ps[n].rows, key)| <= |Ahead(ps[from].rows, key)|
    decreases n
  {
    if n > from {
      DueRowIsPassedOverBoundedly(ps, es, from, n - 1, key, due);
      EveryRunKeepsTheInvariant(ps, es, n - 1);
      StepShortensTheLine(ps[n - 1], es[n - 1], key, due);
    }
  }

  lemma StepShortensTheLine(p: Proc, e: Event, key: Key, due: int)
    requires Inv(p) && Possible(p, e) && InLine(p, key, due)
    requires After(e, due) && !ClaimsKey(e, key)
    ensures InLine(Step(p, e), key, due)
    ensures |Ahead(Step(p, e).rows, key)| + (if e.ClaimCommits? then 1 else 0) <= |Ahead(p.rows, key)|
  {
    if e.ClaimCommits? {
      ClaimAdvances(p, e, key);
    } else {
      NobodyOvertakes(p, e, key);
      SubsetIsSmaller(Ahead(Step(p, e).rows, key), Ahead(p.rows, key));
    }
  }

  // The poll loop

  /** A parked loop is let go only when nothing is in flight, or by a crash. */
  lemma ParkedUntilNothingRuns(p: Proc, e: Event)
    requires Inv(p) && Possible(p, e) && p.waiters > 0 && Step(p, e).waiters == 0
    ensures e.Crash? || (Step(p, e).inFlight == 0 && (e.Finishes? || e.SettleIfIdle?))
  {
  }

  function NewRow(id: nat): Row { Row(id, Pending, 0, false, 0, None) }

  function BusyRow(id: nat): Row { Row(id, Running, 1, false, 0, None) }

  function TwoNew(a: Key, c: Key): Table { map[a := NewRow(0), c := NewRow(1)] }

  function TwoBusy(a: Key, c: Key): Table { map[a := BusyRow(0), c := BusyRow(1)] }

  /** A process with nothing but these rows and these runs. */
  function Plainly(rows: Table, inFlight: nat, phase: Phase, active: multiset<Key>): Proc {
    Proc(rows, 2, true, inFlight, phase, active, 0, 0, 0, 0, multiset{})
  }

  lemma EmptyBoots()
    ensures Booted(Cold(map[], 2)) == Plainly(map[], 0, Resting, multiset{})
  {
    assert AfterRequeue(map[]) == map[];
  }

  lemma BothAreClaimed(a: Key, c: Key)
    requires a != c
    ensures Batch(TwoNew(a, c), {}, 0, 2, [a, c]) && AfterClaim(TwoNew(a, c), [a, c]) == TwoBusy(a, c)
  {
    assert Claimable(TwoNew(a, c), {}, 0) == {a, c};
  }

  lemma OneAsked(a: Key) returns (ps: seq<Proc>, es: seq<Event>)
    ensures Run(ps, es) && ps[|es|] == Plainly(map[a := NewRow(0)], 0, Resting, multiset{})
  {
    EmptyBoots();
    ps, es := OneStepMore([Cold(map[], 2)], [], Boot);
    ps, es := OneStepMore(ps, es, Request(a, 0, 0, 0));
  }

  /** Two requests after a boot, and the start of a pump. */
  lemma TwoAsked(a: Key, c: Key) returns (ps: seq<Proc>, es: seq<Event>)
    requires a != c
    ensures Run(ps, es) && ps[|es|] == Plainly(TwoNew(a, c), 0, Claiming(2), multiset{})
  {
    ps, es := OneAsked(a);
    ps, es := OneStepMore(ps, es, Request(c, 1, 0, 0));
    assert ps[|es|] == Plainly(TwoNew(a, c), 0, Resting, multiset{});
    ps, es := OneStepMore(ps, es, PumpBegins);
  }

  /** Both rows are claimed and started, which fills both slots. */
  lemma TwoRunning(a: Key, c: Key) returns (ps: seq<Proc>, es: seq<Event>)
    requires a != c
    ensures Run(ps, es) && ps[|es|] == Plainly(TwoBusy(a, c), 2, Resting, multiset{a, c})
  {
    ps, es := TwoAsked(a, c);
    BothAreClaimed(a, c);
    ps, es := OneStepMore(ps, es, ClaimCommits(0, {}, [a, c]));
    assert ps[|es|] == Plainly(TwoBusy(a, c), 0, Claimed([a, c]), multiset{});
    ps, es := OneStepMore(ps, es, Delivers);
    assert multiset([a, c]) == multiset{a, c};
  }

  /** The loop parks, and the pump of a third request finds no slot. */
  lemma ThirdRequestWaits(a: Key, c: Key, d: Key) returns (ps: seq<Proc>, es: seq<Event>)
    requires a != c && a != d && c != d
    ensures Run(ps, es)
    ensures ps[|es|] == Proc(map[a := BusyRow(0), c := BusyRow(1), d := NewRow(2)], 2, true, 2, Resting, multiset{a, c},
                             0, 0, 0, 1, multiset{})
  {
    ps, es := TwoRunning(a, c);
    ps, es := OneStepMore(ps, es, LoopParks);
    ps, es := OneStepMore(ps, es, Request(d, 2, 0, 0));
    ps, es := OneStepMore(ps, es, PumpBegins);
  }

  /** So with two slots or more one can stay empty while a row is due: when the first run ends, the parked loop is not
      woken, and nobody is left to pump for the third row until the other run ends or another request comes. */
  lemma ParkedLoopLeavesASlotEmpty(a: Key, c: Key, d: Key) returns (ps: seq<Proc>, es: seq<Event>)
    requires a != c && a != d && c != d
    ensures Run(ps, es)
    ensures var p := ps[|es|];
            && p.up && p.cap == 2 && p.inFlight == 1 && p.active == multiset{c} && p.waiters == 1
            && p.phase == Resting && p.settlers == 0 && p.again == p.plain == 0
            && Claimable(p.rows, {}, 0) == {d}
  {
    ps, es := ThirdRequestWaits(a, c, d);
    var p := ps[|es|];
    assert a in p.active && !Decision(p, a, None);
    ps, es := OneStepMore(ps, es, Settles(a, None, 0));
    assert multiset{a, c} - multiset{a} == multiset{c};
    ps, es := OneStepMore(ps, es, Finishes(false));
  }
}

/** The closure of makeDbReviewQueue, cut at its awaits; the ghost `model` is the state of DbQueueSpec. */
module DbReviewQueues {
  import opened Text
  import opened Jobs
  import opened QueueRows
  import Spec = DbQueueSpec
  import DbDrain

  class DbReviewQueue {
    const store: QueueRepository
    const cap: nat
    var inFlight: nat
    var pumping: bool
    var waiters: nat
    ghost var model: Spec.Proc

    ghost predicate Valid()
      reads this, store
    {
      && store.rows == model.rows && model.up && cap == model.cap
      && inFlight == model.inFlight && waiters == model.waiters
      && (pumping <==> !model.phase.Resting?)
    }

    /** start(), up to the point where the loop begins to poll. */
    constructor (store: QueueRepository, concurrency: real)
      requires store.Valid()
      modifies store
      ensures Valid() && this.store == store && store.Valid()
      ensures model == Spec.Booted(Spec.Cold(old(store.rows), cap))
      ensures cap == if concurrency.Floor > 1 then concurrency.Floor else 1
    {
      this.store := store;
      cap := if concurrency.Floor > 1 then concurrency.Floor else 1;
      inFlight, pumping, waiters := 0, false, 0;
      new;
      model := Spec.Booted(Spec.Cold(store.rows, cap));
      var requeued := store.RequeueInterrupted();
    }

    /** True when the caller goes on to pump(). */
    method Enqueue(key: Key, jsNow: int, dbNow: int) returns (pumpNext: bool)
      requires Valid() && store.Valid()
      modifies this, store
      ensures Valid() && store.Valid()
      ensures model == old(model).(rows := AfterEnqueue(old(model.rows), key, old(store.nextId), jsNow, dbNow))
      ensures pumpNext <==> !Deduped(old(model.rows), key, dbNow)
    {
      var job, deduped := store.Enqueue(key, jsNow, dbNow);
      model := model.(rows := store.rows);
      pumpNext := !deduped;
    }

    /** pump() up to its await; 0 slots means it returned at once. */
    method BeginPump() returns (slots: nat)
      requires Valid()
      modifies this
      ensures Valid()
      ensures model == Spec.PumpBegun(old(model))
      ensures slots == if old(pumping) || old(inFlight) >= cap then 0 else cap - old(inFlight)
    {
      if pumping || inFlight >= cap {
        return 0;
      }
      slots := cap - inFlight;
      pumping := true;
      model := Spec.PumpBegun(model);
    }

    method Claim(slots: nat, now: int, locked: set<Key>) returns (due: seq<Key>)
      requires Valid() && store.Valid() && model.phase == Spec.Claiming(slots)
      modifies this, store
      ensures Valid() && store.Valid()
      ensures Batch(old(model.rows), locked, now, slots, due)
      ensures model == old(model).(rows := AfterClaim(old(model.rows), due), phase := Spec.Claimed(due))
    {
      due := store.ClaimDue(slots, now, locked);
      model := model.(rows := store.rows, phase := Spec.Claimed(due));
    }

    /** pump() after its await: every claimed job starts, then the flag drops. */
    method StartDue(due: seq<Key>)
      requires Valid() && model.phase == Spec.Claimed(due)
      modifies this
      ensures Valid()
      ensures model == Spec.Delivered(old(model))
    {
      var i := 0;
      while i < |due|
        invariant 0 <= i <= |due| && inFlight == old(inFlight) + i
        invariant model == old(model) && waiters == old(waiters)
      {
        inFlight := inFlight + 1;
        i := i + 1;
      }
      pumping := false;
      model := Spec.Delivered(model);
    }

    method ClaimFailed()
      requires Valid() && model.phase.Claiming?
      modifies this
      ensures Valid()
      ensures model == old(model).(phase := Spec.Resting)
    {
      pumping := false;
      model := model.(phase := Spec.Resting);
    }

    /** The run of `key` ended and its complete() committed; the answer is what `finally` will look at. */
    method Settle(key: Key, error: Option<string>, now: int) returns (rerun: bool)
      requires Valid() && store.Valid() && key in model.active
      modifies this, store
      ensures Valid() && store.Valid()
      ensures model == Spec.Settled(old(model), key, error, now)
      ensures rerun == Spec.Decision(old(model), key, error)
    {
      rerun := store.Complete(key, error, now);
      model := Spec.Settled(model, key, error, now);
    }

    /** The `finally` block of execute(), with the synchronous start of the pump it may call. */
    method Finish(rerun: bool) returns (slots: nat)
      requires Valid() && inFlight > 0 && (if rerun then model.again else model.plain) > 0
      modifies this
      ensures Valid()
      ensures model == Spec.Finished(old(model), rerun)
    {
      inFlight := inFlight - 1;
      slots := 0;
      if rerun {
        model := model.(inFlight := inFlight, again := model.again - 1, settlers := model.settlers + 1);
        slots := BeginPump();
      } else {
        model := model.(inFlight := inFlight, plain := model.plain - 1);
        SettleIfIdle();
      }
    }

    method SettleIfIdle()
      requires Valid()
      modifies this
      ensures Valid()
      ensures model == Spec.Released(old(model))
    {
      if inFlight == 0 {
        waiters := 0;
        model := model.(waiters := 0);
      }
    }

    /** drain()'s read of the rows. */
    method ReadCounts() returns (counts: Counts)
      requires Valid()
      ensures counts.pending == |InState(model.rows, Pending)| && counts.running == |InState(model.rows, Running)|
    {
      counts := store.Stats();
    }

    /** drain() when the counts arrive. Between the read, at `seen`, and now anything may have happened: the run so far is
        `es`. It returns only from a queue that is idle, unless a request was taken meanwhile. */
    method DrainDecides(counts: Counts, ghost ps: seq<Spec.Proc>, ghost es: seq<Spec.Event>, ghost seen: nat) returns (over: bool)
      requires Valid() && Spec.Run(ps, es) && ps[|es|] == model && seen <= |es|
      requires counts.pending == |InState(ps[seen].rows, Pending)| && counts.running == |InState(ps[seen].rows, Running)|
      ensures over <==> DbDrain.Quiet(ps[seen].rows) && model.inFlight == 0
      ensures over && (forall i :: seen <= i < |es| ==> DbDrain.AsksNothing(ps[i], es[i])) ==> DbDrain.Idle(model)
    {
      over := inFlight == 0 && counts.pending == 0 && counts.running == 0;
      assert RunningKeys(ps[seen].rows) == InState(ps[seen].rows, Running);
      if over && forall i :: seen <= i < |es| ==> DbDrain.AsksNothing(ps[i], es[i]) {
        DbDrain.DrainLeavesNothing(ps, es, seen, |es|);
      }
    }

    /** pump() when nobody interrupts it, with the run it makes of the one so far. */
    method Pump(now: int, locked: set<Key>, ghost ps: seq<Spec.Proc>, ghost es: seq<Spec.Event>)
      returns (ghost qs: seq<Spec.Proc>, ghost fs: seq<Spec.Event>)
      requires Valid() && store.Valid() && Spec.Run(ps, es) && ps[|es|] == model
      modifies this, store
      ensures Valid() && store.Valid() && Spec.Run(qs, fs) && es <= fs && qs[|fs|] == model
    {
      var slots := BeginPump();
      qs, fs := Spec.OneStepMore(ps, es, Spec.PumpBegins);
      if slots > 0 {
        var due := Claim(slots, now, locked);
        qs, fs := Spec.OneStepMore(qs, fs, Spec.ClaimCommits(now, locked, due));
        StartDue(due);
        qs, fs := Spec.OneStepMore(qs, fs, Spec.Delivers);
      }
    }

    /** One turn of drain() that nobody interrupts: pump, read, decide. */
    method DrainTurn(now: int, locked: set<Key>, ghost ps: seq<Spec.Proc>, ghost es: seq<Spec.Event>)
      returns (over: bool, ghost qs: seq<Spec.Proc>, ghost fs: seq<Spec.Event>)
      requires Valid() && store.Valid() && Spec.Run(ps, es) && ps[|es|] == model
      modifies this, store
      ensures Valid() && store.Valid() && Spec.Run(qs, fs) && es <= fs && qs[|fs|] == model
      ensures over <==> DbDrain.Quiet(model.rows) && model.inFlight == 0
      ensures over ==> DbDrain.Idle(model)
    {
      qs, fs := Pump(now, locked, ps, es);
      var counts := ReadCounts();
      over := DrainDecides(counts, qs, fs, |fs|);
    }
  }
}
