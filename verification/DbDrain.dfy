/** What drain() of the database queue may find when it returns. */
module DbDrain {
  import opened Jobs
  import opened QueueRows
  import opened DbQueueSpec

  /** What drain() looks for in the counts it reads. */
  predicate Quiet(rows: Table) {
    InState(rows, Pending) == {} && RunningKeys(rows) == {}
  }

  /** The event is no request, or one for a `done` row, which is dropped. */
  predicate AsksNothing(p: Proc, e: Event) {
    e.Request? ==> e.key in p.rows && p.rows[e.key].state == Done
  }

  lemma NothingToClaim(rows: Table, locked: set<Key>, now: int, slots: nat, keys: seq<Key>)
    requires Quiet(rows) && Batch(rows, locked, now, slots, keys)
    ensures AfterClaim(rows, keys) == rows
  {
    assert Claimable(rows, locked, now) <= InState(rows, Pending);
  }

  lemma NothingToRequeue(rows: Table)
    requires Quiet(rows)
    ensures AfterRequeue(rows) == rows
  {
    assert forall k :: k in rows && rows[k].state == Running ==> k in RunningKeys(rows);
  }

  lemma Nothing(a: multiset<Key>, b: multiset<Key>, c: multiset<Key>)
    requires a + b + c == multiset{}
    ensures a == multiset{} && b == multiset{} && c == multiset{}
  {
    assert |a + b + c| == |a| + |b| + |c|;
  }

  lemma NobodyRuns(p: Proc)
    requires Inv(p) && Quiet(p.rows)
    ensures p.active == multiset{} && InBatch(p) == multiset{}
  {
    assert multiset(RunningKeys(p.rows)) == multiset{};
    Nothing(p.active, InBatch(p), p.stranded);
  }

  /** Quiet rows change only by a request that is taken. */
  lemma QuietStays(p: Proc, e: Event)
    requires Possible(p, e) && NoFlagOnDone(p.rows) && Quiet(p.rows) && p.active == multiset{} && AsksNothing(p, e)
    ensures Step(p, e).rows == p.rows
  {
    match e
    case Request(key, id, jsNow, dbNow) => EnqueueIsTakenIff(p.rows, key, id, jsNow, dbNow);
    case ClaimCommits(now, locked, keys) => NothingToClaim(p.rows, locked, now, p.phase.slots, keys);
    case Boot => NothingToRequeue(p.rows);
    case _ =>
  }

  lemma QuietStep(p: Proc, e: Event)
    requires Inv(p) && Possible(p, e) && Quiet(p.rows) && AsksNothing(p, e)
    ensures Step(p, e).rows == p.rows
  {
    NobodyRuns(p);
    QuietStays(p, e);
  }

  lemma {:induction false} QuietUntil(ps: seq<Proc>, es: seq<Event>, seen: nat, n: nat)
    requires Run(ps, es) && seen <= n < |ps| && Quiet(ps[seen].rows)
    requires forall i :: seen <= i < n ==> AsksNothing(ps[i], es[i])
    ensures ps[n].rows == ps[seen].rows
    decreases n
  {
    if n > seen {
      QuietUntil(ps, es, seen, n - 1);
      EveryRunKeepsTheInvariant(ps, es, n - 1);
      assert AsksNothing(ps[n - 1], es[n - 1]) && Possible(ps[n - 1], es[n - 1]);
      QuietStep(ps[n - 1], es[n - 1]);
    }
  }

  /** Nothing is pending, claimed, running or about to end, and whatever is still owed is the flag kept by a failed row. */
  ghost predicate Idle(p: Proc) {
    && Quiet(p.rows) && p.active == multiset{} && InBatch(p) == multiset{} && p.again == p.plain == 0
    && forall k :: Waiting(p.rows, k) ==> p.rows[k].state == Failed && p.rows[k].rerun
  }

  /** drain() reads the rows at `seen` and looks at `inFlight` at `n`, an await later. If no request was taken in
      between, the queue is idle when it returns. */
  lemma DrainLeavesNothing(ps: seq<Proc>, es: seq<Event>, seen: nat, n: nat)
    requires Run(ps, es) && seen <= n < |ps|
    requires Quiet(ps[seen].rows) && ps[n].inFlight == 0
    requires forall i :: seen <= i < n ==> AsksNothing(ps[i], es[i])
    ensures Idle(ps[n])
  {
    QuietUntil(ps, es, seen, n);
    EveryRunKeepsTheInvariant(ps, es, n);
    IdleWhenQuiet(ps[n]);
  }

  lemma IdleWhenQuiet(p: Proc)
    requires Inv(p) && Quiet(p.rows) && p.inFlight == 0
    ensures Idle(p)
  {
    NobodyRuns(p);
    forall k | Waiting(p.rows, k) ensures p.rows[k].state == Failed && p.rows[k].rerun {
      assert k !in InState(p.rows, Pending) && k !in RunningKeys(p.rows);
    }
  }

  /** A request taken in between can be claimed by then: drain() returns with its review about to start. */
  lemma RequestSlipsPastDrain(key: Key) returns (ps: seq<Proc>, es: seq<Event>)
    ensures Run(ps, es) && |ps| == 5
    ensures Quiet(ps[1].rows) && ps[4].inFlight == 0 && ps[4].up && InBatch(ps[4]) == multiset{key}
  {
    var cold := Cold(map[], 1);
    var up := Booted(cold);
    assert up.rows == map[];
    var asked := Step(up, Request(key, 0, 0, 0));
    var pumping := Step(asked, PumpBegins);
    assert Claimable(pumping.rows, {}, 0) == {key};
    var claimed := Step(pumping, ClaimCommits(0, {}, [key]));
    ps := [cold, up, asked, pumping, claimed];
    es := [Boot, Request(key, 0, 0, 0), PumpBegins, ClaimCommits(0, {}, [key])];
  }
}
