/** A review request and the key it is deduplicated by. */
module Jobs {
  import opened Text

  type Key = string

  datatype Job = Job(owner: string, repo: string, pr: nat)

  function KeyOf(job: Job): Key {
    job.owner + "/" + job.repo + "#" + Decimal(job.pr)
  }

  /** Different pull requests have different keys. */
  lemma {:induction false} KeysAreApart(a: Job, b: Job)
    requires '/' !in a.owner && '/' !in b.owner && '#' !in a.repo && '#' !in b.repo
    requires KeyOf(a) == KeyOf(b)
    ensures a == b
  {
    var restA, restB := a.repo + (['#'] + Decimal(a.pr)), b.repo + (['#'] + Decimal(b.pr));
    assert KeyOf(a) == a.owner + (['/'] + restA) && KeyOf(b) == b.owner + (['/'] + restB);
    CutIsInjective(a.owner, '/', restA, b.owner, restB);
    CutIsInjective(a.repo, '#', Decimal(a.pr), b.repo, Decimal(b.pr));
    DecimalIsInjective(a.pr, b.pr);
  }

  function Keys(jobs: seq<Job>): (keys: seq<Key>)
    ensures |keys| == |jobs|
    ensures forall i :: 0 <= i < |jobs| ==> keys[i] == KeyOf(jobs[i])
  {
    seq(|jobs|, i requires 0 <= i < |jobs| => KeyOf(jobs[i]))
  }
}

/**
 The in-process queue as a state machine. `active` holds the runs whose promise is still open,
 `starts` every key handed to `run` so far, `released` the drain() promises resolved so far.
 */
module ReviewQueueSpec {
  import opened Jobs

  datatype Queue = Queue(concurrency: nat, pending: seq<Job>, inFlight: set<Key>, rerun: set<Key>, running: nat,
                         waiters: nat, active: seq<Job>, starts: seq<Key>, released: nat)

  datatype Event = Enqueue(job: Job) | Settle(at: nat) | Drain

  datatype Verdict = Queued | Deduped

  function Empty(concurrency: nat): Queue {
    Queue(concurrency, [], {}, {}, 0, 0, [], [], 0)
  }

  function Start(q: Queue): Queue
    requires q.pending != []
  {
    q.(pending := q.pending[1..], running := q.running + 1, active := q.active + [q.pending[0]],
       starts := q.starts + [KeyOf(q.pending[0])])
  }

  function Pump(q: Queue): Queue
    decreases |q.pending|
  {
    if q.running < q.concurrency && q.pending != [] then Pump(Start(q)) else q
  }

  predicate Idle(q: Queue) {
    q.running == 0 && q.pending == []
  }

  function VerdictOf(q: Queue, job: Job): Verdict {
    if KeyOf(job) in q.inFlight then Deduped else Queued
  }

  function AfterEnqueue(q: Queue, job: Job): Queue {
    if VerdictOf(q, job) == Deduped then q.(rerun := q.rerun + {KeyOf(job)})
    else Pump(q.(inFlight := q.inFlight + {KeyOf(job)}, pending := q.pending + [job]))
  }

  function Without(jobs: seq<Job>, at: nat): seq<Job>
    requires at < |jobs|
  {
    jobs[..at] + jobs[at + 1..]
  }

  /** The `finally` block before its call of pump(). */
  function Closed(q: Queue, at: nat): Queue
    requires at < |q.active| && q.running > 0
  {
    var job := q.active[at];
    var key := KeyOf(job);
    q.(inFlight := q.inFlight - {key}, rerun := q.rerun - {key},
       pending := if key in q.rerun then q.pending + [job] else q.pending,
       running := q.running - 1, active := Without(q.active, at))
  }

  function AfterSettle(q: Queue, at: nat): Queue
    requires at < |q.active| && q.running > 0
  {
    var pumped := Pump(Closed(q, at));
    if KeyOf(q.active[at]) !in q.rerun && Idle(pumped)
    then pumped.(waiters := 0, released := pumped.released + pumped.waiters)
    else pumped
  }

  function AfterDrain(q: Queue): Queue {
    if Idle(q) then q.(released := q.released + 1) else q.(waiters := q.waiters + 1)
  }

  predicate Possible(q: Queue, e: Event) {
    e.Settle? ==> e.at < |q.active| && q.running > 0
  }

  function Step(q: Queue, e: Event): Queue
    requires Possible(q, e)
  {
    match e
    case Enqueue(job) => AfterEnqueue(q, job)
    case Settle(at) => AfterSettle(q, at)
    case Drain => AfterDrain(q)
  }

  /** Every job that still owes a settlement, by key. */
  function Live(q: Queue): multiset<Key> {
    multiset(Keys(q.pending)) + multiset(Keys(q.active))
  }

  /** Settlements left until the queue is empty if nothing more is enqueued. */
  function Work(q: Queue): nat {
    |q.pending| + |q.active| + |q.rerun|
  }

  ghost predicate Inv(q: Queue) {
    && 1 <= q.concurrency
    && q.running == |q.active| <= q.concurrency
    && (q.pending != [] ==> q.running == q.concurrency)
    && q.rerun <= q.inFlight
    && (forall k :: k in q.inFlight ==> k in Live(q))
    && (q.waiters > 0 ==> !Idle(q))
  }

  ghost predicate Run(qs: seq<Queue>, es: seq<Event>) {
    && |qs| == |es| + 1
    && qs[0].concurrency >= 1 && qs[0] == Empty(qs[0].concurrency)
    && forall i :: 0 <= i < |es| ==> Possible(qs[i], es[i]) && qs[i + 1] == Step(qs[i], es[i])
  }

  /** What a pump keeps: the live jobs and the work left; `starts` only grows, and by all jobs that left `pending`. */
  ghost predicate Pumped(q: Queue, r: Queue) {
    && r.running == |r.active|
    && r == q.(pending := r.pending, running := r.running, active := r.active, starts := r.starts)
    && Live(r) == Live(q) && Work(r) == Work(q)
    && q.starts <= r.starts
    && forall k :: k in Keys(q.pending) ==> k in Keys(r.pending) || k in r.starts[|q.starts|..]
  }

  lemma {:induction false} PumpFacts(q: Queue)
    requires q.running == |q.active|
    ensures Pumped(q, Pump(q))
    ensures q.running <= q.concurrency ==> Pump(q).running <= q.concurrency
    ensures Pump(q).pending != [] ==> Pump(q).running >= q.concurrency
    decreases |q.pending|
  {
    if q.running < q.concurrency && q.pending != [] {
      StartFacts(q);
      PumpFacts(Start(q));
      var m, r := Start(q), Pump(q);
      assert r.starts[|q.starts|..] == m.starts[|q.starts|..] + r.starts[|m.starts|..];
    }
  }

  lemma StartFacts(q: Queue)
    requires q.running == |q.active| && q.pending != []
    ensures Pumped(q, Start(q))
  {
    var first, rest := [q.pending[0]], q.pending[1..];
    assert q.pending == first + rest;
    KeysConcat(first, rest);
    KeysConcat(q.active, first);
    assert Keys(first) == [KeyOf(q.pending[0])];
    assert Start(q).starts[|q.starts|..] == Keys(first);
  }

  lemma KeysConcat(a: seq<Job>, b: seq<Job>)
    ensures Keys(a + b) == Keys(a) + Keys(b)
    ensures multiset(Keys(a + b)) == multiset(Keys(a)) + multiset(Keys(b))
  {
    assert Keys(a + b) == Keys(a) + Keys(b);
  }

  lemma KeysWithout(jobs: seq<Job>, at: nat)
    requires at < |jobs|
    ensures multiset(Keys(Without(jobs, at))) == multiset(Keys(jobs)) - multiset{KeyOf(jobs[at])}
    ensures KeyOf(jobs[at]) in Keys(jobs)
  {
    var head, tail := jobs[..at], jobs[at + 1..];
    assert jobs == head + ([jobs[at]] + tail);
    KeysConcat(head, [jobs[at]] + tail);
    KeysConcat([jobs[at]], tail);
    KeysConcat(head, tail);
    assert Keys([jobs[at]]) == [KeyOf(jobs[at])];
    assert Keys(jobs)[at] == KeyOf(jobs[at]);
  }

  /** The live jobs before and after the finally block: one leaves, and comes back when it was asked for again. */
  lemma ClosedLive(q: Queue, at: nat)
    requires Inv(q) && at < |q.active| && q.running > 0
    ensures var key := KeyOf(q.active[at]);
            && key in Live(q)
            && Live(Closed(q, at)) == if key in q.rerun then Live(q) else Live(q) - multiset{key}
  {
    var c := Closed(q, at);
    var key := KeyOf(q.active[at]);
    KeysWithout(q.active, at);
    KeysConcat(q.pending, [q.active[at]]);
    assert Keys([q.active[at]]) == [key];
  }

  /** Filling the slots turns the weaker invariant, without its slot clause, into the full one. */
  lemma {:induction false} PumpRestores(q: Queue)
    requires 1 <= q.concurrency && q.running == |q.active| <= q.concurrency
    requires q.rerun <= q.inFlight && (forall k :: k in q.inFlight ==> k in Live(q))
    ensures var r := Pump(q);
            && Live(r) == Live(q) && Work(r) == Work(q)
            && ((r.waiters > 0 ==> !Idle(r)) ==> Inv(r))
            && (Idle(r) <==> |Live(q)| == 0)
            && r.(pending := [], running := 0, active := [], starts := []) ==
               q.(pending := [], running := 0, active := [], starts := [])
  {
    PumpFacts(q);
    var r := Pump(q);
    assert |Live(r)| == |r.pending| + |r.active|;
  }

  lemma EnqueueKeeps(q: Queue, job: Job)
    requires Inv(q)
    ensures Inv(AfterEnqueue(q, job))
    ensures Live(AfterEnqueue(q, job)) == if VerdictOf(q, job) == Queued then Live(q) + multiset{KeyOf(job)} else Live(q)
  {
    if VerdictOf(q, job) == Queued {
      var q1 := q.(inFlight := q.inFlight + {KeyOf(job)}, pending := q.pending + [job]);
      assert Live(q1) == Live(q) + multiset{KeyOf(job)} by {
        KeysConcat(q.pending, [job]);
        assert Keys([job]) == [KeyOf(job)];
      }
      PumpRestores(q1);
    }
  }

  /** What the finally block leaves for the pump: every key in flight is live, and one unit of work is done. */
  lemma ClosedFits(q: Queue, at: nat)
    requires Inv(q) && at < |q.active| && q.running > 0
    ensures var c := Closed(q, at);
            && c.running == |c.active| <= c.concurrency && c.rerun <= c.inFlight
            && (forall k :: k in c.inFlight ==> k in Live(c))
            && Work(c) == Work(q) - 1
  {
    ClosedLive(q, at);
    ClosedWork(q, at);
    var key := KeyOf(q.active[at]);
    forall k | k in Closed(q, at).inFlight ensures k in Live(Closed(q, at)) {
      assert k in q.inFlight && k != key;
    }
  }

  lemma ClosedWork(q: Queue, at: nat)
    requires at < |q.active| && q.running > 0
    ensures Work(Closed(q, at)) == Work(q) - 1 && |Closed(q, at).active| == |q.active| - 1
  {
    var key := KeyOf(q.active[at]);
    if key in q.rerun {
      assert q.rerun == (q.rerun - {key}) + {key};
    } else {
      assert q.rerun - {key} == q.rerun;
    }
  }

  lemma SettleKeeps(q: Queue, at: nat)
    requires Inv(q) && at < |q.active| && q.running > 0
    ensures Inv(AfterSettle(q, at))
    ensures Work(AfterSettle(q, at)) == Work(q) - 1
    ensures Live(AfterSettle(q, at)) == Live(Closed(q, at))
  {
    ClosedFits(q, at);
    var c := Closed(q, at);
    PumpRestores(c);
    var r := Pump(c);
    assert r.waiters == q.waiters;
    if KeyOf(q.active[at]) in q.rerun {
      assert |c.pending| > 0 && |Live(c)| >= 1;
      assert !Idle(r);
    }
  }

  /** Every reachable state: at most `concurrency` runs, a waiting job only when all slots are taken, and
      `rerun` inside `inFlight` inside the live keys. */
  lemma {:induction false} EveryRunKeepsTheInvariant(qs: seq<Queue>, es: seq<Event>, n: nat)
    requires Run(qs, es) && n < |qs|
    ensures Inv(qs[n])
  {
    if n > 0 {
      EveryRunKeepsTheInvariant(qs, es, n - 1);
      var q := qs[n - 1];
      match es[n - 1] {
        case Enqueue(job) => EnqueueKeeps(q, job);
        case Settle(at) => SettleKeeps(q, at);
        case Drain =>
      }
    }
  }

  /** A request for key `k` made when `mark` runs had started is met, is waiting, or is flagged for a re-run. */
  ghost predicate Honoured(q: Queue, k: Key, mark: nat) {
    mark <= |q.starts| && (k in q.starts[mark..] || k in Keys(q.pending) || k in q.rerun)
  }

  lemma EnqueueHonours(q: Queue, job: Job, k: Key, mark: nat)
    requires Inv(q) && (Honoured(q, k, mark) || (k == KeyOf(job) && mark == |q.starts|))
    ensures Honoured(AfterEnqueue(q, job), k, mark)
  {
    if VerdictOf(q, job) == Queued {
      var q1 := q.(inFlight := q.inFlight + {KeyOf(job)}, pending := q.pending + [job]);
      KeysConcat(q.pending, [job]);
      assert Keys([job])[0] == KeyOf(job);
      PumpHonours(q1, k, mark);
    }
  }

  lemma SettleHonours(q: Queue, at: nat, k: Key, mark: nat)
    requires Inv(q) && at < |q.active| && q.running > 0 && Honoured(q, k, mark)
    ensures Honoured(AfterSettle(q, at), k, mark)
  {
    var c := Closed(q, at);
    KeysConcat(q.pending, [q.active[at]]);
    assert Keys([q.active[at]])[0] == KeyOf(q.active[at]);
    KeysWithout(q.active, at);
    PumpHonours(c, k, mark);
  }

  lemma StepHonours(q: Queue, e: Event, k: Key, mark: nat)
    requires Inv(q) && Possible(q, e)
    requires Honoured(q, k, mark) || (e.Enqueue? && k == KeyOf(e.job) && mark == |q.starts|)
    ensures Honoured(Step(q, e), k, mark)
  {
    match e
    case Drain =>
    case Enqueue(job) => EnqueueHonours(q, job, k, mark);
    case Settle(at) => SettleHonours(q, at, k, mark);
  }

  lemma {:induction false} PumpHonours(q: Queue, k: Key, mark: nat)
    requires q.running == |q.active|
    requires Honoured(q, k, mark)
    ensures Honoured(Pump(q), k, mark)
  {
    PumpFacts(q);
    var r := Pump(q);
    var before, added := q.starts, r.starts[|q.starts|..];
    assert r.starts == before + added;
    assert r.starts[mark..] == before[mark..] + added;
  }

  /** No request, queued or deduped, is forgotten at any later point of any run. */
  lemma {:induction false} RequestsStayHonoured(qs: seq<Queue>, es: seq<Event>, i: nat, n: nat)
    requires Run(qs, es) && i < n < |qs| && es[i].Enqueue?
    ensures Honoured(qs[n], KeyOf(es[i].job), |qs[i].starts|)
    decreases n
  {
    EveryRunKeepsTheInvariant(qs, es, n - 1);
    if n > i + 1 {
      RequestsStayHonoured(qs, es, i, n - 1);
    }
    StepHonours(qs[n - 1], es[n - 1], KeyOf(es[i].job), |qs[i].starts|);
  }

  /** The keys in the order in which they came to wait: those that have started since, and those still waiting. */
  function Line(q: Queue): seq<Key> {
    q.starts + Keys(q.pending)
  }

  lemma {:induction false} StartKeepsLine(q: Queue)
    requires q.pending != []
    ensures Line(Start(q)) == Line(q)
  {
    assert Keys(q.pending) == [KeyOf(q.pending[0])] + Keys(q.pending[1..]);
    assert Line(q) == q.starts + [KeyOf(q.pending[0])] + Keys(q.pending[1..]);
  }

  lemma {:induction false} PumpKeepsLine(q: Queue)
    ensures Line(Pump(q)) == Line(q) && Pump(q).inFlight == q.inFlight && Pump(q).rerun == q.rerun
    decreases |q.pending|
  {
    if q.running < q.concurrency && q.pending != [] {
      StartKeepsLine(q);
      PumpKeepsLine(Start(q));
    }
  }

  lemma {:induction false} LineLonger(q: Queue, job: Job)
    ensures Line(q.(pending := q.pending + [job])) == Line(q) + [KeyOf(job)]
  {
    KeysConcat(q.pending, [job]);
    assert Keys([job]) == [KeyOf(job)];
  }

  /** What each event adds to the line, and which keys are known and flagged afterwards: a request joins the line unless its
      key is known, and then it only leaves a flag; a run that ends forgets its key, and joins again if it was flagged. */
  lemma {:induction false} WhoJoins(q: Queue, e: Event)
    requires Possible(q, e)
    ensures match e
      case Drain => Line(Step(q, e)) == Line(q) && Step(q, e).inFlight == q.inFlight && Step(q, e).rerun == q.rerun
      case Enqueue(job) =>
        if KeyOf(job) in q.inFlight
        then Line(Step(q, e)) == Line(q) && Step(q, e).inFlight == q.inFlight && Step(q, e).rerun == q.rerun + {KeyOf(job)}
        else Line(Step(q, e)) == Line(q) + [KeyOf(job)] && Step(q, e).inFlight == q.inFlight + {KeyOf(job)} && Step(q, e).rerun == q.rerun
      case Settle(at) =>
        var key := KeyOf(q.active[at]);
        && Line(Step(q, e)) == Line(q) + (if key in q.rerun then [key] else [])
        && Step(q, e).inFlight == q.inFlight - {key} && Step(q, e).rerun == q.rerun - {key}
  {
    match e
    case Drain =>
    case Enqueue(job) =>
      if KeyOf(job) !in q.inFlight {
        LineLonger(q, job);
        PumpKeepsLine(q.(inFlight := q.inFlight + {KeyOf(job)}, pending := q.pending + [job]));
      }
    case Settle(at) =>
      LineLonger(q, q.active[at]);
      PumpKeepsLine(Closed(q, at));
  }

  /** The keys in the order of the requests and endings that made them wait. */
  ghost function Arrivals(qs: seq<Queue>, es: seq<Event>, n: nat): seq<Key>
    requires n <= |es| && |qs| == |es| + 1 && forall i :: 0 <= i < |es| ==> Possible(qs[i], es[i])
  {
    if n == 0 then []
    else Arrivals(qs, es, n - 1) + Joining(qs[n - 1], es[n - 1])
  }

  function Joining(q: Queue, e: Event): seq<Key>
    requires Possible(q, e)
  {
    match e
    case Drain => []
    case Enqueue(job) => if KeyOf(job) in q.inFlight then [] else [KeyOf(job)]
    case Settle(at) => if KeyOf(q.active[at]) in q.rerun then [KeyOf(q.active[at])] else []
  }

  /** First come, first served, over every run: what has started is the beginning of what came to wait, in its order, and
      what is waiting is the rest of it; so nothing is run that nobody asked for either. */
  lemma {:induction false} FirstComeFirstServed(qs: seq<Queue>, es: seq<Event>, n: nat)
    requires Run(qs, es) && n < |qs|
    ensures Arrivals(qs, es, n) == qs[n].starts + Keys(qs[n].pending)
  {
    if n > 0 {
      FirstComeFirstServed(qs, es, n - 1);
      WhoJoins(qs[n - 1], es[n - 1]);
    }
  }

  lemma IdleIffNoWork(q: Queue)
    requires Inv(q)
    ensures Idle(q) <==> Work(q) == 0
    ensures Idle(q) <==> q.active == []
  {
    if q.rerun != {} {
      var k :| k in q.rerun;
      assert k in Live(q);
    }
  }

  lemma SettleWorks(q: Queue, e: Event)
    requires Inv(q) && Possible(q, e) && e.Settle?
    ensures Work(Step(q, e)) == Work(q) - 1
  {
    SettleKeeps(q, e.at);
  }

  /** Nothing but settlements from `from` to `n`. */
  predicate OnlySettles(es: seq<Event>, from: nat, n: nat)
    requires from <= n <= |es|
  {
    n == from || (OnlySettles(es, from, n - 1) && es[n - 1].Settle?)
  }

  lemma {:induction false} OnlySettlesUpTo(es: seq<Event>, from: nat, n: nat, m: nat)
    requires from <= n <= m <= |es| && OnlySettles(es, from, m)
    ensures OnlySettles(es, from, n)
  {
    if n < m {
      OnlySettlesUpTo(es, from, n, m - 1);
    }
  }

  /** Once nothing more is enqueued, each settlement uses up exactly one unit of work. */
  lemma {:induction false} SettlementsLeft(qs: seq<Queue>, es: seq<Event>, from: nat, n: nat)
    requires Run(qs, es) && from <= n < |qs| && OnlySettles(es, from, n)
    ensures Work(qs[n]) == Work(qs[from]) - (n - from)
    decreases n
  {
    if n > from {
      SettlementsLeft(qs, es, from, n - 1);
      EveryRunKeepsTheInvariant(qs, es, n - 1);
      SettleWorks(qs[n - 1], es[n - 1]);
    }
  }

  /** The promise of the queue: if from state `from` on every run settles and nothing more arrives, then after
      exactly Work(from) settlements the queue is idle, every request ever made got a run that started
      after it, and every drain() promise has been resolved. Before that it is never stuck. */
  lemma {:induction false} EveryRequestGetsALaterRun(qs: seq<Queue>, es: seq<Event>, from: nat, i: nat)
    requires Run(qs, es) && i < from < |qs| && es[i].Enqueue?
    requires |es| - from == Work(qs[from])
    requires OnlySettles(es, from, |es|)
    ensures var last := qs[|es|];
            && Idle(last) && last.waiters == 0
            && |qs[i].starts| <= |last.starts|
            && KeyOf(es[i].job) in last.starts[|qs[i].starts|..]
    ensures forall n :: from <= n < |es| ==> !Idle(qs[n]) && qs[n].active != []
  {
    SettlementsLeft(qs, es, from, |es|);
    EveryRunKeepsTheInvariant(qs, es, |es|);
    RequestsStayHonoured(qs, es, i, |es|);
    IdleIffNoWork(qs[|es|]);
    forall n | from <= n < |es| ensures !Idle(qs[n]) && qs[n].active != [] {
      OnlySettlesUpTo(es, from, n, |es|);
      SettlementsLeft(qs, es, from, n);
      EveryRunKeepsTheInvariant(qs, es, n);
      IdleIffNoWork(qs[n]);
    }
  }

  /** drain() is answered by an idle queue only. */
  lemma DrainResolvesOnlyWhenIdle(q: Queue, e: Event)
    requires Inv(q) && Possible(q, e)
    ensures Step(q, e).released > q.released ==> Idle(Step(q, e))
    ensures Step(q, e).released + Step(q, e).waiters == q.released + q.waiters + if e.Drain? then 1 else 0
  {
    match e
    case Drain =>
    case Enqueue(job) =>
      PumpFacts(q.(inFlight := q.inFlight + {KeyOf(job)}, pending := q.pending + [job]));
    case Settle(at) =>
      PumpFacts(Closed(q, at));
  }

  ghost predicate OneLivePerKey(q: Queue) {
    forall k :: Live(q)[k] <= 1
  }

  lemma EnqueueKeepsOneLiveIff(q: Queue, job: Job)
    requires Inv(q) && OneLivePerKey(q)
    ensures OneLivePerKey(AfterEnqueue(q, job)) <==> KeyOf(job) !in Live(q) || KeyOf(job) in q.inFlight
  {
    EnqueueKeeps(q, job);
    var before, after := Live(q), Live(AfterEnqueue(q, job));
    assert after[KeyOf(job)] == before[KeyOf(job)] + if VerdictOf(q, job) == Queued then 1 else 0;
    assert forall k :: k != KeyOf(job) ==> after[k] == before[k];
  }

  lemma SettleKeepsOneLive(q: Queue, at: nat)
    requires Inv(q) && OneLivePerKey(q) && at < |q.active| && q.running > 0
    ensures OneLivePerKey(AfterSettle(q, at))
  {
    SettleKeeps(q, at);
    ClosedLive(q, at);
    var before, after := Live(q), Live(AfterSettle(q, at));
    assert forall k :: after[k] <= before[k];
  }

  /** "One live instance per key" is not an invariant: it survives an enqueue exactly when that key has no live
      job outside `inFlight`, which is what a coalesced re-run is. Settlements never break it. */
  lemma OneLivePerKeyIff(q: Queue, e: Event)
    requires Inv(q) && OneLivePerKey(q) && Possible(q, e)
    ensures OneLivePerKey(Step(q, e)) <==>
            !(e.Enqueue? && KeyOf(e.job) in Live(q) && KeyOf(e.job) !in q.inFlight)
  {
    match e
    case Drain => assert Live(AfterDrain(q)) == Live(q);
    case Enqueue(job) => EnqueueKeepsOneLiveIff(q, job);
    case Settle(at) => SettleKeepsOneLive(q, at);
  }

  /** The run that shows it: with two slots, a push during a review and a push during its re-run put the same
      pull request into both slots. */
  lemma TwoReviewsOfOnePullRequest(job: Job) returns (qs: seq<Queue>)
    ensures Run(qs, [Enqueue(job), Enqueue(job), Settle(0), Enqueue(job)])
    ensures qs[4].active == [job, job]
  {
    var k := KeyOf(job);
    var q0 := Empty(2);
    var q1 := q0.(inFlight := {k}, running := 1, active := [job], starts := [k]);
    var q2 := q1.(rerun := {k});
    var q3 := q1.(inFlight := {}, starts := [k, k]);
    var q4 := q3.(inFlight := {k}, running := 2, active := [job, job], starts := [k, k, k]);
    var p1 := q0.(inFlight := {k}, pending := [job]);
    assert Pump(p1) == q1 by { assert Start(p1) == q1; }
    assert q0.(inFlight := q0.inFlight + {k}, pending := q0.pending + [job]) == p1;
    assert Step(q0, Enqueue(job)) == q1;
    assert Step(q1, Enqueue(job)) == q2;
    var c := Closed(q2, 0);
    assert c == q0.(pending := [job], starts := [k]);
    assert Pump(c) == q3 by { assert Start(c) == q3; }
    assert Step(q2, Settle(0)) == q3;
    var p4 := q3.(inFlight := {k}, pending := [job]);
    assert Pump(p4) == q4 by { assert Start(p4) == q4; }
    assert Step(q3, Enqueue(job)) == q4;
    qs := [q0, q1, q2, q3, q4];
  }

  function Copies(job: Job, n: nat): (r: seq<Job>)
    ensures |r| == n && forall i :: 0 <= i < n ==> r[i] == job
  {
    seq(n, _ => job)
  }

  /** `m` runs of one pull request, all but the last of them unknown to `inFlight`. */
  ghost predicate Crowded(q: Queue, slots: nat, job: Job, m: nat) {
    q == Empty(slots).(inFlight := {KeyOf(job)}, running := m, active := Copies(job, m), starts := q.starts)
  }

  /** A request while it is known, the end of a run, and a request when it is not: one run more of the same key. */
  lemma OneRunMore(q: Queue, slots: nat, job: Job, m: nat) returns (a: Queue, b: Queue, c: Queue)
    requires 1 <= m < slots && Crowded(q, slots, job, m)
    ensures a == Step(q, Enqueue(job)) && Possible(a, Settle(0)) && b == Step(a, Settle(0)) && c == Step(b, Enqueue(job))
    ensures Crowded(c, slots, job, m + 1)
  {
    var k := KeyOf(job);
    a := q.(rerun := {k});
    assert AfterEnqueue(q, job) == a;
    b := Reopened(a, slots, job, m);
    c := b.(inFlight := {k}, running := m + 1, active := b.active + [job], starts := b.starts + [k]);
    var waiting := b.(inFlight := b.inFlight + {k}, pending := b.pending + [job]);
    assert waiting.pending == [job] && waiting.pending[1..] == [];
    assert Start(waiting) == c;
    assert Pump(waiting) == c;
    assert Copies(job, m) + [job] == Copies(job, m + 1);
  }

  /** A flagged run ends: its job goes back into a slot, and its key is nowhere. */
  lemma Reopened(a: Queue, slots: nat, job: Job, m: nat) returns (b: Queue)
    requires 1 <= m < slots && Crowded(a.(rerun := {}), slots, job, m) && a.rerun == {KeyOf(job)}
    ensures b == AfterSettle(a, 0)
    ensures b == Empty(slots).(running := m, active := Copies(job, m), starts := b.starts)
  {
    var k := KeyOf(job);
    var c := Closed(a, 0);
    assert Without(a.active, 0) == Copies(job, m - 1);
    assert c == Empty(slots).(pending := [job], running := m - 1, active := Copies(job, m - 1), starts := a.starts);
    b := c.(pending := [], running := m, active := Copies(job, m), starts := a.starts + [k]);
    assert Copies(job, m - 1) + [job] == Copies(job, m);
    assert c.pending[1..] == [];
    assert Start(c) == b;
    assert Pump(c) == b;
  }

  lemma RunsOn(qs: seq<Queue>, es: seq<Event>, e: Event) returns (rs: seq<Queue>, fs: seq<Event>)
    requires Run(qs, es) && Possible(qs[|es|], e)
    ensures Run(rs, fs) && rs == qs + [Step(qs[|es|], e)] && fs == es + [e]
  {
    rs, fs := qs + [Step(qs[|es|], e)], es + [e];
    forall i | 0 <= i < |fs| ensures Possible(rs[i], fs[i]) && rs[i + 1] == Step(rs[i], fs[i]) {
      if i < |es| {
        assert rs[i] == qs[i] && rs[i + 1] == qs[i + 1] && fs[i] == es[i];
      }
    }
  }

  /** There is no bound but the slots: for every number of them there is a run that gives them all to one pull request. */
  lemma {:induction false} AllSlotsForOnePullRequest(job: Job, slots: nat, m: nat) returns (qs: seq<Queue>, es: seq<Event>)
    requires 1 <= m <= slots
    ensures Run(qs, es) && qs[0] == Empty(slots)
    ensures Crowded(qs[|es|], slots, job, m) && qs[|es|].active == Copies(job, m)
    decreases m
  {
    if m == 1 {
      var k, q := KeyOf(job), Empty(slots);
      var waiting := q.(inFlight := q.inFlight + {k}, pending := q.pending + [job]);
      assert waiting.pending == [job] && waiting.pending[1..] == [];
      assert [job] == Copies(job, 1);
      assert Pump(Start(waiting)) == Start(waiting);
      qs, es := RunsOn([q], [], Enqueue(job));
    } else {
      qs, es := AllSlotsForOnePullRequest(job, slots, m - 1);
      var a, b, c := OneRunMore(qs[|es|], slots, job, m - 1);
      qs, es := RunsOn(qs, es, Enqueue(job));
      qs, es := RunsOn(qs, es, Settle(0));
      qs, es := RunsOn(qs, es, Enqueue(job));
    }
  }
}

/** The class, field by field. */
module ReviewQueues {
  import opened Jobs
  import Spec = ReviewQueueSpec

  class ReviewQueue {
    const concurrency: nat
    var pending: seq<Job>
    var inFlight: set<Key>
    var rerun: set<Key>
    var running: nat
    var waiters: nat
    ghost var active: seq<Job>
    ghost var starts: seq<Key>
    ghost var released: nat

    ghost function State(): Spec.Queue
      reads this
    {
      Spec.Queue(concurrency, pending, inFlight, rerun, running, waiters, active, starts, released)
    }

    constructor (requested: real)
      ensures State() == Spec.Empty(if requested.Floor > 1 then requested.Floor else 1)
      ensures Spec.Inv(State())
    {
      concurrency := if requested.Floor > 1 then requested.Floor else 1;
      pending, inFlight, rerun, running, waiters := [], {}, {}, 0, 0;
      active, starts, released := [], [], 0;
    }

    method Enqueue(job: Job) returns (verdict: Spec.Verdict)
      modifies this
      ensures State() == Spec.Step(old(State()), Spec.Enqueue(job))
      ensures verdict == Spec.VerdictOf(old(State()), job)
    {
      var key := KeyOf(job);
      if key in inFlight {
        rerun := rerun + {key};
        return Spec.Deduped;
      }
      inFlight := inFlight + {key};
      pending := pending + [job];
      Pump();
      return Spec.Queued;
    }

    method Size() returns (n: nat)
      ensures n == |State().pending|
    {
      n := |pending|;
    }

    /** True when the promise is already resolved. */
    method Drain() returns (resolved: bool)
      modifies this
      ensures State() == Spec.Step(old(State()), Spec.Drain)
      ensures resolved <==> Spec.Idle(old(State()))
    {
      if running == 0 && |pending| == 0 {
        released := released + 1;
        return true;
      }
      waiters := waiters + 1;
      return false;
    }

    method Pump()
      modifies this
      ensures State() == Spec.Pump(old(State()))
    {
      while running < concurrency && |pending| > 0
        invariant Spec.Pump(State()) == Spec.Pump(old(State()))
        decreases |pending|
      {
        var job := pending[0];
        pending := pending[1..];
        running := running + 1;
        active, starts := active + [job], starts + [KeyOf(job)];
      }
    }

    /** The `finally` block of execute(): the run at position `at` of the open runs has settled, well or badly. */
    method Settle(job: Job, ghost at: nat)
      requires at < |active| && active[at] == job && running > 0
      modifies this
      ensures State() == Spec.Step(old(State()), Spec.Settle(at))
    {
      var key := KeyOf(job);
      inFlight := inFlight - {key};
      var again := key in rerun;
      rerun := rerun - {key};
      if again {
        pending := pending + [job];
      }
      running := running - 1;
      active := Spec.Without(active, at);
      Pump();
      if !again && running == 0 && |pending| == 0 {
        released := released + waiters;
        waiters := 0;
      }
    }
  }
}
