/** What becomes of a row once a run has settled it, literally and over whole runs. */
module DbOutcomes {
  import opened Basics
  import opened Text
  import opened Jobs
  import opened QueueRows
  import opened DbQueueSpec

  /** The run threw, and its message is not empty. */
  predicate Threw(error: Option<string>) {
    error != None && error != Some("")
  }

  /** The row a settlement leaves: failed with its flag kept, pending and due at once, or done. */
  lemma {:induction false} SettlementWrites(p: Proc, e: Event, row: Row, after: Row)
    requires Inv(p) && Possible(p, e) && e.Settles? && e.key in p.rows && e.key in Step(p, e).rows
    requires row == p.rows[e.key] && after == Step(p, e).rows[e.key]
    ensures row.state == Running
    ensures after.state == Failed <==> Threw(e.error)
    ensures after.state == Pending <==> !Threw(e.error) && row.rerun
    ensures after.state == Done <==> !Threw(e.error) && !row.rerun
    ensures after.lastError == e.error && after.id == row.id && after.attempts == row.attempts
    ensures after.rerun <==> Threw(e.error) && row.rerun
    ensures after.runAfter == if !Threw(e.error) && row.rerun then e.now else row.runAfter
    ensures Step(p, e).again == p.again + (if after.state == Pending then 1 else 0)
    ensures forall k :: k != e.key ==> (k in p.rows <==> k in Step(p, e).rows) && (k in p.rows ==> Step(p, e).rows[k] == p.rows[k])
  {
    ActiveIsRunning(p, e.key);
  }

  /** The row a request leaves. */
  lemma {:induction false} RequestWrites(p: Proc, e: Event)
    requires Possible(p, e) && e.Request?
    ensures e.key in Step(p, e).rows
    ensures var after := Step(p, e).rows[e.key];
            if e.key !in p.rows then after == Row(e.id, Pending, 0, false, e.jsNow, None)
            else
              var row := p.rows[e.key];
              && after.id == row.id && after.attempts == row.attempts
              && match row.state
                 case Failed => after.state == Pending && after.lastError == None && after.runAfter == e.dbNow && after.rerun == row.rerun
                 case Pending => after.state == Pending && after.lastError == row.lastError && after.rerun && after.runAfter == Min(row.runAfter, e.dbNow)
                 case Running => after.state == Running && after.lastError == row.lastError && after.rerun && after.runAfter == row.runAfter
                 case Done => after == row
    ensures forall k :: k != e.key ==> (k in p.rows <==> k in Step(p, e).rows) && (k in p.rows ==> Step(p, e).rows[k] == p.rows[k])
  {
  }

  /** The rows a claim leaves: those taken were due, waiting and not locked, and only they change. */
  lemma {:induction false} ClaimWrites(p: Proc, e: Event, k: Key)
    requires Possible(p, e) && e.ClaimCommits? && k in p.rows
    ensures k in Step(p, e).rows
    ensures ClaimsKey(e, k) ==> p.rows[k].state == Pending && p.rows[k].runAfter <= e.now && k !in e.locked
    ensures Step(p, e).rows[k] == if ClaimsKey(e, k) then p.rows[k].(state := Running, attempts := p.rows[k].attempts + 1) else p.rows[k]
  {
  }

  /** Every other step but a boot leaves the rows alone, and a boot re-arms the running ones. */
  lemma {:induction false} OtherWrites(p: Proc, e: Event, k: Key)
    requires Possible(p, e) && !e.Request? && !e.ClaimCommits? && !e.Settles? && k in p.rows
    ensures k in Step(p, e).rows
    ensures Step(p, e).rows[k] == if e.Boot? && p.rows[k].state == Running then p.rows[k].(state := Pending) else p.rows[k]
  {
  }

  /** Row `k` is neither claimed nor running, and no request for it arrives: it stays as it is. */
  lemma {:induction false} RestsThrough(p: Proc, e: Event, k: Key)
    requires Inv(p) && Possible(p, e) && k in p.rows && p.rows[k].state != Running
    requires e.Request? ==> e.key != k || p.rows[k].state == Done
    requires !ClaimsKey(e, k)
    ensures k in Step(p, e).rows && Step(p, e).rows[k] == p.rows[k]
  {
    match e
    case Request(_, _, _, _) => RequestWrites(p, e);
    case ClaimCommits(_, _, _) => ClaimWrites(p, e, k);
    case Settles(key, _, _) => ActiveIsRunning(p, key);
    case _ => OtherWrites(p, e, k);
  }

  lemma {:induction false} OnlyPendingIsClaimed(ps: seq<Proc>, es: seq<Event>, n: nat, key: Key)
    requires Run(ps, es) && n < |es| && key in ps[n].rows && ps[n].rows[key].state != Pending
    ensures !ClaimsKey(es[n], key)
  {
    if es[n].ClaimCommits? {
      ClaimWrites(ps[n], es[n], key);
    }
  }

  lemma {:induction false} RestsAt(ps: seq<Proc>, es: seq<Event>, n: nat, key: Key)
    requires Run(ps, es) && n < |es| && key in ps[n].rows && (ps[n].rows[key].state == Done || ps[n].rows[key].state == Failed)
    requires es[n].Request? ==> es[n].key != key || ps[n].rows[key].state == Done
    ensures key in ps[n + 1].rows && ps[n + 1].rows[key] == ps[n].rows[key]
  {
    EveryRunKeepsTheInvariant(ps, es, n);
    OnlyPendingIsClaimed(ps, es, n, key);
    RestsThrough(ps[n], es[n], key);
  }

  /** A row in this state stays as it is. */
  predicate Keeps(p: Table, q: Table, key: Key, state: RowState) {
    key in p && p[key].state == state ==> key in q && q[key] == p[key]
  }

  lemma {:induction false} KeptThrough(ps: seq<Proc>, i: nat, n: nat, key: Key, state: RowState)
    requires i <= n < |ps| && key in ps[i].rows && ps[i].rows[key].state == state
    requires forall j :: i <= j < n ==> Keeps(ps[j].rows, ps[j + 1].rows, key, state)
    ensures key in ps[n].rows && ps[n].rows[key] == ps[i].rows[key]
    decreases n
  {
    if n > i {
      KeptThrough(ps, i, n - 1, key, state);
      assert Keeps(ps[n - 1].rows, ps[n].rows, key, state);
    }
  }

  /** Once done, a row stays as it is for good, whatever is asked for. */
  lemma {:induction false} DoneIsFinal(ps: seq<Proc>, es: seq<Event>, i: nat, n: nat, key: Key)
    requires Run(ps, es) && i <= n < |ps| && key in ps[i].rows && ps[i].rows[key].state == Done
    ensures key in ps[n].rows && ps[n].rows[key] == ps[i].rows[key]
  {
    forall j | i <= j < n ensures Keeps(ps[j].rows, ps[j + 1].rows, key, Done) {
      if key in ps[j].rows && ps[j].rows[key].state == Done {
        RestsAt(ps, es, j, key);
      }
    }
    KeptThrough(ps, i, n, key, Done);
  }

  /** A run that succeeds, with no request while it ran, is the last one of its key: the row is done from then on and
      never claimed again, whatever requests, crashes and boots follow. */
  lemma {:induction false} SuccessIsFinal(ps: seq<Proc>, es: seq<Event>, i: nat, n: nat)
    requires Run(ps, es) && i < n < |ps| && es[i].Settles? && !Threw(es[i].error)
    requires es[i].key in ps[i].rows && !ps[i].rows[es[i].key].rerun
    ensures es[i].key in ps[n].rows
    ensures ps[n].rows[es[i].key] == ps[i].rows[es[i].key].(state := Done, lastError := es[i].error)
    ensures n < |es| ==> !ClaimsKey(es[n], es[i].key)
  {
    EveryRunKeepsTheInvariant(ps, es, i);
    var p, e := ps[i], es[i];
    SettlementWrites(p, e, p.rows[e.key], Step(p, e).rows[e.key]);
    DoneIsFinal(ps, es, i + 1, n, e.key);
    if n < |es| {
      OnlyPendingIsClaimed(ps, es, n, e.key);
    }
  }

  /** No request for the key arrives in this stretch. */
  ghost predicate NotAsked(es: seq<Event>, from: nat, n: nat, key: Key)
    requires from <= n <= |es|
  {
    n == from || (NotAsked(es, from, n - 1, key) && !(es[n - 1].Request? && es[n - 1].key == key))
  }

  lemma {:induction false} NotAskedThen(es: seq<Event>, from: nat, n: nat, key: Key, j: nat)
    requires from <= j < n <= |es| && NotAsked(es, from, n, key)
    ensures es[j].Request? ==> es[j].key != key
  {
    if j < n - 1 {
      NotAskedThen(es, from, n - 1, key, j);
    }
  }

  lemma {:induction false} FailedRests(ps: seq<Proc>, es: seq<Event>, i: nat, n: nat, key: Key)
    requires Run(ps, es) && i <= n < |ps| && key in ps[i].rows && ps[i].rows[key].state == Failed && NotAsked(es, i, n, key)
    ensures key in ps[n].rows && ps[n].rows[key] == ps[i].rows[key]
  {
    forall j | i <= j < n ensures Keeps(ps[j].rows, ps[j + 1].rows, key, Failed) {
      NotAskedThen(es, i, n, key, j);
      if key in ps[j].rows && ps[j].rows[key].state == Failed {
        RestsAt(ps, es, j, key);
      }
    }
    KeptThrough(ps, i, n, key, Failed);
  }

  /** A run that fails leaves its row failed, with its error, and never claimed until somebody asks for the key again;
      that request makes it pending, due at once. */
  lemma {:induction false} FailureWaitsForARequest(ps: seq<Proc>, es: seq<Event>, i: nat, n: nat)
    requires Run(ps, es) && i < n < |ps| && es[i].Settles? && Threw(es[i].error) && NotAsked(es, i + 1, n, es[i].key)
    ensures es[i].key in ps[n].rows && ps[n].rows[es[i].key].state == Failed && ps[n].rows[es[i].key].lastError == es[i].error
    ensures n < |es| ==> !ClaimsKey(es[n], es[i].key)
    ensures n < |es| && es[n].Request? && es[n].key == es[i].key ==>
              && es[i].key in ps[n + 1].rows && ps[n + 1].rows[es[i].key].state == Pending
              && ps[n + 1].rows[es[i].key].lastError == None && ps[n + 1].rows[es[i].key].runAfter == es[n].dbNow
  {
    EveryRunKeepsTheInvariant(ps, es, i);
    var p, e := ps[i], es[i];
    ActiveIsRunning(p, e.key);
    SettlementWrites(p, e, p.rows[e.key], Step(p, e).rows[e.key]);
    FailedRests(ps, es, i + 1, n, e.key);
    if n < |es| {
      OnlyPendingIsClaimed(ps, es, n, e.key);
      if es[n].Request? {
        RequestWrites(ps[n], es[n]);
      }
    }
  }

  lemma {:induction false} FlagRests(ps: seq<Proc>, es: seq<Event>, i: nat, n: nat, key: Key)
    requires Run(ps, es) && i <= n < |ps| && key in ps[i].rows && ps[i].rows[key].state == Running && ps[i].rows[key].rerun
    requires forall j :: i <= j < n ==> !Ends(es[j], key)
    ensures key in ps[n].rows && ps[n].rows[key].state == Running && ps[n].rows[key].rerun
    decreases n
  {
    if n > i {
      FlagRests(ps, es, i, n - 1, key);
      EveryRunKeepsTheInvariant(ps, es, n - 1);
      FlagStays(ps[n - 1], es[n - 1], key);
    }
  }

  /** The step settles the key, or boots, which re-arms whatever runs. */
  predicate Ends(e: Event, key: Key) {
    e.Boot? || (e.Settles? && e.key == key)
  }

  lemma {:induction false} FlagStays(p: Proc, e: Event, key: Key)
    requires Inv(p) && Possible(p, e) && key in p.rows && p.rows[key].state == Running && p.rows[key].rerun && !Ends(e, key)
    ensures key in Step(p, e).rows && Step(p, e).rows[key].state == Running && Step(p, e).rows[key].rerun
  {
    match e
    case Request(_, _, _, _) => RequestWrites(p, e);
    case ClaimCommits(_, _, _) => ClaimWrites(p, e, key);
    case Settles(other, _, _) =>
      ActiveIsRunning(p, other);
      SettlementWrites(p, e, p.rows[other], Step(p, e).rows[other]);
    case _ => OtherWrites(p, e, key);
  }

  /** A request that finds its key running is answered by another run: when the one in progress succeeds, the row is
      pending and due at that moment, and the process that settled it goes on to pump. */
  lemma {:induction false} RequestDuringARunIsRunAgain(ps: seq<Proc>, es: seq<Event>, i: nat, n: nat)
    requires Run(ps, es) && i < n < |es| && es[i].Request? && es[i].key in ps[i].rows && ps[i].rows[es[i].key].state == Running
    requires forall j :: i < j < n ==> !Ends(es[j], es[i].key)
    requires es[n].Settles? && es[n].key == es[i].key && !Threw(es[n].error)
    ensures es[i].key in ps[n + 1].rows
    ensures var after := ps[n + 1].rows[es[i].key]; after.state == Pending && after.runAfter == es[n].now && !after.rerun
    ensures ps[n + 1].again == ps[n].again + 1
  {
    var key := es[i].key;
    RequestWrites(ps[i], es[i]);
    FlagRests(ps, es, i + 1, n, key);
    EveryRunKeepsTheInvariant(ps, es, n);
    SettlementWrites(ps[n], es[n], ps[n].rows[key], Step(ps[n], es[n]).rows[key]);
  }

  /** The end of a run that is to be repeated starts a pump for every free slot, unless one is at work; that of any other
      lets the parked loops go once nothing is in flight. */
  lemma {:induction false} FinishWrites(p: Proc, e: Event)
    requires Inv(p) && Possible(p, e) && e.Finishes?
    ensures Step(p, e).inFlight == p.inFlight - 1 && Step(p, e).rows == p.rows && Step(p, e).active == p.active
    ensures e.rerun ==> Step(p, e).phase == (if p.phase.Resting? then Claiming(p.cap - (p.inFlight - 1)) else p.phase)
    ensures e.rerun ==> Step(p, e).settlers == p.settlers + 1 && Step(p, e).waiters == p.waiters
    ensures !e.rerun ==> Step(p, e).phase == p.phase && Step(p, e).settlers == p.settlers
    ensures !e.rerun ==> Step(p, e).waiters == if p.inFlight == 1 then 0 else p.waiters
  {
  }

  /** The start of a pump asks for all free slots, unless one is at work or there is none; and what it was given starts. */
  lemma {:induction false} PumpWrites(p: Proc, e: Event)
    requires Inv(p) && Possible(p, e) && (e.PumpBegins? || e.Delivers?)
    ensures e.PumpBegins? ==> Step(p, e) == if p.phase.Resting? && p.inFlight < p.cap then p.(phase := Claiming(p.cap - p.inFlight)) else p
    ensures e.Delivers? ==> Step(p, e).phase == Resting && Step(p, e).inFlight == p.inFlight + |p.phase.batch|
    ensures e.Delivers? ==> Step(p, e).active == p.active + multiset(p.phase.batch)
  {
  }

  /** How often the key was claimed in a stretch. */
  ghost function ClaimsOf(es: seq<Event>, from: nat, n: nat, key: Key): nat
    requires from <= n <= |es|
  {
    if n == from then 0 else ClaimsOf(es, from, n - 1, key) + Taken(es[n - 1], key)
  }

  ghost function Taken(e: Event, key: Key): nat {
    if ClaimsKey(e, key) then 1 else 0
  }

  /** The row of `key` in `q`, counted from that in `p`. */
  predicate Counted(p: Table, q: Table, key: Key, claims: nat) {
    key in p && key in q && q[key].id == p[key].id && q[key].attempts == p[key].attempts + claims
  }

  lemma {:induction false} RowStays(ps: seq<Proc>, es: seq<Event>, i: nat, n: nat, key: Key)
    requires Run(ps, es) && i <= n < |ps| && key in ps[i].rows
    ensures key in ps[n].rows
    decreases n
  {
    if n > i {
      RowStays(ps, es, i, n - 1, key);
      AttemptAt(ps, es, n - 1, key);
    }
  }

  lemma {:induction false} CountsAdd(ps: seq<Proc>, es: seq<Event>, i: nat, n: nat, key: Key)
    requires i <= n <= |es| && |ps| == |es| + 1 && key in ps[i].rows
    requires forall j :: i <= j < n ==> Counted(ps[j].rows, ps[j + 1].rows, key, Taken(es[j], key))
    ensures Counted(ps[i].rows, ps[n].rows, key, ClaimsOf(es, i, n, key))
    decreases n
  {
    if n > i {
      CountsAdd(ps, es, i, n - 1, key);
      Chained(ps[i].rows, ps[n - 1].rows, ps[n].rows, key, ClaimsOf(es, i, n - 1, key), Taken(es[n - 1], key));
    }
  }

  /** The attempts of a row count its claims, over every run, and its id never changes. */
  lemma {:induction false} AttemptsAreClaims(ps: seq<Proc>, es: seq<Event>, i: nat, n: nat, key: Key)
    requires Run(ps, es) && i <= n < |ps| && key in ps[i].rows
    ensures key in ps[n].rows && ps[n].rows[key].id == ps[i].rows[key].id
    ensures ps[n].rows[key].attempts == ps[i].rows[key].attempts + ClaimsOf(es, i, n, key)
  {
    forall j | i <= j < n ensures Counted(ps[j].rows, ps[j + 1].rows, key, Taken(es[j], key)) {
      RowStays(ps, es, i, j, key);
      AttemptAt(ps, es, j, key);
    }
    CountsAdd(ps, es, i, n, key);
  }

  lemma {:induction false} Chained(p: Table, q: Table, r: Table, key: Key, a: nat, b: nat)
    requires Counted(p, q, key, a) && Counted(q, r, key, b)
    ensures Counted(p, r, key, a + b)
  {
  }

  lemma {:induction false} AttemptAt(ps: seq<Proc>, es: seq<Event>, n: nat, key: Key)
    requires Run(ps, es) && n < |es| && key in ps[n].rows
    ensures Counted(ps[n].rows, ps[n + 1].rows, key, Taken(es[n], key))
  {
    EveryRunKeepsTheInvariant(ps, es, n);
    AttemptStep(ps[n], es[n], ps[n + 1], key);
  }

  lemma {:induction false} AttemptStep(p: Proc, e: Event, q: Proc, key: Key)
    requires Inv(p) && Possible(p, e) && q == Step(p, e) && key in p.rows
    ensures key in q.rows && q.rows[key].id == p.rows[key].id
    ensures q.rows[key].attempts == p.rows[key].attempts + Taken(e, key)
  {
    match e
    case Request(_, _, _, _) => RequestWrites(p, e);
    case ClaimCommits(_, _, _) => ClaimWrites(p, e, key);
    case Settles(other, _, _) =>
      ActiveIsRunning(p, other);
      SettlementWrites(p, e, p.rows[other], q.rows[other]);
    case _ => OtherWrites(p, e, key);
  }
}
