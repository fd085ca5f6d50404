/** The rows of `review_queue_jobs` and what each statement of the repository does to them. */
module QueueRows {
  import opened Basics
  import opened Text
  import opened Jobs

  datatype RowState = Pending | Running | Done | Failed

  datatype Row = Row(id: nat, state: RowState, attempts: nat, rerun: bool, runAfter: int, lastError: Option<string>)

  type Table = map<Key, Row>

  /** The ON CONFLICT clause. */
  function Reenqueued(row: Row, dbNow: int): Row {
    row.(state := if row.state == Failed then Pending else row.state,
         lastError := if row.state == Failed then None else row.lastError,
         runAfter := if row.state == Failed || (row.state == Pending && row.runAfter > dbNow) then dbNow else row.runAfter,
         rerun := row.state == Pending || row.state == Running || row.rerun)
  }

  function AfterEnqueue(rows: Table, key: Key, freshId: nat, jsNow: int, dbNow: int): Table {
    if key in rows then rows[key := Reenqueued(rows[key], dbNow)]
    else rows[key := Row(freshId, Pending, 0, false, jsNow, None)]
  }

  /** The answer computed from the row the statement returned. */
  predicate Deduped(rows: Table, key: Key, dbNow: int) {
    key in rows && !(Reenqueued(rows[key], dbNow).state == Pending && !Reenqueued(rows[key], dbNow).rerun)
  }

  function Claimable(rows: Table, locked: set<Key>, now: int): set<Key> {
    set k | k in rows && rows[k].state == Pending && rows[k].runAfter <= now && k !in locked
  }

  /** ORDER BY run_after, id. */
  predicate Before(a: Row, b: Row) {
    a.runAfter < b.runAfter || (a.runAfter == b.runAfter && a.id < b.id)
  }

  ghost predicate DistinctIds(rows: Table) {
    forall j, k :: j in rows && k in rows && j != k ==> rows[j].id != rows[k].id
  }

  /** What SELECT ... ORDER BY ... LIMIT ... FOR UPDATE SKIP LOCKED may answer: the oldest due rows not locked
      by somebody else, oldest first, and fewer than `limit` only if there are no more. */
  ghost predicate Batch(rows: Table, locked: set<Key>, now: int, limit: nat, keys: seq<Key>) {
    && Distinct(keys)
    && |keys| <= limit
    && (forall i :: 0 <= i < |keys| ==> keys[i] in Claimable(rows, locked, now))
    && (forall i, j :: 0 <= i < j < |keys| ==> Before(rows[keys[i]], rows[keys[j]]))
    && (forall k, j :: k in keys && j in Claimable(rows, locked, now) && j !in keys ==> Before(rows[k], rows[j]))
    && (|keys| < limit ==> forall k :: k in Claimable(rows, locked, now) ==> k in keys)
  }

  function AfterClaim(rows: Table, keys: seq<Key>): Table {
    map k | k in rows :: if k in keys then rows[k].(state := Running, attempts := rows[k].attempts + 1) else rows[k]
  }

  /** An empty error text is no error to the code. */
  predicate IsError(error: Option<string>) {
    error.Some? && error.value != ""
  }

  predicate RerunDecision(row: Row, error: Option<string>) {
    row.rerun && !IsError(error) && (row.state == Pending || row.state == Running)
  }

  function Completed(row: Row, error: Option<string>, now: int): Row {
    var again := RerunDecision(row, error);
    row.(state := if IsError(error) then Failed else if again then Pending else Done,
         lastError := error,
         rerun := IsError(error) && row.rerun,
         runAfter := if again then now else row.runAfter)
  }

  function AfterComplete(rows: Table, key: Key, error: Option<string>, now: int): Table {
    if key in rows then rows[key := Completed(rows[key], error, now)] else rows
  }

  function AfterRequeue(rows: Table): Table {
    map k | k in rows :: if rows[k].state == Running then rows[k].(state := Pending) else rows[k]
  }

  function RunningKeys(rows: Table): set<Key> {
    set k | k in rows && rows[k].state == Running
  }

  function InState(rows: Table, state: RowState): set<Key> {
    set k | k in rows && rows[k].state == state
  }

  /** A run of this key will start once the row is due: now, or when the current run has settled. */
  predicate Waiting(rows: Table, key: Key) {
    key in rows && (rows[key].state == Pending || rows[key].rerun)
  }

  ghost predicate NoFlagOnDone(rows: Table) {
    forall k :: k in rows && rows[k].state == Done ==> !rows[k].rerun
  }

  /** Which requests are taken: all but those for a `done` row, and those leave no trace. */
  lemma EnqueueIsTakenIff(rows: Table, key: Key, id: nat, jsNow: int, dbNow: int)
    requires NoFlagOnDone(rows)
    ensures Waiting(AfterEnqueue(rows, key, id, jsNow, dbNow), key) <==> !(key in rows && rows[key].state == Done)
    ensures key in rows && rows[key].state == Done ==>
              AfterEnqueue(rows, key, id, jsNow, dbNow) == rows && Deduped(rows, key, dbNow)
  {
    if key in rows && rows[key].state == Done {
      assert Reenqueued(rows[key], dbNow) == rows[key];
    }
  }

  /** The verdict decides whether the caller pumps. It says "not deduped" for a new row and for a failed row
      without a kept flag; so a failed row that carries one is re-armed and still reported as deduped. */
  lemma VerdictIff(rows: Table, key: Key, id: nat, jsNow: int, dbNow: int)
    ensures !Deduped(rows, key, dbNow) <==> key !in rows || (rows[key].state == Failed && !rows[key].rerun)
    ensures var after := AfterEnqueue(rows, key, id, jsNow, dbNow);
            (Deduped(rows, key, dbNow) && after[key].state == Pending && (key in rows ==> rows[key].state != Pending))
            <==> key in rows && rows[key].state == Failed && rows[key].rerun
  {
  }

  /** One row of the grouped count. */
  datatype Group = Group(state: RowState, value: nat)

  ghost predicate Grouped(rows: Table, groups: seq<Group>) {
    && (forall i :: 0 <= i < |groups| ==> groups[i].value == |InState(rows, groups[i].state)|)
    && (forall i, j :: 0 <= i < j < |groups| ==> groups[i].state != groups[j].state)
    && (forall s :: InState(rows, s) != {} ==> exists i :: 0 <= i < |groups| && groups[i].state == s)
  }

  datatype Counts = Counts(pending: nat, running: nat, done: nat, failed: nat) {
    function Of(s: RowState): nat {
      match s case Pending => pending case Running => running case Done => done case Failed => failed
    }

    function Set(s: RowState, value: nat): Counts {
      match s
      case Pending => this.(pending := value)
      case Running => this.(running := value)
      case Done => this.(done := value)
      case Failed => this.(failed := value)
    }
  }

  class QueueRepository {
    var rows: Table
    var nextId: nat

    ghost predicate Valid()
      reads this
    {
      DistinctIds(rows) && NoFlagOnDone(rows) && forall k :: k in rows ==> rows[k].id < nextId
    }

    constructor ()
      ensures Valid() && rows == map[]
    {
      rows, nextId := map[], 0;
    }

    method Enqueue(key: Key, jsNow: int, dbNow: int) returns (job: Row, deduped: bool)
      requires Valid()
      modifies this
      ensures Valid()
      ensures rows == AfterEnqueue(old(rows), key, old(nextId), jsNow, dbNow) && rows[key] == job
      ensures deduped == Deduped(old(rows), key, dbNow)
    {
      var insertedFresh := key !in rows;
      job := if insertedFresh then Row(nextId, Pending, 0, false, jsNow, None) else Reenqueued(rows[key], dbNow);
      rows := rows[key := job];
      nextId := nextId + 1;
      var reArmed := job.state == Pending && !job.rerun;
      deduped := !insertedFresh && !reArmed;
    }

    method ClaimDue(limit: nat, now: int, locked: set<Key>) returns (claimed: seq<Key>)
      requires Valid()
      modifies this
      ensures Valid() && nextId == old(nextId)
      ensures Batch(old(rows), locked, now, limit, claimed)
      ensures rows == AfterClaim(old(rows), claimed)
    {
      var due := Claimable(rows, locked, now);
      claimed := [];
      while |claimed| < limit && due != {}
        invariant |claimed| <= limit && Distinct(claimed)
        invariant forall k :: k in Claimable(rows, locked, now) <==> k in due || k in claimed
        invariant forall k :: k in claimed ==> k !in due
        invariant forall i :: 0 <= i < |claimed| ==> claimed[i] in Claimable(rows, locked, now)
        invariant forall i, j :: 0 <= i < j < |claimed| ==> Before(rows[claimed[i]], rows[claimed[j]])
        invariant forall k, j :: k in claimed && j in due ==> Before(rows[k], rows[j])
        modifies {}
        decreases due
      {
        var oldest := Oldest(due);
        claimed := claimed + [oldest];
        due := due - {oldest};
      }
      rows := AfterClaim(rows, claimed);
    }

    method Oldest(due: set<Key>) returns (oldest: Key)
      requires Valid() && due != {} && due <= rows.Keys
      ensures oldest in due && forall k :: k in due && k != oldest ==> Before(rows[oldest], rows[k])
    {
      oldest :| oldest in due;
      var rest := due - {oldest};
      while rest != {}
        invariant rest <= due && oldest in due
        invariant forall k :: k in due && k != oldest && k !in rest ==> Before(rows[oldest], rows[k])
        decreases rest
      {
        var k :| k in rest;
        if Before(rows[k], rows[oldest]) {
          oldest := k;
        }
        rest := rest - {k};
      }
    }

    method Complete(key: Key, error: Option<string>, now: int) returns (rerun: bool)
      requires Valid()
      modifies this
      ensures Valid() && nextId == old(nextId)
      ensures rows == AfterComplete(old(rows), key, error, now)
      ensures rerun <==> key in old(rows) && RerunDecision(old(rows)[key], error)
    {
      rerun := false;
      if key in rows {
        rerun := RerunDecision(rows[key], error);
        rows := rows[key := Completed(rows[key], error, now)];
      }
    }

    method RequeueInterrupted() returns (requeued: nat)
      requires Valid()
      modifies this
      ensures Valid() && nextId == old(nextId)
      ensures rows == AfterRequeue(old(rows)) && requeued == |RunningKeys(old(rows))|
    {
      requeued := |RunningKeys(rows)|;
      rows := AfterRequeue(rows);
    }

    /** SELECT state, count(*) ... GROUP BY state: the states that occur, in some order. */
    method CountByState() returns (groups: seq<Group>)
      ensures Grouped(rows, groups)
    {
      groups := [];
      var states := {Pending, Running, Done, Failed};
      ghost var seen: set<RowState> := {};
      assert forall s: RowState :: s in states by {
        forall s: RowState ensures s in states {
          match s case Pending => case Running => case Done => case Failed =>
        }
      }
      while states != {}
        invariant forall s :: s in seen || s in states
        invariant forall i :: 0 <= i < |groups| ==> groups[i].state in seen && groups[i].value == |InState(rows, groups[i].state)|
        invariant forall i, j :: 0 <= i < j < |groups| ==> groups[i].state != groups[j].state
        invariant forall s :: s in seen && InState(rows, s) != {} ==> exists i :: 0 <= i < |groups| && groups[i].state == s
        invariant seen !! states
        decreases states
      {
        var s :| s in states;
        states := states - {s};
        ghost var before := groups;
        if InState(rows, s) != {} {
          groups := groups + [Group(s, |InState(rows, s)|)];
          assert groups[|before|].state == s;
        }
        assert forall i :: 0 <= i < |before| ==> groups[i] == before[i];
        seen := seen + {s};
      }
    }

    /** stats(): a count for every state, from rows that leave out the states that do not occur. */
    method Stats() returns (out: Counts)
      ensures forall s :: out.Of(s) == |InState(rows, s)|
    {
      var groups := CountByState();
      out := Counts(0, 0, 0, 0);
      var i := 0;
      while i < |groups|
        invariant i <= |groups|
        invariant forall j :: 0 <= j < i ==> out.Of(groups[j].state) == groups[j].value
        invariant forall s :: out.Of(s) == 0 || exists j :: 0 <= j < i && groups[j].state == s
      {
        ghost var before := out;
        out := out.Set(groups[i].state, groups[i].value);
        assert forall s :: s != groups[i].state ==> out.Of(s) == before.Of(s);
        i := i + 1;
      }
      forall s ensures out.Of(s) == |InState(rows, s)| {
        if InState(rows, s) != {} {
          var j :| 0 <= j < |groups| && groups[j].state == s;
          assert out.Of(groups[j].state) == groups[j].value;
        }
      }
    }
  }
}
