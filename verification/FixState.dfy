/** The worker's memory of each pull request, and what its writers may not disturb. */
module FixState {
  import opened Basics
  import opened Text

  type Repo(==, !new)

  type Sha(==, !new)

  /** A pull request's record; a field the file does not hold is None, or zero for a tally. */
  datatype Entry = Entry(sha: Option<Sha>, skipReason: Option<string>, notified: bool,
                         attempts: nat, attemptSha: Option<Sha>, fixCommits: nat,
                         budgetRuns: nat, budgetSha: Option<Sha>, badBump: Option<string>, badBumpSha: Option<Sha>)

  const BLANK := Entry(None, None, false, 0, None, 0, 0, None, None, None)

  /** What the file holds for a pull request: nothing, the old format's bare sha, or a record. */
  datatype Stored = Nothing | Legacy(sha: Sha) | Record(entry: Entry)

  /** prEntry: the old format becomes a record on first touch. */
  function EntryOf(s: Stored): Entry {
    match s
    case Nothing => BLANK
    case Legacy(sha) => BLANK.(sha := Some(sha))
    case Record(e) => e
  }

  predicate AlreadyFixed(e: Entry, head: Sha) {
    e.sha == Some(head)
  }

  function SkipReason(e: Entry, head: Sha): Option<string> {
    if e.sha == Some(head) then e.skipReason else None
  }

  predicate WasNotified(e: Entry, head: Sha) {
    e.notified && e.sha == Some(head)
  }

  function AttemptCount(e: Entry, head: Sha): nat {
    if e.attemptSha == Some(head) then e.attempts else 0
  }

  function BudgetCount(e: Entry, head: Sha): nat {
    if e.budgetSha == Some(head) then e.budgetRuns else 0
  }

  function BumpAttempt(e: Entry, head: Sha): Entry {
    e.(attempts := AttemptCount(e, head) + 1, attemptSha := Some(head))
  }

  function BumpBudget(e: Entry, head: Sha): Entry {
    e.(budgetRuns := BudgetCount(e, head) + 1, budgetSha := Some(head))
  }

  function MarkBadBump(e: Entry, head: Sha, reason: string): Entry {
    e.(badBump := Some(reason), badBumpSha := Some(head))
  }

  function MarkFixed(e: Entry, head: Sha, commits: nat): Entry {
    e.(sha := Some(head), fixCommits := commits, skipReason := None, notified := false,
       attempts := 0, attemptSha := None, budgetRuns := 0, budgetSha := None)
  }

  function MarkSkip(e: Entry, head: Sha, reason: string): Entry {
    e.(sha := Some(head), skipReason := Some(reason), attempts := 0, attemptSha := None)
  }

  function MarkNotified(e: Entry): Entry {
    e.(notified := true)
  }

  /** A write to the record; Announced is notifySkipOnce at a head, Pruned the loss of the whole record. */
  datatype Op =
    | Failed(head: Sha)
    | Exhausted(head: Sha, inFixLoop: bool)
    | Unshippable(head: Sha, reason: string)
    | Fixed(head: Sha, commits: nat)
    | Skipped(head: Sha, reason: string)
    | Announced(head: Sha)
    | Pruned

  function Apply(e: Entry, op: Op): Entry {
    match op
    case Failed(head) => BumpAttempt(e, head)
    case Exhausted(head, _) => BumpBudget(e, head)
    case Unshippable(head, reason) => MarkBadBump(e, head, reason)
    case Fixed(head, commits) => MarkFixed(e, head, commits)
    case Skipped(head, reason) => MarkSkip(e, head, reason)
    case Announced(head) => if WasNotified(e, head) then e else MarkNotified(e)
    case Pruned => BLANK
  }

  function After(e: Entry, ops: seq<Op>, n: nat): Entry
    requires n <= |ops|
  {
    if n == 0 then e else Apply(After(e, ops, n - 1), ops[n - 1])
  }

  predicate RecordsFailure(op: Op) {
    op.Failed? || op.Exhausted? || op.Unshippable?
  }

  /** However many failures are recorded, at whatever heads, no answer about being fixed or skipped changes. */
  lemma {:induction false} FailuresChangeNoAnswer(e: Entry, ops: seq<Op>, n: nat, head: Sha)
    requires n <= |ops| && forall i :: 0 <= i < n ==> RecordsFailure(ops[i])
    ensures AlreadyFixed(After(e, ops, n), head) == AlreadyFixed(e, head)
    ensures SkipReason(After(e, ops, n), head) == SkipReason(e, head)
    ensures WasNotified(After(e, ops, n), head) == WasNotified(e, head)
  {
    if n > 0 {
      FailuresChangeNoAnswer(e, ops, n - 1, head);
    }
  }

  /** A bare sha of the old format reads as fixed at that head, with nothing to skip, after any failures recorded on it. */
  lemma {:induction false} LegacyShaStaysFixed(sha: Sha, ops: seq<Op>, n: nat, head: Sha)
    requires n <= |ops| && forall i :: 0 <= i < n ==> RecordsFailure(ops[i])
    ensures var e := After(EntryOf(Legacy(sha)), ops, n);
            (AlreadyFixed(e, head) <==> sha == head) && SkipReason(e, head).None? && !WasNotified(e, head)
  {
    FailuresChangeNoAnswer(EntryOf(Legacy(sha)), ops, n, head);
  }

  /** The last write that settled a head among the first `n`; a lost record settles none. */
  function LastSettled(e: Entry, ops: seq<Op>, n: nat): (Option<Sha>, Option<string>)
    requires n <= |ops|
  {
    if n == 0 then (e.sha, e.skipReason)
    else match ops[n - 1]
      case Fixed(head, _) => (Some(head), None)
      case Skipped(head, reason) => (Some(head), Some(reason))
      case Pruned => (None, None)
      case _ => LastSettled(e, ops, n - 1)
  }

  /** After any writes, the answers are those of the last fix, skip or prune alone, whatever failed, was announced or was
      judged in between: one head is fixed or skipped, and no other. */
  lemma {:induction false} AnswersAreTheLastSettled(e: Entry, ops: seq<Op>, n: nat, head: Sha)
    requires n <= |ops|
    ensures AlreadyFixed(After(e, ops, n), head) <==> LastSettled(e, ops, n).0 == Some(head)
    ensures SkipReason(After(e, ops, n), head) == if LastSettled(e, ops, n).0 == Some(head) then LastSettled(e, ops, n).1 else None
  {
    if n > 0 {
      AnswersAreTheLastSettled(e, ops, n - 1, head);
    }
  }

  /** The failures counted at a head: those since the last fix, skip, prune, or failure at another head. */
  function FailuresAt(e: Entry, ops: seq<Op>, n: nat, head: Sha): nat
    requires n <= |ops|
  {
    if n == 0 then (if e.attemptSha == Some(head) then e.attempts else 0)
    else match ops[n - 1]
      case Failed(at) => if at == head then FailuresAt(e, ops, n - 1, head) + 1 else 0
      case Fixed(_, _) => 0
      case Skipped(_, _) => 0
      case Pruned => 0
      case _ => FailuresAt(e, ops, n - 1, head)
  }

  /** The exhausted budgets counted at a head: those since the last fix, prune, or exhausted budget at another head. */
  function ExhaustedAt(e: Entry, ops: seq<Op>, n: nat, head: Sha): nat
    requires n <= |ops|
  {
    if n == 0 then (if e.budgetSha == Some(head) then e.budgetRuns else 0)
    else match ops[n - 1]
      case Exhausted(at, _) => if at == head then ExhaustedAt(e, ops, n - 1, head) + 1 else 0
      case Fixed(_, _) => 0
      case Pruned => 0
      case _ => ExhaustedAt(e, ops, n - 1, head)
  }

  /** The last verdict on a bump, and the head it is about; a lost record holds none. */
  function LastVerdict(e: Entry, ops: seq<Op>, n: nat): (Option<Sha>, Option<string>)
    requires n <= |ops|
  {
    if n == 0 then (e.badBumpSha, e.badBump)
    else match ops[n - 1]
      case Unshippable(head, reason) => (Some(head), Some(reason))
      case Pruned => (None, None)
      case _ => LastVerdict(e, ops, n - 1)
  }

  /** The commits of the last fix. */
  function LastCommits(e: Entry, ops: seq<Op>, n: nat): nat
    requires n <= |ops|
  {
    if n == 0 then e.fixCommits
    else match ops[n - 1]
      case Fixed(_, commits) => commits
      case Pruned => 0
      case _ => LastCommits(e, ops, n - 1)
  }

  /** After any writes, the two tallies count exactly that, at every head, and the verdict is the last one. */
  lemma {:induction false} TalliesCount(e: Entry, ops: seq<Op>, n: nat, head: Sha)
    requires n <= |ops|
    ensures AttemptCount(After(e, ops, n), head) == FailuresAt(e, ops, n, head)
    ensures BudgetCount(After(e, ops, n), head) == ExhaustedAt(e, ops, n, head)
    ensures (After(e, ops, n).badBumpSha, After(e, ops, n).badBump) == LastVerdict(e, ops, n)
    ensures After(e, ops, n).fixCommits == LastCommits(e, ops, n)
  {
    if n > 0 {
      TalliesCount(e, ops, n - 1, head);
    }
  }

  // The budget ceiling

  const CEILING := 3

  /** An exhausted run of the fix loop had been offered, so the ceiling was not reached before it. */
  predicate Offered(e: Entry, op: Op) {
    op.Exhausted? && op.inFixLoop ==> BudgetCount(e, op.head) < CEILING
  }

  predicate AllOffered(e: Entry, ops: seq<Op>, n: nat)
    requires n <= |ops|
  {
    n == 0 || (AllOffered(e, ops, n - 1) && Offered(After(e, ops, n - 1), ops[n - 1]))
  }

  function Spent(ops: seq<Op>, n: nat): nat
    requires n <= |ops|
  {
    if n == 0 then 0 else Spent(ops, n - 1) + (if ops[n - 1].Exhausted? && ops[n - 1].inFixLoop then 1 else 0)
  }

  /** The head stays, and no fix is recorded. */
  predicate Stuck(ops: seq<Op>, head: Sha) {
    forall i :: 0 <= i < |ops| ==> !ops[i].Fixed? && (ops[i].Exhausted? ==> ops[i].head == head)
  }

  /** How often the record was lost. */
  function Prunes(ops: seq<Op>, n: nat): nat
    requires n <= |ops|
  {
    if n == 0 then 0 else Prunes(ops, n - 1) + (if ops[n - 1].Pruned? then 1 else 0)
  }

  /** The exhausted runs of the fix loop since the record was last lost. */
  function SpentSince(ops: seq<Op>, n: nat): nat
    requires n <= |ops|
  {
    if n == 0 || ops[n - 1].Pruned? then 0
    else SpentSince(ops, n - 1) + (if ops[n - 1].Exhausted? && ops[n - 1].inFixLoop then 1 else 0)
  }

  /** At one head without a fix, the fix loop exhausts its budget at most three times between two losses of the record,
      so at most three times more for each loss. */
  lemma {:induction false} AtMostThreeExhaustions(e: Entry, ops: seq<Op>, n: nat, head: Sha)
    requires n <= |ops| && Stuck(ops, head) && AllOffered(e, ops, n)
    ensures SpentSince(ops, n) <= 3 && BudgetCount(After(e, ops, n), head) >= SpentSince(ops, n)
    ensures Spent(ops, n) <= 3 * Prunes(ops, n) + SpentSince(ops, n)
  {
    if n > 0 {
      AtMostThreeExhaustions(e, ops, n - 1, head);
    }
  }

  lemma {:induction false} PrefixIsEnough(e: Entry, ops: seq<Op>, more: seq<Op>, n: nat)
    requires n <= |ops| <= |more| && forall i :: 0 <= i < n ==> ops[i] == more[i]
    ensures After(e, more, n) == After(e, ops, n) && AllOffered(e, more, n) == AllOffered(e, ops, n)
  {
    if n > 0 {
      PrefixIsEnough(e, ops, more, n - 1);
    }
  }

  /** Turns follow one another: what one leaves in the record the next one starts from, so a whole history of ticks is
      one list of writes, each exhausted run in it offered. */
  lemma {:induction false} TurnsCompose(e: Entry, first: seq<Op>, second: seq<Op>, n: nat)
    requires n <= |second|
    ensures After(e, first + second, |first| + n) == After(After(e, first, |first|), second, n)
    ensures AllOffered(e, first + second, |first| + n) <==> AllOffered(e, first, |first|) && AllOffered(After(e, first, |first|), second, n)
  {
    if n == 0 {
      PrefixIsEnough(e, first, first + second, |first|);
    } else {
      TurnsCompose(e, first, second, n - 1);
    }
  }

  /** The writes of the first `n` turns, one after another. */
  function Flat(turns: seq<seq<Op>>, n: nat): seq<Op>
    requires n <= |turns|
  {
    if n == 0 then [] else Flat(turns, n - 1) + turns[n - 1]
  }

  /** Each turn starts from the record the turns before it left, and offers its runs by it. */
  predicate Chained(e: Entry, turns: seq<seq<Op>>, n: nat)
    requires n <= |turns|
  {
    n == 0 || (Chained(e, turns, n - 1)
               && AllOffered(After(e, Flat(turns, n - 1), |Flat(turns, n - 1)|), turns[n - 1], |turns[n - 1]|))
  }

  lemma {:induction false} ChainIsOneHistory(e: Entry, turns: seq<seq<Op>>, n: nat, head: Sha)
    requires n <= |turns| && Chained(e, turns, n) && forall i :: 0 <= i < |turns| ==> Stuck(turns[i], head)
    ensures AllOffered(e, Flat(turns, n), |Flat(turns, n)|) && Stuck(Flat(turns, n), head)
  {
    if n > 0 {
      ChainIsOneHistory(e, turns, n - 1, head);
      TurnsCompose(e, Flat(turns, n - 1), turns[n - 1], |turns[n - 1]|);
      assert Stuck(turns[n - 1], head);
    }
  }

  /** Over any number of turns of a pull request whose head stays and for which no fix is recorded, and any prunes between
      them, the runs of the fix loop that end by exhausting their budget are at most three, and three more for each time
      a prune lost the record. */
  lemma {:induction false} ThreeExhaustionsOverTicks(e: Entry, turns: seq<seq<Op>>, head: Sha)
    requires Chained(e, turns, |turns|) && forall i :: 0 <= i < |turns| ==> Stuck(turns[i], head)
    ensures var ops := Flat(turns, |turns|);
            Spent(ops, |ops|) <= 3 * (Prunes(ops, |ops|) + 1) && SpentSince(ops, |ops|) <= 3
  {
    ChainIsOneHistory(e, turns, |turns|, head);
    AtMostThreeExhaustions(e, Flat(turns, |turns|), |Flat(turns, |turns|)|, head);
  }

  /** What is so of a list of turns at one head: chained, stuck, one write a turn; with its tallies. */
  ghost predicate Single(e: Entry, turns: seq<seq<Op>>, head: Sha, spent: nat, prunes: nat, left: Entry) {
    var ops := Flat(turns, |turns|);
    && Chained(e, turns, |turns|) && (forall i :: 0 <= i < |turns| ==> Stuck(turns[i], head) && |turns[i]| == 1)
    && Spent(ops, |ops|) == spent && Prunes(ops, |ops|) == prunes && After(e, ops, |ops|) == left
  }

  lemma {:induction false} FlatPrefix(e: Entry, turns: seq<seq<Op>>, turn: seq<Op>, n: nat)
    requires n <= |turns|
    ensures Flat(turns + [turn], n) == Flat(turns, n) && (Chained(e, turns, n) ==> Chained(e, turns + [turn], n))
  {
    if n > 0 {
      FlatPrefix(e, turns, turn, n - 1);
    }
  }

  lemma {:induction false} TalliesPrefix(ops: seq<Op>, op: Op, n: nat)
    requires n <= |ops|
    ensures Spent(ops + [op], n) == Spent(ops, n) && Prunes(ops + [op], n) == Prunes(ops, n)
  {
    if n > 0 {
      TalliesPrefix(ops, op, n - 1);
    }
  }

  /** One more turn, of one write that was offered. */
  lemma OneMoreTurn(e: Entry, turns: seq<seq<Op>>, head: Sha, spent: nat, prunes: nat, left: Entry, op: Op)
    requires Single(e, turns, head, spent, prunes, left) && Offered(left, op) && Stuck([op], head)
    ensures Single(e, turns + [[op]], head, spent + (if op.Exhausted? && op.inFixLoop then 1 else 0),
                   prunes + (if op.Pruned? then 1 else 0), Apply(left, op))
  {
    var ops, more := Flat(turns, |turns|), turns + [[op]];
    FlatPrefix(e, turns, [op], |turns|);
    assert Flat(more, |more|) == ops + [op];
    TalliesPrefix(ops, op, |ops|);
    PrefixIsEnough(e, ops, ops + [op], |ops|);
    assert AllOffered(left, [op], 1) by {
      assert After(left, [op], 0) == left && AllOffered(left, [op], 0);
    }
  }

  /** Three turns in which the fix loop exhausts its budget, from a record without a tally for the head. */
  lemma ThreeMoreTurns(e: Entry, turns: seq<seq<Op>>, head: Sha, spent: nat, prunes: nat, left: Entry)
    requires Single(e, turns, head, spent, prunes, left) && BudgetCount(left, head) == 0
    ensures var run := [Exhausted(head, true)];
            Single(e, turns + [run] + [run] + [run], head, spent + 3, prunes, BumpBudget(BumpBudget(BumpBudget(left, head), head), head))
  {
    var op := Exhausted(head, true);
    OneMoreTurn(e, turns, head, spent, prunes, left, op);
    OneMoreTurn(e, turns + [[op]], head, spent + 1, prunes, BumpBudget(left, head), op);
    OneMoreTurn(e, turns + [[op]] + [[op]], head, spent + 2, prunes, BumpBudget(BumpBudget(left, head), head), op);
  }

  /** The bound is met: with one lost record in between, six turns of a pull request exhaust a budget each at one head. */
  lemma SixAroundOnePrune(head: Sha) returns (turns: seq<seq<Op>>)
    ensures var run := [Exhausted(head, true)]; turns == [run, run, run, [Pruned], run, run, run]
    ensures Chained(BLANK, turns, |turns|) && forall i :: 0 <= i < |turns| ==> Stuck(turns[i], head)
    ensures var ops := Flat(turns, |turns|); Spent(ops, |ops|) == 6 && Prunes(ops, |ops|) == 1
  {
    var run := [Exhausted(head, true)];
    assert Flat([], 0) == [];
    assert Single(BLANK, [], head, 0, 0, BLANK);
    ThreeMoreTurns(BLANK, [], head, 0, 0, BLANK);
    var three := [] + [run] + [run] + [run];
    var left := BumpBudget(BumpBudget(BumpBudget(BLANK, head), head), head);
    OneMoreTurn(BLANK, three, head, 3, 0, left, Pruned);
    ThreeMoreTurns(BLANK, three + [[Pruned]], head, 3, 1, BLANK);
    turns := three + [[Pruned]] + [run] + [run] + [run];
  }

  // Announcements

  /** An announcement goes out unless the record says it already did. */
  predicate GoesOut(e: Entry, op: Op) {
    op.Announced? && !WasNotified(e, op.head)
  }

  /** Some announcement went out since the last fix or loss of the record, or the record already said so. */
  predicate AnnouncedSinceFix(e: Entry, ops: seq<Op>, n: nat)
    requires n <= |ops|
  {
    if n == 0 then e.notified
    else if ops[n - 1].Fixed? || ops[n - 1].Pruned? then false
    else AnnouncedSinceFix(e, ops, n - 1) || GoesOut(After(e, ops, n - 1), ops[n - 1])
  }

  lemma {:induction false} NotifiedMeansAnnounced(e: Entry, ops: seq<Op>, n: nat)
    requires n <= |ops|
    ensures After(e, ops, n).notified <==> AnnouncedSinceFix(e, ops, n)
  {
    if n > 0 {
      NotifiedMeansAnnounced(e, ops, n - 1);
    }
  }

  /** A skip just recorded is announced exactly when nothing was announced since the last fix or prune, at whatever head:
      the flag is not cleared by a new skip, so the second head's notice is lost. */
  lemma {:induction false} SkipIsAnnouncedIff(e: Entry, ops: seq<Op>, head: Sha, reason: string)
    ensures GoesOut(Apply(After(e, ops, |ops|), Skipped(head, reason)), Announced(head)) <==> !AnnouncedSinceFix(e, ops, |ops|)
  {
    NotifiedMeansAnnounced(e, ops, |ops|);
  }

  /** The shortest case: two heads skipped one after the other, and only the first is heard of. */
  lemma SecondHeadIsNotAnnounced(a: Sha, b: Sha, why: string)
    ensures var ops := [Skipped(a, why), Announced(a), Skipped(b, why)];
            && GoesOut(After(BLANK, ops, 1), Announced(a))
            && SkipReason(After(BLANK, ops, 3), b) == Some(why) && !GoesOut(After(BLANK, ops, 3), Announced(b))
  {
    var ops := [Skipped(a, why), Announced(a), Skipped(b, why)];
    assert After(BLANK, ops, 1) == MarkSkip(BLANK, a, why);
    assert After(BLANK, ops, 2) == MarkNotified(MarkSkip(BLANK, a, why));
    assert After(BLANK, ops, 3) == MarkSkip(After(BLANK, ops, 2), b, why);
  }

  // Pruning

  datatype PrKey = PrKey(repo: Repo, number: nat)

  type Store = map<Repo, map<nat, Stored>>

  /** The record kept for a repository, without the pull requests that are not open. */
  function StillOpen(prs: map<nat, Stored>, repo: Repo, open: set<PrKey>): map<nat, Stored> {
    map n | n in prs && PrKey(repo, n) in open :: prs[n]
  }

  /** The file after a prune by a list of open pull requests: a list no longer than the threshold is not believed. */
  function PrunedStore(state: Store, open: set<PrKey>, threshold: nat): Store {
    if |open| <= threshold then state
    else map repo | repo in state && StillOpen(state[repo], repo, open) != map[] :: StillOpen(state[repo], repo, open)
  }

  /** All pull requests the file holds something for. */
  function KeysOf(state: Store): set<PrKey> {
    set repo, n | repo in state && n in state[repo] :: PrKey(repo, n)
  }

  function Held(state: Store, key: PrKey): Stored {
    if key.repo in state && key.number in state[key.repo] then state[key.repo][key.number] else Nothing
  }

  class FixStore {
    var state: Store

    constructor (state: Store)
      ensures this.state == state
    {
      this.state := state;
    }

    /** One repository's turn: its closed pull requests go, and are counted. */
    static method PruneRepo(prs: map<nat, Stored>, repo: Repo, open: set<PrKey>) returns (left: map<nat, Stored>, removed: nat)
      ensures left == StillOpen(prs, repo, open) && removed == |prs| - |left|
    {
      left, removed := prs, 0;
      var keys := prs.Keys;
      while keys != {}
        invariant keys <= prs.Keys && left.Keys <= prs.Keys && removed == |prs| - |left|
        invariant forall n :: n in prs ==> (n in left <==> n in keys || PrKey(repo, n) in open)
        invariant forall n :: n in left ==> left[n] == prs[n]
        decreases |keys|
      {
        var n :| n in keys;
        keys := keys - {n};
        if PrKey(repo, n) !in open {
          OneLess(left, n);
          left := left - {n};
          removed := removed + 1;
        }
      }
    }

    /** pruneClosedFixState: nothing on a suspiciously short list of open pull requests; otherwise every record not listed
        goes, and is counted. */
    method PruneClosed(open: set<PrKey>, threshold: nat) returns (removed: nat)
      modifies this
      ensures state == PrunedStore(old(state), open, threshold)
      ensures removed == |KeysOf(old(state)) - KeysOf(state)|
    {
      removed := 0;
      if |open| == 0 || |open| <= threshold {
        assert KeysOf(state) - KeysOf(state) == {};
        return;
      }
      ghost var before := state;
      ghost var gone: set<PrKey> := {};
      var left := state.Keys;
      while left != {}
        invariant left <= before.Keys && Turned(before, state, left, open)
        invariant removed == |gone| && forall k :: k in gone <==> k in KeysOf(before) && k.repo !in left && k !in open
        decreases |left|
      {
        var repo :| repo in left;
        var prs, count := PruneRepo(state[repo], repo, open);
        TurnOne(before, state, left, open, repo);
        gone := GoneToo(before, left, open, repo, gone, count);
        removed := removed + count;
        left := left - {repo};
        state := if prs == map[] then state - {repo} else state[repo := prs];
      }
      AllTurned(before, state, open, threshold);
      GoneAre(before, open, threshold, gone);
    }
  }

  /** The pull requests of one repository that are not open. */
  ghost function Closed(prs: map<nat, Stored>, repo: Repo, open: set<PrKey>): set<PrKey> {
    set n | n in prs && PrKey(repo, n) !in open :: PrKey(repo, n)
  }

  lemma ClosedAreCounted(prs: map<nat, Stored>, repo: Repo, open: set<PrKey>)
    ensures |Closed(prs, repo, open)| == |prs| - |StillOpen(prs, repo, open)|
  {
    var numbers := prs.Keys - StillOpen(prs, repo, open).Keys;
    assert prs.Keys == numbers + StillOpen(prs, repo, open).Keys;
    SameSize(numbers, repo);
    assert Closed(prs, repo, open) == set n | n in numbers :: PrKey(repo, n);
  }

  lemma {:induction false} SameSize(numbers: set<nat>, repo: Repo)
    ensures |set n | n in numbers :: PrKey(repo, n)| == |numbers|
    decreases |numbers|
  {
    if numbers != {} {
      var one :| one in numbers;
      SameSize(numbers - {one}, repo);
      assert (set n | n in numbers :: PrKey(repo, n)) == (set n | n in numbers - {one} :: PrKey(repo, n)) + {PrKey(repo, one)};
    }
  }

  lemma GoneAre(before: Store, open: set<PrKey>, threshold: nat, gone: set<PrKey>)
    requires |open| > threshold && forall k :: k in gone <==> k in KeysOf(before) && k !in open
    ensures gone == KeysOf(before) - KeysOf(PrunedStore(before, open, threshold))
  {
    forall k | k in KeysOf(before) ensures k in open <==> k in KeysOf(PrunedStore(before, open, threshold)) {
      PruneHitsIff(before, open, threshold, k);
      assert k.number in StillOpen(before[k.repo], k.repo, open) <==> k in open;
    }
  }

  /** Every repository but those left has been dealt with. */
  ghost predicate Turned(before: Store, now: Store, left: set<Repo>, open: set<PrKey>) {
    && (forall repo :: repo in now <==> repo in before && (repo in left || StillOpen(before[repo], repo, open) != map[]))
    && (forall repo :: repo in now ==> now[repo] == if repo in left then before[repo] else StillOpen(before[repo], repo, open))
  }

  lemma {:induction false} AllTurned(before: Store, now: Store, open: set<PrKey>, threshold: nat)
    requires Turned(before, now, {}, open) && |open| > threshold
    ensures now == PrunedStore(before, open, threshold)
  {
  }

  /** The pull requests that went with the repositories dealt with, and with one more. */
  lemma {:induction false} GoneToo(before: Store, left: set<Repo>, open: set<PrKey>, repo: Repo, gone: set<PrKey>, count: nat)
    returns (more: set<PrKey>)
    requires repo in left && left <= before.Keys && count == |before[repo]| - |StillOpen(before[repo], repo, open)|
    requires forall k :: k in gone <==> k in KeysOf(before) && k.repo !in left && k !in open
    ensures |more| == |gone| + count && forall k :: k in more <==> k in KeysOf(before) && k.repo !in left - {repo} && k !in open
  {
    ClosedAreCounted(before[repo], repo, open);
    var closed := Closed(before[repo], repo, open);
    more := gone + closed;
    assert gone !! closed;
    assert |more| == |gone| + |closed|;
  }

  lemma TurnOne(before: Store, now: Store, left: set<Repo>, open: set<PrKey>, repo: Repo)
    requires left <= before.Keys && Turned(before, now, left, open) && repo in left
    ensures repo in now && now[repo] == before[repo]
    ensures var prs := StillOpen(now[repo], repo, open);
            Turned(before, if prs == map[] then now - {repo} else now[repo := prs], left - {repo}, open)
  {
  }

  /** What a prune leaves of any pull request's record: everything, or, off a believed list, nothing. */
  lemma PruneHitsIff(state: Store, open: set<PrKey>, threshold: nat, key: PrKey)
    ensures Held(PrunedStore(state, open, threshold), key) ==
            if |open| > threshold && key !in open then Nothing else Held(state, key)
  {
    if |open| > threshold && key.repo in state && key.number in state[key.repo] {
      assert key.number in StillOpen(state[key.repo], key.repo, open) <==> key in open;
    }
  }

  const PAGE := 20
  const PRUNE_THRESHOLD := 5

  /** What the scan finds: the first page of each repository's open pull requests, as GitHub orders them, and nothing
      for a repository whose answer was no list. */
  function Scanned(replies: map<Repo, Option<seq<nat>>>): set<PrKey> {
    set repo, i | repo in replies && replies[repo].Some? && 0 <= i < |replies[repo].value| && i < PAGE
      :: PrKey(repo, replies[repo].value[i])
  }

  /** When a tick loses the record of a pull request that is open: the scan found enough others to be believed, and this
      one was behind the first page, or its repository did not answer with a list. For the record that is Pruned. */
  lemma OpenRecordIsLostIff(state: Store, replies: map<Repo, Option<seq<nat>>>, key: PrKey)
    requires Held(state, key) != Nothing
    ensures var after := Held(PrunedStore(state, Scanned(replies), PRUNE_THRESHOLD), key);
            && (after == Nothing <==>
                  && |Scanned(replies)| > 5
                  && !(key.repo in replies && replies[key.repo].Some?
                       && exists i :: 0 <= i < |replies[key.repo].value| && i < 20 && replies[key.repo].value[i] == key.number))
            && EntryOf(after) == if after == Nothing then Apply(EntryOf(Held(state, key)), Pruned) else EntryOf(Held(state, key))
  {
    PruneHitsIff(state, Scanned(replies), PRUNE_THRESHOLD, key);
  }
}
