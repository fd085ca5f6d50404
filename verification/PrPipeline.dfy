/** One pull request's turn, as the effects it leaves behind. */
module PrSpec {
  import opened Text
  import opened FixState

  /** A gate's verdict on a head: green, red, still running, or not to be read. */
  datatype Ci = Green | Red | Running | Unreadable

  /** GitHub's answer about mergeability, which it may still be computing. */
  datatype Tri = Yes | No | Computing

  datatype Validity = Still | Gone | Moved(head: Sha, mergeable: Tri)

  /** How an agent run ends, and what its summary says of a failure. */
  datatype AgentEnd = Landed(commits: nat, tip: Option<Sha>) | OutOfBudget | Transient | Permanent(why: string) | Failing

  /** Whatever the world answers to one request; each request reads its own fields. */
  datatype Answer = Answer(ci: Ci, suiteRead: bool, suiteSeen: bool, late: bool, head: Option<Sha>, mergeable: Tri,
                           validity: Validity, agent: AgentEnd, found: bool, marker: bool, safe: bool,
                           managers: nat, repaired: bool, badBump: Option<string>, stale: bool, status: int)

  /** The answer to the request that effect `n` records. */
  function At(world: nat -> Answer, n: nat): Answer {
    world(n)
  }

  datatype Effect =
    | CiRead(head: Sha, ci: Ci)
    | SuiteRead(head: Sha)
    | HeadRead(mergeable: Tri)
    | ValidityRead
    | ReviewSought
    | ReviewTriggered
    | Judged(safe: bool)
    | ManagersRead
    | LockfileRepair
    | RegistryRead
    | AgentRun(head: Sha)
    | Approval
    | MergePut(head: Sha, asOwner: bool, status: int)
    | Closing

  /** The agent runs among the first `n` effects. */
  function AgentRuns(trace: seq<Effect>, n: nat): nat
    requires n <= |trace|
  {
    if n == 0 then 0 else AgentRuns(trace, n - 1) + (if trace[n - 1].AgentRun? then 1 else 0)
  }

  lemma {:induction false} AgentRunsPrefix(trace: seq<Effect>, more: seq<Effect>, n: nat)
    requires n <= |trace| && trace <= more
    ensures AgentRuns(more, n) == AgentRuns(trace, n)
  {
    if n > 0 {
      AgentRunsPrefix(trace, more, n - 1);
    }
  }

  predicate ChangesHead(e: Effect) {
    e.AgentRun? || e.LockfileRepair?
  }

  /** CI was read green on `head` by effect `a`, nothing has touched the branch since, and unless the author is
      dependabot a safe verdict came before, as effect `r`. */
  ghost predicate Cleared(trace: seq<Effect>, n: nat, dependabot: bool, head: Sha, r: nat, a: nat) {
    && a < n <= |trace| && trace[a] == CiRead(head, Green)
    && (forall k :: a < k < n ==> !ChangesHead(trace[k]))
    && (dependabot || (r < a && trace[r] == Judged(true)))
  }

  /** After that, effect `b` found the pull request mergeable, and effect `c` approved it. */
  ghost predicate Endorsed(trace: seq<Effect>, n: nat, a: nat, b: nat, c: nat) {
    a < b < c < n <= |trace| && trace[b] == HeadRead(Yes) && trace[c] == Approval
  }

  ghost predicate Guarded(trace: seq<Effect>, i: nat, dependabot: bool)
    requires i < |trace| && trace[i].MergePut?
  {
    exists r: nat, a: nat, b: nat, c: nat :: Cleared(trace, i, dependabot, trace[i].head, r, a) && Endorsed(trace, i, a, b, c)
  }

  /** Every merge among the first `n` effects was guarded. */
  ghost predicate AllGuarded(trace: seq<Effect>, n: nat, dependabot: bool)
    requires n <= |trace|
  {
    forall i {:trigger Guarded(trace, i, dependabot)} :: 0 <= i < n && trace[i].MergePut? ==> Guarded(trace, i, dependabot)
  }

  lemma {:induction false} GuardStays(trace: seq<Effect>, more: seq<Effect>, n: nat, dependabot: bool)
    requires n <= |trace| && trace <= more && AllGuarded(trace, n, dependabot)
    ensures AllGuarded(more, n, dependabot)
  {
    forall i | 0 <= i < n && more[i].MergePut? ensures Guarded(more, i, dependabot) {
      assert trace[i] == more[i] && Guarded(trace, i, dependabot);
      var r: nat, a: nat, b: nat, c: nat :| Cleared(trace, i, dependabot, trace[i].head, r, a) && Endorsed(trace, i, a, b, c);
      assert Cleared(more, i, dependabot, more[i].head, r, a) && Endorsed(more, i, a, b, c);
    }
  }

  /** So behind each merge of a head stand, in this order, a green read of that head's CI, a re-read that found it mergeable,
      and the approval, with nothing that touches the branch since the first; and before, but for dependabot, a safe
      verdict. */
  lemma {:induction false} EveryMergeIsGuarded(trace: seq<Effect>, n: nat, dependabot: bool, i: nat) returns (r: nat, a: nat, b: nat, c: nat)
    requires i < n <= |trace| && trace[i].MergePut? && AllGuarded(trace, n, dependabot)
    ensures a < b < c < i && trace[a] == CiRead(trace[i].head, Green) && trace[b] == HeadRead(Yes) && trace[c] == Approval
    ensures forall k :: a < k < i ==> !trace[k].AgentRun? && !trace[k].LockfileRepair?
    ensures !dependabot ==> r < a && trace[r] == Judged(true)
  {
    assert Guarded(trace, i, dependabot);
    r, a, b, c :| Cleared(trace, i, dependabot, trace[i].head, r, a) && Endorsed(trace, i, a, b, c);
    assert forall k :: a < k < i ==> !ChangesHead(trace[k]);
  }

  /** The last effect is a merge that went through. */
  predicate EndsMerged(trace: seq<Effect>) {
    trace != [] && trace[|trace| - 1].MergePut? && trace[|trace| - 1].status == 200
  }

  /** The owner's token was tried just before, and refused. */
  predicate OwnerRefused(trace: seq<Effect>, n: nat)
    requires n <= |trace|
  {
    n > 0 && trace[n - 1].MergePut? && trace[n - 1].asOwner && (trace[n - 1].status == 401 || trace[n - 1].status == 403)
  }

  /** A merge through the App happens only without an owner token, or right after the owner's was refused. */
  predicate AppIsFallback(trace: seq<Effect>, n: nat, hasOwnerToken: bool)
    requires n <= |trace|
  {
    forall i {:trigger OwnerRefused(trace, i)} ::
      0 <= i < n && trace[i].MergePut? && !trace[i].asOwner && hasOwnerToken ==> OwnerRefused(trace, i)
  }

  lemma {:induction false} FallbackStays(trace: seq<Effect>, more: seq<Effect>, n: nat, hasOwnerToken: bool)
    requires n <= |trace| && trace <= more && AppIsFallback(trace, n, hasOwnerToken)
    ensures AppIsFallback(more, n, hasOwnerToken)
  {
    forall i | 0 <= i < n && more[i].MergePut? && !more[i].asOwner && hasOwnerToken ensures OwnerRefused(more, i) {
      assert trace[i] == more[i] && OwnerRefused(trace, i);
    }
  }
}

/** What a turn comes to, told from the answers alone: `n` is the place of the first answer in question. */
module PrOutcomes {
  import opened Text
  import opened FixState
  import opened PrSpec

  /** A read of CI that insists on the real suite. */
  function SuiteCi(world: nat -> Answer, n: nat): Ci {
    if At(world, n).ci.Green? && At(world, n + 1).suiteRead && !At(world, n + 1).suiteSeen then Unreadable else At(world, n).ci
  }

  predicate Refused(status: int) {
    status == 401 || status == 403
  }

  /** The status that a merge comes back with in the end. */
  function MergeStatus(world: nat -> Answer, n: nat, hasOwnerToken: bool): int {
    if hasOwnerToken && Refused(At(world, n).status) then At(world, n + 1).status else At(world, n).status
  }

  function Puts(world: nat -> Answer, n: nat, hasOwnerToken: bool, head: Sha): seq<Effect> {
    if hasOwnerToken && Refused(At(world, n).status)
    then [MergePut(head, true, At(world, n).status), MergePut(head, false, At(world, n + 1).status)]
    else [MergePut(head, hasOwnerToken, At(world, n).status)]
  }

  /** GitHub answers the merge with 200: to the owner, or to the App where there is no owner or he was refused. */
  predicate MergesAt(world: nat -> Answer, n: nat, hasOwnerToken: bool) {
    if hasOwnerToken then At(world, n).status == 200 || (Refused(At(world, n).status) && At(world, n + 1).status == 200)
    else At(world, n).status == 200
  }

  /** What a head that moved says of mergeability, and one that did not. */
  function AdoptedMergeable(a: Answer, head: Sha, mergeable: Tri): Tri {
    if a.head.Some? && a.head.value != head then a.mergeable else mergeable
  }

  /** The first agent run lands commits, and CI reads green on them at once. */
  predicate FixedAtOnce(world: nat -> Answer, n: nat) {
    At(world, n).validity.Still? && Pushes(At(world, n + 1).agent) && SuiteCi(world, n + 3).Green?
  }

  /** The first `k` reads found CI running, with time left. */
  predicate Waited(world: nat -> Answer, n: nat, k: nat) {
    k == 0 || (Waited(world, n, k - 1) && At(world, n + k - 1).ci.Running? && !At(world, n + k).late)
  }

  /** And the next one is the last. */
  predicate Polled(world: nat -> Answer, n: nat, k: nat) {
    k <= 30 && Waited(world, n, k) && (At(world, n + k).ci.Running? ==> At(world, n + k + 1).late || k == 30)
  }

  lemma {:induction false} FirstIsRunning(world: nat -> Answer, n: nat, k: nat)
    requires k > 0 && Waited(world, n, k)
    ensures At(world, n).ci.Running?
  {
    if k > 1 {
      FirstIsRunning(world, n, k - 1);
    }
  }

  /** How many effects that leaves. */
  function Polls(world: nat -> Answer, n: nat, k: nat): nat {
    k + if At(world, n + k).ci.Green? then 2 else 1
  }

  predicate Pushes(end: AgentEnd) {
    end.Landed? && end.commits > 0
  }

  /** What a pass of the fix loop comes to after its agent run, answered at `n`. */
  predicate RunComesTo(world: nat -> Answer, n: nat, k: nat, lastOne: bool, again: bool, length: nat) {
    var end := At(world, n).agent;
    if !end.Landed? then !again && length == n + 1
    else if end.commits == 0 then !again && length == n + 3
    else Polled(world, n + 2, k) && length == n + 2 + Polls(world, n + 2, k) && (again <==> SuiteCi(world, n + 2 + k).Red? && !lastOne)
  }

  lemma {:induction false} FixedAtOnceEnds(world: nat -> Answer, n: nat, k: nat, lastOne: bool, again: bool, length: nat)
    requires FixedAtOnce(world, n) && RunComesTo(world, n + 1, k, lastOne, again, length)
    ensures !again && length == n + 5
  {
    if k > 0 {
      FirstIsRunning(world, n + 3, k);
    }
  }

  /** The first `k` repairs came to nothing. */
  predicate NoneRepaired(world: nat -> Answer, n: nat, k: nat) {
    k == 0 || (NoneRepaired(world, n, k - 1) && !At(world, n + k - 1).repaired)
  }

  /** One manager after another is tried from `n` on, until the first success, which is read back. */
  predicate Tried(world: nat -> Answer, n: nat, dry: bool, candidates: nat, tries: nat, length: nat) {
    if dry || candidates == 0 then length == n
    else
      && 1 <= tries <= candidates && NoneRepaired(world, n, tries - 1)
      && (if At(world, n + tries - 1).repaired then length == n + tries + 1 else tries == candidates && length == n + tries)
  }

  function TriedHead(world: nat -> Answer, n: nat, dry: bool, candidates: nat, tries: nat, head: Sha): Sha {
    if !dry && 1 <= tries <= candidates && At(world, n + tries - 1).repaired && At(world, n + tries).head.Some?
    then At(world, n + tries).head.value else head
  }

  /** The lockfile repairs of a pull request whose CI is not green. */
  predicate Repairs(world: nat -> Answer, n: nat, dry: bool, tries: nat, length: nat) {
    if At(world, n).ci.Green? then length == n + 1 else Tried(world, n + 2, dry, At(world, n + 1).managers, tries, length)
  }

  function RepairedHead(world: nat -> Answer, n: nat, dry: bool, tries: nat, head: Sha): Sha {
    if At(world, n).ci.Green? then head else TriedHead(world, n + 2, dry, At(world, n + 1).managers, tries, head)
  }

  /** Where a fix loop that begins at `at` leaves the gates: the agent runs exactly if the pull request is still valid, and
      if its first run turns CI green the gates are next. */
  ghost predicate FixComesTo(world: nat -> Answer, at: nat, head: Sha, before: Tri, n: nat, m: Tri, trace: seq<Effect>) {
    && (At(world, at).validity.Still? ==> AgentRuns(trace, |trace|) > 0)
    && (FixedAtOnce(world, at) ==> n == at + 5 && m == AdoptedMergeable(At(world, at + 2), head, before))
  }

  /** Behind the fix loop: the verdict is safe, CI green, and the pull request mergeable, then and just before the merge,
      which goes through. */
  predicate GatesPass(world: nat -> Answer, n: nat, hasOwnerToken: bool, mergeable: Tri) {
    && At(world, n).safe && At(world, n + 1).ci.Green? && !mergeable.No? && At(world, n + 2).mergeable.Yes?
    && MergesAt(world, n + 4, hasOwnerToken)
  }

  /** What the record holds once a conflict run has ended. */
  predicate ConflictRecorded(e: Entry, after: Entry, head: Sha, end: AgentEnd, unresolvable: string) {
    match end
    case Landed(_, tip) => AlreadyFixed(after, if tip.Some? then tip.value else head) && after.skipReason.None?
    case OutOfBudget => BudgetCount(after, head) == BudgetCount(e, head) + 1 && after.sha == e.sha && after.skipReason == e.skipReason
    case Transient => AttemptCount(after, head) == AttemptCount(e, head) + 1 && after.sha == e.sha && after.skipReason == e.skipReason
    case Permanent(why) => SkipReason(after, head) == Some(why) && WasNotified(after, head)
    case Failing => SkipReason(after, head) == Some(unresolvable) && WasNotified(after, head)
  }

  /** What the conflict resolver leaves, where it may run at all: nothing of a pull request that changed, else the run and
      its record. */
  predicate ConflictLeaves(mayRun: bool, recheck: bool, head: Sha, world: nat -> Answer, before: seq<Effect>, after: seq<Effect>,
                           e: Entry, r: Entry, unresolvable: string) {
    if !mayRun then after == before && r == e
    else if !At(world, |before|).validity.Still? then after == before + [ValidityRead] && r == e
    else
      var end := At(world, |before| + 1).agent;
      && after == before + [ValidityRead, AgentRun(head)]
                  + (if end.Landed? && recheck then [HeadRead(At(world, |before| + 2).mergeable)] else [])
      && ConflictRecorded(e, r, head, end, unresolvable)
  }

  /** One failure more is counted at the head, and nothing else is written. */
  predicate Counted(e: Entry, r: Entry, head: Sha) {
    AttemptCount(r, head) == AttemptCount(e, head) + 1 && r == e.(attempts := r.attempts, attemptSha := Some(head))
  }

  /** What a refused merge leaves: a 405 is read again and counted, a 409 is a conflict, any other refusal is counted, and
      an outage leaves nothing. */
  predicate RefusalLeaves(status: int, mayRun: bool, head: Sha, world: nat -> Answer, before: seq<Effect>, after: seq<Effect>,
                          e: Entry, r: Entry, unresolvable: string) {
    if status == 405 then after == before + [HeadRead(At(world, |before|).mergeable)] && Counted(e, r, head)
    else if status == 409 then ConflictLeaves(mayRun, false, head, world, before, after, e, r, unresolvable)
    else after == before && if status == 0 || status >= 500 then r == e else Counted(e, r, head)
  }

  /** What the merge leaves of an approved pull request. */
  predicate MergeLeaves(mayRun: bool, hasOwnerToken: bool, head: Sha, world: nat -> Answer, before: seq<Effect>, after: seq<Effect>,
                        e: Entry, r: Entry, unresolvable: string) {
    var put, status := before + Puts(world, |before|, hasOwnerToken, head), MergeStatus(world, |before|, hasOwnerToken);
    if status == 200 then after == put && r == e
    else RefusalLeaves(status, mayRun, head, world, put, after, e, r, unresolvable)
  }

  /** What the mergeable re-read leaves when it is no yes. */
  predicate BlockLeaves(dry: bool, head: Sha, world: nat -> Answer, before: seq<Effect>, after: seq<Effect>, e: Entry, r: Entry,
                        unresolvable: string) {
    if At(world, |before|).mergeable.No?
    then ConflictLeaves(!AlreadyFixed(e, head) && !dry, true, head, world, before + [HeadRead(No)], after, e, r, unresolvable)
    else after == before + [HeadRead(Computing)] && Counted(e, r, head)
  }

  /** What the merge step leaves of any. */
  predicate MergeStepLeaves(already: bool, dry: bool, hasOwnerToken: bool, head: Sha, world: nat -> Answer,
                            before: seq<Effect>, after: seq<Effect>, e: Entry, r: Entry, unresolvable: string) {
    if !At(world, |before|).mergeable.Yes? then BlockLeaves(dry, head, world, before, after, e, r, unresolvable)
    else if dry then after == before + [HeadRead(Yes)] && r == e
    else MergeLeaves(!already, hasOwnerToken, head, world, before + [HeadRead(Yes)] + [Approval], after, e, r, unresolvable)
  }

  lemma {:induction false} GatesPassAt(world: nat -> Answer, n: nat, at: nat, hasOwnerToken: bool, m: Tri)
    requires at == n + 2
    ensures GatesPass(world, n, hasOwnerToken, m) <==>
            At(world, n).safe && At(world, n + 1).ci.Green? && !m.No? && At(world, at).mergeable.Yes? && MergesAt(world, at + 2, hasOwnerToken)
  {
  }

  lemma {:induction false} StatusIs(world: nat -> Answer, n: nat, hasOwnerToken: bool)
    ensures MergesAt(world, n, hasOwnerToken) <==> MergeStatus(world, n, hasOwnerToken) == 200
  {
  }
}

/** The pipeline, step by step, on one pull request's mutable context. */
module PrPipelines {
  import opened Text
  import opened FixState
  import opened PrSpec
  import opened PrOutcomes

  const UNRESOLVABLE_CONFLICT := "Unresolvable merge conflict (Claude Code made no push)"
  const MAX_FIX_ITERATIONS := 3
  const POLL_SECONDS := 20
  const WAIT_SECONDS := 600

  /** The states of the record between the writes made so far. */
  ghost predicate Booked(first: Entry, ops: seq<Op>, states: seq<Entry>, last: Entry) {
    && |states| == |ops| + 1 && states[0] == first && states[|ops|] == last
    && forall i {:trigger ops[i]} :: 0 <= i < |ops| ==> states[i + 1] == Apply(states[i], ops[i]) && Offered(states[i], ops[i])
  }

  lemma {:induction false} BookedMeans(first: Entry, ops: seq<Op>, states: seq<Entry>, last: Entry, n: nat)
    requires Booked(first, ops, states, last) && n <= |ops|
    ensures After(first, ops, n) == states[n] && AllOffered(first, ops, n)
  {
    if n > 0 {
      BookedMeans(first, ops, states, last, n - 1);
      assert Offered(states[n - 1], ops[n - 1]);
    }
  }

  /** What a failed run of the fix loop leaves in the record. */
  function AfterFailedFix(e: Entry, head: Sha, end: AgentEnd): Entry {
    match end
    case OutOfBudget => BumpBudget(e, head)
    case Permanent(why) => MarkNotified(MarkSkip(e, head, why))
    case Transient => BumpAttempt(e, head)
    case _ => e
  }

  /** What a conflict run leaves in the record: every failure that is not the moment's pins the head. */
  function AfterConflictRun(e: Entry, head: Sha, end: AgentEnd): Entry {
    match end
    case Landed(_, tip) => MarkFixed(e, if tip.Some? then tip.value else head, 0)
    case Failing => MarkNotified(MarkSkip(e, head, UNRESOLVABLE_CONFLICT))
    case _ => AfterFailedFix(e, head, end)
  }

  /** So the next turn at that head finds a reason to skip it. */
  lemma {:induction false} FailedConflictPins(e: Entry, head: Sha)
    ensures var r := AfterConflictRun(e, head, Failing);
            r.sha == Some(head) && r.skipReason != None && r.skipReason != Some("") && r.notified
  {
    assert |UNRESOLVABLE_CONFLICT| > 0;
  }

  /** Everything goes well but the agent's run. */
  predicate Jams(a: Answer) {
    a.found && a.safe && a.ci.Green? && a.validity.Still? && a.agent.OutOfBudget?
  }

  /** The pull request is still valid at `n`, and the run that follows exhausts its budget. */
  predicate Exhausts(world: nat -> Answer, n: nat) {
    At(world, n).validity.Still? && At(world, n + 1).agent.OutOfBudget?
  }

  /** So do the gates and the conflict run that begin at `n`. */
  predicate JamsFrom(world: nat -> Answer, n: nat) {
    At(world, n).safe && At(world, n + 1).ci.Green? && Exhausts(world, n + 2)
  }

  lemma {:induction false} JamsOn(world: nat -> Answer, n: nat, at: nat)
    requires at == n + 2
    ensures JamsFrom(world, n) <==> At(world, n).safe && At(world, n + 1).ci.Green? && Exhausts(world, at)
  {
  }

  class PrTurn {
    const dependabot: bool
    const trivial: bool
    const hasOwnerToken: bool
    const dry: bool
    const world: nat -> Answer
    var headSha: Sha
    var mergeable: Tri
    var entry: Entry
    var noCodeReview: bool
    var trace: seq<Effect>
    var merged: bool
    var skipped: bool
    ghost var ops: seq<Op>
    ghost var states: seq<Entry>
    ghost const entry0: Entry

    constructor (headSha: Sha, mergeable: Tri, entry: Entry, dependabot: bool, trivial: bool, hasOwnerToken: bool, dry: bool,
                 world: nat -> Answer)
      ensures Valid() && trace == [] && ops == [] && this.entry == entry0 == entry && this.dry == dry && !merged
      ensures this.dependabot == dependabot && this.trivial == trivial && this.hasOwnerToken == hasOwnerToken && this.world == world
      ensures this.headSha == headSha && this.mergeable == mergeable && !noCodeReview
    {
      this.headSha, this.mergeable, this.entry := headSha, mergeable, entry;
      this.dependabot, this.trivial, this.hasOwnerToken, this.dry, this.world := dependabot, trivial, hasOwnerToken, dry, world;
      noCodeReview, trace, merged, skipped := false, [], false, false;
      ops, states := [], [entry];
      entry0 := entry;
    }

    /** Every merge so far was guarded, and every write to the record is accounted for. */
    ghost predicate Valid()
      reads this
    {
      && AllGuarded(trace, |trace|, dependabot) && AppIsFallback(trace, |trace|, hasOwnerToken)
      && Booked(entry0, ops, states, entry)
    }

    /** The agent runs so far. */
    ghost function Runs(): nat
      reads this
    {
      AgentRuns(trace, |trace|)
    }

    /** The next answer, to the request that `e` will record. */
    function Next(): Answer
      reads this
    {
      At(world, |trace|)
    }

    method Emit(e: Effect)
      requires Valid() && !e.MergePut?
      modifies this`trace
      ensures Valid() && trace == old(trace) + [e] && Runs() == old(Runs()) + (if e.AgentRun? then 1 else 0)
    {
      GuardStays(trace, trace + [e], |trace|, dependabot);
      FallbackStays(trace, trace + [e], |trace|, hasOwnerToken);
      AgentRunsPrefix(trace, trace + [e], |trace|);
      trace := trace + [e];
    }

    method Write(op: Op)
      requires Valid() && Offered(entry, op)
      modifies this`entry, this`ops, this`states
      ensures Valid() && entry == Apply(old(entry), op) && ops == old(ops) + [op]
    {
      entry := Apply(entry, op);
      ops, states := ops + [op], states + [entry];
    }

    method ReadCi() returns (ci: Ci)
      requires Valid()
      modifies this`trace
      ensures Valid() && trace == old(trace) + [CiRead(headSha, ci)] && ci == At(world, |old(trace)|).ci && Runs() == old(Runs())
    {
      ci := Next().ci;
      Emit(CiRead(headSha, ci));
    }

    /** checkCiWithSuiteRequirement: a green read does not count when the head's checks could be read again and the real
        suite is not among them; when they could not, it does. */
    method ReadCiOfSuite() returns (ci: Ci)
      requires Valid()
      modifies this`trace
      ensures Valid() && old(trace) <= trace && Runs() == old(Runs())
      ensures ci.Green? <==>
                && At(world, |old(trace)|).ci.Green?
                && (At(world, |old(trace)| + 1).suiteRead ==> At(world, |old(trace)| + 1).suiteSeen)
      ensures ci == SuiteCi(world, |old(trace)|)
      ensures |trace| == |old(trace)| + (if At(world, |old(trace)|).ci.Green? then 2 else 1)
      ensures ci.Green? ==> trace == old(trace) + [CiRead(headSha, Green), SuiteRead(headSha)]
    {
      ci := ReadCi();
      if !ci.Green? {
        return;
      }
      var a := Next();
      Emit(SuiteRead(headSha));
      if a.suiteRead && !a.suiteSeen {
        ci := Unreadable;
      }
    }

    /** waitForCiSettled: each wait lasts at least the polling interval, so the deadline comes. */
    method WaitForCiSettled() returns (ci: Ci, timedOut: bool, ghost k: nat)
      requires Valid()
      modifies this`trace
      ensures Valid() && old(trace) <= trace && Runs() == old(Runs())
      ensures timedOut <==> ci.Running?
      ensures Polled(world, |old(trace)|, k) && ci == SuiteCi(world, |old(trace)| + k)
      ensures |trace| == |old(trace)| + Polls(world, |old(trace)|, k)
    {
      var polls := 0;
      k := 0;
      while true
        invariant Valid() && old(trace) <= trace && Runs() == old(Runs()) && 0 <= polls <= 30
        invariant k == polls && |trace| == |old(trace)| + k
        invariant Waited(world, |old(trace)|, k)
        decreases 31 - polls
      {
        polls := polls + 1;
        ci := ReadCiOfSuite();
        if !ci.Running? {
          return ci, false, k;
        }
        if Next().late || (polls - 1) * POLL_SECONDS >= WAIT_SECONDS {
          return ci, true, k;
        }
        k := k + 1;
      }
    }

    method RefetchHead() returns (a: Answer)
      requires Valid()
      modifies this`trace
      ensures Valid() && trace == old(trace) + [HeadRead(a.mergeable)] && a == At(world, |old(trace)|) && Runs() == old(Runs())
    {
      a := Next();
      Emit(HeadRead(a.mergeable));
    }

    /** Adopts a head that moved. */
    method Adopt(a: Answer, withMergeable: bool)
      modifies this`headSha, this`mergeable
      ensures headSha == if a.head.Some? then a.head.value else old(headSha)
      ensures mergeable == if withMergeable && a.head.Some? && a.head.value != old(headSha) then a.mergeable else old(mergeable)
    {
      if a.head.Some? && a.head.value != headSha {
        headSha := a.head.value;
        if withMergeable {
          mergeable := a.mergeable;
        }
      }
    }

    method NotifySkipOnce()
      requires Valid()
      modifies this`entry, this`ops, this`states
      ensures Valid() && entry == MarkNotified(old(entry))
    {
      Write(Announced(headSha));
    }

    method StepLockPrefix() returns (ghost tries: nat)
      requires Valid()
      modifies this`trace, this`headSha, this`mergeable
      ensures Valid() && old(trace) <= trace && Runs() == old(Runs())
      ensures old(trace) + [CiRead(old(headSha), At(world, |old(trace)|).ci)] <= trace
      ensures Repairs(world, |old(trace)|, dry, tries, |trace|)
      ensures headSha == RepairedHead(world, |old(trace)|, dry, tries, old(headSha)) && mergeable == old(mergeable)
    {
      tries := 0;
      var early := ReadCi();
      if early.Green? {
        return;
      }
      var candidates := Next().managers;
      Emit(ManagersRead);
      tries := RepairLocks(candidates);
    }

    method RepairLocks(candidates: nat) returns (ghost tries: nat)
      requires Valid()
      modifies this`trace, this`headSha, this`mergeable
      ensures Valid() && old(trace) <= trace && Runs() == old(Runs()) && mergeable == old(mergeable)
      ensures Tried(world, |old(trace)|, dry, candidates, tries, |trace|)
      ensures headSha == TriedHead(world, |old(trace)|, dry, candidates, tries, old(headSha))
    {
      tries := 0;
      var i := 0;
      while i < candidates
        invariant Valid() && old(trace) <= trace && Runs() == old(Runs()) && mergeable == old(mergeable) && headSha == old(headSha)
        invariant i <= candidates && |trace| == |old(trace)| + i && NoneRepaired(world, |old(trace)|, i)
        invariant i > 0 ==> !dry && tries == i
      {
        i := i + 1;
        if dry {
          return;
        }
        tries := i;
        var done := RepairOne();
        if done {
          return;
        }
      }
    }

    /** One manager's repair, and the head it leaves. */
    method RepairOne() returns (done: bool)
      requires Valid()
      modifies this`trace, this`headSha, this`mergeable
      ensures Valid() && old(trace) <= trace && Runs() == old(Runs()) && mergeable == old(mergeable)
      ensures done == At(world, |old(trace)|).repaired
      ensures |trace| == |old(trace)| + if done then 2 else 1
      ensures headSha == if done && At(world, |old(trace)| + 1).head.Some? then At(world, |old(trace)| + 1).head.value else old(headSha)
    {
      done := Next().repaired;
      Emit(LockfileRepair);
      if done {
        var a := RefetchHead();
        Adopt(a, false);
      }
    }

    /** reportAiFixFailure */
    method ReportAiFixFailure(end: AgentEnd)
      requires Valid() && !end.Landed? && (end.OutOfBudget? ==> BudgetCount(entry, headSha) < CEILING)
      modifies this`entry, this`ops, this`states
      ensures Valid()
      ensures entry == AfterFailedFix(old(entry), headSha, end)
      ensures end.OutOfBudget? ==> ops == old(ops) + [Exhausted(headSha, true)]
    {
      match end {
        case OutOfBudget => Write(Exhausted(headSha, true));
        case Permanent(why) =>
          Write(Skipped(headSha, why));
          NotifySkipOnce();
        case Transient => Write(Failed(headSha));
        case _ =>
      }
    }

    method StepAiFix(already: bool) returns (ghost from: nat, ghost head: Sha)
      requires Valid()
      modifies this`trace, this`headSha, this`mergeable, this`entry, this`ops, this`states
      ensures Valid() && old(trace) <= trace && Runs() <= old(Runs()) + MAX_FIX_ITERATIONS
      ensures already || dry || noCodeReview ==> Runs() == old(Runs()) && entry == old(entry)
      ensures already || noCodeReview ==> trace == old(trace) && headSha == old(headSha) && mergeable == old(mergeable) && ops == old(ops)
      ensures !already && !noCodeReview && !trivial ==> from == |old(trace)| && head == old(headSha)
      ensures !already && !noCodeReview && trivial ==>
                from > |old(trace)| && old(trace) + [CiRead(old(headSha), At(world, |old(trace)|).ci)] <= trace
      ensures !already && !dry && !noCodeReview && BudgetCount(old(entry), head) < CEILING ==>
                && (Runs() > old(Runs()) <==> At(world, from).validity.Still?)
                && (FixedAtOnce(world, from) ==>
                      |trace| == from + 5 && Runs() == old(Runs()) + 1 && mergeable == AdoptedMergeable(At(world, from + 2), head, old(mergeable)))
      ensures !already && !noCodeReview && (dry || BudgetCount(old(entry), head) >= CEILING) ==>
                |trace| == from && headSha == head && mergeable == old(mergeable) && entry == old(entry) && ops == old(ops)
    {
      from, head := |trace|, headSha;
      if noCodeReview {
        return;
      }
      if trivial && !already {
        ghost var tries := StepLockPrefix();
        from, head := |trace|, headSha;
      }
      if already {
        return;
      }
      OfferFix();
    }

    /** The fix loop, unless the budget is spent at this head. */
    method OfferFix()
      requires Valid()
      modifies this`trace, this`headSha, this`mergeable, this`entry, this`ops, this`states
      ensures Valid() && old(trace) <= trace && Runs() <= old(Runs()) + MAX_FIX_ITERATIONS
      ensures dry || BudgetCount(old(entry), old(headSha)) >= CEILING ==>
                trace == old(trace) && headSha == old(headSha) && mergeable == old(mergeable) && entry == old(entry) && ops == old(ops)
      ensures !dry && BudgetCount(old(entry), old(headSha)) < CEILING ==>
                && (Runs() > old(Runs()) <==> At(world, |old(trace)|).validity.Still?)
                && (FixedAtOnce(world, |old(trace)|) ==>
                      |trace| == |old(trace)| + 5 && Runs() == old(Runs()) + 1
                      && mergeable == AdoptedMergeable(At(world, |old(trace)| + 2), old(headSha), old(mergeable)))
    {
      if BudgetCount(entry, headSha) >= CEILING {
        return;
      }
      if dry {
        return;
      }
      FixLoop();
    }

    /** The agent runs until CI reads green, three times at most. */
    method FixLoop()
      requires Valid() && BudgetCount(entry, headSha) < CEILING
      modifies this`trace, this`headSha, this`mergeable, this`entry, this`ops, this`states
      ensures Valid() && old(trace) <= trace && Runs() <= old(Runs()) + MAX_FIX_ITERATIONS
      ensures Runs() > old(Runs()) <==> At(world, |old(trace)|).validity.Still?
      ensures FixedAtOnce(world, |old(trace)|) ==>
                |trace| == |old(trace)| + 5 && Runs() == old(Runs()) + 1
                && mergeable == AdoptedMergeable(At(world, |old(trace)| + 2), old(headSha), old(mergeable))
    {
      var iteration := 1;
      ghost var n := |trace|;
      while iteration <= MAX_FIX_ITERATIONS
        invariant Valid() && old(trace) <= trace && 1 <= iteration <= MAX_FIX_ITERATIONS + 1 && Runs() <= old(Runs()) + iteration - 1
        invariant BudgetCount(entry, headSha) < CEILING
        invariant iteration == 1 ==> trace == old(trace) && headSha == old(headSha) && mergeable == old(mergeable)
        invariant iteration > 1 ==> Runs() > old(Runs()) && At(world, n).validity.Still? && !FixedAtOnce(world, n)
      {
        ghost var k;
        var again: bool;
        again, k := FixOnce(iteration);
        FirstPass(world, n, k, iteration, again, |trace|);
        if !again {
          return;
        }
        iteration := iteration + 1;
      }
    }

    static lemma {:induction false} FirstPass(world: nat -> Answer, n: nat, k: nat, iteration: nat, again: bool, length: nat)
      requires iteration == 1 && At(world, n).validity.Still? ==> RunComesTo(world, n + 1, k, false, again, length)
      ensures iteration == 1 && FixedAtOnce(world, n) ==> !again && length == n + 5
    {
      if iteration == 1 && FixedAtOnce(world, n) {
        FixedAtOnceEnds(world, n, k, false, again, length);
      }
    }

    /** One pass of the fix loop: the agent, the record, and the wait for CI on what it pushed. */
    method FixOnce(iteration: nat) returns (again: bool, ghost k: nat)
      requires Valid() && BudgetCount(entry, headSha) < CEILING
      modifies this`trace, this`headSha, this`mergeable, this`entry, this`ops, this`states
      ensures Valid() && old(trace) <= trace && Runs() <= old(Runs()) + 1
      ensures again ==> iteration < MAX_FIX_ITERATIONS && BudgetCount(entry, headSha) < CEILING
      ensures if At(world, |old(trace)|).validity.Still? then Runs() == old(Runs()) + 1 else Runs() == old(Runs()) && entry == old(entry)
      ensures var end := At(world, |old(trace)| + 1).agent;
              At(world, |old(trace)|).validity.Still? ==>
                entry == if end.Landed? then MarkFixed(old(entry), if end.tip.Some? then end.tip.value else old(headSha), end.commits)
                         else AfterFailedFix(old(entry), old(headSha), end)
      ensures !At(world, |old(trace)|).validity.Still? ==> !again && trace == old(trace) + [ValidityRead]
      ensures At(world, |old(trace)|).validity.Gone? ==> headSha == old(headSha) && mergeable == old(mergeable)
      ensures At(world, |old(trace)|).validity.Moved? ==>
                headSha == At(world, |old(trace)|).validity.head && mergeable == At(world, |old(trace)|).validity.mergeable
      ensures At(world, |old(trace)|).validity.Still? ==>
                && RunComesTo(world, |old(trace)| + 1, k, iteration >= MAX_FIX_ITERATIONS, again, |trace|)
                && (Pushes(At(world, |old(trace)| + 1).agent) ==> mergeable == AdoptedMergeable(At(world, |old(trace)| + 2), old(headSha), old(mergeable)))
    {
      k := 0;
      var validity := Next().validity;
      Emit(ValidityRead);
      if !validity.Still? {
        if validity.Moved? {
          headSha, mergeable := validity.head, validity.mergeable;
        }
        return false, k;
      }
      again, k := RunFix(iteration);
    }

    /** The agent's run, and its record. */
    method RunFix(iteration: nat) returns (again: bool, ghost k: nat)
      requires Valid() && BudgetCount(entry, headSha) < CEILING
      modifies this`trace, this`headSha, this`mergeable, this`entry, this`ops, this`states
      ensures Valid() && old(trace) <= trace && Runs() == old(Runs()) + 1
      ensures again ==> iteration < MAX_FIX_ITERATIONS && BudgetCount(entry, headSha) < CEILING
      ensures var end := At(world, |old(trace)|).agent;
              entry == if end.Landed? then MarkFixed(old(entry), if end.tip.Some? then end.tip.value else old(headSha), end.commits)
                       else AfterFailedFix(old(entry), old(headSha), end)
      ensures old(trace) + [AgentRun(old(headSha))] <= trace
      ensures RunComesTo(world, |old(trace)|, k, iteration >= MAX_FIX_ITERATIONS, again, |trace|)
      ensures Pushes(At(world, |old(trace)|).agent) ==> mergeable == AdoptedMergeable(At(world, |old(trace)| + 1), old(headSha), old(mergeable))
    {
      k := 0;
      var end := Next().agent;
      Emit(AgentRun(headSha));
      if !end.Landed? {
        ReportAiFixFailure(end);
        return false, k;
      }
      Write(Fixed(if end.tip.Some? then end.tip.value else headSha, end.commits));
      assert BudgetCount(entry, headSha) == 0 && entry.budgetSha.None?;
      again, k := CheckFix(end.commits, iteration);
    }

    /** What follows a fix that landed: adopt its head and wait for CI, or read the CI it left alone. */
    method CheckFix(commits: nat, iteration: nat) returns (again: bool, ghost k: nat)
      requires Valid()
      modifies this`trace, this`headSha, this`mergeable
      ensures Valid() && old(trace) <= trace && Runs() == old(Runs())
      ensures var n := |old(trace)|;
              if commits == 0 then !again && |trace| == n + 2 && mergeable == old(mergeable)
              else
                && Polled(world, n + 1, k) && |trace| == n + 1 + Polls(world, n + 1, k)
                && (again <==> SuiteCi(world, n + 1 + k).Red? && iteration < MAX_FIX_ITERATIONS)
                && mergeable == AdoptedMergeable(At(world, n), old(headSha), old(mergeable))
      ensures headSha == if At(world, |old(trace)|).head.Some? then At(world, |old(trace)|).head.value else old(headSha)
    {
      k := 0;
      var reread := RefetchHead();
      Adopt(reread, commits > 0);
      if commits == 0 {
        var current := ReadCi();
        return false, k;
      }
      var ci: Ci, timedOut: bool;
      ci, timedOut, k := WaitForCiSettled();
      again := !ci.Green? && !timedOut && !ci.Unreadable? && iteration < MAX_FIX_ITERATIONS;
    }

    /** resolveConflict; it does not look at the budget ceiling. */
    method ResolveConflict(already: bool, recheck: bool)
      requires Valid()
      modifies this`trace, this`entry, this`ops, this`states
      ensures Valid() && old(trace) <= trace && Runs() <= old(Runs()) + 1
      ensures ConflictLeaves(!already && !dry, recheck, headSha, world, old(trace), trace, old(entry), entry, UNRESOLVABLE_CONFLICT)
      ensures already || dry ==> trace == old(trace) && entry == old(entry)
      ensures !already && !dry ==>
                if At(world, |old(trace)|).validity.Still?
                then Runs() == old(Runs()) + 1 && entry == AfterConflictRun(old(entry), headSha, At(world, |old(trace)| + 1).agent)
                else Runs() == old(Runs()) && entry == old(entry)
      ensures !already && !dry && At(world, |old(trace)|).validity.Still? && At(world, |old(trace)| + 1).agent.OutOfBudget? ==>
                ops == old(ops) + [Exhausted(headSha, false)]
    {
      if already || dry {
        return;
      }
      var validity := Next().validity;
      Emit(ValidityRead);
      if !validity.Still? {
        return;
      }
      var end := Next().agent;
      Emit(AgentRun(headSha));
      RecordConflictRun(end, recheck);
    }

    /** The record of a conflict run, and the re-read after one that landed. */
    method RecordConflictRun(end: AgentEnd, recheck: bool)
      requires Valid()
      modifies this`trace, this`entry, this`ops, this`states
      ensures Valid() && old(trace) <= trace && Runs() == old(Runs())
      ensures entry == AfterConflictRun(old(entry), headSha, end)
      ensures ConflictRecorded(old(entry), entry, headSha, end, UNRESOLVABLE_CONFLICT)
      ensures trace == old(trace) + if end.Landed? && recheck then [HeadRead(At(world, |old(trace)|).mergeable)] else []
      ensures end.OutOfBudget? ==> ops == old(ops) + [Exhausted(headSha, false)]
    {
      match end {
        case Landed(commits, tip) =>
          Write(Fixed(if tip.Some? then tip.value else headSha, 0));
          if recheck {
            var reread := RefetchHead();
          }
        case OutOfBudget => Write(Exhausted(headSha, false));
        case Transient => Write(Failed(headSha));
        case Permanent(why) =>
          Write(Skipped(headSha, why));
          NotifySkipOnce();
        case Failing =>
          Write(Skipped(headSha, UNRESOLVABLE_CONFLICT));
          NotifySkipOnce();
      }
    }

    /** stepSafetyAndCi: true when the turn ends here. Otherwise the head is cleared. */
    method StepSafetyAndCi() returns (stops: bool, ghost r: nat, ghost a: nat)
      requires Valid()
      modifies this`trace, this`entry, this`ops, this`states, this`skipped
      ensures Valid() && old(trace) <= trace && Runs() == old(Runs())
      ensures stops <==> !(At(world, |old(trace)|).safe && At(world, |old(trace)| + 1).ci.Green?)
      ensures !stops ==> Cleared(trace, |trace|, false, headSha, r, a) && entry == old(entry) && ops == old(ops)
      ensures !stops ==> |trace| == |old(trace)| + 2
      ensures stops ==> skipped
      ensures !At(world, |old(trace)|).safe ==> trace == old(trace) + [Judged(false)] && Counted(old(entry), entry, headSha)
    {
      r, a := 0, 0;
      var safe := Next().safe;
      Emit(Judged(safe));
      if !safe {
        Write(Failed(headSha));
        skipped := true;
        return true, r, a;
      }
      r := |trace| - 1;
      stops, a := GateOnCi(r);
    }

    /** CI is read behind a safe verdict. */
    method GateOnCi(ghost r: nat) returns (stops: bool, ghost a: nat)
      requires Valid() && r < |trace| && trace[r] == Judged(true)
      modifies this`trace, this`entry, this`ops, this`states, this`skipped
      ensures Valid() && old(trace) <= trace && Runs() == old(Runs())
      ensures stops <==> !At(world, |old(trace)|).ci.Green?
      ensures !stops ==> Cleared(trace, |trace|, false, headSha, r, a) && entry == old(entry) && ops == old(ops) && |trace| == |old(trace)| + 1
      ensures stops ==> skipped
      ensures At(world, |old(trace)|).ci.Unreadable? ==> trace == old(trace) + [CiRead(headSha, Unreadable)] && entry == old(entry)
      ensures At(world, |old(trace)|).ci.Red? || At(world, |old(trace)|).ci.Running? ==>
                Disposed(old(trace) + [CiRead(headSha, At(world, |old(trace)|).ci)], trace, old(entry), entry)
    {
      var ci := ReadCi();
      a := |trace| - 1;
      if ci.Unreadable? {
        skipped := true;
        return true, a;
      }
      if ci.Green? {
        return false, a;
      }
      WaitOrClose();
      stops := true;
    }

    /** What becomes of a pull request whose CI is red or running: if it is stale and not dependabot's it is closed, or
        would be; every other one, and one that could not be closed, is counted. */
    predicate Disposed(before: seq<Effect>, after: seq<Effect>, e: Entry, r: Entry)
      reads this
    {
      if At(world, |before|).stale && !dependabot then
        if dry then after == before && r == e
        else after == before + [Closing] && if At(world, |before|).status == 200 then r == e else Counted(e, r, headSha)
      else after == before && Counted(e, r, headSha)
    }

    /** Red or running: a stale pull request is closed, unless it is dependabot's; any other waits and is counted. */
    method WaitOrClose()
      requires Valid()
      modifies this`trace, this`entry, this`ops, this`states, this`skipped
      ensures Valid() && old(trace) <= trace && Runs() == old(Runs()) && skipped
      ensures Disposed(old(trace), trace, old(entry), entry)
    {
      skipped := true;
      var a := Next();
      if a.stale && !dependabot {
        if dry {
          return;
        }
        Emit(Closing);
        if a.status == 200 {
          return;
        }
      }
      Write(Failed(headSha));
    }

    /** mergePr: the owner's token first, the App after a 401 or 403. */
    method MergePr(ghost r: nat, ghost a: nat, ghost b: nat, ghost c: nat) returns (status: int)
      requires Valid() && Cleared(trace, |trace|, dependabot, headSha, r, a) && Endorsed(trace, |trace|, a, b, c)
      modifies this`trace
      ensures Valid() && old(trace) <= trace && Runs() == old(Runs())
      ensures trace == old(trace) + Puts(world, |old(trace)|, hasOwnerToken, headSha)
      ensures status == MergeStatus(world, |old(trace)|, hasOwnerToken)
    {
      if hasOwnerToken {
        status := Put(true, r, a, b, c);
        if status != 401 && status != 403 {
          return;
        }
      }
      status := Put(false, r, a, b, c);
    }

    method Put(asOwner: bool, ghost r: nat, ghost a: nat, ghost b: nat, ghost c: nat) returns (status: int)
      requires Valid() && Cleared(trace, |trace|, dependabot, headSha, r, a) && Endorsed(trace, |trace|, a, b, c)
      requires !asOwner && hasOwnerToken ==> OwnerRefused(trace, |trace|)
      modifies this`trace
      ensures Valid() && trace == old(trace) + [MergePut(headSha, asOwner, status)] && Runs() == old(Runs())
      ensures status == At(world, |old(trace)|).status
      ensures Cleared(trace, |trace|, dependabot, headSha, r, a) && Endorsed(trace, |trace|, a, b, c)
    {
      status := Next().status;
      PutIsGuarded(trace, headSha, asOwner, status, dependabot, r, a, b, c);
      FallbackStays(trace, trace + [MergePut(headSha, asOwner, status)], |trace|, hasOwnerToken);
      AgentRunsPrefix(trace, trace + [MergePut(headSha, asOwner, status)], |trace|);
      trace := trace + [MergePut(headSha, asOwner, status)];
    }

    static lemma {:induction false} PutIsGuarded(trace: seq<Effect>, head: Sha, asOwner: bool, status: int, dependabot: bool, r: nat, a: nat, b: nat, c: nat)
      requires AllGuarded(trace, |trace|, dependabot)
      requires Cleared(trace, |trace|, dependabot, head, r, a) && Endorsed(trace, |trace|, a, b, c)
      ensures var more := trace + [MergePut(head, asOwner, status)];
              && AllGuarded(more, |more|, dependabot)
              && Cleared(more, |more|, dependabot, head, r, a) && Endorsed(more, |more|, a, b, c)
    {
      var more := trace + [MergePut(head, asOwner, status)];
      GuardStays(trace, more, |trace|, dependabot);
      assert Cleared(more, |trace|, dependabot, more[|trace|].head, r, a) && Endorsed(more, |trace|, a, b, c);
      assert Guarded(more, |trace|, dependabot);
    }

    /** mergeableGate: mergeability is read again just before the approval, and an unknown is not a yes. */
    method MergeableGate() returns (blocked: bool)
      requires Valid()
      modifies this`trace, this`entry, this`ops, this`states
      ensures Valid() && old(trace) <= trace && Runs() <= old(Runs()) + 1
      ensures !blocked <==> At(world, |old(trace)|).mergeable.Yes?
      ensures !blocked ==> trace == old(trace) + [HeadRead(Yes)] && Runs() == old(Runs())
      ensures !blocked ==> entry == old(entry) && ops == old(ops)
      ensures blocked ==> BlockLeaves(dry, headSha, world, old(trace), trace, old(entry), entry, UNRESOLVABLE_CONFLICT)
    {
      var reread := RefetchHead();
      if reread.mergeable.No? {
        ResolveConflict(AlreadyFixed(entry, headSha), true);
        return true;
      }
      if reread.mergeable.Computing? {
        Write(Failed(headSha));
        return true;
      }
      blocked := false;
    }

    /** stepMerge: true when the pull request merged. */
    method StepMerge(already: bool, ghost r: nat, ghost a: nat) returns (done: bool)
      requires Valid() && Cleared(trace, |trace|, dependabot, headSha, r, a)
      modifies this`trace, this`entry, this`ops, this`states, this`skipped
      ensures Valid() && old(trace) <= trace && Runs() <= old(Runs()) + 1
      ensures done ==> EndsMerged(trace)
      ensures done <==> !dry && At(world, |old(trace)|).mergeable.Yes? && MergesAt(world, |old(trace)| + 2, hasOwnerToken)
      ensures MergeStepLeaves(already, dry, hasOwnerToken, headSha, world, old(trace), trace, old(entry), entry, UNRESOLVABLE_CONFLICT)
      ensures old(skipped) ==> skipped
    {
      var blocked := MergeableGate();
      if blocked {
        skipped := true;
        return false;
      }
      ghost var b := |trace| - 1;
      if dry {
        return false;
      }
      done := ApproveAndMerge(already, r, a, b);
    }

    /** The approval, the merge, and what follows a merge that was refused. */
    method ApproveAndMerge(already: bool, ghost r: nat, ghost a: nat, ghost b: nat) returns (done: bool)
      requires Valid() && Cleared(trace, |trace|, dependabot, headSha, r, a) && !dry
      requires a < b < |trace| && trace[b] == HeadRead(Yes)
      modifies this`trace, this`entry, this`ops, this`states
      ensures Valid() && old(trace) <= trace && Runs() <= old(Runs()) + 1
      ensures done ==> EndsMerged(trace)
      ensures done <==> MergesAt(world, |old(trace)| + 1, hasOwnerToken)
      ensures MergeLeaves(!already, hasOwnerToken, headSha, world, old(trace) + [Approval], trace, old(entry), entry, UNRESOLVABLE_CONFLICT)
    {
      ghost var c := |trace|;
      Emit(Approval);
      done := Merge(already, r, a, b, c);
    }

    /** The merge, and what follows one that was refused. */
    method Merge(already: bool, ghost r: nat, ghost a: nat, ghost b: nat, ghost c: nat) returns (done: bool)
      requires Valid() && Cleared(trace, |trace|, dependabot, headSha, r, a) && Endorsed(trace, |trace|, a, b, c) && !dry
      modifies this`trace, this`entry, this`ops, this`states
      ensures Valid() && old(trace) <= trace && Runs() <= old(Runs()) + 1
      ensures done ==> EndsMerged(trace)
      ensures done <==> MergesAt(world, |old(trace)|, hasOwnerToken)
      ensures MergeLeaves(!already, hasOwnerToken, headSha, world, old(trace), trace, old(entry), entry, UNRESOLVABLE_CONFLICT)
    {
      StatusIs(world, |trace|, hasOwnerToken);
      var status := MergePr(r, a, b, c);
      if status == 200 {
        return true;
      }
      MergeRefused(status, already);
      done := false;
    }

    /** What a merge that did not go through leaves behind. */
    method MergeRefused(status: int, already: bool)
      requires Valid() && !dry
      modifies this`trace, this`entry, this`ops, this`states
      ensures Valid() && old(trace) <= trace && Runs() <= old(Runs()) + 1
      ensures RefusalLeaves(status, !already, headSha, world, old(trace), trace, old(entry), entry, UNRESOLVABLE_CONFLICT)
    {
      if status == 405 {
        var again := RefetchHead();
        Write(Failed(headSha));
      } else if status == 409 {
        ResolveConflict(already, false);
      } else if status != 0 && status < 500 {
        Write(Failed(headSha));
      }
    }

    /** stepReview: false when the turn ends with a review triggered. */
    method StepReview() returns (reviewed: bool)
      requires Valid()
      modifies this`trace, this`noCodeReview
      ensures Valid() && old(trace) <= trace && Runs() == old(Runs())
      ensures reviewed <==> At(world, |old(trace)|).found || (trivial && At(world, |old(trace)|).marker)
      ensures noCodeReview <==> old(noCodeReview) || (trivial && At(world, |old(trace)|).marker && !At(world, |old(trace)|).found)
      ensures trace == old(trace) + if reviewed then [ReviewSought] else [ReviewSought, ReviewTriggered]
    {
      var a := Next();
      Emit(ReviewSought);
      if a.found {
        return true;
      }
      if trivial && a.marker {
        noCodeReview := true;
        return true;
      }
      Emit(ReviewTriggered);
      reviewed := false;
    }

    /** The record holds a verdict on this very head. */
    predicate KnownBad(e: Entry)
      reads this
    {
      e.badBumpSha == Some(headSha) && e.badBump != None && e.badBump != Some("")
    }

    /** stepBumpGuard: true when the bump cannot be shipped, which ends the turn. */
    method StepBumpGuard(canAskRegistry: bool) returns (ends: bool)
      requires Valid()
      modifies this`trace, this`entry, this`ops, this`states, this`skipped
      ensures Valid() && old(trace) <= trace && Runs() == old(Runs())
      ensures SkipReason(entry, headSha) == old(SkipReason(entry, headSha)) && AlreadyFixed(entry, headSha) == old(AlreadyFixed(entry, headSha))
      ensures !dependabot ==> !ends && trace == old(trace) && entry == old(entry) && ops == old(ops)
      ensures ends <==> dependabot && (KnownBad(old(entry)) || (canAskRegistry && At(world, |old(trace)|).badBump.Some?))
      ensures trace == old(trace) + if dependabot && canAskRegistry && !KnownBad(old(entry)) then [RegistryRead] else []
      ensures !ends ==> entry == old(entry) && ops == old(ops)
      ensures ends && !KnownBad(old(entry)) ==> entry.badBumpSha == Some(headSha) && entry.badBump == At(world, |old(trace)|).badBump
      ensures ends ==> skipped
    {
      if !dependabot {
        return false;
      }
      if entry.badBumpSha == Some(headSha) && entry.badBump.Some? && entry.badBump.value != "" {
        skipped := true;
        return true;
      }
      if !canAskRegistry {
        return false;
      }
      var bad := Next().badBump;
      Emit(RegistryRead);
      if bad.None? {
        return false;
      }
      Write(Unshippable(headSha, bad.value));
      skipped := true;
      ends := true;
    }

    /** A pull request that is in conflict, past the ceiling and neither fixed nor skipped, and an agent that always runs
        out of budget. */
    ghost predicate Jammed()
      reads this
    {
      && !dependabot && !trivial && !dry && mergeable.No?
      && BudgetCount(entry, headSha) >= CEILING && !AlreadyFixed(entry, headSha)
      && forall n :: Jams(At(world, n))
    }

    /** Behind the gates: a known conflict goes to the resolver, everything else to the merge. */
    method ResolveOrMerge(already: bool, ghost r: nat, ghost a: nat)
      requires Valid() && Runs() <= MAX_FIX_ITERATIONS && !merged && Cleared(trace, |trace|, dependabot, headSha, r, a)
      modifies this`trace, this`entry, this`ops, this`states, this`skipped, this`merged
      ensures Valid() && Runs() <= 4 && (merged ==> EndsMerged(trace))
      ensures merged <==> !dry && !old(mergeable).No? && At(world, |old(trace)|).mergeable.Yes? && MergesAt(world, |old(trace)| + 2, hasOwnerToken)
      ensures !merged ==> skipped
      ensures old(trace) <= trace
      ensures if old(mergeable).No?
              then ConflictLeaves(!already && !dry, true, headSha, world, old(trace), trace, old(entry), entry, UNRESOLVABLE_CONFLICT)
              else MergeStepLeaves(already, dry, hasOwnerToken, headSha, world, old(trace), trace, old(entry), entry, UNRESOLVABLE_CONFLICT)
      ensures old(mergeable).No? && !dry && !already && Exhausts(world, |old(trace)|) ==>
                ops == old(ops) + [Exhausted(old(headSha), false)]
    {
      if mergeable.No? {
        ResolveConflict(already, true);
        skipped := true;
        return;
      }
      MergeAtLast(already, r, a);
    }

    /** What did not merge counts as skipped. */
    method MergeAtLast(already: bool, ghost r: nat, ghost a: nat)
      requires Valid() && !merged && Cleared(trace, |trace|, dependabot, headSha, r, a)
      modifies this`trace, this`entry, this`ops, this`states, this`skipped, this`merged
      ensures Valid() && old(trace) <= trace && Runs() <= old(Runs()) + 1 && (merged ==> EndsMerged(trace))
      ensures merged <==> !dry && At(world, |old(trace)|).mergeable.Yes? && MergesAt(world, |old(trace)| + 2, hasOwnerToken)
      ensures MergeStepLeaves(already, dry, hasOwnerToken, headSha, world, old(trace), trace, old(entry), entry, UNRESOLVABLE_CONFLICT)
      ensures !merged ==> skipped
      ensures noCodeReview == old(noCodeReview)
    {
      var done := StepMerge(already, r, a);
      merged := done;
      skipped := skipped || !done;
    }

    /** The gates after the fix loop, and the merge. */
    method AfterFix(already: bool)
      requires Valid() && Runs() <= MAX_FIX_ITERATIONS && !merged
      modifies this`trace, this`entry, this`ops, this`states, this`skipped, this`merged
      ensures Valid() && Runs() <= 4 && (merged ==> EndsMerged(trace))
      ensures old(trace) <= trace
      ensures merged <==> !dry && GatesPass(world, |old(trace)|, hasOwnerToken, old(mergeable))
      ensures !merged ==> skipped
      ensures old(mergeable).No? && !dry && !already && JamsFrom(world, |old(trace)|) ==> ops == old(ops) + [Exhausted(old(headSha), false)]
    {
      var stops, r, a := StepSafetyAndCi();
      if !stops {
        JamsOn(world, |old(trace)|, |trace|);
        GatesPassAt(world, |old(trace)|, |trace|, hasOwnerToken, mergeable);
        ResolveOrMerge(already, r, a);
      }
    }

    /** The turn once the review is in: skip, fix, gates, merge. */
    method AfterReview(red: bool) returns (ghost n: nat, ghost m: Tri)
      requires Valid() && Runs() == 0 && !merged
      modifies this
      ensures Valid() && Runs() <= 4 && (merged ==> EndsMerged(trace))
      ensures old(Pinned()) ==> !merged && skipped && trace == old(trace) && entry == old(entry).(notified := true)
      ensures !old(Pinned()) ==> (merged <==> !dry && GatesPass(world, n, hasOwnerToken, m))
      ensures !old(Pinned()) && (old(noCodeReview) || (AlreadyFixed(old(entry), old(headSha)) && !red)) ==> n == |old(trace)| && m == old(mergeable)
      ensures !old(Pinned()) && old(FixIsDue()) && (!AlreadyFixed(old(entry), old(headSha)) || red) ==>
                FixComesTo(world, |old(trace)|, old(headSha), old(mergeable), n, m, trace)
      ensures old(Jammed()) ==> ops == old(ops) + [Exhausted(old(headSha), false)]
    {
      n, m := |trace|, mergeable;
      var already := AlreadyFixed(entry, headSha) && !red;
      var skip := SkipReason(entry, headSha);
      if skip.Some? && skip.value != "" {
        NotifySkipOnce();
        skipped := true;
        return;
      }
      n, m := FixThenMerge(already);
    }

    /** The fix loop, the gates and the merge. */
    method FixThenMerge(already: bool) returns (ghost n: nat, ghost m: Tri)
      requires Valid() && Runs() == 0 && !merged
      modifies this
      ensures Valid() && Runs() <= 4 && (merged ==> EndsMerged(trace))
      ensures merged <==> !dry && GatesPass(world, n, hasOwnerToken, m)
      ensures old(noCodeReview) || already ==> n == |old(trace)| && m == old(mergeable)
      ensures old(FixIsDue()) && !already ==> FixComesTo(world, |old(trace)|, old(headSha), old(mergeable), n, m, trace)
      ensures !already && !dry && !trivial && old(mergeable).No? && BudgetCount(old(entry), old(headSha)) >= CEILING
              && JamsFrom(world, |old(trace)|) ==>
                ops == old(ops) + [Exhausted(old(headSha), false)]
    {
      ghost var from, head := StepAiFix(already);
      n, m := |trace|, mergeable;
      ghost var fixed := trace;
      AfterFix(already);
      RunsGrow(fixed, trace);
    }

    static lemma {:induction false} RunsGrow(trace: seq<Effect>, more: seq<Effect>)
      requires trace <= more
      ensures AgentRuns(trace, |trace|) <= AgentRuns(more, |more|)
    {
      AgentRunsPrefix(trace, more, |trace|);
      RunsGrowOver(more, |trace|, |more|);
    }

    static lemma {:induction false} RunsGrowOver(trace: seq<Effect>, n: nat, k: nat)
      requires n <= k <= |trace|
      ensures AgentRuns(trace, n) <= AgentRuns(trace, k)
      decreases k
    {
      if n < k {
        RunsGrowOver(trace, n, k - 1);
      }
    }

    /** A skip is recorded at this very head. */
    predicate Pinned()
      reads this
    {
      entry.sha == Some(headSha) && entry.skipReason != None && entry.skipReason != Some("")
    }

    /** The fix loop would run: nothing but the pull request itself stands against it. */
    predicate FixIsDue()
      reads this
    {
      !noCodeReview && !dry && !trivial && BudgetCount(entry, headSha) < CEILING
    }

    /** The gates before the review: true when they end the turn. Otherwise says whether dependabot's CI is red. */
    method BeforeReview(open: bool, pinViolated: bool, canAskRegistry: bool) returns (ends: bool, red: bool)
      requires Valid() && Runs() == 0 && !merged
      modifies this
      ensures Valid() && Runs() <= 1 && (!ends ==> Runs() == 0 && !merged) && (merged ==> EndsMerged(trace))
      ensures noCodeReview == old(noCodeReview)
      ensures open && !dependabot ==>
                !ends && trace == old(trace) && headSha == old(headSha) && mergeable == old(mergeable)
                && entry == old(entry) && ops == old(ops) && !red
      ensures !open ==> ends && !merged && trace == old(trace)
      ensures open && dependabot && pinViolated ==> ends && !merged && trace == old(trace) + if dry then [] else [Closing]
      ensures open && dependabot && !pinViolated ==>
                BumpComesTo(|old(trace)|, canAskRegistry, old(KnownBad(entry)), ends, red)
      ensures !ends ==> headSha == old(headSha) && mergeable == old(mergeable) && entry == old(entry)
    {
      red := false;
      if !open {
        skipped := true;
        return true, red;
      }
      if dependabot && pinViolated {
        if dry {
          skipped := true;
          return true, red;
        }
        var status := Next().status;
        Emit(Closing);
        skipped := skipped || status == 200;
        return true, red;
      }
      ends := false;
      if dependabot {
        ends, red := DependabotGates(canAskRegistry);
      }
    }

    /** What the gates of a dependency bump come to: a bad bump ends the turn, green CI merges it or ends the turn, and
        otherwise the review is next. */
    ghost predicate BumpComesTo(n: nat, canAskRegistry: bool, knownBad: bool, ends: bool, red: bool)
      reads this
    {
      if knownBad || (canAskRegistry && At(world, n).badBump.Some?) then ends && !merged
      else
        var k := n + if canAskRegistry then 1 else 0;
        if At(world, k).ci.Green? then ends && (merged <==> !dry && At(world, k + 1).mergeable.Yes? && MergesAt(world, k + 3, hasOwnerToken))
        else !ends && |trace| == k + 1 && (red <==> !At(world, k).ci.Unreadable?)
    }

    /** The bump guard and CI, for dependabot only. */
    method DependabotGates(canAskRegistry: bool) returns (ends: bool, red: bool)
      requires Valid() && Runs() == 0 && !merged && dependabot
      modifies this
      ensures Valid() && Runs() <= 1 && (!ends ==> Runs() == 0 && !merged) && (merged ==> EndsMerged(trace))
      ensures noCodeReview == old(noCodeReview)
      ensures BumpComesTo(|old(trace)|, canAskRegistry, old(KnownBad(entry)), ends, red)
      ensures !ends ==> headSha == old(headSha) && mergeable == old(mergeable) && entry == old(entry)
    {
      red := false;
      var unshippable := StepBumpGuard(canAskRegistry);
      if unshippable {
        return true, red;
      }
      ends, red := MergeGreenBump();
    }

    /** Dependabot's green CI merges without a review. */
    method MergeGreenBump() returns (ends: bool, red: bool)
      requires Valid() && Runs() == 0 && !merged && dependabot
      modifies this
      ensures Valid() && Runs() <= 1 && (!ends ==> Runs() == 0 && !merged) && (merged ==> EndsMerged(trace))
      ensures noCodeReview == old(noCodeReview)
      ensures ends <==> At(world, |old(trace)|).ci.Green?
      ensures ends ==>
                (merged <==> !dry && At(world, |old(trace)| + 1).mergeable.Yes? && MergesAt(world, |old(trace)| + 3, hasOwnerToken))
      ensures !ends ==> |trace| == |old(trace)| + 1 && (red <==> !At(world, |old(trace)|).ci.Unreadable?)
      ensures !ends ==> headSha == old(headSha) && mergeable == old(mergeable) && entry == old(entry)
    {
      red := false;
      var ci := ReadCi();
      if ci.Green? {
        MergeAtLast(true, 0, |trace| - 1);
        return true, red;
      }
      ends, red := false, ci.Red? || ci.Running?;
    }

    /** processPr: every merge was guarded, at most four agent runs were made, and every exhausted run of the fix loop had
        been within the ceiling. */
    method ProcessPr(open: bool, pinViolated: bool, canAskRegistry: bool) returns (ghost n: nat, ghost m: Tri)
      requires Valid() && trace == [] && ops == [] && !merged && !noCodeReview
      modifies this
      ensures AllGuarded(trace, |trace|, dependabot) && AppIsFallback(trace, |trace|, hasOwnerToken)
      ensures entry == After(old(entry), ops, |ops|) && AllOffered(old(entry), ops, |ops|)
      ensures AgentRuns(trace, |trace|) <= 4
      ensures merged ==> EndsMerged(trace)
      ensures open && old(Jammed()) ==> entry == BumpBudget(old(entry), old(headSha)) && ops == [Exhausted(old(headSha), false)]
      ensures !open ==> !merged && trace == []
      ensures dependabot && pinViolated ==> !merged
      ensures open && !dependabot ==> ReviewedMerges(0, false, old(entry), old(headSha), old(mergeable), n, m)
      ensures open && dependabot && !pinViolated ==>
                if old(KnownBad(entry)) || (canAskRegistry && At(world, 0).badBump.Some?) then !merged
                else
                  var k := if canAskRegistry then 1 else 0;
                  if At(world, k).ci.Green? then merged <==> !dry && At(world, k + 1).mergeable.Yes? && MergesAt(world, k + 3, hasOwnerToken)
                  else ReviewedMerges(k + 1, !At(world, k).ci.Unreadable?, old(entry), old(headSha), old(mergeable), n, m)
    {
      n, m := 0, mergeable;
      var ends, red := BeforeReview(open, pinViolated, canAskRegistry);
      if !ends {
        var reviewed := StepReview();
        if reviewed {
          n, m := AfterReview(red);
        }
      }
      BookedMeans(entry0, ops, states, entry, |ops|);
    }

    /** When a turn merges that looks for a review with answer `at`: the review is there, nothing is pinned, and the gates
        pass from answer `n` on; with the head already fixed, or no code to review, that is the very next one, and where the
        first fix turns CI green it is the one after. */
    ghost predicate ReviewedMerges(at: nat, red: bool, e: Entry, head: Sha, before: Tri, n: nat, m: Tri)
      reads this
    {
      var found, noCode := At(world, at).found, trivial && At(world, at).marker && !At(world, at).found;
      var pinned := e.sha == Some(head) && e.skipReason != None && e.skipReason != Some("");
      && (merged <==> (found || noCode) && !pinned && !dry && GatesPass(world, n, hasOwnerToken, m))
      && ((found || noCode) && !pinned && (noCode || (e.sha == Some(head) && !red)) ==> n == at + 1 && m == before)
      && (found && !pinned && (e.sha != Some(head) || red) && !dry && !trivial && BudgetCount(e, head) < CEILING ==>
            FixComesTo(world, at + 1, head, before, n, m, trace))
    }
  }

  /** The conflict resolver counts its exhausted runs but is offered at any count: each turn of a jammed pull request runs
      the agent once more, however far past the ceiling. */
  method ConflictRunsPastTheCeiling(head: Sha, e: Entry, world: nat -> Answer, k: nat) returns (entry: Entry, ghost turns: seq<seq<Op>>)
    requires BudgetCount(e, head) >= CEILING && !AlreadyFixed(e, head) && forall n :: Jams(At(world, n))
    ensures BudgetCount(entry, head) == BudgetCount(e, head) + k
    ensures |turns| == k && forall i :: 0 <= i < k ==> turns[i] == [Exhausted(head, false)]
  {
    entry, turns := e, [];
    var i := 0;
    while i < k
      invariant i <= k && BudgetCount(entry, head) == BudgetCount(e, head) + i && !AlreadyFixed(entry, head)
      invariant |turns| == i && forall j :: 0 <= j < i ==> turns[j] == [Exhausted(head, false)]
    {
      var turn := new PrTurn(head, No, entry, false, false, false, false, world);
      ghost var n, m := turn.ProcessPr(true, false, false);
      entry, turns := turn.entry, turns + [turn.ops];
      i := i + 1;
    }
  }
}
