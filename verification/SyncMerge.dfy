/** The workdir of a sync: what git holds, and what the worker's commands do to it. */
module GitSpec {

  /** A path in the repository. */
  type Path(==, !new)

  type Lines = seq<string>

  type Tree = map<Path, Lines>

  /** A clone: the committed tree, the staged one, the files on disk, the paths git calls unmerged, the ones it ignores,
      and whether a merge is in progress. */
  datatype Repo = Repo(head: Tree, index: Tree, worktree: Tree, unmerged: set<Path>, ignored: set<Path>, merging: bool)

  /** Which commands work: the diff that lists unmerged paths, the search for markers, the staging, and the commit's
      hooks, the one git runs first and the one that reads the message. */
  datatype Tools = Tools(diffOk: bool, grepOk: bool, addOk: bool, preCommitOk: bool, commitMsgOk: bool) {
    predicate HooksOk() { preCommitOk && commitMsgOk }

    /** The commands the two guards and the staging rely on. */
    predicate Work() { diffOk && grepOk && addOk }
  }

  predicate IsMarker(line: string) {
    line == "<<<<<<<" || line == ">>>>>>>" || line == "======="
  }

  predicate HasMarker(text: Lines) {
    exists line | line in text :: IsMarker(line)
  }

  predicate TreeHasMarker(tree: Tree) {
    exists p | p in tree :: HasMarker(tree[p])
  }

  function Tracked(r: Repo): set<Path> {
    r.index.Keys + r.unmerged
  }

  /** git grep looks at the tracked files only, as they are on disk. */
  function Marked(r: Repo): set<Path> {
    set p | p in Tracked(r) && p in r.worktree && HasMarker(r.worktree[p])
  }

  /** git add -A stages every file on disk that is tracked or not ignored. */
  function Staged(r: Repo): Tree {
    map p | p in r.worktree && (p in Tracked(r) || p !in r.ignored) :: r.worktree[p]
  }

  /** Files that git add -A would bring in for the first time. */
  function Newcomers(r: Repo): set<Path> {
    set p | p in r.worktree && p !in Tracked(r) && p !in r.ignored
  }

  function Added(r: Repo, ok: bool): Repo {
    if ok then r.(index := Staged(r), unmerged := {}) else r
  }

  datatype CommitResult = Done | Nothing | Refused

  /** git commit --message: makes a commit of whatever is staged. */
  function Commit(r: Repo, t: Tools): (Repo, CommitResult) {
    if r.unmerged != {} || !t.preCommitOk then (r, Refused)
    else if !r.merging && r.index == r.head then (r, Nothing)
    else if !t.commitMsgOk then (r, Refused)
    else (r.(head := r.index, merging := false), Done)
  }

  /** git commit --no-edit: only a merge in progress gives it a message, so anything staged outside one is refused. It
      says "nothing to commit" only when no file on disk differs either. */
  function CommitNoEdit(r: Repo, t: Tools): (Repo, CommitResult) {
    if r.unmerged != {} || !t.preCommitOk then (r, Refused)
    else if r.merging then (if t.commitMsgOk then (r.(head := r.index, merging := false), Done) else (r, Refused))
    else if r.index == r.head && Staged(r) == r.index then (r, Nothing)
    else (r, Refused)
  }

  /** git merge --abort: back to the committed tree, leaving untracked files; refused when no merge is in progress. */
  function Aborted(r: Repo): Repo {
    if !r.merging then r
    else
      r.(index := r.head, unmerged := {}, merging := false,
         worktree := (map p | p in r.worktree && p !in Tracked(r) :: r.worktree[p]) + r.head)
  }

  /** syncFinishMerge */
  function Finish(r: Repo, t: Tools): (Repo, bool) {
    if t.diffOk && r.unmerged != {} then (r, false)
    else if t.grepOk && Marked(r) != {} then (r, false)
    else
      var (after, result) := CommitNoEdit(Added(r, t.addOk), t);
      (after, !result.Refused?)
  }

  /** git status has something to show. */
  predicate Dirty(r: Repo) {
    r.unmerged != {} || r.index != r.head || Staged(r) != r.index
  }

  /** syncCommitIfDirty; what it says is whether there was something to commit. */
  function CommitIfDirty(r: Repo, t: Tools): (Repo, bool) {
    if Dirty(r) then (Commit(Added(r, t.addOk), t).0, true) else (r, false)
  }
}

/** One fork's sync attempt, from the clone to the push. */
module SyncForks {
  import opened Text
  import opened GitSpec
  import SyncSpec

  /** What the agent leaves behind. It may do anything to the clone, and its call may fail whatever it did. */
  datatype Agent = Ran(ok: bool, after: Repo) | Crashed

  /** A protected branch is learned from the push; then a branch for a pull request may be made, pushed and posted. */
  datatype PushAnswer = Accepted | Protected(checkedOut: bool, branchPushed: bool, posted: bool) | Rejected(detail: string) {
    predicate PrOpened() { Protected? && checkedOut && branchPushed && posted }
  }

  datatype Effect = AgentRun | Abort | Push(tree: Tree) | PushBranch(tree: Tree)

  /** Everything the world answers during one attempt. `merged` is the clone after git merge. */
  datatype Env = Env(cloneOk: bool, fetchOk: bool, mergeOk: bool, merged: Repo, listOk: bool,
                     resolveConflicts: bool, aiFix: bool, filesMerged: bool, agent: Agent, tools: Tools, recheckOk: bool,
                     push: PushAnswer, at: int, pushedAt: int, mergedSha: string, preMergeSha: string, branch: string)

  /** The unmerged paths as the worker reads them: none when the listing fails. */
  function Listing(r: Repo, ok: bool): set<Path> {
    if ok then r.unmerged else {}
  }

  class Workdir {
    var repo: Repo
    var trace: seq<Effect>

    constructor (repo: Repo)
      ensures this.repo == repo && trace == []
    {
      this.repo, trace := repo, [];
    }

    method FinishMerge(t: Tools) returns (ok: bool)
      modifies this`repo
      ensures (repo, ok) == Finish(old(repo), t)
    {
      if Listing(repo, t.diffOk) != {} {
        return false;
      }
      if t.grepOk && Marked(repo) != {} {
        return false;
      }
      repo := Added(repo, t.addOk);
      var (after, result) := CommitNoEdit(repo, t);
      repo := after;
      if !result.Done? {
        return result.Nothing?;
      }
      return true;
    }

    /** resolveMerge. None means that the agent threw. */
    method ResolveMerge(conflicted: set<Path>, env: Env) returns (resolved: Option<bool>)
      modifies this
      ensures trace == old(trace) + Steps(conflicted != {}, env, resolved)
      ensures conflicted != {} && resolved == Some(true) ==>
                env.agent.Ran? && (repo, true) == Finish(env.agent.after, env.tools)
      ensures conflicted != {} && resolved == Some(false) && env.resolveConflicts ==>
                env.agent.Ran? && !Finish(env.agent.after, env.tools).1
                && repo == Aborted(Finish(env.agent.after, env.tools).0)
      ensures conflicted != {} ==>
                (resolved == Some(true) <==> env.resolveConflicts && env.agent.Ran? && Finish(env.agent.after, env.tools).1)
      ensures conflicted != {} && !env.resolveConflicts ==> repo == Aborted(old(repo))
      ensures conflicted == {} ==> resolved != Some(false)
      ensures conflicted == {} && resolved == Some(true) ==> repo == Clean(old(repo), env)
      ensures resolved.None? <==> env.agent.Crashed? && Asked(conflicted != {}, env)
    {
      if conflicted != {} {
        if !env.resolveConflicts {
          repo := Aborted(repo);
          trace := trace + [Abort];
          return Some(false);
        }
        trace := trace + [AgentRun];
        if env.agent.Crashed? {
          return None;
        }
        repo := env.agent.after;
        if !env.agent.ok {
          var salvaged := FinishMerge(env.tools);
          if !salvaged {
            repo := Aborted(repo);
            trace := trace + [Abort];
            return Some(false);
          }
        } else {
          var done := FinishMerge(env.tools);
          if !done {
            repo := Aborted(repo);
            trace := trace + [Abort];
            return Some(false);
          }
        }
        return Some(true);
      }
      if env.aiFix && env.filesMerged {
        trace := trace + [AgentRun];
        if env.agent.Crashed? {
          return None;
        }
        repo := env.agent.after;
        if env.agent.ok {
          var (after, committed) := CommitIfDirty(repo, env.tools);
          repo := after;
        }
      }
      return Some(true);
    }

    static predicate Asked(conflicted: bool, env: Env) {
      if conflicted then env.resolveConflicts else env.aiFix && env.filesMerged
    }

    static function Steps(conflicted: bool, env: Env, resolved: Option<bool>): seq<Effect> {
      (if Asked(conflicted, env) then [AgentRun] else []) + (if resolved == Some(false) then [Abort] else [])
    }

    /** The clone after the optional quality pass on a clean merge. */
    static function Clean(r: Repo, env: Env): Repo {
      if !(env.aiFix && env.filesMerged) || env.agent.Crashed? then r
      else if env.agent.ok then CommitIfDirty(env.agent.after, env.tools).0
      else env.agent.after
    }

    /** The pushes of an attempt that gets so far: the branch, then the one for a pull request if it is protected. */
    static function Pushes(tree: Tree, answer: PushAnswer): seq<Effect> {
      [Push(tree)] + if answer.Protected? && answer.checkedOut then [PushBranch(tree)] else []
    }

    /** syncForkRepo, past the clone: how it ends, and what it pushed. */
    method SyncForkRepo(env: Env) returns (o: SyncSpec.Outcome, pushed: bool)
      requires repo == env.merged && trace == []
      modifies this
      ensures pushed ==> trace == Steps(Conflicted(env), env, Some(true)) + Pushes(repo.head, env.push) && Listing(repo, env.recheckOk) == {}
      ensures !pushed ==> forall i :: 0 <= i < |trace| ==> trace[i].AgentRun? || trace[i].Abort?
      ensures pushed && Conflicted(env) ==> env.agent.Ran? && (repo, true) == Finish(env.agent.after, env.tools)
      ensures pushed && !Conflicted(env) ==> repo == Clean(env.merged, env)
      ensures !Conflicted(env) ==>
                (pushed <==> env.cloneOk && env.fetchOk && env.mergeOk && !(Asked(false, env) && env.agent.Crashed?)
                             && Listing(Clean(env.merged, env), env.recheckOk) == {})
      ensures !pushed ==> Unpushed(env, o, trace)
      ensures Conflicted(env) ==>
                (pushed <==> env.cloneOk && env.fetchOk && Asked(true, env) && env.agent.Ran? && Finish(env.agent.after, env.tools).1)
      ensures o.ConflictFailed? || o.Threw? ==> !pushed
      ensures pushed ==> o == Settled(env)
      ensures o.Synced? || o.PrOpened? || o.PushFailed? ==> pushed
    {
      pushed := false;
      if !env.cloneOk || !env.fetchOk {
        return SyncSpec.Stamped(env.at), pushed;
      }
      var conflicted := Listing(repo, env.listOk);
      if !env.mergeOk && conflicted == {} {
        return SyncSpec.Stamped(env.at), pushed;
      }
      var resolved := ResolveMerge(conflicted, env);
      if resolved.None? {
        return SyncSpec.Threw, pushed;
      }
      if !resolved.value {
        return SyncSpec.ConflictFailed(env.at, "conflict"), pushed;
      }
      var stillUnmerged := Listing(repo, env.recheckOk);
      if stillUnmerged != {} {
        return SyncSpec.ConflictFailed(env.at, "unmerged paths remain"), pushed;
      }
      trace := trace + Pushes(repo.head, env.push);
      pushed := true;
      match env.push {
        case Accepted => o := SyncSpec.Synced(env.mergedSha, env.preMergeSha, env.branch, env.at, env.pushedAt);
        case Protected(_, _, _) => o := if env.push.PrOpened() then SyncSpec.PrOpened(env.at) else SyncSpec.Stamped(env.at);
        case Rejected(detail) => o := SyncSpec.PushFailed(env.at, detail);
      }
    }

    /** How an attempt ends that pushes nothing. */
    static predicate Unpushed(env: Env, o: SyncSpec.Outcome, trace: seq<Effect>) {
      if !env.cloneOk || !env.fetchOk || (!env.mergeOk && !Conflicted(env)) then o == SyncSpec.Stamped(env.at) && trace == []
      else if Asked(Conflicted(env), env) && env.agent.Crashed? then o == SyncSpec.Threw && trace == [AgentRun]
      else if !Conflicted(env) then
        o == SyncSpec.ConflictFailed(env.at, "unmerged paths remain") && trace == Steps(false, env, Some(true))
      else o == SyncSpec.ConflictFailed(env.at, "conflict") && trace == Steps(true, env, Some(false))
    }

    static predicate Conflicted(env: Env) {
      Listing(env.merged, env.listOk) != {}
    }

    /** How an attempt ends that pushed. */
    static function Settled(env: Env): SyncSpec.Outcome {
      match env.push
      case Accepted => SyncSpec.Synced(env.mergedSha, env.preMergeSha, env.branch, env.at, env.pushedAt)
      case Rejected(detail) => SyncSpec.PushFailed(env.at, detail)
      case Protected(_, _, _) => if env.push.PrOpened() then SyncSpec.PrOpened(env.at) else SyncSpec.Stamped(env.at)
    }
  }

  // What a finished merge contains

  /** With working tools a merge is finished exactly when nothing is unmerged, no tracked file holds a marker line, and
      either the merge is still to be committed and the hooks let it through, or it is committed and nothing at all is
      left over. A finish the guards refuse leaves the clone alone; an accepted one makes HEAD the whole staged
      worktree, whoever committed it. */
  lemma FinishIff(r: Repo, t: Tools)
    requires t.Work()
    ensures var (after, ok) := Finish(r, t);
            && (ok <==> r.unmerged == {} && Marked(r) == {} && t.preCommitOk
                        && (if r.merging then t.commitMsgOk else Staged(r) == r.head))
            && (ok ==> after.head == Staged(r) && after.index == after.head && after.unmerged == {})
            && (r.unmerged != {} || Marked(r) != {} ==> after == r)
  {
    if r.unmerged == {} && Marked(r) == {} {
      StagingIsIdempotent(r);
    }
  }

  /** The guard, line by line: a merge is refused exactly for a path still unmerged, or for a file that git tracks and whose
      text on disk has a line that is one of the three marks and nothing else. */
  lemma {:induction false} MarksAre(r: Repo)
    ensures Marked(r) != {} <==>
            exists p :: p in r.worktree && (p in r.index || p in r.unmerged)
                        && ("<<<<<<<" in r.worktree[p] || "=======" in r.worktree[p] || ">>>>>>>" in r.worktree[p])
  {
    if p :| p in r.worktree && (p in r.index || p in r.unmerged)
            && ("<<<<<<<" in r.worktree[p] || "=======" in r.worktree[p] || ">>>>>>>" in r.worktree[p]) {
      assert IsMarker("<<<<<<<") && IsMarker("=======") && IsMarker(">>>>>>>");
      assert p in Marked(r);
    }
    if p :| p in Marked(r) {
      var line :| line in r.worktree[p] && IsMarker(line);
      assert p in r.worktree && (p in r.index || p in r.unmerged);
    }
  }

  /** What staging takes: every file on disk that git tracks or does not ignore, and nothing else. */
  lemma {:induction false} StagingTakes(r: Repo, p: Path)
    ensures p in Staged(r) <==> p in r.worktree && (p in r.index || p in r.unmerged || p !in r.ignored)
    ensures p in Staged(r) ==> Staged(r)[p] == r.worktree[p]
  {
  }

  /** What an abort leaves of a merge in progress: the committed tree, and files that were never tracked. */
  lemma {:induction false} AbortLeaves(r: Repo, p: Path)
    requires r.merging
    ensures var a := Aborted(r);
            && a.head == r.head && a.index == r.head && a.unmerged == {} && !a.merging
            && (p in r.head ==> p in a.worktree && a.worktree[p] == r.head[p])
            && (p !in r.head ==> (p in a.worktree <==> p in r.worktree && p !in r.index && p !in r.unmerged))
            && (p !in r.head && p in a.worktree ==> a.worktree[p] == r.worktree[p])
  {
  }

  lemma StagingIsIdempotent(r: Repo)
    ensures Staged(Added(r, true)) == Staged(r)
  {
  }

  /** An agent that commits the merge itself, as it is told to, keeps it only if it leaves nothing else behind: one more
      edit or new file, and the finish is refused, the abort finds no merge, and the commit is thrown away. */
  lemma CommittedMergeIsKeptIff(r: Repo, t: Tools)
    requires t.Work() && !r.merging && r.unmerged == {} && Marked(r) == {}
    ensures Finish(r, t).1 <==> Staged(r) == r.head && t.preCommitOk
    ensures !Finish(r, t).1 ==> Aborted(Finish(r, t).0) == Finish(r, t).0 && Finish(r, t).0.head == r.head
  {
    FinishIff(r, t);
  }

  /** The same at the level of the attempt: a resolved and committed merge is pushed if and only if nothing was left
      over, and otherwise ends as conflict-failed, the outcome that closes its upstream tip. */
  method CommittedMergeIsPushedIff(env: Env) returns (o: SyncSpec.Outcome, pushed: bool, tree: Tree)
    requires env.cloneOk && env.fetchOk && Workdir.Conflicted(env) && env.resolveConflicts && env.tools.Work()
    requires env.agent.Ran? && !env.agent.after.merging && env.agent.after.unmerged == {} && Marked(env.agent.after) == {}
    ensures pushed <==> Staged(env.agent.after) == env.agent.after.head && env.tools.preCommitOk
    ensures pushed ==> tree == env.agent.after.head && o == Workdir.Settled(env)
    ensures !pushed ==> o == SyncSpec.ConflictFailed(env.at, "conflict") && SyncSpec.Records(o)
  {
    var w := new Workdir(env.merged);
    o, pushed := w.SyncForkRepo(env);
    tree := w.repo.head;
    CommittedMergeIsKeptIff(env.agent.after, env.tools);
    FinishIff(env.agent.after, env.tools);
  }

  /** An agent that gives up by aborting the merge passes every guard: the old commit is pushed, and the fork is recorded
      as synced with nothing merged. */
  method AbortedMergeIsReportedSynced(env: Env) returns (o: SyncSpec.Outcome, tree: Tree)
    requires env.cloneOk && env.fetchOk && Workdir.Conflicted(env) && env.resolveConflicts && env.tools.Work()
    requires env.tools.preCommitOk && env.push.Accepted? && env.merged.merging
    requires env.agent.Ran? && env.agent.after == Aborted(env.merged)
    requires Marked(env.agent.after) == {} && Staged(env.agent.after) == env.merged.head
    ensures o.Synced? && tree == env.merged.head
  {
    var pushed: bool;
    o, pushed, tree := CommittedMergeIsPushedIff(env);
  }

  /** One stray file is enough, and the same files would have been finished had the agent not committed. */
  lemma OneLeftoverLosesTheMerge(p: Path, q: Path, t: Tools) returns (r: Repo)
    requires p != q && t.Work() && t.HooksOk()
    ensures !r.merging && r.head == r.index == map[p := ["resolved"]] && r.worktree == map[p := ["resolved"], q := ["note"]]
    ensures !Finish(r, t).1 && Finish(r.(merging := true), t).1
  {
    r := Repo(map[p := ["resolved"]], map[p := ["resolved"]], map[p := ["resolved"], q := ["note"]], {}, {}, false);
    assert q in Staged(r) && q !in r.head;
    NoMarkedFiles(r);
    NoMarkedFiles(r.(merging := true));
    FinishIff(r, t);
    FinishIff(r.(merging := true), t);
  }

  lemma NoMarkedFiles(r: Repo)
    requires forall p :: p in r.worktree ==> !HasMarker(r.worktree[p])
    ensures Marked(r) == {}
  {
  }

  /** A marker line reaches HEAD exactly when a file that was not tracked, and not ignored, brought one in: the search
      looks at tracked files, the staging takes the others too. */
  lemma MarkerReachesHeadIff(r: Repo, t: Tools)
    requires t.Work() && Finish(r, t).1
    ensures TreeHasMarker(Finish(r, t).0.head) <==> exists p :: p in Newcomers(r) && HasMarker(r.worktree[p])
  {
    FinishIff(r, t);
    var head := Finish(r, t).0.head;
    if p :| p in head && HasMarker(head[p]) {
      assert p !in Marked(r);
      assert p in Newcomers(r);
    }
    if p :| p in Newcomers(r) && HasMarker(r.worktree[p]) {
      assert p in head && head[p] == r.worktree[p];
    }
  }

  /** The search that errors hides every marker: then the finish goes by the rest alone, and even a tracked file carries
      one to HEAD. */
  lemma FailedSearchHidesMarkers(r: Repo, t: Tools, p: Path)
    requires t.diffOk && !t.grepOk && t.addOk
    requires p in r.worktree && p in Tracked(r) && HasMarker(r.worktree[p])
    ensures Finish(r, t).1 <==> r.unmerged == {} && t.preCommitOk && (if r.merging then t.commitMsgOk else Staged(r) == r.head)
    ensures Finish(r, t).1 ==> TreeHasMarker(Finish(r, t).0.head)
  {
    StagingIsIdempotent(r);
    if Finish(r, t).1 {
      var head := Finish(r, t).0.head;
      assert head == Staged(r);
      assert p in head && HasMarker(head[p]);
    }
  }

  /** The lines git itself writes around a conflict carry labels, and only the one between the sides is a marker line: a
      file whose sides were joined by taking just that line out is committed with both labels in it. */
  lemma LabelledMarkersReachHead(r: Repo, t: Tools, p: Path, ours: string, theirs: string, body: Lines)
    requires t.Work() && t.HooksOk() && r.merging && r.unmerged == {} && p in Tracked(r) && p in r.worktree
    requires ours != "" && theirs != "" && !HasMarker(body)
    requires r.worktree[p] == ["<<<<<<< " + ours] + body + [">>>>>>> " + theirs]
    requires forall q :: q in r.worktree && q != p ==> !HasMarker(r.worktree[q])
    ensures Finish(r, t).1 && p in Finish(r, t).0.head && Finish(r, t).0.head[p] == r.worktree[p]
  {
    var opening, closing := "<<<<<<< " + ours, ">>>>>>> " + theirs;
    assert |opening| > 7 && |closing| > 7;
    assert !IsMarker(opening) && !IsMarker(closing);
    assert forall line | line in r.worktree[p] :: line == opening || line == closing || line in body;
    assert !HasMarker(r.worktree[p]);
    NoMarkedFiles(r);
    FinishIff(r, t);
    assert p in Staged(r);
  }

  /** The whole conflicted path: what is pushed has no unmerged path and no marker line from a tracked file, whatever the
      agent did and whether its call failed or not. */
  method PushOnConflict(env: Env) returns (o: SyncSpec.Outcome, pushed: Option<Tree>)
    requires Workdir.Conflicted(env) && env.tools.Work()
    ensures pushed.Some? ==> env.agent.Ran? && env.agent.after.unmerged == {} && pushed.value == Staged(env.agent.after)
    ensures pushed.Some? && TreeHasMarker(pushed.value) ==>
              exists p :: p in Newcomers(env.agent.after) && HasMarker(env.agent.after.worktree[p])
    ensures env.agent.Ran? && !Finish(env.agent.after, env.tools).1 ==> pushed.None?
    ensures o.Synced? || o.PrOpened? || o.PushFailed? ==> pushed.Some?
  {
    var w := new Workdir(env.merged);
    var reached: bool;
    o, reached := w.SyncForkRepo(env);
    if reached {
      pushed := Some(w.repo.head);
      FinishIff(env.agent.after, env.tools);
      MarkerReachesHeadIff(env.agent.after, env.tools);
    } else {
      pushed := None;
    }
  }

  /** The quality pass is reported as committed whenever there was something to commit, even when the commit was refused:
      the report is right exactly when the hooks let it through or nothing was left to add. */
  lemma ReportedCommitIsRealIff(r: Repo, t: Tools)
    requires t.addOk && CommitIfDirty(r, t).1
    ensures CommitIfDirty(r, t).0.head == Staged(r) <==> t.HooksOk() || Staged(r) == r.head
  {
  }

  // How an attempt ends, case by case

  /** The outcome that goes with the push's answer. */
  predicate EndsAsPushed(o: SyncSpec.Outcome, env: Env) {
    match env.push
    case Accepted => o == SyncSpec.Synced(env.mergedSha, env.preMergeSha, env.branch, env.at, env.pushedAt)
    case Rejected(detail) => o == SyncSpec.PushFailed(env.at, detail)
    case Protected(checkedOut, branchPushed, posted) =>
      o == if checkedOut && branchPushed && posted then SyncSpec.PrOpened(env.at) else SyncSpec.Stamped(env.at)
  }

  /** One push to the branch, and one for a pull request where that could be branched off. */
  predicate PushedOnce(effects: seq<Effect>, tree: Tree, env: Env) {
    if env.push.Protected? && env.push.checkedOut then effects == [Push(tree), PushBranch(tree)] else effects == [Push(tree)]
  }

  lemma {:induction false} SettledIs(env: Env)
    ensures EndsAsPushed(Workdir.Settled(env), env)
    ensures forall tree :: PushedOnce(Workdir.Pushes(tree, env.push), tree, env)
  {
  }

  /** What the quality pass leaves in HEAD: the staged files where the hooks let its commit through, what the agent itself
      staged where the staging fails, and the agent's own HEAD where there was no commit. */
  function QualityHead(r: Repo, agentOk: bool, t: Tools): Tree {
    if !agentOk || !t.preCommitOk || !t.commitMsgOk then r.head
    else if t.addOk then Staged(r)
    else if r.unmerged == {} then r.index
    else r.head
  }

  lemma {:induction false} CleanIs(env: Env)
    requires env.aiFix && env.filesMerged && env.agent.Ran?
    ensures Workdir.Clean(env.merged, env).head == QualityHead(env.agent.after, env.agent.ok, env.tools)
    ensures Workdir.Clean(env.merged, env).unmerged == if env.agent.ok && env.tools.addOk then {} else env.agent.after.unmerged
  {
  }

  /** The commonest attempt, a merge without conflicts: it is pushed if and only if the clone, the fetch and the merge
      worked, a quality pass that was due did not throw, and no unmerged path is listed afterwards; what is pushed, and how
      the attempt ends in every other case. */
  method CleanMergeIsPushedIff(env: Env) returns (o: SyncSpec.Outcome, pushed: bool, tree: Tree, trace: seq<Effect>)
    requires !env.listOk || env.merged.unmerged == {}
    ensures var quality := env.aiFix && env.filesMerged;
            var merged := env.cloneOk && env.fetchOk && env.mergeOk;
            var left := if !quality || env.agent.Crashed? then env.merged.unmerged
                        else if env.agent.ok && env.tools.addOk then {} else env.agent.after.unmerged;
            && (pushed <==> merged && !(quality && env.agent.Crashed?) && (!env.recheckOk || left == {}))
            && (!merged ==> o == SyncSpec.Stamped(env.at) && trace == [])
            && (merged && quality && env.agent.Crashed? ==> o == SyncSpec.Threw && trace == [AgentRun])
            && (merged && !(quality && env.agent.Crashed?) && env.recheckOk && left != {} ==>
                  o == SyncSpec.ConflictFailed(env.at, "unmerged paths remain") && trace == if quality then [AgentRun] else [])
            && (pushed ==>
                  && tree == (if quality then QualityHead(env.agent.after, env.agent.ok, env.tools) else env.merged.head)
                  && EndsAsPushed(o, env)
                  && (if quality then trace != [] && trace[0] == AgentRun && PushedOnce(trace[1..], tree, env)
                      else PushedOnce(trace, tree, env)))
  {
    var w := new Workdir(env.merged);
    o, pushed := w.SyncForkRepo(env);
    tree, trace := w.repo.head, w.trace;
    SettledIs(env);
    if env.aiFix && env.filesMerged && env.agent.Ran? {
      CleanIs(env);
    }
  }

  /** The conflicted one: it is pushed if and only if the clone and the fetch worked, conflicts may be resolved, the agent
      did not throw, and what it left is finished; and how the attempt ends in every other case. */
  method ConflictIsPushedIff(env: Env) returns (o: SyncSpec.Outcome, pushed: bool, tree: Tree, trace: seq<Effect>)
    requires env.listOk && env.merged.unmerged != {}
    ensures var cloned := env.cloneOk && env.fetchOk;
            var done := env.agent.Ran? && Finish(env.agent.after, env.tools).1;
            && (pushed <==> cloned && env.resolveConflicts && done)
            && (!cloned ==> o == SyncSpec.Stamped(env.at) && trace == [])
            && (cloned && !env.resolveConflicts ==> o == SyncSpec.ConflictFailed(env.at, "conflict") && trace == [Abort])
            && (cloned && env.resolveConflicts && env.agent.Crashed? ==> o == SyncSpec.Threw && trace == [AgentRun])
            && (cloned && env.resolveConflicts && env.agent.Ran? && !done ==>
                  o == SyncSpec.ConflictFailed(env.at, "conflict") && trace == [AgentRun, Abort])
            && (pushed ==> tree == Finish(env.agent.after, env.tools).0.head && EndsAsPushed(o, env)
                           && trace != [] && trace[0] == AgentRun && PushedOnce(trace[1..], tree, env))
  {
    var w := new Workdir(env.merged);
    o, pushed := w.SyncForkRepo(env);
    tree, trace := w.repo.head, w.trace;
    SettledIs(env);
  }
}
