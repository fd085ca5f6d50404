/** Names of pull request clones: two printers, one parser, and the sweep that trusts the parser. */
module Workdirs {
  import opened Basics
  import opened Text

  /** The position of the last `c`, or -1. */
  function LastIndex(s: string, c: char): (i: int)
    ensures -1 <= i < |s| && (i >= 0 ==> s[i] == c)
  {
    if s == [] then -1 else if s[|s| - 1] == c then |s| - 1 else LastIndex(s[..|s| - 1], c)
  }

  function FirstIndex(s: string, c: char): (i: int)
    ensures -1 <= i < |s| && (i >= 0 ==> s[i] == c)
  {
    if s == [] then -1 else if s[0] == c then 0
    else
      var i := FirstIndex(s[1..], c);
      if i < 0 then -1 else i + 1
  }

  predicate Has(s: string, c: char) {
    exists i :: 0 <= i < |s| && s[i] == c
  }

  predicate IsLineEnd(c: char) {
    c == '\n' || c == '\r' || c == '\U{2028}' || c == '\U{2029}'
  }

  predicate OneLine(s: string) {
    forall i :: 0 <= i < |s| ==> !IsLineEnd(s[i])
  }

  predicate IsLowerOrDigit(c: char) {
    'a' <= c <= 'z' || '0' <= c <= '9'
  }

  /** [a-z0-9]+fix */
  predicate IsFix(s: string) {
    |s| >= 4 && s[|s| - 3..] == "fix" && forall i :: 0 <= i < |s| - 3 ==> IsLowerOrDigit(s[i])
  }

  /** The last part of a name ends it with an infix. */
  predicate EndsInFix(s: string) {
    LastIndex(s, '_') >= 0 && IsFix(s[LastIndex(s, '_') + 1..])
  }

  function StripFix(s: string): string {
    if EndsInFix(s) then s[..LastIndex(s, '_')] else s
  }

  function KeyOf(owner: string, name: string, number: string): string {
    owner + ("/" + (name + ("/" + number)))
  }

  /** A repository part read at its first underscore. */
  function Read(repo: string, number: string): Option<string> {
    var us := FirstIndex(repo, '_');
    if us < 0 then None else Some(KeyOf(repo[..us], repo[us + 1..], number))
  }

  /** workdirPrKey */
  function WorkdirPrKey(dirName: string): Option<string> {
    var last := LastIndex(dirName, '_');
    if last <= 0 || last == |dirName| - 1 || !AllDigits(dirName[last + 1..]) || !OneLine(dirName[..last]) then None
    else Read(StripFix(dirName[..last]), dirName[last + 1..])
  }

  /** The directory of an agent run, and of a lockfile repair by the package manager `id`. */
  function AgentDir(owner: string, name: string, pr: nat): string {
    (owner + ("_" + name)) + ("_" + Decimal(pr))
  }

  function Infix(id: string): string {
    if id == "uv" then "lockfix" else id + "fix"
  }

  function RepairDir(owner: string, name: string, id: string, pr: nat): string {
    ((owner + ("_" + name)) + ("_" + Infix(id))) + ("_" + Decimal(pr))
  }

  lemma {:induction false} LastIndexOf(a: string, c: char, b: string)
    requires !Has(b, c)
    ensures LastIndex(a + ([c] + b), c) == |a|
    decreases |b|
  {
    var s := a + ([c] + b);
    if b != [] {
      var init := b[..|b| - 1];
      assert s[..|s| - 1] == a + ([c] + init);
      assert s[|s| - 1] == b[|b| - 1];
      assert forall i :: 0 <= i < |init| ==> init[i] == b[i];
      LastIndexOf(a, c, init);
    }
  }

  lemma {:induction false} FirstIndexOf(s: string, c: char)
    ensures FirstIndex(s, c) < 0 <==> !Has(s, c)
    ensures FirstIndex(s, c) >= 0 ==> !Has(s[..FirstIndex(s, c)], c)
  {
    if s != [] {
      FirstIndexOf(s[1..], c);
      assert forall i :: 0 < i < |s| ==> s[i] == s[1..][i - 1];
      var i := FirstIndex(s, c);
      if i > 0 {
        assert forall k :: 0 < k < i ==> s[..i][k] == s[1..][..i - 1][k - 1];
      }
    }
  }

  /** Putting a separator between two strings, and cutting there again. */
  lemma Cut(a: string, c: char, b: string)
    ensures var s := a + ([c] + b);
            |s| == |a| + 1 + |b| && s[..|a|] == a && s[|a|] == c && s[|a| + 1..] == b
  {
  }

  lemma {:induction false} FirstIndexAt(a: string, c: char, b: string)
    requires !Has(a, c)
    ensures FirstIndex(a + ([c] + b), c) == |a|
  {
    var s := a + ([c] + b);
    if a != [] {
      assert s[0] == a[0] && s[1..] == a[1..] + ([c] + b);
      assert forall i :: 0 <= i < |a| - 1 ==> a[1..][i] == a[i + 1];
      FirstIndexAt(a[1..], c, b);
    }
  }

  lemma DigitsHaveNoBar(s: string)
    requires AllDigits(s)
    ensures !Has(s, '_')
  {
  }

  /** What the parser sees of any printed name. */
  lemma {:induction false} ParsesTo(front: string, pr: nat)
    requires front != "" && OneLine(front)
    ensures WorkdirPrKey(front + ("_" + Decimal(pr))) == Read(StripFix(front), Decimal(pr))
  {
    var d := Decimal(pr);
    DigitsHaveNoBar(d);
    LastIndexOf(front, '_', d);
    Cut(front, '_', d);
    assert "_" + d == ['_'] + d;
  }

  /** No line ends in the way the parser's dot has them. */
  predicate OnOneLine(s: string) {
    '\n' !in s && '\r' !in s && '\U{2028}' !in s && '\U{2029}' !in s
  }

  lemma {:induction false} OneLineIs(s: string)
    ensures OneLine(s) <==> OnOneLine(s)
  {
    if !OneLine(s) {
      var i :| 0 <= i < |s| && IsLineEnd(s[i]);
      assert s[i] in s;
    }
  }

  lemma {:induction false} ReadAtItsBar(s: string, last: int, front: string, number: string)
    requires last == LastIndex(s, '_') && 0 <= last < |s| && s[..last] == front && s[last + 1..] == number
    requires front != "" && number != "" && AllDigits(number) && OneLine(front)
    ensures WorkdirPrKey(s) == Read(StripFix(front), number)
  {
  }

  /** Every name of the shape is read: something on one line, an underscore, and digits. */
  lemma {:induction false} ShapeIsRead(front: string, number: string)
    requires front != "" && number != "" && AllDigits(number) && OnOneLine(front)
    ensures WorkdirPrKey(front + ("_" + number)) == Read(StripFix(front), number)
  {
    assert "_" + number == ['_'] + number;
    var s := front + (['_'] + number);
    OneLineIs(front);
    DigitsHaveNoBar(number);
    LastIndexOf(front, '_', number);
    Cut(front, '_', number);
    ReadAtItsBar(s, |front|, front, number);
  }

  lemma {:induction false} Rejoined(s: string, last: int)
    requires 0 <= last < |s| && s[last] == '_'
    ensures s == s[..last] + ("_" + s[last + 1..])
  {
    assert s == s[..last] + (['_'] + s[last + 1..]);
  }

  /** And no other name is. */
  lemma {:induction false} OnlyTheShapeIsRead(dirName: string) returns (front: string, number: string)
    requires WorkdirPrKey(dirName).Some?
    ensures dirName == front + ("_" + number) && front != "" && number != "" && AllDigits(number) && OnOneLine(front)
    ensures WorkdirPrKey(dirName) == Read(StripFix(front), number)
  {
    var last := LastIndex(dirName, '_');
    front, number := dirName[..last], dirName[last + 1..];
    OneLineIs(front);
    Rejoined(dirName, last);
  }

  /** What is read of the part before the number: an ending of an underscore, letters or digits and "fix" goes, if there is
      one, and what is left is cut at its first underscore. */
  lemma {:induction false} InfixGoes(repo: string, id: string)
    requires id != "" && forall i :: 0 <= i < |id| ==> IsLowerOrDigit(id[i])
    ensures StripFix(repo + ("_" + (id + "fix"))) == repo
  {
    var x := id + "fix";
    assert x[|x| - 3..] == "fix" && x[|id|] == 'f' && x[|id| + 1] == 'i' && x[|id| + 2] == 'x';
    assert forall i :: 0 <= i < |id| ==> x[i] == id[i];
    StripsInfix(repo, x);
  }

  lemma {:induction false} OnlyAnInfixGoes(front: string) returns (id: string)
    requires StripFix(front) != front
    ensures id != "" && (forall i :: 0 <= i < |id| ==> IsLowerOrDigit(id[i])) && front == StripFix(front) + ("_" + (id + "fix"))
  {
    var last := LastIndex(front, '_');
    var x := front[last + 1..];
    id := x[..|x| - 3];
    assert x == id + "fix";
    assert front == front[..last] + (['_'] + x);
    assert ['_'] + x == "_" + x;
  }

  /** An infix is stripped, and nothing else. */
  lemma StripsInfix(repo: string, x: string)
    requires IsFix(x) && !Has(x, '_')
    ensures StripFix(repo + ("_" + x)) == repo
  {
    LastIndexOf(repo, '_', x);
    Cut(repo, '_', x);
    assert "_" + x == ['_'] + x;
  }

  predicate ValidName(owner: string, name: string) {
    OneLine(owner) && OneLine(name)
  }

  lemma ReadsAtFirst(a: string, b: string, number: string)
    requires !Has(a, '_')
    ensures Read(a + ("_" + b), number) == Some(KeyOf(a, b, number))
  {
    assert "_" + b == ['_'] + b;
    Cut(a, '_', b);
    FirstIndexAt(a, '_', b);
  }

  /** A repository part reads back exactly when the owner has no underscore. */
  lemma ReadsBackIff(owner: string, name: string, number: string)
    ensures Read(owner + ("_" + name), number) == Some(KeyOf(owner, name, number)) <==> !Has(owner, '_')
  {
    if !Has(owner, '_') {
      ReadsAtFirst(owner, name, number);
    } else {
      FirstIndexOf(owner, '_');
      var us := FirstIndex(owner, '_');
      var a, b := owner[..us], owner[us + 1..];
      assert owner == a + ("_" + b);
      Regroup(a, b, name);
      ReadsAtFirst(a, b + ("_" + name), number);
      KeysDiffer(a, b, name, number);
    }
  }

  lemma Regroup(a: string, b: string, c: string)
    ensures (a + ("_" + b)) + ("_" + c) == a + ("_" + (b + ("_" + c)))
  {
  }

  lemma KeysDiffer(a: string, b: string, c: string, number: string)
    ensures KeyOf(a, b + ("_" + c), number) != KeyOf(a + ("_" + b), c, number)
  {
    assert KeyOf(a, b + ("_" + c), number)[|a|] == '/';
    assert KeyOf(a + ("_" + b), c, number)[|a|] == '_';
  }

  lemma ReadIsAsLong(repo: string, number: string)
    ensures Read(repo, number).Some? ==> |Read(repo, number).value| == |repo| + 1 + |number|
  {
  }

  /** The parser inverts the agent's printer exactly when the owner has no underscore and the repository does not end
      the way an infix does. */
  lemma {:induction false} AgentDirRoundTripsIff(owner: string, name: string, pr: nat)
    requires ValidName(owner, name)
    ensures WorkdirPrKey(AgentDir(owner, name, pr)) == Some(KeyOf(owner, name, Decimal(pr))) <==>
            !Has(owner, '_') && !EndsInFix(owner + ("_" + name))
  {
    var front := owner + ("_" + name);
    ParsesTo(front, pr);
    ReadsBackIff(owner, name, Decimal(pr));
    ReadIsAsLong(StripFix(front), Decimal(pr));
    assert |KeyOf(owner, name, Decimal(pr))| == |front| + 1 + |Decimal(pr)|;
  }

  /** Where it does not invert because of such an ending, the clone is taken for a pull request of the repository named
      by what comes before it. */
  lemma {:induction false} TakenForAnother(owner: string, name: string, ending: string, pr: nat)
    requires ValidName(owner, name) && OneLine(ending) && !Has(owner, '_') && IsFix(ending) && !Has(ending, '_')
    ensures WorkdirPrKey(AgentDir(owner, name + ("_" + ending), pr)) == Some(KeyOf(owner, name, Decimal(pr)))
  {
    var repo := owner + ("_" + name);
    assert owner + ("_" + (name + ("_" + ending))) == repo + ("_" + ending);
    ParsesTo(repo + ("_" + ending), pr);
    StripsInfix(repo, ending);
    ReadsBackIff(owner, name, Decimal(pr));
  }

  predicate ValidId(id: string) {
    id != "" && forall i :: 0 <= i < |id| ==> IsLowerOrDigit(id[i])
  }

  lemma InfixIsFix(id: string)
    requires ValidId(id)
    ensures IsFix(Infix(id)) && !Has(Infix(id), '_') && OneLine(Infix(id))
  {
    var x := Infix(id);
    if id == "uv" {
      assert x[..4] == "lock";
      assert forall i :: 0 <= i < 4 ==> x[i] == "lock"[i];
    } else {
      assert x[|x| - 3..] == "fix";
      assert forall i :: 0 <= i < |id| ==> x[i] == id[i];
      assert x[|id|] == 'f' && x[|id| + 1] == 'i' && x[|id| + 2] == 'x';
    }
  }

  /** It inverts the repair's printer exactly when the owner has no underscore. */
  lemma {:induction false} RepairDirRoundTripsIff(owner: string, name: string, id: string, pr: nat)
    requires ValidName(owner, name) && ValidId(id)
    ensures WorkdirPrKey(RepairDir(owner, name, id, pr)) == Some(KeyOf(owner, name, Decimal(pr))) <==> !Has(owner, '_')
  {
    var repo := owner + ("_" + name);
    InfixIsFix(id);
    ParsesTo(repo + ("_" + Infix(id)), pr);
    StripsInfix(repo, Infix(id));
    ReadsBackIff(owner, name, Decimal(pr));
  }

  /** An open pull request's clone that the sweep would take for a closed one's. */
  lemma LiveCloneTakenForAnother()
    ensures WorkdirPrKey(AgentDir("acme", "hot_bugfix", 7)) == Some(KeyOf("acme", "hot", Decimal(7)))
    ensures KeyOf("acme", "hot", Decimal(7)) != KeyOf("acme", "hot_bugfix", Decimal(7))
  {
    assert "hot" + ("_" + "bugfix") == "hot_bugfix";
    assert "bugfix"[3..] == "fix";
    TakenForAnother("acme", "hot", "bugfix", 7);
    assert |KeyOf("acme", "hot", Decimal(7))| != |KeyOf("acme", "hot_bugfix", Decimal(7))|;
  }

  /** A directory listing with the time of the last change to each entry. */
  type Dir = map<string, int>

  /** The names a sweep removes: listed, still there, selected, old enough, and removable. */
  function Swept(dir: Dir, names: seq<string>, shouldRemove: string -> bool, now: int, minAge: int, stuck: set<string>): set<string> {
    set name | name in names && name in dir && shouldRemove(name) && now - dir[name] >= minAge && name !in stuck
  }

  /** What the first `n` names leave behind. */
  function LeftBy(dir: Dir, names: seq<string>, n: nat, shouldRemove: string -> bool, now: int, minAge: int, stuck: set<string>): Dir
    requires n <= |names|
  {
    dir - Swept(dir, names[..n], shouldRemove, now, minAge, stuck)
  }

  /** sweepAged over the names listed; `stuck` cannot be removed, and a name that vanished since the listing is not in
      `dir`. */
  method SweepAged(dir: Dir, names: seq<string>, shouldRemove: string -> bool, now: int, minAge: int, stuck: set<string>)
    returns (left: Dir, removed: nat)
    ensures left == dir - Swept(dir, names, shouldRemove, now, minAge, stuck)
    ensures removed == |dir| - |left|
  {
    left, removed := dir, 0;
    var i := 0;
    while i < |names|
      invariant i <= |names| && left == LeftBy(dir, names, i, shouldRemove, now, minAge, stuck)
      invariant removed == |dir| - |left|
    {
      var name := names[i];
      SweptOneMore(dir, names, i, shouldRemove, now, minAge, stuck, left);
      i := i + 1;
      if !shouldRemove(name) {
        continue;
      }
      if name !in left {
        continue;
      }
      if now - left[name] < minAge {
        continue;
      }
      if name !in stuck {
        OneLess(left, name);
        left, removed := left - {name}, removed + 1;
      }
    }
    assert names[..i] == names;
  }

  lemma SweptOneMore(dir: Dir, names: seq<string>, i: nat, shouldRemove: string -> bool, now: int, minAge: int,
                     stuck: set<string>, left: Dir)
    requires i < |names| && left == LeftBy(dir, names, i, shouldRemove, now, minAge, stuck)
    ensures LeftBy(dir, names, i + 1, shouldRemove, now, minAge, stuck) ==
            if shouldRemove(names[i]) && names[i] in left && now - left[names[i]] >= minAge && names[i] !in stuck
            then left - {names[i]} else left
  {
    var more := Swept(dir, [names[i]], shouldRemove, now, minAge, stuck);
    assert names[..i + 1] == names[..i] + [names[i]];
    assert Swept(dir, names[..i + 1], shouldRemove, now, minAge, stuck) ==
           Swept(dir, names[..i], shouldRemove, now, minAge, stuck) + more;
    assert dir - Swept(dir, names[..i + 1], shouldRemove, now, minAge, stuck) == left - more;
    assert more <= {names[i]};
  }

  /** Recognised, and not open. */
  function NotOpen(openKeys: set<string>): string -> bool {
    (name: string) => WorkdirPrKey(name).Some? && WorkdirPrKey(name).value !in openKeys
  }

  method SweepStaleWorkdirs(dir: Dir, names: seq<string>, openKeys: set<string>, now: int, minAge: int, stuck: set<string>)
    returns (left: Dir, removed: nat)
    ensures left == dir - Swept(dir, names, NotOpen(openKeys), now, minAge, stuck)
    ensures removed == |dir| - |left|
  {
    left, removed := SweepAged(dir, names, NotOpen(openKeys), now, minAge, stuck);
  }

  /** Listed, there, old enough and removable. */
  predicate Exposed(dir: Dir, names: seq<string>, name: string, now: int, minAge: int, stuck: set<string>) {
    name in names && name in dir && now - dir[name] >= minAge && name !in stuck
  }

  /** What stands before the first underscore of a clone's name, and what stands behind it up to the number. */
  function FrontOf(owner: string): string {
    var us := FirstIndex(owner, '_');
    if us < 0 then owner else owner[..us]
  }

  function BackOf(owner: string, name: string): string {
    var us := FirstIndex(owner, '_');
    if us < 0 then name else owner[us + 1..] + ("_" + name)
  }

  /** The pull request an agent's clone is taken for. */
  function TakenFor(front: string, back: string, number: string): Option<string> {
    if !EndsInFix(front + ("_" + back)) then Some(KeyOf(front, back, number))
    else if LastIndex(back, '_') >= 0 then Some(KeyOf(front, back[..LastIndex(back, '_')], number))
    else None
  }

  lemma FrontAndBack(owner: string, name: string)
    ensures owner + ("_" + name) == FrontOf(owner) + ("_" + BackOf(owner, name)) && !Has(FrontOf(owner), '_')
  {
    FirstIndexOf(owner, '_');
    var us := FirstIndex(owner, '_');
    if us >= 0 {
      assert owner == owner[..us] + ("_" + owner[us + 1..]);
      Regroup(owner[..us], owner[us + 1..], name);
    }
  }

  lemma {:induction false} LastIndexIsLast(s: string, c: char)
    ensures LastIndex(s, c) < 0 <==> !Has(s, c)
    ensures LastIndex(s, c) >= 0 ==> !Has(s[LastIndex(s, c) + 1..], c)
  {
    if s != [] && s[|s| - 1] != c {
      var init := s[..|s| - 1];
      LastIndexIsLast(init, c);
      assert forall i :: 0 <= i < |init| ==> init[i] == s[i];
      var last := LastIndex(s, c);
      if last >= 0 {
        var tail, before := s[last + 1..], init[last + 1..];
        assert tail == before + [s[|s| - 1]];
        if i :| 0 <= i < |tail| && tail[i] == c {
          assert before[i] == c;
        }
      }
    }
  }

  /** Where the last underscore of the two parts stands. */
  lemma {:induction false} LastOfParts(front: string, back: string)
    ensures LastIndex(front + ("_" + back), '_') == if LastIndex(back, '_') < 0 then |front| else |front| + 1 + LastIndex(back, '_')
  {
    LastIndexIsLast(back, '_');
    assert "_" + back == ['_'] + back;
    var last := LastIndex(back, '_');
    if last < 0 {
      LastIndexOf(front, '_', back);
    } else {
      var a, b := back[..last], back[last + 1..];
      assert "_" + b == ['_'] + b;
      assert back == a + ("_" + b);
      Regroup(front, a, b);
      LastIndexOf(front + ("_" + a), '_', b);
    }
  }

  lemma {:induction false} AgentDirIsTakenFor(owner: string, name: string, pr: nat)
    requires ValidName(owner, name)
    ensures WorkdirPrKey(AgentDir(owner, name, pr)) == TakenFor(FrontOf(owner), BackOf(owner, name), Decimal(pr))
  {
    var front, back := FrontOf(owner), BackOf(owner, name);
    var whole := front + ("_" + back);
    FrontAndBack(owner, name);
    ParsesTo(owner + ("_" + name), pr);
    LastOfParts(front, back);
    if !EndsInFix(whole) {
      ReadsAtFirst(front, back, Decimal(pr));
    } else if LastIndex(back, '_') >= 0 {
      var kept := back[..LastIndex(back, '_')];
      assert StripFix(whole) == front + ("_" + kept);
      ReadsAtFirst(front, kept, Decimal(pr));
    } else {
      assert StripFix(whole) == front;
      FirstIndexOf(front, '_');
    }
  }

  /** What the sweep does to any name. */
  lemma {:induction false} SweptIff(dir: Dir, names: seq<string>, clone: string, key: Option<string>, openKeys: set<string>,
                                    now: int, minAge: int, stuck: set<string>)
    requires key == WorkdirPrKey(clone)
    ensures clone in Swept(dir, names, NotOpen(openKeys), now, minAge, stuck) <==>
            Exposed(dir, names, clone, now, minAge, stuck) && key.Some? && key.value !in openKeys
  {
  }

  /** Exactly when the sweep removes an agent's clone, of a pull request that is open for instance: it is exposed, and what
      it is taken for is not open. */
  lemma {:induction false} CloneIsSweptIff(dir: Dir, names: seq<string>, owner: string, name: string, pr: nat, openKeys: set<string>,
                                           now: int, minAge: int, stuck: set<string>)
    requires ValidName(owner, name)
    ensures var clone := AgentDir(owner, name, pr);
            var taken := TakenFor(FrontOf(owner), BackOf(owner, name), Decimal(pr));
            clone in Swept(dir, names, NotOpen(openKeys), now, minAge, stuck) <==>
            Exposed(dir, names, clone, now, minAge, stuck) && taken.Some? && taken.value !in openKeys
  {
    AgentDirIsTakenFor(owner, name, pr);
    SweptIff(dir, names, AgentDir(owner, name, pr), TakenFor(FrontOf(owner), BackOf(owner, name), Decimal(pr)), openKeys, now, minAge, stuck);
  }

  lemma {:induction false} PlainOwner(owner: string, name: string)
    requires !Has(owner, '_')
    ensures FrontOf(owner) == owner && BackOf(owner, name) == name
  {
    FirstIndexOf(owner, '_');
  }

  /** Where the owner has no underscore, an open pull request's clone is swept exactly when it is exposed, its name ends like
      an infix, and the repository named by what comes before that, if there is one, has no open pull request of that
      number. */
  lemma {:induction false} OpenCloneIsSweptIff(dir: Dir, names: seq<string>, owner: string, name: string, pr: nat,
                                               openKeys: set<string>, now: int, minAge: int, stuck: set<string>)
    requires ValidName(owner, name) && !Has(owner, '_') && KeyOf(owner, name, Decimal(pr)) in openKeys
    ensures var clone := AgentDir(owner, name, pr);
            var last := LastIndex(name, '_');
            clone in Swept(dir, names, NotOpen(openKeys), now, minAge, stuck) <==>
            && Exposed(dir, names, clone, now, minAge, stuck)
            && EndsInFix(owner + ("_" + name)) && last >= 0 && KeyOf(owner, name[..last], Decimal(pr)) !in openKeys
  {
    PlainOwner(owner, name);
    CloneIsSweptIff(dir, names, owner, name, pr, openKeys, now, minAge, stuck);
  }

  /** And a repair's: exposed, and the owner has an underscore, so that it is taken for what is not open. */
  lemma {:induction false} OpenRepairIsSweptIff(dir: Dir, names: seq<string>, owner: string, name: string, id: string, pr: nat, openKeys: set<string>,
                             now: int, minAge: int, stuck: set<string>)
    requires ValidName(owner, name) && ValidId(id) && KeyOf(owner, name, Decimal(pr)) in openKeys
    ensures var clone := RepairDir(owner, name, id, pr);
            clone in Swept(dir, names, NotOpen(openKeys), now, minAge, stuck) <==>
            && Exposed(dir, names, clone, now, minAge, stuck)
            && Has(owner, '_') && KeyOf(FrontOf(owner), BackOf(owner, name), Decimal(pr)) !in openKeys
  {
    RepairDirIsTakenFor(owner, name, id, pr);
    SweptIff(dir, names, RepairDir(owner, name, id, pr), Some(KeyOf(FrontOf(owner), BackOf(owner, name), Decimal(pr))), openKeys,
             now, minAge, stuck);
    if !Has(owner, '_') {
      PlainOwner(owner, name);
    }
  }

  lemma {:induction false} RepairDirIsTakenFor(owner: string, name: string, id: string, pr: nat)
    requires ValidName(owner, name) && ValidId(id)
    ensures WorkdirPrKey(RepairDir(owner, name, id, pr)) == Some(KeyOf(FrontOf(owner), BackOf(owner, name), Decimal(pr)))
  {
    var repo := owner + ("_" + name);
    InfixIsFix(id);
    ParsesTo(repo + ("_" + Infix(id)), pr);
    StripsInfix(repo, Infix(id));
    FrontAndBack(owner, name);
    ReadsAtFirst(FrontOf(owner), BackOf(owner, name), Decimal(pr));
  }

  /** So no clone of an open pull request is ever removed, whatever its age, where its name reads back. */
  lemma {:induction false} OpenCloneSurvives(dir: Dir, names: seq<string>, owner: string, name: string, id: string, pr: nat,
                                             openKeys: set<string>, now: int, minAge: int, stuck: set<string>)
    requires ValidName(owner, name) && ValidId(id) && !Has(owner, '_')
    requires KeyOf(owner, name, Decimal(pr)) in openKeys
    ensures RepairDir(owner, name, id, pr) !in Swept(dir, names, NotOpen(openKeys), now, minAge, stuck)
    ensures !EndsInFix(owner + ("_" + name)) ==>
            AgentDir(owner, name, pr) !in Swept(dir, names, NotOpen(openKeys), now, minAge, stuck)
  {
    OpenCloneIsSweptIff(dir, names, owner, name, pr, openKeys, now, minAge, stuck);
    OpenRepairIsSweptIff(dir, names, owner, name, id, pr, openKeys, now, minAge, stuck);
  }

  predicate NoSlash(s: string) {
    !Has(s, '/')
  }

  lemma {:induction false} SlashCuts(a1: string, b1: string, a2: string, b2: string)
    requires NoSlash(a1) && NoSlash(a2) && a1 + ("/" + b1) == a2 + ("/" + b2)
    ensures a1 == a2 && b1 == b2
  {
    assert "/" + b1 == ['/'] + b1 && "/" + b2 == ['/'] + b2;
    CutIsInjective(a1, '/', b1, a2, b2);
  }

  lemma {:induction false} KeyIsInjective(o1: string, n1: string, p1: nat, o2: string, n2: string, p2: nat)
    requires NoSlash(o1) && NoSlash(n1) && NoSlash(o2) && NoSlash(n2)
    requires KeyOf(o1, n1, Decimal(p1)) == KeyOf(o2, n2, Decimal(p2))
    ensures o1 == o2 && n1 == n2 && p1 == p2
  {
    SlashCuts(o1, n1 + ("/" + Decimal(p1)), o2, n2 + ("/" + Decimal(p2)));
    SlashCuts(n1, Decimal(p1), n2, Decimal(p2));
    DecimalIsInjective(p1, p2);
  }

  /** Two pull requests whose names read back never share a directory. */
  lemma AgentDirsAreInjective(o1: string, n1: string, p1: nat, o2: string, n2: string, p2: nat)
    requires ValidName(o1, n1) && NoSlash(o1) && NoSlash(n1) && !Has(o1, '_') && !EndsInFix(o1 + ("_" + n1))
    requires ValidName(o2, n2) && NoSlash(o2) && NoSlash(n2) && !Has(o2, '_') && !EndsInFix(o2 + ("_" + n2))
    requires AgentDir(o1, n1, p1) == AgentDir(o2, n2, p2)
    ensures o1 == o2 && n1 == n2 && p1 == p2
  {
    AgentDirRoundTripsIff(o1, n1, p1);
    AgentDirRoundTripsIff(o2, n2, p2);
    KeyIsInjective(o1, n1, p1, o2, n2, p2);
  }

  /** Nor do a repair's clone and an agent's, or the repairs of two package managers. */
  lemma RepairDirsAreApart(o1: string, n1: string, id1: string, p1: nat, o2: string, n2: string, id2: string, p2: nat)
    requires ValidName(o1, n1) && NoSlash(o1) && NoSlash(n1) && !Has(o1, '_') && ValidId(id1)
    requires ValidName(o2, n2) && NoSlash(o2) && NoSlash(n2) && !Has(o2, '_') && ValidId(id2)
    ensures RepairDir(o1, n1, id1, p1) == RepairDir(o2, n2, id2, p2) ==>
            o1 == o2 && n1 == n2 && p1 == p2 && Infix(id1) == Infix(id2)
    ensures !EndsInFix(o2 + ("_" + n2)) ==> RepairDir(o1, n1, id1, p1) != AgentDir(o2, n2, p2)
  {
    RepairDirRoundTripsIff(o1, n1, id1, p1);
    RepairDirRoundTripsIff(o2, n2, id2, p2);
    AgentDirRoundTripsIff(o2, n2, p2);
    if RepairDir(o1, n1, id1, p1) == RepairDir(o2, n2, id2, p2) {
      KeyIsInjective(o1, n1, p1, o2, n2, p2);
      SameInfix(o1 + ("_" + n1), "_" + Infix(id1), "_" + Infix(id2), "_" + Decimal(p1));
      assert ("_" + Infix(id1))[1..] == Infix(id1) && ("_" + Infix(id2))[1..] == Infix(id2);
    }
    if !EndsInFix(o2 + ("_" + n2)) && RepairDir(o1, n1, id1, p1) == AgentDir(o2, n2, p2) {
      KeyIsInjective(o1, n1, p1, o2, n2, p2);
    }
  }

  lemma SameInfix(front: string, x: string, y: string, back: string)
    requires (front + x) + back == (front + y) + back
    ensures x == y
  {
    assert |x| == |y|;
    assert forall i :: 0 <= i < |x| ==> x[i] == ((front + x) + back)[|front| + i] && y[i] == ((front + y) + back)[|front| + i];
  }
}
