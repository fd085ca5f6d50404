/** What extending a patch puts around a hunk, told from the two files alone. */
module ExtendCases {
  import opened Basics
  import opened Text
  import opened Patches
  import opened ExtendSpec
  import opened ExtendTheorems

  /** The hunk begins inside both files. */
  predicate Starts(h: Line, base: seq<string>, head: seq<string>) {
    h.Hdr? && 1 <= h.start1 <= |base| && 1 <= h.start2 <= |head|
  }

  /** The line `p` lines above line `at` of a file. */
  function LineUp(file: seq<string>, at: int, p: int): string {
    if 0 <= at - 1 - p < |file| then file[at - 1 - p] else ""
  }

  /** The last `q` lines in front of the hunk are the same in both files. */
  predicate SharedFront(h: Line, base: seq<string>, head: seq<string>, q: nat)
    requires Starts(h, base, head)
  {
    q < h.start1 && q < h.start2 && base[h.start1 - 1 - q..h.start1 - 1] == head[h.start2 - 1 - q..h.start2 - 1]
  }

  /** Of the `d` lines in front of the hunk, as many in both files, the one `q` lines up is the farthest that holds the
      section text, and from it on the files agree. */
  predicate DeclaredAt(h: Line, base: seq<string>, head: seq<string>, d: nat, q: nat)
    requires Starts(h, base, head)
  {
    var n := Min(d, h.start1 - 1);
    && h.section != "" && 1 <= q <= n && n == Min(d, h.start2 - 1)
    && Includes(LineUp(base, h.start1, q), h.section)
    && (forall p :: q < p <= n ==> !Includes(LineUp(base, h.start1, p), h.section))
    && SharedFront(h, base, head, q)
  }

  /** Of the `n` lines in front, as many in both files, the last `q` are the same and the one before is not; where the
      files do not have as many, `q` is none. */
  predicate TailAt(h: Line, base: seq<string>, head: seq<string>, n: nat, q: nat)
    requires Starts(h, base, head)
  {
    if Min(n, h.start1 - 1) != Min(n, h.start2 - 1) then q == 0
    else
      && q <= Min(n, h.start1 - 1) && SharedFront(h, base, head, q)
      && (q < Min(n, h.start1 - 1) ==> LineUp(base, h.start1, q + 1) != LineUp(head, h.start2, q + 1))
  }

  /** Nothing is shared although there was something to share. */
  predicate Unshared(h: Line, n: nat, q: nat)
    requires h.Hdr?
  {
    q == 0 && (Min(n, h.start1 - 1) != 0 || Min(n, h.start2 - 1) != 0)
  }

  /** The first line is context and is not the line of the base it should be, white space around them apart. */
  predicate Contradicts(k: Hunk, base: seq<string>)
    requires k.header.Hdr?
  {
    k.body != [] && k.body[0].Ctx?
    && Trim(k.body[0].text) != Trim(LineUp(base, k.header.start1, 0))
  }

  /** `e` is `k` with `q` lines of the base in front and `m` behind. */
  predicate Surrounded(e: Hunk, k: Hunk, base: seq<string>, q: nat, m: nat)
    requires k.header.Hdr? && q < k.header.start1 && k.header.size1 >= 0 && k.header.start1 - 1 + k.header.size1 + m <= |base|
  {
    var ends := k.header.start1 - 1 + k.header.size1;
    e.body == Context(base[k.header.start1 - 1 - q..k.header.start1 - 1]) + k.body + Context(base[ends..ends + m])
  }

  /** The new header starts `q` lines up and counts `counted` lines more, in its numbers and in its characters. */
  predicate HeadedBy(e: Line, h: Line, q: nat, counted: nat, section: string)
    requires h.Hdr? && q < h.start1
  {
    && q < h.start2 && e.Hdr? && e.section == section
    && e.start1 == h.start1 - q && e.size1 == h.size1 + counted && e.start2 == h.start2 - q && e.size2 == h.size2 + counted
    && e.text == Numerals(e.start1, e.size1, e.start2, e.size2) + (" " + section)
  }

  lemma {:induction false} FirstWithIs(lines: seq<string>, section: string, j: nat)
    requires j <= |lines|
    ensures var r := FirstWith(lines, section, j);
            && (r < |lines| ==> Includes(lines[r], section))
            && forall i :: j <= i < r ==> !Includes(lines[i], section)
    decreases |lines| - j
  {
    if j < |lines| && !Includes(lines[j], section) {
      FirstWithIs(lines, section, j + 1);
    }
  }

  /** A lead as a slice of its file. */
  lemma {:induction false} LeadIsSlice(lead: seq<string>, file: seq<string>, start: int, at: int)
    requires ShowsAt(lead, file, start) && start + |lead| == at
    ensures file[at - 1 - |lead|..at - 1] == lead
  {
  }

  /** Where the two files agree in front of a hunk, told by the tails of their leads. */
  lemma {:induction false} FrontIsTail(h: Line, base: seq<string>, head: seq<string>, a: seq<string>, b: seq<string>, q: nat)
    requires Starts(h, base, head) && |a| < h.start1 && |b| < h.start2 && q <= |a| && q <= |b|
    requires a == base[h.start1 - 1 - |a|..h.start1 - 1] && b == head[h.start2 - 1 - |b|..h.start2 - 1]
    ensures SharedFront(h, base, head, q) <==> a[|a| - q..] == b[|b| - q..]
  {
    assert a[|a| - q..] == base[h.start1 - 1 - q..h.start1 - 1];
    assert b[|b| - q..] == head[h.start2 - 1 - q..h.start2 - 1];
  }

  /** The lines of a lead, counted from the hunk. */
  lemma {:induction false} LineOfLead(file: seq<string>, at: int, a: seq<string>, i: nat)
    requires 1 <= at <= |file| && |a| < at && a == file[at - 1 - |a|..at - 1] && i < |a|
    ensures a[i] == LineUp(file, at, |a| - i)
  {
  }

  predicate AreLeads(h: Line, base: seq<string>, head: seq<string>, d: nat, a: seq<string>, b: seq<string>) {
    && Starts(h, base, head) && |a| == Min(d, h.start1 - 1) && |b| == Min(d, h.start2 - 1)
    && a == base[h.start1 - 1 - |a|..h.start1 - 1] && b == head[h.start2 - 1 - |b|..h.start2 - 1]
  }

  /** No line farther up holds the section text. */
  lemma {:induction false} NoneFarther(h: Line, base: seq<string>, a: seq<string>, j: nat)
    requires h.Hdr? && 1 <= h.start1 <= |base| && |a| < h.start1 && a == base[h.start1 - 1 - |a|..h.start1 - 1]
    requires j == FirstWith(a, h.section, 0) < |a|
    ensures Includes(LineUp(base, h.start1, |a| - j), h.section)
    ensures forall p :: |a| - j < p <= |a| ==> !Includes(LineUp(base, h.start1, p), h.section)
  {
    FirstWithIs(a, h.section, 0);
    LineOfLead(base, h.start1, a, j);
    forall p | |a| - j < p <= |a| ensures !Includes(LineUp(base, h.start1, p), h.section) {
      LineOfLead(base, h.start1, a, |a| - p);
    }
  }

  /** The search, on the leads themselves. */
  lemma {:induction false} FoundInLeads(h: Line, base: seq<string>, head: seq<string>, d: nat, a: seq<string>, b: seq<string>, j: nat)
    requires AreLeads(h, base, head, d, a, b) && j == FirstWith(a, h.section, 0)
    requires h.section != "" && j < |a| && a[j..] == Slice(b, j, |head|)
    ensures DeclaredAt(h, base, head, d, |a| - j)
  {
    NoneFarther(h, base, a, j);
    TailOfSlice(a, b, j, |head|);
    FrontIsTail(h, base, head, a, b, |a| - j);
  }

  lemma {:induction false} FirstInLead(h: Line, base: seq<string>, head: seq<string>, d: nat, a: seq<string>, q: nat)
    requires Starts(h, base, head) && |a| == Min(d, h.start1 - 1) && a == base[h.start1 - 1 - |a|..h.start1 - 1]
    requires DeclaredAt(h, base, head, d, q)
    ensures FirstWith(a, h.section, 0) == |a| - q
  {
    var j := FirstWith(a, h.section, 0);
    FirstWithIs(a, h.section, 0);
    LineOfLead(base, h.start1, a, |a| - q);
    if j < |a| {
      LineOfLead(base, h.start1, a, j);
    }
  }

  lemma {:induction false} DeclaredInLeads(h: Line, base: seq<string>, head: seq<string>, d: nat, a: seq<string>, b: seq<string>, q: nat)
    requires AreLeads(h, base, head, d, a, b) && DeclaredAt(h, base, head, d, q)
    ensures FirstWith(a, h.section, 0) == |a| - q && a[|a| - q..] == Slice(b, |a| - q, |head|)
  {
    FirstInLead(h, base, head, d, a, q);
    FrontIsTail(h, base, head, a, b, q);
    SliceToTheEnd(b, |a| - q, |head|);
  }

  lemma {:induction false} SliceToTheEnd(b: seq<string>, j: nat, n: nat)
    requires j <= |b| <= n
    ensures Slice(b, j, n) == b[j..]
  {
  }

  /** The leads the search looks at. */
  lemma {:induction false} LeadsAre(k: Hunk, base: seq<string>, head: seq<string>, cfg: Config, d: nat, a: seq<string>, b: seq<string>)
    requires Fits(k, base, head)
    requires a == BaseLead(k.header, LimitsFor(k.header, d, cfg.after, |base|), base)
    requires b == HeadLead(k.header, LimitsFor(k.header, d, cfg.after, |base|), head)
    ensures AreLeads(k.header, base, head, d, a, b)
  {
    LimitsAre(k, base, head, cfg, d);
  }

  lemma {:induction false} FoundMeans(h: Line, base: seq<string>, head: seq<string>, cfg: Config, a: seq<string>, b: seq<string>)
    requires h.Hdr? && head != []
    requires a == BaseLead(h, DynamicLimits(h, base, cfg), base) && b == HeadLead(h, DynamicLimits(h, base, cfg), head)
    ensures var j := FirstWith(a, h.section, 0);
            HeaderFound(h, base, head, cfg) <==> cfg.dynamic && h.section != "" && j < |a| && a[j..] == Slice(b, j, |head|)
  {
  }

  /** When the dynamic search succeeds, and where. */
  lemma {:induction false} FoundThere(k: Hunk, base: seq<string>, head: seq<string>, cfg: Config)
    requires Fits(k, base, head) && HeaderFound(k.header, base, head, cfg)
    ensures cfg.dynamic
    ensures DeclaredAt(k.header, base, head, Min(cfg.maxDynamicBefore, 10), |Lead(k.header, base, head, cfg)|)
  {
    var h, d := k.header, Min(cfg.maxDynamicBefore, 10);
    var a, b := BaseLead(h, DynamicLimits(h, base, cfg), base), HeadLead(h, DynamicLimits(h, base, cfg), head);
    LeadsAre(k, base, head, cfg, d, a, b);
    FoundMeans(h, base, head, cfg, a, b);
    FoundInLeads(h, base, head, d, a, b, FirstWith(a, h.section, 0));
    FoundLead(k, base, head, cfg);
  }

  lemma {:induction false} ThereIsFound(k: Hunk, base: seq<string>, head: seq<string>, cfg: Config, q: nat)
    requires Fits(k, base, head) && cfg.dynamic
    requires DeclaredAt(k.header, base, head, Min(cfg.maxDynamicBefore, 10), q)
    ensures HeaderFound(k.header, base, head, cfg)
  {
    var h, d := k.header, Min(cfg.maxDynamicBefore, 10);
    var a, b := BaseLead(h, DynamicLimits(h, base, cfg), base), HeadLead(h, DynamicLimits(h, base, cfg), head);
    LeadsAre(k, base, head, cfg, d, a, b);
    DeclaredInLeads(h, base, head, d, a, b, q);
    FoundMeans(h, base, head, cfg, a, b);
  }

  lemma {:induction false} FoundLead(k: Hunk, base: seq<string>, head: seq<string>, cfg: Config)
    requires Fits(k, base, head) && HeaderFound(k.header, base, head, cfg)
    ensures var a := BaseLead(k.header, DynamicLimits(k.header, base, cfg), base);
            |Lead(k.header, base, head, cfg)| == |a| - FirstWith(a, k.header.section, 0)
  {
    var h := k.header;
    var d := DynamicLimits(h, base, cfg);
    LeadsOf(k, base, head, cfg, Min(cfg.maxDynamicBefore, MAX_EXTRA_LINES));
    var j := FirstWith(BaseLead(h, d, base), h.section, 0);
    ShiftedLimits(h, d, base, head, j);
  }

  /** The leads the mini-match narrows where the search fails. */
  lemma {:induction false} PlainLeads(k: Hunk, base: seq<string>, head: seq<string>, cfg: Config, a: seq<string>, b: seq<string>)
    requires Fits(k, base, head) && !HeaderFound(k.header, base, head, cfg)
    requires a == BaseLead(k.header, Chosen(k.header, base, head, cfg), base)
    requires b == HeadLead(k.header, Chosen(k.header, base, head, cfg), head)
    ensures AreLeads(k.header, base, head, cfg.before, a, b)
  {
    LeadsAre(k, base, head, cfg, cfg.before, a, b);
  }

  lemma {:induction false} LeadMeans(h: Line, base: seq<string>, head: seq<string>, cfg: Config, a: seq<string>, b: seq<string>)
    requires h.Hdr?
    requires a == BaseLead(h, Chosen(h, base, head, cfg), base) && b == HeadLead(h, Chosen(h, base, head, cfg), head)
    ensures Lead(h, base, head, cfg) == a[Drop(head, a, b)..] && Reset(h, base, head, cfg) == NothingKept(head, a, b)
  {
  }

  lemma {:induction false} UnsharedIs(h: Line, head: seq<string>, n: nat, a: seq<string>, b: seq<string>, left: seq<string>)
    requires h.Hdr? && |a| == Min(n, h.start1 - 1) && |b| == Min(n, h.start2 - 1)
    requires head != [] && left == a[Drop(head, a, b)..]
    ensures NothingKept(head, a, b) == Unshared(h, n, |left|) && (|a| != |b| ==> left == [])
  {
    NothingKeptMeans(head, a, b);
  }

  /** What the mini-match leaves of two leads. */
  lemma {:induction false} TailLeft(h: Line, base: seq<string>, head: seq<string>, n: nat, a: seq<string>, b: seq<string>, left: seq<string>)
    requires AreLeads(h, base, head, n, a, b) && left == a[Drop(head, a, b)..]
    ensures TailAt(h, base, head, n, |left|)
  {
    if |a| == |b| {
      LongestLeft(head, a, b, left);
      TailOfLeads(h, base, head, n, a, b, |left|);
    } else {
      UnsharedIs(h, head, n, a, b, left);
    }
  }

  lemma {:induction false} LongestLeft(head: seq<string>, a: seq<string>, b: seq<string>, left: seq<string>)
    requires |a| == |b| && head != [] && left == a[Drop(head, a, b)..]
    ensures |left| <= |a| && a[|a| - |left|..] == b[|a| - |left|..]
    ensures |left| < |a| ==> a[|a| - |left| - 1..] != b[|a| - |left| - 1..]
  {
    if a != b {
      LongestTail(a, b);
    }
  }

  /** Where the search fails, the mini-match has the last word. */
  lemma {:induction false} TailIff(k: Hunk, base: seq<string>, head: seq<string>, cfg: Config)
    requires Fits(k, base, head) && !HeaderFound(k.header, base, head, cfg)
    ensures TailAt(k.header, base, head, cfg.before, |Lead(k.header, base, head, cfg)|)
    ensures Reset(k.header, base, head, cfg) == Unshared(k.header, cfg.before, |Lead(k.header, base, head, cfg)|)
  {
    var h := k.header;
    var a, b := BaseLead(h, Chosen(h, base, head, cfg), base), HeadLead(h, Chosen(h, base, head, cfg), head);
    PlainLeads(k, base, head, cfg, a, b);
    LeadMeans(h, base, head, cfg, a, b);
    TailLeft(h, base, head, cfg.before, a, b, Lead(h, base, head, cfg));
    UnsharedIs(h, head, cfg.before, a, b, Lead(h, base, head, cfg));
  }

  lemma {:induction false} NothingKeptMeans(head: seq<string>, a: seq<string>, b: seq<string>)
    requires head != []
    ensures NothingKept(head, a, b) <==> a[Drop(head, a, b)..] == [] && (a != [] || b != [])
    ensures |a| != |b| ==> a[Drop(head, a, b)..] == []
  {
    if a != b {
      NoMatchIff(a, b);
    }
  }

  lemma {:induction false} LineAbove(h: Line, base: seq<string>, head: seq<string>, a: seq<string>, b: seq<string>, j: nat)
    requires Starts(h, base, head) && |a| == |b| < h.start1 && |b| < h.start2 && j < |a|
    requires a == base[h.start1 - 1 - |a|..h.start1 - 1] && b == head[h.start2 - 1 - |b|..h.start2 - 1]
    requires a[j + 1..] == b[j + 1..] && a[j..] != b[j..]
    ensures LineUp(base, h.start1, |a| - j) != LineUp(head, h.start2, |a| - j)
  {
    assert a[j..] == [a[j]] + a[j + 1..] && b[j..] == [b[j]] + b[j + 1..];
    LineOfLead(base, h.start1, a, j);
    LineOfLead(head, h.start2, b, j);
  }

  lemma {:induction false} TailOfLeads(h: Line, base: seq<string>, head: seq<string>, n: nat, a: seq<string>, b: seq<string>, q: nat)
    requires Starts(h, base, head) && |a| == |b| == Min(n, h.start1 - 1) == Min(n, h.start2 - 1) && q <= |a|
    requires a == base[h.start1 - 1 - |a|..h.start1 - 1] && b == head[h.start2 - 1 - |b|..h.start2 - 1]
    requires a[|a| - q..] == b[|a| - q..] && (q < |a| ==> a[|a| - q - 1..] != b[|a| - q - 1..])
    ensures TailAt(h, base, head, n, q)
  {
    FrontIsTail(h, base, head, a, b, q);
    if q < |a| {
      LineAbove(h, base, head, a, b, |a| - q - 1);
    }
  }

  /** The section text of the new header. */
  predicate SectionIs(h: Line, base: seq<string>, cfg: Config, found: bool, q: nat, section: string)
    requires h.Hdr? && q < h.start1 <= |base|
  {
    section == if found || (!cfg.dynamic && exists p :: 1 <= p <= q && Includes(" " + LineUp(base, h.start1, p), h.section))
               then "" else h.section
  }

  lemma {:induction false} SomeLineOf(lead: seq<string>, base: seq<string>, at: int, section: string)
    requires 1 <= at <= |base| && |lead| < at && lead == base[at - 1 - |lead|..at - 1]
    ensures (exists l | l in lead :: Includes(" " + l, section)) <==>
            exists p :: 1 <= p <= |lead| && Includes(" " + LineUp(base, at, p), section)
  {
    if l :| l in lead && Includes(" " + l, section) {
      var i :| 0 <= i < |lead| && lead[i] == l;
      LineOfLead(base, at, lead, i);
      assert Includes(" " + LineUp(base, at, |lead| - i), section);
    }
    if p :| 1 <= p <= |lead| && Includes(" " + LineUp(base, at, p), section) {
      LineOfLead(base, at, lead, |lead| - p);
      assert lead[|lead| - p] in lead;
    }
  }

  lemma {:induction false} SectionOf(k: Hunk, base: seq<string>, head: seq<string>, cfg: Config)
    requires Fits(k, base, head)
    ensures var h, q := k.header, |Lead(k.header, base, head, cfg)|;
            q < h.start1 && SectionIs(h, base, cfg, HeaderFound(h, base, head, cfg), q, Section(h, base, head, cfg))
  {
    var lead := Lead(k.header, base, head, cfg);
    LeadSlice(k, base, head, cfg, lead);
    SomeLineOf(lead, base, k.header.start1, k.header.section);
  }

  lemma {:induction false} LeadStarts(k: Hunk, base: seq<string>, head: seq<string>, cfg: Config, lead: seq<string>)
    returns (start1: int)
    requires Fits(k, base, head) && lead == Lead(k.header, base, head, cfg)
    ensures ShowsAt(lead, base, start1) && start1 + |lead| == k.header.start1
  {
    LeadIsShared(k, base, head, cfg);
    start1 := Final(k.header, base, head, cfg).start1;
  }

  lemma {:induction false} LeadSlice(k: Hunk, base: seq<string>, head: seq<string>, cfg: Config, lead: seq<string>)
    requires Fits(k, base, head) && lead == Lead(k.header, base, head, cfg)
    ensures |lead| < k.header.start1
    ensures lead == base[k.header.start1 - 1 - |lead|..k.header.start1 - 1]
  {
    var start1 := LeadStarts(k, base, head, cfg, lead);
    LeadIsSlice(lead, base, start1, k.header.start1);
  }

  /** How many lines of the base are left behind the hunk, of those asked for. */
  function LinesBehind(h: Line, base: seq<string>, after: nat): int
    requires h.Hdr?
  {
    Min(after, |base| - (h.start1 - 1 + h.size1))
  }

  /** How the lines in front are chosen, and what that makes of the section text. */
  ghost predicate FrontIs(h: Line, base: seq<string>, head: seq<string>, cfg: Config, q: nat, found: bool, section: string)
    requires Starts(h, base, head)
  {
    && (found <==> cfg.dynamic && exists p :: DeclaredAt(h, base, head, Min(cfg.maxDynamicBefore, 10), p))
    && (if found then DeclaredAt(h, base, head, Min(cfg.maxDynamicBefore, 10), q) else TailAt(h, base, head, cfg.before, q))
    && q < h.start1 && SectionIs(h, base, cfg, found, q, section)
  }

  lemma {:induction false} FrontOfHunk(k: Hunk, base: seq<string>, head: seq<string>, cfg: Config, q: nat, found: bool, section: string)
    requires Fits(k, base, head)
    requires q == |Lead(k.header, base, head, cfg)| && found == HeaderFound(k.header, base, head, cfg)
    requires section == Section(k.header, base, head, cfg)
    ensures FrontIs(k.header, base, head, cfg, q, found, section)
    ensures Reset(k.header, base, head, cfg) == (!found && Unshared(k.header, cfg.before, q))
  {
    SectionOf(k, base, head, cfg);
    if found {
      FoundThere(k, base, head, cfg);
      NotReset(k, base, head, cfg);
    } else {
      TailIff(k, base, head, cfg);
      if cfg.dynamic {
        if p :| DeclaredAt(k.header, base, head, Min(cfg.maxDynamicBefore, 10), p) {
          ThereIsFound(k, base, head, cfg, p);
        }
      }
    }
  }

  lemma {:induction false} NotReset(k: Hunk, base: seq<string>, head: seq<string>, cfg: Config)
    requires Fits(k, base, head) && HeaderFound(k.header, base, head, cfg)
    ensures !Reset(k.header, base, head, cfg)
  {
    ResetIff(k, base, head, cfg);
  }

  lemma {:induction false} NoContradiction(k: Hunk, e: Hunk, base: seq<string>, head: seq<string>, cfg: Config, lead: seq<string>, trail: seq<string>)
    requires k.header.Hdr? && !Contradicts(k, base) && e == ExtendHunk(k, base, head, cfg)
    requires lead == Lead(k.header, base, head, cfg) && trail == if cfg.after > 0 then Trail(k.header, base, cfg) else []
    ensures e.body == Context(lead) + k.body + Context(trail)
  {
  }

  lemma {:induction false} HeaderWritten(k: Hunk, e: Hunk, base: seq<string>, head: seq<string>, cfg: Config)
    requires k.header.Hdr? && !Contradicts(k, base) && e == ExtendHunk(k, base, head, cfg)
    ensures e.header == Written(Final(k.header, base, head, cfg), Section(k.header, base, head, cfg))
  {
  }

  lemma {:induction false} TrailIs(k: Hunk, base: seq<string>, head: seq<string>, cfg: Config, m: int, trail: seq<string>)
    requires Fits(k, base, head) && m == LinesBehind(k.header, base, cfg.after)
    requires trail == if cfg.after > 0 then Trail(k.header, base, cfg) else []
    ensures var ends := k.header.start1 - 1 + k.header.size1; m >= 0 && ends + m <= |base| && trail == base[ends..ends + m]
  {
  }

  lemma {:induction false} LimitsAround(k: Hunk, base: seq<string>, head: seq<string>, cfg: Config, q: nat, counted: int)
    requires Fits(k, base, head) && q == |Lead(k.header, base, head, cfg)|
    requires counted == if Reset(k.header, base, head, cfg) then 0 else q + LinesBehind(k.header, base, cfg.after)
    ensures q < k.header.start1 && q < k.header.start2
    ensures Final(k.header, base, head, cfg) ==
            Limits(k.header.start1 - q, k.header.size1 + counted, k.header.start2 - q, k.header.size2 + counted)
  {
    LeadIsShared(k, base, head, cfg);
  }

  /** The two halves of the result, from the lines themselves. */
  lemma {:induction false} HeaderFrom(e: Line, h: Line, limits: Limits, q: nat, counted: nat, section: string)
    requires h.Hdr? && q < h.start1 && q < h.start2
    requires limits == Limits(h.start1 - q, h.size1 + counted, h.start2 - q, h.size2 + counted) && e == Written(limits, section)
    ensures HeadedBy(e, h, q, counted, section)
  {
  }

  lemma {:induction false} BodyFrom(e: Hunk, k: Hunk, base: seq<string>, q: nat, m: nat, lead: seq<string>, trail: seq<string>)
    requires k.header.Hdr? && q < k.header.start1 && k.header.size1 >= 0 && k.header.start1 - 1 + k.header.size1 + m <= |base|
    requires |lead| == q && lead == base[k.header.start1 - 1 - q..k.header.start1 - 1]
    requires var ends := k.header.start1 - 1 + k.header.size1; trail == base[ends..ends + m]
    requires e.body == Context(lead) + k.body + Context(trail)
    ensures Surrounded(e, k, base, q, m)
  {
  }

  lemma {:induction false} HunkOut(patch: seq<Line>, base: seq<string>, head: seq<string>, cfg: Config, i: nat)
    requires (cfg.before > 0 || cfg.after > 0) && base != [""] && i < |Hunks(patch)|
    ensures i < |Hunks(Extend(patch, base, head, cfg, false))| && Hunks(patch)[i].header.Hdr?
    ensures Hunks(Extend(patch, base, head, cfg, false))[i] == ExtendHunk(Hunks(patch)[i], base, head, cfg)
  {
    HunksCorrespond(patch, base, head, cfg);
  }

  lemma {:induction false} HunkInFull(k: Hunk, e: Hunk, base: seq<string>, head: seq<string>, cfg: Config, m: int)
    returns (q: nat, found: bool, section: string)
    requires Fits(k, base, head) && !Contradicts(k, base) && e == ExtendHunk(k, base, head, cfg)
    requires m == LinesBehind(k.header, base, cfg.after)
    ensures FrontIs(k.header, base, head, cfg, q, found, section)
    ensures m >= 0 && k.header.start1 - 1 + k.header.size1 + m <= |base|
    ensures Surrounded(e, k, base, q, m)
    ensures HeadedBy(e.header, k.header, q, if !found && Unshared(k.header, cfg.before, q) then 0 else q + m, section)
  {
    var lead := Lead(k.header, base, head, cfg);
    var trail := if cfg.after > 0 then Trail(k.header, base, cfg) else [];
    NoContradiction(k, e, base, head, cfg, lead, trail);
    HeaderWritten(k, e, base, head, cfg);
    q, found, section := |lead|, HeaderFound(k.header, base, head, cfg), Section(k.header, base, head, cfg);
    BodyInFull(k, e, base, head, cfg, m, lead, trail);
    HeaderInFull(k, e.header, base, head, cfg, q, m, Reset(k.header, base, head, cfg), section);
    FrontOfHunk(k, base, head, cfg, q, found, section);
  }

  lemma {:induction false} BodyInFull(k: Hunk, e: Hunk, base: seq<string>, head: seq<string>, cfg: Config, m: int,
                                      lead: seq<string>, trail: seq<string>)
    requires Fits(k, base, head) && m == LinesBehind(k.header, base, cfg.after)
    requires lead == Lead(k.header, base, head, cfg) && trail == if cfg.after > 0 then Trail(k.header, base, cfg) else []
    requires e.body == Context(lead) + k.body + Context(trail)
    ensures |lead| < k.header.start1 && m >= 0 && k.header.start1 - 1 + k.header.size1 + m <= |base|
    ensures Surrounded(e, k, base, |lead|, m)
  {
    TrailIs(k, base, head, cfg, m, trail);
    LeadSlice(k, base, head, cfg, lead);
    BodyFrom(e, k, base, |lead|, m, lead, trail);
  }

  lemma {:induction false} HeaderInFull(k: Hunk, e: Line, base: seq<string>, head: seq<string>, cfg: Config, q: nat, m: nat,
                                        reset: bool, section: string)
    requires Fits(k, base, head) && m == LinesBehind(k.header, base, cfg.after) && q == |Lead(k.header, base, head, cfg)|
    requires reset == Reset(k.header, base, head, cfg) && e == Written(Final(k.header, base, head, cfg), section)
    ensures q < k.header.start1 && HeadedBy(e, k.header, q, if reset then 0 else q + m, section)
  {
    var counted := if reset then 0 else q + m;
    LimitsAround(k, base, head, cfg, q, counted);
    HeaderFrom(e, k.header, Final(k.header, base, head, cfg), q, counted, section);
  }

  /** Every hunk of a patch that fits the files and does not contradict the base comes out with exactly the lines of the
      base around it that the files call for, under exactly the header they call for. */
  lemma {:induction false} ExtendedHunkInFull(patch: seq<Line>, base: seq<string>, head: seq<string>, cfg: Config, i: nat, k: Hunk, m: int)
    returns (e: Hunk, q: nat, found: bool, section: string)
    requires (cfg.before > 0 || cfg.after > 0) && base != [""]
    requires i < |Hunks(patch)| && k == Hunks(patch)[i] && Fits(k, base, head) && !Contradicts(k, base)
    requires m == LinesBehind(k.header, base, cfg.after)
    ensures i < |Hunks(Extend(patch, base, head, cfg, false))| && e == Hunks(Extend(patch, base, head, cfg, false))[i]
    ensures FrontIs(k.header, base, head, cfg, q, found, section)
    ensures m >= 0 && k.header.start1 - 1 + k.header.size1 + m <= |base|
    ensures Surrounded(e, k, base, q, m)
    ensures HeadedBy(e.header, k.header, q, if !found && Unshared(k.header, cfg.before, q) then 0 else q + m, section)
  {
    HunkOut(patch, base, head, cfg, i);
    e := Hunks(Extend(patch, base, head, cfg, false))[i];
    q, found, section := HunkInFull(k, e, base, head, cfg, m);
  }

  lemma {:induction false} NoneAround(k: Hunk, base: seq<string>, head: seq<string>, cfg: Config)
    requires k.header.Hdr? && Contradicts(k, base)
    ensures Before(k.header, k.body, base, head, cfg) == [] && After(k.header, k.body, base, cfg) == []
  {
  }

  lemma {:induction false} BodyIs(k: Hunk, e: Hunk, base: seq<string>, head: seq<string>, cfg: Config, lead: seq<string>, trail: seq<string>)
    requires k.header.Hdr? && e == ExtendHunk(k, base, head, cfg)
    requires lead == Before(k.header, k.body, base, head, cfg) && trail == After(k.header, k.body, base, cfg)
    ensures e.body == Context(lead) + k.body + Context(trail)
  {
  }

  lemma {:induction false} OwnBody(k: Hunk, e: Hunk, base: seq<string>, head: seq<string>, cfg: Config)
    requires k.header.Hdr? && Contradicts(k, base) && e == ExtendHunk(k, base, head, cfg)
    ensures e.body == k.body
  {
    NoneAround(k, base, head, cfg);
    BodyIs(k, e, base, head, cfg, [], []);
    NothingAround(k.body);
  }

  lemma {:induction false} NothingAround(body: seq<Line>)
    ensures Context([]) + body + Context([]) == body
  {
  }

  lemma {:induction false} OwnHeader(k: Hunk, e: Hunk, base: seq<string>, head: seq<string>, cfg: Config)
    requires k.header.Hdr? && Contradicts(k, base) && e == ExtendHunk(k, base, head, cfg)
    ensures e.header == Hdr(k.header.start1, k.header.size1, k.header.start2, k.header.size2, k.header.section,
                            Numerals(k.header.start1, k.header.size1, k.header.start2, k.header.size2) + (" " + k.header.section))
  {
  }

  /** A hunk of any patch that contradicts the base comes out with its own lines and its own numbers. */
  lemma {:induction false} ContradictingHunkIsLeftAlone(patch: seq<Line>, base: seq<string>, head: seq<string>, cfg: Config, i: nat, k: Hunk)
    returns (e: Hunk)
    requires (cfg.before > 0 || cfg.after > 0) && base != [""]
    requires i < |Hunks(patch)| && k == Hunks(patch)[i] && k.header.Hdr? && Contradicts(k, base)
    ensures i < |Hunks(Extend(patch, base, head, cfg, false))| && e == Hunks(Extend(patch, base, head, cfg, false))[i]
    ensures e.body == k.body
    ensures e.header == Hdr(k.header.start1, k.header.size1, k.header.start2, k.header.size2, k.header.section,
                            Numerals(k.header.start1, k.header.size1, k.header.start2, k.header.size2) + (" " + k.header.section))
  {
    HunkOut(patch, base, head, cfg, i);
    e := Hunks(Extend(patch, base, head, cfg, false))[i];
    OwnBody(k, e, base, head, cfg);
    OwnHeader(k, e, base, head, cfg);
  }

  /** All the lines that can be put in front of the hunk are the same in both files. */
  predicate AllSharedInFront(h: Line, base: seq<string>, head: seq<string>, n: nat)
    requires Starts(h, base, head)
  {
    Min(n, h.start1 - 1) == Min(n, h.start2 - 1) && SharedFront(h, base, head, Min(n, h.start1 - 1))
  }

  lemma {:induction false} GrowsByAll(k: Hunk, e: Hunk, base: seq<string>, head: seq<string>, cfg: Config, q: nat, m: nat)
    requires Fits(k, base, head) && AllSharedInFront(k.header, base, head, cfg.before)
    requires TailAt(k.header, base, head, cfg.before, q) && q < k.header.start1
    requires m == LinesBehind(k.header, base, cfg.after) && k.header.start1 - 1 + k.header.size1 + m <= |base|
    requires Surrounded(e, k, base, q, m)
    ensures |OldSide(e.body)| == Min(cfg.before, k.header.start1 - 1) + |OldSide(k.body)|
                                 + Min(cfg.after, |base| - (k.header.start1 - 1 + k.header.size1))
  {
    TailIsAll(k.header, base, head, cfg.before, q);
    SurroundedOldSide(e, k, base, q, m);
  }

  /** In particular, without the dynamic search: where the lines in front are the same in both files, a hunk that
      describes the base grows by all the lines asked for on both ends, as far as the base has them. */
  lemma {:induction false} SharedContextIsAdded(patch: seq<Line>, base: seq<string>, head: seq<string>, cfg: Config, i: nat, k: Hunk)
    requires (cfg.before > 0 || cfg.after > 0) && base != [""] && !cfg.dynamic
    requires i < |Hunks(patch)| && k == Hunks(patch)[i] && Fits(k, base, head)
    requires ShowsAt(OldSide(k.body), base, k.header.start1) && AllSharedInFront(k.header, base, head, cfg.before)
    ensures var out := Hunks(Extend(patch, base, head, cfg, false));
            i < |out| && |OldSide(out[i].body)| == Min(cfg.before, k.header.start1 - 1) + |OldSide(k.body)|
                                                   + Min(cfg.after, |base| - (k.header.start1 - 1 + k.header.size1))
  {
    DescribedIsNoContradiction(k, base, head);
    var m := LinesBehind(k.header, base, cfg.after);
    var e, q, found, section := ExtendedHunkInFull(patch, base, head, cfg, i, k, m);
    GrowsByAll(k, e, base, head, cfg, q, m);
  }

  lemma {:induction false} SurroundedOldSide(e: Hunk, k: Hunk, base: seq<string>, q: nat, m: nat)
    requires k.header.Hdr? && q < k.header.start1 && k.header.size1 >= 0 && k.header.start1 - 1 + k.header.size1 + m <= |base|
    requires Surrounded(e, k, base, q, m)
    ensures |OldSide(e.body)| == q + |OldSide(k.body)| + m
  {
    var ends := k.header.start1 - 1 + k.header.size1;
    var lead, trail := base[k.header.start1 - 1 - q..k.header.start1 - 1], base[ends..ends + m];
    assert |lead| == q && |trail| == m;
    OldSideOf(e.body, lead, k.body, trail);
  }

  lemma {:induction false} OldSideOf(body: seq<Line>, lead: seq<string>, own: seq<Line>, trail: seq<string>)
    requires body == Context(lead) + own + Context(trail)
    ensures |OldSide(body)| == |lead| + |OldSide(own)| + |trail|
  {
    SidesOfPadded(lead, own, trail);
  }

  lemma {:induction false} SharedLine(h: Line, base: seq<string>, head: seq<string>, all: nat, q: nat)
    requires Starts(h, base, head) && SharedFront(h, base, head, all) && q < all
    ensures LineUp(base, h.start1, q + 1) == LineUp(head, h.start2, q + 1)
  {
    var a, b := base[h.start1 - 1 - all..h.start1 - 1], head[h.start2 - 1 - all..h.start2 - 1];
    LineOfLead(base, h.start1, a, all - 1 - q);
    LineOfLead(head, h.start2, b, all - 1 - q);
  }

  lemma {:induction false} TailIsAll(h: Line, base: seq<string>, head: seq<string>, n: nat, q: nat)
    requires Starts(h, base, head) && Min(n, h.start1 - 1) == Min(n, h.start2 - 1)
    requires SharedFront(h, base, head, Min(n, h.start1 - 1)) && TailAt(h, base, head, n, q)
    ensures q == Min(n, h.start1 - 1)
  {
    if q < Min(n, h.start1 - 1) {
      SharedLine(h, base, head, Min(n, h.start1 - 1), q);
    }
  }

  lemma {:induction false} DescribedIsNoContradiction(k: Hunk, base: seq<string>, head: seq<string>)
    requires Fits(k, base, head) && ShowsAt(OldSide(k.body), base, k.header.start1)
    ensures !Contradicts(k, base)
  {
    if k.body != [] && k.body[0].Ctx? {
      assert Pick(Old, k.body)[0] == k.body[0];
      assert OldSide(k.body)[0] == base[k.header.start1 - 1];
    }
  }

  /** When nothing is done at all. */
  lemma {:induction false} PatchIsLeftAlone(patch: seq<Line>, base: seq<string>, head: seq<string>, cfg: Config, skip: bool)
    requires (cfg.before == 0 && cfg.after == 0) || base == [""] || skip
    ensures Extend(patch, base, head, cfg, skip) == patch
  {
  }
}
