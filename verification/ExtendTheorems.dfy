/** What extending a patch keeps, and when the numbers in its new headers are right. */
module ExtendTheorems {
  import opened Basics
  import opened Patches
  import opened ExtendSpec

  /** A hunk as diff writes it: non-empty on both sides, its header counts its lines, and it lies inside both files. */
  ghost predicate Fits(k: Hunk, base: seq<string>, head: seq<string>) {
    && k.header.Hdr? && NoHeader(k.body)
    && k.header.start1 >= 1 && k.header.size1 >= 1 && k.header.start2 >= 1 && k.header.size2 >= 1
    && |OldSide(k.body)| == k.header.size1 && |NewSide(k.body)| == k.header.size2
    && k.header.start1 - 1 + k.header.size1 <= |base|
    && k.header.start2 - 1 + k.header.size2 <= |head|
  }

  /** The header counts the lines under it. */
  ghost predicate Honest(k: Hunk)
    requires k.header.Hdr?
  {
    |OldSide(k.body)| == k.header.size1 && |NewSide(k.body)| == k.header.size2
  }

  lemma ShowsConcat(a: seq<string>, b: seq<string>, file: seq<string>, start: int)
    requires ShowsAt(a, file, start)
    ensures ShowsAt(a + b, file, start) <==> ShowsAt(b, file, start + |a|)
  {
    assert ShowsAt(a + b, file, start) ==> ShowsAt(b, file, start + |a|) by {
      if ShowsAt(a + b, file, start) {
        forall i | 0 <= i < |b| ensures b[i] == file[start + |a| - 1 + i] {
          assert b[i] == (a + b)[|a| + i];
        }
      }
    }
  }

  lemma ShowsThree(lead: seq<string>, mid: seq<string>, trail: seq<string>, file: seq<string>, start: int)
    requires ShowsAt(lead, file, start) && ShowsAt(mid, file, start + |lead|)
    ensures ShowsAt(lead + mid + trail, file, start) <==> ShowsAt(trail, file, start + |lead| + |mid|)
  {
    ShowsConcat(lead, mid, file, start);
    ShowsConcat(lead + mid, trail, file, start);
  }

  lemma Sandwich(side: seq<string>, lead: seq<string>, mid: seq<string>, trail: seq<string>, file: seq<string>,
                 at: int, from: int, to: int)
    requires side == lead + mid + trail
    requires ShowsAt(lead, file, at) && ShowsAt(mid, file, from) && ShowsAt(trail, file, to)
    requires at + |lead| == from && from + |mid| == to
    ensures ShowsAt(side, file, at)
  {
    ShowsThree(lead, mid, trail, file, at);
  }

  function TrailLength(h: Line, base: seq<string>, cfg: Config): int
    requires h.Hdr?
  {
    Min(cfg.after, |base| - (h.start1 - 1 + h.size1))
  }

  lemma LimitsAre(k: Hunk, base: seq<string>, head: seq<string>, cfg: Config, before: nat)
    requires Fits(k, base, head)
    ensures var h := k.header;
            var l := LimitsFor(h, before, cfg.after, |base|);
            var n1, n2 := Min(before, h.start1 - 1), Min(before, h.start2 - 1);
            && l.start1 == h.start1 - n1 && l.start2 == h.start2 - n2
            && l.size1 == h.size1 + n1 + TrailLength(h, base, cfg)
            && l.size2 == h.size2 + n2 + TrailLength(h, base, cfg)
            && BaseLead(h, l, base) == base[h.start1 - 1 - n1..h.start1 - 1]
            && HeadLead(h, l, head) == head[h.start2 - 1 - n2..h.start2 - 1]
  {
  }

  lemma LeadsOf(k: Hunk, base: seq<string>, head: seq<string>, cfg: Config, before: nat)
    requires Fits(k, base, head)
    ensures var h := k.header;
            var l := LimitsFor(h, before, cfg.after, |base|);
            var a, b := BaseLead(h, l, base), HeadLead(h, l, head);
            && ShowsAt(a, base, l.start1) && ShowsAt(b, head, l.start2) && |b| <= |head|
            && |a| == Min(before, h.start1 - 1) && |b| == Min(before, h.start2 - 1)
            && l.start1 == h.start1 - |a| && l.start2 == h.start2 - |b|
            && l.size1 == h.size1 + |a| + TrailLength(h, base, cfg)
            && l.size2 == h.size2 + |b| + TrailLength(h, base, cfg)
  {
    LimitsAre(k, base, head, cfg, before);
  }

  /** What FirstMatch finds: the longest common tail of two lists of the same length. */
  lemma {:induction false} FirstMatchIsFirst(a: seq<string>, b: seq<string>, k: nat)
    requires k <= |a|
    ensures var r := FirstMatch(a, b, k);
            && (r < |a| ==> a[r..] == Slice(b, r, |b|))
            && (forall j :: k <= j < r ==> a[j..] != Slice(b, j, |b|))
    decreases |a| - k
  {
    if k < |a| && a[k..] != Slice(b, k, |b|) {
      FirstMatchIsFirst(a, b, k + 1);
    }
  }

  lemma {:induction false} NoMatchIff(a: seq<string>, b: seq<string>)
    requires a != b
    ensures FirstMatch(a, b, 0) == |a| <==> (|a| != |b| || a[|a| - 1] != b[|b| - 1])
    ensures FirstMatch(a, b, 0) < |a| ==> |a| == |b|
  {
    FirstMatchIsFirst(a, b, 0);
    var r := FirstMatch(a, b, 0);
    if r < |a| {
      assert |a[r..]| == |a| - r && |Slice(b, r, |b|)| == if r < |b| then |b| - r else 0;
      assert a[r..][|a| - r - 1] == Slice(b, r, |b|)[|b| - r - 1];
    } else if a != [] && |a| == |b| {
      assert a[|a| - 1..] == [a[|a| - 1]] && Slice(b, |a| - 1, |b|) == [b[|b| - 1]];
    }
  }

  lemma {:induction false} LongestTail(a: seq<string>, b: seq<string>)
    requires |a| == |b| && a != b
    ensures var r := FirstMatch(a, b, 0);
            r <= |a| && a[r..] == b[r..] && forall j :: 0 <= j < r ==> a[j..] != b[j..]
  {
    FirstMatchIsFirst(a, b, 0);
    forall j | 0 <= j <= |a| ensures Slice(b, j, |b|) == b[j..] {
    }
  }

  lemma {:induction false} CommonTail(a: seq<string>, b: seq<string>)
    requires |a| == |b| && a != b
    ensures a[FirstMatch(a, b, 0)..] == b[FirstMatch(a, b, 0)..]
  {
    LongestTail(a, b);
  }

  lemma ShiftedLeads(h: Line, l: Limits, base: seq<string>, head: seq<string>, j: nat)
    requires h.Hdr? && 1 <= l.start1 && 1 <= l.start2 && 1 <= h.start1 && 1 <= h.start2
    requires j < |BaseLead(h, l, base)|
    ensures BaseLead(h, Shift(l, j), base) == BaseLead(h, l, base)[j..]
    ensures HeadLead(h, Shift(l, j), head) == Slice(HeadLead(h, l, head), j, |head|)
  {
  }

  /** The context kept in front of a hunk whose first line matches is in both files just before it, and the header
      starts where that context does. Unless the lead was reset, the header also counts it and the lines to follow. */
  lemma LeadIsShared(k: Hunk, base: seq<string>, head: seq<string>, cfg: Config)
    requires Fits(k, base, head)
    ensures var h := k.header;
            var lead, f := Lead(h, base, head, cfg), Final(h, base, head, cfg);
            && ShowsAt(lead, base, f.start1) && ShowsAt(lead, head, f.start2)
            && f.start1 + |lead| == h.start1 && f.start2 + |lead| == h.start2
            && (if Reset(h, base, head, cfg)
                then lead == [] && f.size1 == h.size1 && f.size2 == h.size2
                else f.size1 == h.size1 + |lead| + TrailLength(h, base, cfg) && f.size2 == h.size2 + |lead| + TrailLength(h, base, cfg))
  {
    ChosenFacts(k, base, head, cfg);
    var l := Chosen(k.header, base, head, cfg);
    KeptLead(k.header, l, base, head, BaseLead(k.header, l, base), HeadLead(k.header, l, head));
  }

  /** What the mini-match leaves: a common tail of both leads, at the shifted limits, or nothing at the old ones. */
  ghost predicate Kept(h: Line, l: Limits, base: seq<string>, head: seq<string>, a: seq<string>, b: seq<string>)
    requires h.Hdr?
  {
    var lead, f := a[Drop(head, a, b)..], Narrowed(h, l, head, a, b);
    && ShowsAt(lead, base, f.start1) && ShowsAt(lead, head, f.start2)
    && f.start1 + |lead| == h.start1 && f.start2 + |lead| == h.start2
    && (if NothingKept(head, a, b) then lead == [] && f.size1 == h.size1 && f.size2 == h.size2
        else |a| == |b| && f.size1 == l.size1 - (|a| - |lead|) && f.size2 == l.size2 - (|b| - |lead|))
  }

  lemma KeptLead(h: Line, l: Limits, base: seq<string>, head: seq<string>, a: seq<string>, b: seq<string>)
    requires h.Hdr? && head != [] && ShowsAt(a, base, l.start1) && ShowsAt(b, head, l.start2)
    requires l.start1 + |a| == h.start1 && l.start2 + |b| == h.start2
    ensures Kept(h, l, base, head, a, b)
  {
    if a == b {
      KeptWhole(h, l, base, head, a);
    } else if FirstMatch(a, b, 0) < |a| {
      NoMatchIff(a, b);
      TailIsShared(a, b, base, head, l.start1, l.start2);
      KeptTail(h, l, base, head, a, b, FirstMatch(a, b, 0), a[FirstMatch(a, b, 0)..]);
    } else {
      KeptNothing(h, l, base, head, a, b);
    }
  }

  lemma KeptWhole(h: Line, l: Limits, base: seq<string>, head: seq<string>, a: seq<string>)
    requires h.Hdr? && head != [] && ShowsAt(a, base, l.start1) && ShowsAt(a, head, l.start2)
    requires l.start1 + |a| == h.start1 && l.start2 + |a| == h.start2
    ensures Kept(h, l, base, head, a, a)
  {
    assert a[0..] == a;
  }

  lemma {:induction false} KeptNothing(h: Line, l: Limits, base: seq<string>, head: seq<string>, a: seq<string>, b: seq<string>)
    requires h.Hdr? && head != [] && a != b && FirstMatch(a, b, 0) == |a|
    requires ShowsAt(a, base, l.start1) && ShowsAt(b, head, l.start2)
    requires l.start1 + |a| == h.start1 && l.start2 + |b| == h.start2
    ensures Kept(h, l, base, head, a, b)
  {
    assert a[|a|..] == [];
  }

  lemma {:induction false} KeptTail(h: Line, l: Limits, base: seq<string>, head: seq<string>, a: seq<string>, b: seq<string>, r: nat, lead: seq<string>)
    requires h.Hdr? && head != [] && a != b && |a| == |b| && r == FirstMatch(a, b, 0) < |a| && lead == a[r..]
    requires ShowsAt(lead, base, l.start1 + r) && ShowsAt(lead, head, l.start2 + r)
    requires l.start1 + |a| == h.start1 && l.start2 + |b| == h.start2
    ensures Kept(h, l, base, head, a, b)
  {
    assert Drop(head, a, b) == r && Narrowed(h, l, head, a, b) == Shift(l, r);
  }

  lemma {:induction false} TailIsShared(a: seq<string>, b: seq<string>, base: seq<string>, head: seq<string>, start1: int, start2: int)
    requires ShowsAt(a, base, start1) && ShowsAt(b, head, start2) && |a| == |b| && a != b
    ensures ShowsAt(a[FirstMatch(a, b, 0)..], base, start1 + FirstMatch(a, b, 0))
    ensures ShowsAt(a[FirstMatch(a, b, 0)..], head, start2 + FirstMatch(a, b, 0))
  {
    CommonTail(a, b);
    TailShows(a, b, base, head, start1, start2, FirstMatch(a, b, 0));
  }

  lemma TailShows(a: seq<string>, b: seq<string>, base: seq<string>, head: seq<string>, start1: int, start2: int, r: nat)
    requires ShowsAt(a, base, start1) && ShowsAt(b, head, start2) && r <= |a| == |b| && a[r..] == b[r..]
    ensures ShowsAt(a[r..], base, start1 + r) && ShowsAt(a[r..], head, start2 + r)
  {
    forall i | 0 <= i < |a| - r
      ensures a[r..][i] == base[start1 + r - 1 + i] && a[r..][i] == head[start2 + r - 1 + i]
    {
      assert a[r..][i] == a[r + i] && b[r..][i] == b[r + i];
    }
  }

  /** The limits before the mini-match: they count the lines they name, on each side. */
  lemma ChosenFacts(k: Hunk, base: seq<string>, head: seq<string>, cfg: Config)
    requires Fits(k, base, head)
    ensures var h := k.header;
            var l := Chosen(h, base, head, cfg);
            var a, b := BaseLead(h, l, base), HeadLead(h, l, head);
            && ShowsAt(a, base, l.start1) && ShowsAt(b, head, l.start2)
            && l.start1 == h.start1 - |a| && l.start2 == h.start2 - |b|
            && l.size1 == h.size1 + |a| + TrailLength(h, base, cfg)
            && l.size2 == h.size2 + |b| + TrailLength(h, base, cfg)
            && (HeaderFound(h, base, head, cfg) ==> a == b)
            && (!HeaderFound(h, base, head, cfg) ==> |a| == Min(cfg.before, h.start1 - 1) && |b| == Min(cfg.before, h.start2 - 1))
  {
    LeadsOf(k, base, head, cfg, cfg.before);
    if HeaderFound(k.header, base, head, cfg) {
      FoundFacts(k, base, head, cfg);
    }
  }

  lemma FoundFacts(k: Hunk, base: seq<string>, head: seq<string>, cfg: Config)
    requires Fits(k, base, head) && HeaderFound(k.header, base, head, cfg)
    ensures var h := k.header;
            var d := DynamicLimits(h, base, cfg);
            var l := Shift(d, FirstWith(BaseLead(h, d, base), h.section, 0));
            var a, b := BaseLead(h, l, base), HeadLead(h, l, head);
            && a == b && ShowsAt(a, base, l.start1) && ShowsAt(b, head, l.start2)
            && l.start1 == h.start1 - |a| && l.start2 == h.start2 - |b|
            && l.size1 == h.size1 + |a| + TrailLength(h, base, cfg)
            && l.size2 == h.size2 + |b| + TrailLength(h, base, cfg)
  {
    var h := k.header;
    LeadsOf(k, base, head, cfg, Min(cfg.maxDynamicBefore, MAX_EXTRA_LINES));
    var d := DynamicLimits(h, base, cfg);
    var j := FirstWith(BaseLead(h, d, base), h.section, 0);
    ShiftedLimits(h, d, base, head, j);
  }

  lemma ShiftedLimits(h: Line, d: Limits, base: seq<string>, head: seq<string>, j: nat)
    requires h.Hdr? && 1 <= h.start1 && 1 <= h.start2 && j < |BaseLead(h, d, base)|
    requires ShowsAt(BaseLead(h, d, base), base, d.start1) && ShowsAt(HeadLead(h, d, head), head, d.start2)
    requires BaseLead(h, d, base)[j..] == Slice(HeadLead(h, d, head), j, |head|)
    ensures var l := Shift(d, j);
            var a, b := BaseLead(h, l, base), HeadLead(h, l, head);
            && a == b && ShowsAt(a, base, l.start1) && ShowsAt(b, head, l.start2)
            && |a| == |BaseLead(h, d, base)| - j && |b| == |HeadLead(h, d, head)| - j
  {
    ShiftedLeads(h, d, base, head, j);
    var lead, other := BaseLead(h, d, base), HeadLead(h, d, head);
    TailOfSlice(lead, other, j, |head|);
    TailShows(lead, other, base, head, d.start1, d.start2, j);
    var l := Shift(d, j);
    assert BaseLead(h, l, base) == lead[j..] && HeadLead(h, l, head) == lead[j..];
  }

  lemma TailOfSlice(a: seq<string>, b: seq<string>, j: nat, n: nat)
    requires j < |a| && |b| <= n && a[j..] == Slice(b, j, n)
    ensures |a| == |b| && a[j..] == b[j..] == Slice(b, j, n)
  {
    assert |Slice(b, j, n)| > 0;
  }

  /** The shape of an extended hunk: the old body between leading and trailing context. */
  lemma SidesOf(k: Hunk, base: seq<string>, head: seq<string>, cfg: Config)
    requires k.header.Hdr?
    ensures var h, e := k.header, ExtendHunk(k, base, head, cfg);
            var lead, trail := Before(h, k.body, base, head, cfg), After(h, k.body, base, cfg);
            OldSide(e.body) == lead + OldSide(k.body) + trail && NewSide(e.body) == lead + NewSide(k.body) + trail
  {
    SidesOfPadded(Before(k.header, k.body, base, head, cfg), k.body, After(k.header, k.body, base, cfg));
  }

  /** The leading context is in both files, just before the hunk and from where the new header starts. */
  lemma LeadOf(k: Hunk, base: seq<string>, head: seq<string>, cfg: Config)
    requires Fits(k, base, head)
    ensures var h, e := k.header, NewHeader(k.header, k.body, base, head, cfg);
            var lead := Before(h, k.body, base, head, cfg);
            && e.start1 + |lead| == h.start1 && e.start2 + |lead| == h.start2
            && ShowsAt(lead, base, e.start1) && ShowsAt(lead, head, e.start2)
  {
    LeadIsShared(k, base, head, cfg);
  }

  /** The trailing context is what follows the hunk in the base. */
  lemma TrailOf(k: Hunk, base: seq<string>, head: seq<string>, cfg: Config)
    requires Fits(k, base, head)
    ensures var h := k.header;
            var trail := After(h, k.body, base, cfg);
            && ShowsAt(trail, base, h.start1 + h.size1)
            && |trail| == (if LinesMatch(h, k.body, base) then TrailLength(h, base, cfg) else 0)
  {
  }

  lemma SizesOf(k: Hunk, base: seq<string>, head: seq<string>, cfg: Config)
    requires Fits(k, base, head)
    ensures var h, e := k.header, NewHeader(k.header, k.body, base, head, cfg);
            var n := |Before(h, k.body, base, head, cfg)| + |After(h, k.body, base, cfg)|;
            if LinesMatch(h, k.body, base) && Reset(h, base, head, cfg)
            then |Before(h, k.body, base, head, cfg)| == 0 && e.size1 == h.size1 && e.size2 == h.size2
            else e.size1 == h.size1 + n && e.size2 == h.size2 + n
  {
    LeadIsShared(k, base, head, cfg);
    TrailOf(k, base, head, cfg);
  }

  /** When the lead is thrown away: no enclosing declaration was found, and the lines in front of the hunk are not
      equally many in both files or differ in the last one. */
  lemma ResetIff(k: Hunk, base: seq<string>, head: seq<string>, cfg: Config)
    requires Fits(k, base, head)
    ensures var h := k.header;
            var n1, n2 := Min(cfg.before, h.start1 - 1), Min(cfg.before, h.start2 - 1);
            Reset(h, base, head, cfg) <==>
            !HeaderFound(h, base, head, cfg) && (n1 != n2 || (n1 > 0 && base[h.start1 - 2] != head[h.start2 - 2]))
  {
    var h := k.header;
    var l := Chosen(h, base, head, cfg);
    ChosenLeads(k, base, head, cfg);
    ResetMeans(h, base, head, cfg, BaseLead(h, l, base), HeadLead(h, l, head), l.start1, l.start2);
  }

  lemma {:induction false} ResetMeans(h: Line, base: seq<string>, head: seq<string>, cfg: Config, a: seq<string>, b: seq<string>,
                                      start1: int, start2: int)
    requires h.Hdr? && head != [] && ShowsAt(a, base, start1) && ShowsAt(b, head, start2)
    requires start1 + |a| == h.start1 && start2 + |b| == h.start2
    requires a == BaseLead(h, Chosen(h, base, head, cfg), base) && b == HeadLead(h, Chosen(h, base, head, cfg), head)
    ensures Reset(h, base, head, cfg) <==> |a| != |b| || (|a| > 0 && base[start1 + |a| - 2] != head[start2 + |b| - 2])
  {
    ResetIs(h, base, head, cfg, a, b);
    NothingKeptIff(base, head, start1, start2, a, b);
  }

  lemma {:induction false} ResetIs(h: Line, base: seq<string>, head: seq<string>, cfg: Config, a: seq<string>, b: seq<string>)
    requires h.Hdr? && a == BaseLead(h, Chosen(h, base, head, cfg), base) && b == HeadLead(h, Chosen(h, base, head, cfg), head)
    ensures Reset(h, base, head, cfg) == NothingKept(head, a, b)
  {
  }

  lemma ChosenLeads(k: Hunk, base: seq<string>, head: seq<string>, cfg: Config)
    requires Fits(k, base, head)
    ensures var h := k.header;
            var l := Chosen(h, base, head, cfg);
            var a, b := BaseLead(h, l, base), HeadLead(h, l, head);
            && ShowsAt(a, base, l.start1) && ShowsAt(b, head, l.start2)
            && l.start1 == h.start1 - |a| && l.start2 == h.start2 - |b|
            && (if HeaderFound(h, base, head, cfg) then a == b
                else |a| == Min(cfg.before, h.start1 - 1) && |b| == Min(cfg.before, h.start2 - 1))
  {
    ChosenFacts(k, base, head, cfg);
  }

  lemma NothingKeptIff(base: seq<string>, head: seq<string>, start1: int, start2: int, a: seq<string>, b: seq<string>)
    requires head != [] && ShowsAt(a, base, start1) && ShowsAt(b, head, start2)
    ensures NothingKept(head, a, b) <==>
            |a| != |b| || (|a| > 0 && base[start1 + |a| - 2] != head[start2 + |b| - 2])
  {
    if a != b {
      NoMatchIff(a, b);
    }
    if a != [] {
      assert a[|a| - 1] == base[start1 + |a| - 2];
    }
    if b != [] {
      assert b[|b| - 1] == head[start2 + |b| - 2];
    }
  }

  /** Header sizes: the new header counts exactly the lines under it, on both sides, unless the lead was reset and
      trailing lines were appended all the same; then both counts are short by exactly those lines. */
  lemma SizesAreHonestIff(k: Hunk, base: seq<string>, head: seq<string>, cfg: Config)
    requires Fits(k, base, head)
    ensures var e := ExtendHunk(k, base, head, cfg);
            var short := if LinesMatch(k.header, k.body, base) && Reset(k.header, base, head, cfg)
                         then TrailLength(k.header, base, cfg) else 0;
            && |OldSide(e.body)| == e.header.size1 + short && |NewSide(e.body)| == e.header.size2 + short
            && (Honest(e) <==> short == 0)
  {
    SidesOf(k, base, head, cfg);
    SizesOf(k, base, head, cfg);
    TrailOf(k, base, head, cfg);
  }

  /** An extended hunk still describes the base file, at the line its header names. */
  lemma OldSideStaysTrue(k: Hunk, base: seq<string>, head: seq<string>, cfg: Config)
    requires Fits(k, base, head) && ShowsAt(OldSide(k.body), base, k.header.start1)
    ensures var e := ExtendHunk(k, base, head, cfg);
            ShowsAt(OldSide(e.body), base, e.header.start1)
  {
    SidesOf(k, base, head, cfg);
    LeadOf(k, base, head, cfg);
    TrailOf(k, base, head, cfg);
    Sandwich(OldSide(ExtendHunk(k, base, head, cfg).body),
             Before(k.header, k.body, base, head, cfg), OldSide(k.body), After(k.header, k.body, base, cfg), base,
             NewHeader(k.header, k.body, base, head, cfg).start1, k.header.start1, k.header.start1 + k.header.size1);
  }

  /** On the head file it does so exactly when the lines after the hunk are the same in both files, because the
      trailing context is always taken from the base. */
  lemma NewSideStaysTrueIff(k: Hunk, e: Hunk, base: seq<string>, head: seq<string>, cfg: Config)
    requires Fits(k, base, head) && ShowsAt(NewSide(k.body), head, k.header.start2) && e == ExtendHunk(k, base, head, cfg)
    ensures e.header.Hdr?
    ensures ShowsAt(NewSide(e.body), head, e.header.start2) <==>
            ShowsAt(After(k.header, k.body, base, cfg), head, k.header.start2 + k.header.size2)
  {
    NewSideOf(k, e, base, head, cfg);
    NewSideIff(k, e, Before(k.header, k.body, base, head, cfg), After(k.header, k.body, base, cfg), head);
  }

  lemma NewSideIff(k: Hunk, e: Hunk, lead: seq<string>, trail: seq<string>, head: seq<string>)
    requires k.header.Hdr? && e.header.Hdr? && NewSide(e.body) == lead + NewSide(k.body) + trail
    requires |NewSide(k.body)| == k.header.size2 && ShowsAt(NewSide(k.body), head, k.header.start2)
    requires e.header.start2 + |lead| == k.header.start2 && ShowsAt(lead, head, e.header.start2)
    ensures ShowsAt(NewSide(e.body), head, e.header.start2) <==> ShowsAt(trail, head, k.header.start2 + k.header.size2)
  {
    ShowsThree(lead, NewSide(k.body), trail, head, e.header.start2);
  }

  /** The new side of an extended hunk, and where its lead stands in the head. */
  lemma NewSideOf(k: Hunk, e: Hunk, base: seq<string>, head: seq<string>, cfg: Config)
    requires Fits(k, base, head) && e == ExtendHunk(k, base, head, cfg)
    ensures e.header.Hdr?
    ensures var lead := Before(k.header, k.body, base, head, cfg);
            && NewSide(e.body) == lead + NewSide(k.body) + After(k.header, k.body, base, cfg)
            && e.header.start2 + |lead| == k.header.start2 && ShowsAt(lead, head, e.header.start2)
  {
    SidesOf(k, base, head, cfg);
    LeadOf(k, base, head, cfg);
  }

  /** Where the leads are equally long, the mini-match keeps their longest common tail. */
  lemma MiniMatchIsLongestCommonTail(k: Hunk, base: seq<string>, head: seq<string>, cfg: Config)
    requires Fits(k, base, head)
    ensures var h := k.header;
            var l := Chosen(h, base, head, cfg);
            var a, b, lead := BaseLead(h, l, base), HeadLead(h, l, head), Lead(h, base, head, cfg);
            |a| == |b| ==>
              && |lead| <= |a| && lead == a[|a| - |lead|..] == b[|a| - |lead|..]
              && forall j :: 0 <= j < |a| - |lead| ==> a[j..] != b[j..]
  {
    var h := k.header;
    var l := Chosen(h, base, head, cfg);
    var a, b := BaseLead(h, l, base), HeadLead(h, l, head);
    if |a| == |b| && a != b {
      LongestTail(a, b);
      assert Drop(head, a, b) == FirstMatch(a, b, 0);
    }
  }

  lemma ExtendHunkIsWellShaped(k: Hunk, base: seq<string>, head: seq<string>, cfg: Config)
    requires k.header.Hdr? && NoHeader(k.body)
    ensures ExtendHunk(k, base, head, cfg).header.Hdr? && NoHeader(ExtendHunk(k, base, head, cfg).body)
  {
  }

  lemma {:induction false} StaysWellShaped(hunks: seq<Hunk>, base: seq<string>, head: seq<string>, cfg: Config)
    requires WellShaped(hunks)
    ensures WellShaped(ExtendAll(hunks, base, head, cfg))
  {
    forall i | 0 <= i < |hunks|
      ensures ExtendAll(hunks, base, head, cfg)[i].header.Hdr? && NoHeader(ExtendAll(hunks, base, head, cfg)[i].body)
    {
      ExtendHunkIsWellShaped(hunks[i], base, head, cfg);
    }
  }

  /** The whole patch keeps its shape: the same lines in front, hunk for hunk the same body between added context. */
  lemma {:induction false} HunksCorrespond(patch: seq<Line>, base: seq<string>, head: seq<string>, cfg: Config)
    requires !Untouched(base, cfg, false)
    ensures var out := Extend(patch, base, head, cfg, false);
            && Body(out) == Body(patch) && |Hunks(out)| == |Hunks(patch)|
            && forall i :: 0 <= i < |Hunks(patch)| ==>
                 Hunks(patch)[i].header.Hdr? && Hunks(out)[i] == ExtendHunk(Hunks(patch)[i], base, head, cfg)
  {
    HunksAreWellShaped(patch);
    BodyEndsAtHeader(patch);
    StaysWellShaped(Hunks(patch), base, head, cfg);
    HunksOfFlatten(Body(patch), ExtendAll(Hunks(patch), base, head, cfg));
  }

  lemma {:induction false} ChangesOfHunks(hunks: seq<Hunk>, base: seq<string>, head: seq<string>, cfg: Config)
    requires WellShaped(hunks)
    ensures Changes(Flatten(ExtendAll(hunks, base, head, cfg))) == Changes(Flatten(hunks))
  {
    if hunks != [] {
      ChangesOfHunks(hunks[1..], base, head, cfg);
      var k := hunks[0];
      var e := ExtendHunk(k, base, head, cfg);
      assert ExtendAll(hunks, base, head, cfg)[1..] == ExtendAll(hunks[1..], base, head, cfg);
      ChangesOfCons(k, Flatten(hunks[1..]));
      ChangesOfCons(e, Flatten(ExtendAll(hunks[1..], base, head, cfg)));
      SidesOfPadded(Before(k.header, k.body, base, head, cfg), k.body, After(k.header, k.body, base, cfg));
    }
  }

  lemma ChangesOfCons(k: Hunk, rest: seq<Line>)
    requires k.header.Hdr?
    ensures Changes([k.header] + (k.body + rest)) == Changes(k.body) + Changes(rest)
  {
    PickConcat(Change, k.body, rest);
    assert ([k.header] + (k.body + rest))[1..] == k.body + rest;
  }

  /** Only context is ever added: on every patch, well-formed or not, the added and deleted lines are the same
      ones in the same order. */
  lemma ExtendKeepsChanges(patch: seq<Line>, base: seq<string>, head: seq<string>, cfg: Config, skip: bool)
    ensures Changes(Extend(patch, base, head, cfg, skip)) == Changes(patch)
  {
    if !Untouched(base, cfg, skip) {
      HunksAreWellShaped(patch);
      ChangesOfHunks(Hunks(patch), base, head, cfg);
      FlattenHunks(patch);
      PickConcat(Change, Body(patch), Flatten(Hunks(patch)));
      PickConcat(Change, Body(patch), Flatten(ExtendAll(Hunks(patch), base, head, cfg)));
    }
  }

  /** The hunk says what the base holds at its old line, and what the head holds at its new one. */
  ghost predicate Describes(k: Hunk, base: seq<string>, head: seq<string>) {
    k.header.Hdr? && ShowsAt(OldSide(k.body), base, k.header.start1) && ShowsAt(NewSide(k.body), head, k.header.start2)
  }

  /** Every hunk fits the files and describes them. */
  ghost predicate AllApply(hunks: seq<Hunk>, base: seq<string>, head: seq<string>) {
    hunks == [] || (Fits(hunks[0], base, head) && Describes(hunks[0], base, head) && AllApply(hunks[1..], base, head))
  }

  ghost predicate AllDescribeBase(hunks: seq<Hunk>, base: seq<string>) {
    hunks == []
    || (hunks[0].header.Hdr? && ShowsAt(OldSide(hunks[0].body), base, hunks[0].header.start1) && AllDescribeBase(hunks[1..], base))
  }

  /** The hunk says what the head holds at its new line. */
  ghost predicate DescribesHead(e: Hunk, head: seq<string>) {
    e.header.Hdr? && ShowsAt(NewSide(e.body), head, e.header.start2)
  }

  /** The lines of the base that are put behind the hunk are also behind it in the head. */
  ghost predicate TrailFits(k: Hunk, base: seq<string>, head: seq<string>, cfg: Config) {
    k.header.Hdr? && ShowsAt(After(k.header, k.body, base, cfg), head, k.header.start2 + k.header.size2)
  }

  ghost predicate AllDescribeHead(hunks: seq<Hunk>, head: seq<string>) {
    hunks == [] || (DescribesHead(hunks[0], head) && AllDescribeHead(hunks[1..], head))
  }

  ghost predicate AllTrailsFit(hunks: seq<Hunk>, base: seq<string>, head: seq<string>, cfg: Config) {
    hunks == [] || (TrailFits(hunks[0], base, head, cfg) && AllTrailsFit(hunks[1..], base, head, cfg))
  }

  lemma {:induction false} ExtendedHunksDescribeBase(hunks: seq<Hunk>, base: seq<string>, head: seq<string>, cfg: Config)
    requires AllApply(hunks, base, head) && WellShaped(hunks)
    ensures AllDescribeBase(ExtendAll(hunks, base, head, cfg), base)
  {
    if hunks != [] {
      ExtendedHunksDescribeBase(hunks[1..], base, head, cfg);
      ExtendHunkIsWellShaped(hunks[0], base, head, cfg);
      OldSideStaysTrue(hunks[0], base, head, cfg);
      ExtendAllFirst(hunks, base, head, cfg);
    }
  }

  lemma {:induction false} ExtendedHunksDescribeHeadIff(hunks: seq<Hunk>, base: seq<string>, head: seq<string>, cfg: Config)
    requires AllApply(hunks, base, head) && WellShaped(hunks)
    ensures AllDescribeHead(ExtendAll(hunks, base, head, cfg), head) <==> AllTrailsFit(hunks, base, head, cfg)
  {
    if hunks != [] {
      ExtendedHunksDescribeHeadIff(hunks[1..], base, head, cfg);
      ExtendAllFirst(hunks, base, head, cfg);
      DescribedHeadIff(hunks[0], ExtendAll(hunks, base, head, cfg)[0], base, head, cfg);
    }
  }

  lemma DescribesHeadIs(e: Hunk, head: seq<string>)
    requires e.header.Hdr?
    ensures DescribesHead(e, head) == ShowsAt(NewSide(e.body), head, e.header.start2)
  {
  }

  lemma TrailFitsIs(k: Hunk, base: seq<string>, head: seq<string>, cfg: Config)
    requires k.header.Hdr?
    ensures TrailFits(k, base, head, cfg) == ShowsAt(After(k.header, k.body, base, cfg), head, k.header.start2 + k.header.size2)
  {
  }

  lemma DescribedHeadIff(k: Hunk, e: Hunk, base: seq<string>, head: seq<string>, cfg: Config)
    requires Fits(k, base, head) && Describes(k, base, head) && e == ExtendHunk(k, base, head, cfg)
    ensures DescribesHead(e, head) == TrailFits(k, base, head, cfg)
  {
    NewSideStaysTrueIff(k, e, base, head, cfg);
    DescribesHeadIs(e, head);
    TrailFitsIs(k, base, head, cfg);
  }

  lemma {:induction false} ExtendAllFirst(hunks: seq<Hunk>, base: seq<string>, head: seq<string>, cfg: Config)
    requires hunks != [] && WellShaped(hunks)
    ensures var all := ExtendAll(hunks, base, head, cfg);
            all != [] && all[0] == ExtendHunk(hunks[0], base, head, cfg) && all[1..] == ExtendAll(hunks[1..], base, head, cfg)
  {
  }

  /** A whole patch that applies: what comes out still describes the base, hunk by hunk at the lines the headers name, and
      it describes the head if and only if the trailing lines put behind each hunk stand there too. */
  lemma {:induction false} ExtendedPatchDescribesIff(patch: seq<Line>, base: seq<string>, head: seq<string>, cfg: Config)
    requires !Untouched(base, cfg, false) && AllApply(Hunks(patch), base, head)
    ensures var out := Hunks(Extend(patch, base, head, cfg, false));
            && |out| == |Hunks(patch)| && AllDescribeBase(out, base)
            && (AllDescribeHead(out, head) <==> AllTrailsFit(Hunks(patch), base, head, cfg))
  {
    HunksAreWellShaped(patch);
    BodyEndsAtHeader(patch);
    StaysWellShaped(Hunks(patch), base, head, cfg);
    HunksOfFlatten(Body(patch), ExtendAll(Hunks(patch), base, head, cfg));
    ExtendedHunksDescribeBase(Hunks(patch), base, head, cfg);
    ExtendedHunksDescribeHeadIff(Hunks(patch), base, head, cfg);
  }

  /** And its counts are right exactly where the lead was not reset in front of trailing lines. */
  lemma {:induction false} ExtendedPatchCountsIff(patch: seq<Line>, base: seq<string>, head: seq<string>, cfg: Config, i: nat)
    requires !Untouched(base, cfg, false) && i < |Hunks(patch)|
    requires Fits(Hunks(patch)[i], base, head)
    ensures var k, out := Hunks(patch)[i], Hunks(Extend(patch, base, head, cfg, false));
            && i < |out| && out[i].header.Hdr?
            && (Honest(out[i]) <==>
                !LinesMatch(k.header, k.body, base) || !Reset(k.header, base, head, cfg) || TrailLength(k.header, base, cfg) == 0)
  {
    HunksCorrespond(patch, base, head, cfg);
    SizesAreHonestIff(Hunks(patch)[i], base, head, cfg);
  }

  const SHORT_BASE := ["a", "b", "c"]
  const SHORT_HEAD := ["x", "B", "c"]
  const SHORT_HUNK := Hunk(Hdr(2, 1, 2, 1, "", "@@ -2 +2 @@"), [Del("b"), Add("B")])
  const ONE_LINE := Config(1, 1, true, 10)

  lemma ShortHunkFits()
    ensures Fits(SHORT_HUNK, SHORT_BASE, SHORT_HEAD)
  {
    assert SHORT_HUNK.body[1..] == [Add("B")];
    assert Pick(Old, [Add("B")]) == [] && Pick(New, [Add("B")]) == [Add("B")];
  }

  /** A patch that hits the exception: one line of context asked for, and the line before the hunk differs. */
  lemma ResetHeaderIsShort()
    ensures Fits(SHORT_HUNK, SHORT_BASE, SHORT_HEAD)
    ensures ExtendHunk(SHORT_HUNK, SHORT_BASE, SHORT_HEAD, ONE_LINE) ==
            Hunk(Written(Limits(2, 1, 2, 1), ""), SHORT_HUNK.body + [Ctx("c")])
    ensures !Honest(ExtendHunk(SHORT_HUNK, SHORT_BASE, SHORT_HEAD, ONE_LINE))
  {
    ShortHunkFits();
    var k, base, head, cfg := SHORT_HUNK, SHORT_BASE, SHORT_HEAD, ONE_LINE;
    ResetIff(k, base, head, cfg);
    LeadIsShared(k, base, head, cfg);
    SizesAreHonestIff(k, base, head, cfg);
    assert base[2..3] == ["c"];
    assert Context(["c"]) == [Ctx("c")];
  }
}
