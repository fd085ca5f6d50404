/** extendPatch, hunk by hunk: which header and which context lines it gives a hunk. */
module ExtendSpec {
  import opened Basics
  import opened Text
  import opened Patches

  const MAX_EXTRA_LINES: nat := 10

  datatype Config = Config(before: nat, after: nat, dynamic: bool, maxDynamicBefore: nat)

  /** The header numbers under construction. */
  datatype Limits = Limits(start1: nat, size1: int, start2: nat, size2: int)

  function LimitsFor(h: Line, before: int, after: int, length: int): Limits
    requires h.Hdr?
  {
    var start1, start2 := Max(1, h.start1 - before), Max(1, h.start2 - before);
    var size1 := h.size1 + (h.start1 - start1) + after;
    var size2 := h.size2 + (h.start2 - start2) + after;
    var over := start1 - 1 + size1 - length;
    if over > 0 then Limits(start1, Max(size1 - over, h.size1), start2, Max(size2 - over, h.size2))
    else Limits(start1, size1, start2, size2)
  }

  function Shift(l: Limits, d: nat): Limits {
    Limits(l.start1 + d, l.size1 - d, l.start2 + d, l.size2 - d)
  }

  function BaseLead(h: Line, l: Limits, base: seq<string>): seq<string>
    requires h.Hdr?
  {
    Slice(base, l.start1 - 1, h.start1 - 1)
  }

  function HeadLead(h: Line, l: Limits, head: seq<string>): seq<string>
    requires h.Hdr?
  {
    Slice(head, l.start2 - 1, h.start2 - 1)
  }

  /** The first line from `j` on that holds the section text, or |lines|. */
  function FirstWith(lines: seq<string>, section: string, j: nat): (r: nat)
    requires j <= |lines|
    ensures j <= r <= |lines|
    decreases |lines| - j
  {
    if j == |lines| || Includes(lines[j], section) then j else FirstWith(lines, section, j + 1)
  }

  /** The first offset from `k` on where the rest of `a` is the rest of `b`, or |a|. */
  function FirstMatch(a: seq<string>, b: seq<string>, k: nat): (r: nat)
    requires k <= |a|
    ensures k <= r <= |a|
    decreases |a| - k
  {
    if k == |a| || a[k..] == Slice(b, k, |b|) then k else FirstMatch(a, b, k + 1)
  }

  function DynamicLimits(h: Line, base: seq<string>, cfg: Config): Limits
    requires h.Hdr?
  {
    LimitsFor(h, Min(cfg.maxDynamicBefore, MAX_EXTRA_LINES), cfg.after, |base|)
  }

  /** The enclosing declaration was found in the wider context, with the same lines below it in both files. */
  predicate HeaderFound(h: Line, base: seq<string>, head: seq<string>, cfg: Config)
    requires h.Hdr?
  {
    var lead := BaseLead(h, DynamicLimits(h, base, cfg), base);
    var j := FirstWith(lead, h.section, 0);
    && cfg.dynamic && head != [] && h.section != "" && j < |lead|
    && lead[j..] == Slice(HeadLead(h, DynamicLimits(h, base, cfg), head), j, |head|)
  }

  function Chosen(h: Line, base: seq<string>, head: seq<string>, cfg: Config): Limits
    requires h.Hdr?
  {
    if HeaderFound(h, base, head, cfg)
    then Shift(DynamicLimits(h, base, cfg), FirstWith(BaseLead(h, DynamicLimits(h, base, cfg), base), h.section, 0))
    else LimitsFor(h, cfg.before, cfg.after, |base|)
  }

  /** How many lines the mini-match drops from the leading lines `a` of the base and `b` of the head. */
  function Drop(head: seq<string>, a: seq<string>, b: seq<string>): (r: nat)
    ensures r <= |a|
  {
    if head == [] || a == b then 0 else FirstMatch(a, b, 0)
  }

  /** The two leads differ, down to the last line: nothing is kept. */
  predicate NothingKept(head: seq<string>, a: seq<string>, b: seq<string>) {
    head != [] && a != b && FirstMatch(a, b, 0) == |a|
  }

  function Narrowed(h: Line, l: Limits, head: seq<string>, a: seq<string>, b: seq<string>): Limits
    requires h.Hdr?
  {
    if NothingKept(head, a, b) then Limits(h.start1, h.size1, h.start2, h.size2) else Shift(l, Drop(head, a, b))
  }

  predicate Reset(h: Line, base: seq<string>, head: seq<string>, cfg: Config)
    requires h.Hdr?
  {
    var l := Chosen(h, base, head, cfg);
    NothingKept(head, BaseLead(h, l, base), HeadLead(h, l, head))
  }

  function Final(h: Line, base: seq<string>, head: seq<string>, cfg: Config): Limits
    requires h.Hdr?
  {
    var l := Chosen(h, base, head, cfg);
    Narrowed(h, l, head, BaseLead(h, l, base), HeadLead(h, l, head))
  }

  function Lead(h: Line, base: seq<string>, head: seq<string>, cfg: Config): seq<string>
    requires h.Hdr?
  {
    var l := Chosen(h, base, head, cfg);
    var a := BaseLead(h, l, base);
    a[Drop(head, a, HeadLead(h, l, head))..]
  }

  function Trail(h: Line, base: seq<string>, cfg: Config): seq<string>
    requires h.Hdr?
  {
    Slice(base, h.start1 + h.size1 - 1, h.start1 + h.size1 - 1 + cfg.after)
  }

  function Section(h: Line, base: seq<string>, head: seq<string>, cfg: Config): string
    requires h.Hdr?
  {
    if HeaderFound(h, base, head, cfg) then ""
    else if !cfg.dynamic && exists l | l in Lead(h, base, head, cfg) :: Includes(" " + l, h.section) then ""
    else h.section
  }

  function LineAt(lines: seq<string>, i: int): string {
    if 0 <= i < |lines| then lines[i] else ""
  }

  /** checkHunkLinesMatch: a first context line must be the base line it names, up to white space around it. */
  predicate LinesMatch(h: Line, next: seq<Line>, base: seq<string>)
    requires h.Hdr?
  {
    next != [] && next[0].Ctx? ==> Trim(next[0].text) == Trim(LineAt(base, h.start1 - 1))
  }

  /** The header line written for some limits. */
  function Written(l: Limits, section: string): Line {
    Hdr(l.start1, l.size1, l.start2, l.size2, section, Numerals(l.start1, l.size1, l.start2, l.size2) + (" " + section))
  }

  /** A header is always written anew, with its own numbers where the hunk is left alone. */
  function NewHeader(h: Line, next: seq<Line>, base: seq<string>, head: seq<string>, cfg: Config): Line
    requires h.Hdr?
  {
    if LinesMatch(h, next, base) then Written(Final(h, base, head, cfg), Section(h, base, head, cfg))
    else Written(Limits(h.start1, h.size1, h.start2, h.size2), h.section)
  }

  function Before(h: Line, next: seq<Line>, base: seq<string>, head: seq<string>, cfg: Config): seq<string>
    requires h.Hdr?
  {
    if LinesMatch(h, next, base) then Lead(h, base, head, cfg) else []
  }

  function After(h: Line, next: seq<Line>, base: seq<string>, cfg: Config): seq<string>
    requires h.Hdr?
  {
    if LinesMatch(h, next, base) && cfg.after > 0 then Trail(h, base, cfg) else []
  }

  function ExtendHunk(k: Hunk, base: seq<string>, head: seq<string>, cfg: Config): Hunk
    requires k.header.Hdr?
  {
    Hunk(NewHeader(k.header, k.body, base, head, cfg),
         Context(Before(k.header, k.body, base, head, cfg)) + k.body + Context(After(k.header, k.body, base, cfg)))
  }

  function ExtendAll(hunks: seq<Hunk>, base: seq<string>, head: seq<string>, cfg: Config): (r: seq<Hunk>)
    requires WellShaped(hunks)
    ensures |r| == |hunks| && forall i :: 0 <= i < |hunks| ==> r[i] == ExtendHunk(hunks[i], base, head, cfg)
  {
    if hunks == [] then [] else [ExtendHunk(hunks[0], base, head, cfg)] + ExtendAll(hunks[1..], base, head, cfg)
  }

  /** Nothing to do: no context asked for, or an empty base file. */
  predicate Untouched(base: seq<string>, cfg: Config, skip: bool) {
    (cfg.before == 0 && cfg.after == 0) || base == [""] || skip
  }

  function Extend(patch: seq<Line>, base: seq<string>, head: seq<string>, cfg: Config, skip: bool): seq<Line> {
    if Untouched(base, cfg, skip) then patch
    else HunksAreWellShaped(patch); Body(patch) + Flatten(ExtendAll(Hunks(patch), base, head, cfg))
  }
}

/** extendPatch as it runs: one pass over the lines. */
module ExtendPatches {
  import opened Basics
  import opened Text
  import opened Patches
  import opened ExtendSpec

  method FindSection(lines: seq<string>, section: string) returns (j: nat)
    ensures j == FirstWith(lines, section, 0)
  {
    j := 0;
    while j < |lines| && !Includes(lines[j], section)
      invariant j <= |lines| && FirstWith(lines, section, j) == FirstWith(lines, section, 0)
    {
      j := j + 1;
    }
  }

  method MiniMatch(a: seq<string>, b: seq<string>) returns (k: nat)
    ensures k == FirstMatch(a, b, 0)
  {
    k := 0;
    while k < |a| && a[k..] != Slice(b, k, |b|)
      invariant k <= |a| && FirstMatch(a, b, k) == FirstMatch(a, b, 0)
    {
      k := k + 1;
    }
  }

  /** The dynamic search: limits that start at the enclosing declaration where it is found in both files. */
  method ChooseLimits(h: Line, base: seq<string>, head: seq<string>, cfg: Config) returns (limits: Limits, foundHeader: bool)
    requires h.Hdr?
    ensures limits == Chosen(h, base, head, cfg) && foundHeader == HeaderFound(h, base, head, cfg)
  {
    foundHeader := false;
    limits := LimitsFor(h, cfg.before, cfg.after, |base|);
    if cfg.dynamic && head != [] {
      limits := DynamicLimits(h, base, cfg);
      var linesBeforeOriginal := BaseLead(h, limits, base);
      var linesBeforeNew := HeadLead(h, limits, head);
      if h.section != "" {
        var j := FindSection(linesBeforeOriginal, h.section);
        if j < |linesBeforeOriginal| {
          limits := Shift(limits, j);
          SliceTail(head, DynamicLimits(h, base, cfg).start2 - 1, h.start2 - 1, j);
          foundHeader := linesBeforeOriginal[j..] == Slice(linesBeforeNew, j, |linesBeforeNew|);
        }
      }
      if !foundHeader {
        limits := LimitsFor(h, cfg.before, cfg.after, |base|);
      }
    }
  }

  /** The mini-match: what is left of the leading lines, and the limits that go with it. */
  method NarrowLead(h: Line, chosen: Limits, base: seq<string>, head: seq<string>) returns (limits: Limits, lead: seq<string>)
    requires h.Hdr?
    ensures var a, b := BaseLead(h, chosen, base), HeadLead(h, chosen, head);
            limits == Narrowed(h, chosen, head, a, b) && lead == a[Drop(head, a, b)..]
  {
    limits, lead := chosen, BaseLead(h, chosen, base);
    if head != [] {
      var leadNew := HeadLead(h, chosen, head);
      if lead != leadNew {
        var k := MiniMatch(lead, leadNew);
        if k < |lead| {
          lead := lead[k..];
          limits := Shift(limits, k);
        } else {
          limits := Limits(h.start1, h.size1, h.start2, h.size2);
          lead := [];
        }
      }
    }
  }

  /** The part of the loop body that runs for the header of a hunk whose first line matches. */
  method ExtendHeader(h: Line, base: seq<string>, head: seq<string>, cfg: Config)
    returns (limits: Limits, section: string, lead: seq<string>)
    requires h.Hdr?
    ensures limits == Final(h, base, head, cfg)
    ensures section == Section(h, base, head, cfg)
    ensures lead == Lead(h, base, head, cfg)
  {
    var foundHeader: bool;
    limits, foundHeader := ChooseLimits(h, base, head, cfg);
    section := if foundHeader then "" else h.section;
    limits, lead := NarrowLead(h, limits, base, head);
    if section != "" && !cfg.dynamic {
      if exists l | l in lead :: Includes(" " + l, section) {
        section := "";
      }
    }
  }

  lemma SliceTail(s: seq<string>, from: int, to: int, j: nat)
    ensures Slice(Slice(s, from, to), j, |Slice(s, from, to)|) == Slice(Slice(s, from, to), j, |s|)
  {
  }

  /** What the loop still has to emit when it stands before `lines`. */
  ghost function Pending(trail: seq<string>, lines: seq<Line>, base: seq<string>, head: seq<string>, cfg: Config): seq<Line> {
    HunksAreWellShaped(lines);
    Body(lines) + (Context(trail) + Flatten(ExtendAll(Hunks(lines), base, head, cfg)))
  }

  lemma PendingEnds(patch: seq<Line>, trail: seq<string>, base: seq<string>, head: seq<string>, cfg: Config)
    ensures Pending(trail, [], base, head, cfg) == Context(trail)
    ensures !Untouched(base, cfg, false) ==> Pending([], patch, base, head, cfg) == Extend(patch, base, head, cfg, false)
  {
    HunksAreWellShaped(patch);
    assert Context([]) + Flatten(ExtendAll(Hunks(patch), base, head, cfg)) == Flatten(ExtendAll(Hunks(patch), base, head, cfg));
  }

  lemma PendingLine(trail: seq<string>, lines: seq<Line>, base: seq<string>, head: seq<string>, cfg: Config)
    requires lines != [] && !lines[0].Hdr?
    ensures Pending(trail, lines, base, head, cfg) == [lines[0]] + Pending(trail, lines[1..], base, head, cfg)
  {
    assert Rest(lines) == Rest(lines[1..]);
    HunksAreWellShaped(lines);
    HunksAreWellShaped(lines[1..]);
    Assoc([lines[0]], Body(lines[1..]), Context(trail) + Flatten(ExtendAll(Hunks(lines), base, head, cfg)));
  }

  lemma PendingHeader(trail: seq<string>, lines: seq<Line>, base: seq<string>, head: seq<string>, cfg: Config)
    requires lines != [] && lines[0].Hdr?
    ensures var h, next := lines[0], lines[1..];
            Pending(trail, lines, base, head, cfg) ==
            Context(trail) + (Opened(h, next, base, head, cfg) + Pending(After(h, next, base, cfg), next, base, head, cfg))
  {
    var h, next := lines[0], lines[1..];
    var body := Body(next);
    assert LinesMatch(h, body, base) == LinesMatch(h, next, base);
    HunksAreWellShaped(lines);
    HunksAreWellShaped(next);
    var k := Hunk(h, body);
    assert Hunks(lines) == [k] + Hunks(next);
    assert Hunks(lines)[1..] == Hunks(next);
    var rest := Flatten(ExtendAll(Hunks(next), base, head, cfg));
    var before, after := Context(Before(h, next, base, head, cfg)), Context(After(h, next, base, cfg));
    Assoc(before + body, after, rest);
    Assoc(before, body, after + rest);
    Assoc([NewHeader(h, next, base, head, cfg)], before, body + (after + rest));
  }

  /** The loop invariant: what is emitted and what is pending make up the whole result. */
  ghost predicate OnTrack(emitted: seq<Line>, trail: seq<string>, lines: seq<Line>, base: seq<string>, head: seq<string>,
                          cfg: Config, whole: seq<Line>) {
    emitted + Pending(trail, lines, base, head, cfg) == whole
  }

  lemma LineStep(emitted: seq<Line>, trail: seq<string>, lines: seq<Line>, base: seq<string>, head: seq<string>,
                 cfg: Config, whole: seq<Line>)
    requires lines != [] && !lines[0].Hdr? && OnTrack(emitted, trail, lines, base, head, cfg, whole)
    ensures OnTrack(emitted + [lines[0]], trail, lines[1..], base, head, cfg, whole)
  {
    PendingLine(trail, lines, base, head, cfg);
    Assoc(emitted, [lines[0]], Pending(trail, lines[1..], base, head, cfg));
  }

  lemma HeaderStep(emitted: seq<Line>, trail: seq<string>, lines: seq<Line>, base: seq<string>, head: seq<string>,
                   cfg: Config, whole: seq<Line>)
    requires lines != [] && lines[0].Hdr? && OnTrack(emitted, trail, lines, base, head, cfg, whole)
    ensures OnTrack(emitted + Context(trail) + Opened(lines[0], lines[1..], base, head, cfg),
                    Closing(LinesMatch(lines[0], lines[1..], base), lines[0].start1, lines[0].size1, base, cfg.after),
                    lines[1..], base, head, cfg, whole)
  {
    var h, next := lines[0], lines[1..];
    PendingHeader(trail, lines, base, head, cfg);
    ClosingIsAfter(h, next, base, cfg);
    ThreeParts(emitted, Context(trail), Opened(h, next, base, head, cfg), Pending(After(h, next, base, cfg), next, base, head, cfg));
  }

  lemma ClosingIsAfter(h: Line, next: seq<Line>, base: seq<string>, cfg: Config)
    requires h.Hdr?
    ensures Closing(LinesMatch(h, next, base), h.start1, h.size1, base, cfg.after) == After(h, next, base, cfg)
  {
  }

  lemma ThreeParts<T>(a: seq<T>, b: seq<T>, c: seq<T>, d: seq<T>)
    ensures a + b + c + d == a + (b + (c + d))
  {
  }

  function Opened(line: Line, next: seq<Line>, base: seq<string>, head: seq<string>, cfg: Config): seq<Line>
    requires line.Hdr?
  {
    [NewHeader(line, next, base, head, cfg)] + Context(Before(line, next, base, head, cfg))
  }

  /** The lines that close the hunk the loop is in, if it is in a valid one. */
  function Closing(isValidHunk: bool, start1: int, size1: int, base: seq<string>, after: nat): seq<string> {
    if isValidHunk && start1 != -1 && after > 0 then Slice(base, start1 + size1 - 1, start1 + size1 - 1 + after) else []
  }

  /** The header branch of the loop, after the trailing context of the hunk before. */
  method OpenHunk(line: Line, next: seq<Line>, base: seq<string>, head: seq<string>, cfg: Config)
    returns (emitted: seq<Line>, isValidHunk: bool)
    requires line.Hdr?
    ensures isValidHunk == LinesMatch(line, next, base)
    ensures emitted == Opened(line, next, base, head, cfg)
  {
    isValidHunk := LinesMatch(line, next, base);
    if isValidHunk {
      var limits, section, lead := ExtendHeader(line, base, head, cfg);
      emitted := [Written(limits, section)] + Context(lead);
    } else {
      emitted := [Written(Limits(line.start1, line.size1, line.start2, line.size2), line.section)];
      assert emitted + Context([]) == emitted;
    }
  }

  /** The header branch as a whole: the hunk before is closed, and the new one opened. */
  method TakeHeader(extended0: seq<Line>, closing: seq<string>, line: Line, next: seq<Line>, base: seq<string>, head: seq<string>,
                    cfg: Config, ghost lines: seq<Line>, ghost whole: seq<Line>)
    returns (extended: seq<Line>, isValidHunk: bool)
    requires lines != [] && line == lines[0] && line.Hdr? && next == lines[1..]
    requires OnTrack(extended0, closing, lines, base, head, cfg, whole)
    ensures OnTrack(extended, Closing(isValidHunk, line.start1, line.size1, base, cfg.after), next, base, head, cfg, whole)
  {
    HeaderStep(extended0, closing, lines, base, head, cfg, whole);
    var own, valid := OpenHunk(line, next, base, head, cfg);
    extended, isValidHunk := extended0 + Context(closing) + own, valid;
  }

  method ExtendPatch(patchLines: seq<Line>, base: seq<string>, head: seq<string>, cfg: Config, skip: bool)
    returns (extended: seq<Line>)
    ensures extended == Extend(patchLines, base, head, cfg, skip)
  {
    if Untouched(base, cfg, skip) {
      return patchLines;
    }
    extended := [];
    var isValidHunk := true;
    var start1: int := -1;
    var size1: int := -1;
    var i := 0;
    ghost var lines := patchLines;
    ghost var whole := Pending([], patchLines, base, head, cfg);
    while i < |patchLines|
      invariant 0 <= i <= |patchLines| && lines == patchLines[i..]
      invariant OnTrack(extended, Closing(isValidHunk, start1, size1, base, cfg.after), lines, base, head, cfg, whole)
    {
      var line := patchLines[i];
      var closing := Closing(isValidHunk, start1, size1, base, cfg.after);
      TailOfTail(patchLines, i);
      if line.Hdr? {
        extended, isValidHunk := TakeHeader(extended, closing, line, patchLines[i + 1..], base, head, cfg, lines, whole);
        start1, size1 := line.start1, line.size1;
      } else {
        LineStep(extended, closing, lines, base, head, cfg, whole);
        extended := extended + [line];
      }
      i, lines := i + 1, lines[1..];
    }
    PendingEnds(patchLines, Closing(isValidHunk, start1, size1, base, cfg.after), base, head, cfg);
    extended := extended + Context(Closing(isValidHunk, start1, size1, base, cfg.after));
  }
}
