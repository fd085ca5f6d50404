/** The one-hunk diff shown beside a suggestion: it can be applied, undone, and no smaller hunk does the same. */
module UnifiedDiffs {
  import opened Patches

  /** The lines of a snippet: what split("\n") gives, without an empty last line. */
  function Trimmed(lines: seq<string>): (r: seq<string>)
    ensures r <= lines
  {
    if lines != [] && lines[|lines| - 1] == "" then lines[..|lines| - 1] else lines
  }

  /** An empty last line goes, and nothing else ever does. */
  lemma {:induction false} TrimmedMeans(lines: seq<string>)
    ensures if lines == [] || lines[|lines| - 1] != "" then Trimmed(lines) == lines else Trimmed(lines) + [""] == lines
  {
    if lines != [] {
      assert lines == lines[..|lines| - 1] + [lines[|lines| - 1]];
    }
  }

  /** An edit keeps the first `p` and the last `s` lines and replaces what lies between. */
  predicate Edits(old0: seq<string>, new0: seq<string>, p: nat, s: nat) {
    && p + s <= |old0| && p + s <= |new0|
    && SameStart(old0, new0, p) && SameEnd(old0, new0, s)
  }

  predicate SameStart(a: seq<string>, b: seq<string>, n: nat)
    requires n <= |a| && n <= |b|
  {
    forall i :: 0 <= i < n ==> a[i] == b[i]
  }

  predicate SameEnd(a: seq<string>, b: seq<string>, n: nat)
    requires n <= |a| && n <= |b|
  {
    forall i :: |a| - n <= i < |a| ==> a[i] == b[i + |b| - |a|]
  }

  lemma SameEndSlices(a: seq<string>, b: seq<string>, n: nat)
    requires n <= |a| && n <= |b| && SameEnd(a, b, n)
    ensures a[|a| - n..] == b[|b| - n..]
  {
  }

  /** Deletions, additions and the closing fence, under a header. */
  function Signed(texts: seq<string>, add: bool): (r: seq<Line>)
    ensures |r| == |texts| && forall i :: 0 <= i < |r| ==> r[i] == if add then Add(texts[i]) else Del(texts[i])
  {
    seq(|texts|, i requires 0 <= i < |texts| => if add then Add(texts[i]) else Del(texts[i]))
  }

  function Fenced(start: nat, oldMid: seq<string>, newMid: seq<string>): seq<Line> {
    [Raw("```diff"), Hdr(start, |oldMid|, start, |newMid|, "", Numerals(start, |oldMid|, start, |newMid|))] + Signed(oldMid, false) + Signed(newMid, true) + [Raw("```")]
  }

  /** Applying a hunk to the old file: the old side at its place gives way to the new side. */
  function Apply(k: Hunk, file: seq<string>): seq<string>
    requires k.header.Hdr? && 1 <= k.header.start1 && k.header.start1 - 1 + |OldSide(k.body)| <= |file|
  {
    file[..k.header.start1 - 1] + NewSide(k.body) + file[k.header.start1 - 1 + |OldSide(k.body)|..]
  }

  /** Undoing it: the new side at its place in the new file gives way to the old side. */
  function Undo(k: Hunk, file: seq<string>): seq<string>
    requires k.header.Hdr? && 1 <= k.header.start2 && k.header.start2 - 1 + |NewSide(k.body)| <= |file|
  {
    file[..k.header.start2 - 1] + OldSide(k.body) + file[k.header.start2 - 1 + |NewSide(k.body)|..]
  }

  lemma SignedCons(texts: seq<string>, add: bool)
    requires texts != []
    ensures Signed(texts, add)[1..] == Signed(texts[1..], add)
    ensures Signed(texts, add) == [if add then Add(texts[0]) else Del(texts[0])] + Signed(texts[1..], add)
  {
  }

  lemma TextsOfSigned(texts: seq<string>, add: bool)
    ensures Texts(Signed(texts, add)) == texts
  {
  }

  lemma {:induction false} SignedSides(side: Side, texts: seq<string>, add: bool)
    requires !side.Change?
    ensures Pick(side, Signed(texts, add)) == if side.New? == add then Signed(texts, add) else []
  {
    if texts != [] {
      SignedSides(side, texts[1..], add);
      SignedCons(texts, add);
    }
  }

  /** The two sides of a body of deletions and additions, with the closing fence behind. */
  lemma SidesOfSigned(oldMid: seq<string>, newMid: seq<string>)
    ensures var body := Signed(oldMid, false) + Signed(newMid, true) + [Raw("```")];
            OldSide(body) == oldMid && NewSide(body) == newMid
  {
    var body := Signed(oldMid, false) + Signed(newMid, true) + [Raw("```")];
    PickSigned(Old, oldMid, newMid);
    PickSigned(New, oldMid, newMid);
    TextsOfSigned(oldMid, false);
    TextsOfSigned(newMid, true);
  }

  lemma {:induction false} PickSigned(side: Side, oldMid: seq<string>, newMid: seq<string>)
    requires !side.Change?
    ensures Pick(side, Signed(oldMid, false) + Signed(newMid, true) + [Raw("```")]) ==
            if side.New? then Signed(newMid, true) else Signed(oldMid, false)
  {
    PickConcat(side, Signed(oldMid, false) + Signed(newMid, true), [Raw("```")]);
    PickConcat(side, Signed(oldMid, false), Signed(newMid, true));
    SignedSides(side, oldMid, false);
    SignedSides(side, newMid, true);
    PickFence(side);
  }

  lemma {:induction false} PickFence(side: Side)
    ensures Pick(side, [Raw("```")]) == []
  {
  }

  /** A fence, a header and a body without one read as a single hunk. */
  lemma {:induction false} OneFencedHunk(fence: Line, h: Line, body: seq<Line>)
    requires !fence.Hdr? && h.Hdr? && NoHeader(body)
    ensures Hunks([fence] + ([h] + body)) == [Hunk(h, body)]
  {
    BodyOfConcat([fence], [h] + body);
    BodyOfConcat(body, []);
    assert body + [] == body && ([h] + body)[1..] == body;
  }

  /** Reading the output back: one hunk, whose two sides are the two middles and whose header counts them. */
  lemma FencedReadsBack(start: nat, oldMid: seq<string>, newMid: seq<string>)
    ensures var hunks := Hunks(Fenced(start, oldMid, newMid));
            && |hunks| == 1 && hunks[0].header == Hdr(start, |oldMid|, start, |newMid|, "", Numerals(start, |oldMid|, start, |newMid|))
            && OldSide(hunks[0].body) == oldMid && NewSide(hunks[0].body) == newMid
  {
    var out := Fenced(start, oldMid, newMid);
    var body := Signed(oldMid, false) + Signed(newMid, true) + [Raw("```")];
    assert out == [out[0]] + ([out[1]] + body);
    OneFencedHunk(out[0], out[1], body);
    SidesOfSigned(oldMid, newMid);
  }

  /** What the two loops settle on. */
  ghost predicate Settled(old0: seq<string>, new0: seq<string>, p: nat, s: nat) {
    && Edits(old0, new0, p, s)
    && (p < |old0| && p < |new0| ==> old0[p] != new0[p])
    && (p + s < |old0| && p + s < |new0| ==> old0[|old0| - 1 - s] != new0[|new0| - 1 - s])
  }

  function Diff(old0: seq<string>, new0: seq<string>, p: nat, s: nat): seq<Line>
    requires p + s <= |old0| && p + s <= |new0|
  {
    Fenced(p + 1, old0[p..|old0| - s], new0[p..|new0| - s])
  }

  /** The last line goes if it is empty. */
  method DropArtifact(lines: seq<string>) returns (left: seq<string>)
    ensures left == Trimmed(lines)
  {
    left := lines;
    if |left| > 0 && left[|left| - 1] == "" {
      left := left[..|left| - 1];
    }
  }

  method CommonStart(oldLines: seq<string>, newLines: seq<string>) returns (prefix: nat)
    ensures prefix <= |oldLines| && prefix <= |newLines| && SameStart(oldLines, newLines, prefix)
    ensures prefix < |oldLines| && prefix < |newLines| ==> oldLines[prefix] != newLines[prefix]
  {
    prefix := 0;
    while prefix < |oldLines| && prefix < |newLines| && oldLines[prefix] == newLines[prefix]
      invariant prefix <= |oldLines| && prefix <= |newLines| && SameStart(oldLines, newLines, prefix)
    {
      prefix := prefix + 1;
    }
  }

  method CommonEnd(oldLines: seq<string>, newLines: seq<string>, prefix: nat) returns (suffix: nat)
    requires prefix <= |oldLines| && prefix <= |newLines|
    ensures prefix + suffix <= |oldLines| && prefix + suffix <= |newLines| && SameEnd(oldLines, newLines, suffix)
    ensures prefix + suffix < |oldLines| && prefix + suffix < |newLines| ==>
              oldLines[|oldLines| - 1 - suffix] != newLines[|newLines| - 1 - suffix]
  {
    suffix := 0;
    while suffix < |oldLines| - prefix && suffix < |newLines| - prefix
      && oldLines[|oldLines| - 1 - suffix] == newLines[|newLines| - 1 - suffix]
      invariant prefix + suffix <= |oldLines| && prefix + suffix <= |newLines|
      invariant SameEnd(oldLines, newLines, suffix)
    {
      suffix := suffix + 1;
    }
  }

  method UnifiedDiff(existing: seq<string>, improved: seq<string>) returns (out: seq<Line>, prefix: nat, suffix: nat)
    ensures Settled(Trimmed(existing), Trimmed(improved), prefix, suffix)
    ensures out == Diff(Trimmed(existing), Trimmed(improved), prefix, suffix)
  {
    var oldLines := DropArtifact(existing);
    var newLines := DropArtifact(improved);
    prefix := CommonStart(oldLines, newLines);
    suffix := CommonEnd(oldLines, newLines, prefix);
    out := Diff(oldLines, newLines, prefix, suffix);
  }

  /** The diff turns the old lines into the new ones, and back. */
  lemma AppliesAndUndoes(old0: seq<string>, new0: seq<string>, p: nat, s: nat)
    requires Edits(old0, new0, p, s)
    ensures var hunks := Hunks(Diff(old0, new0, p, s));
            && |hunks| == 1 && hunks[0].header.Hdr?
            && hunks[0].header.start1 - 1 + |OldSide(hunks[0].body)| <= |old0|
            && hunks[0].header.start2 - 1 + |NewSide(hunks[0].body)| <= |new0|
            && 1 <= hunks[0].header.start1 && 1 <= hunks[0].header.start2
            && Apply(hunks[0], old0) == new0 && Undo(hunks[0], new0) == old0
  {
    FencedReadsBack(p + 1, old0[p..|old0| - s], new0[p..|new0| - s]);
    AppliesAt(Hunks(Diff(old0, new0, p, s))[0], old0, new0, p, s);
  }

  /** Any hunk at that place, with those two sides. */
  lemma AppliesAt(k: Hunk, old0: seq<string>, new0: seq<string>, p: nat, s: nat)
    requires Edits(old0, new0, p, s) && k.header.Hdr? && k.header.start1 == k.header.start2 == p + 1
    requires OldSide(k.body) == old0[p..|old0| - s] && NewSide(k.body) == new0[p..|new0| - s]
    ensures Apply(k, old0) == new0 && Undo(k, new0) == old0
  {
    Replaces(old0, new0, p, s);
  }

  lemma Replaces(old0: seq<string>, new0: seq<string>, p: nat, s: nat)
    requires Edits(old0, new0, p, s)
    ensures old0[..p] + new0[p..|new0| - s] + old0[|old0| - s..] == new0
    ensures new0[..p] + old0[p..|old0| - s] + new0[|new0| - s..] == old0
  {
    SameEndSlices(old0, new0, s);
    assert old0[..p] == new0[..p];
    assert old0 == old0[..p] + old0[p..|old0| - s] + old0[|old0| - s..];
    assert new0 == new0[..p] + new0[p..|new0| - s] + new0[|new0| - s..];
  }

  /** The output line by line: a fence, the header with its numbers as characters, the lines that go, the lines that come,
      and the fence. */
  lemma {:induction false} FencedIs(start: nat, gone: seq<string>, came: seq<string>)
    ensures var out := Fenced(start, gone, came);
            && |out| == 3 + |gone| + |came| && out[0] == Raw("```diff") && out[|out| - 1] == Raw("```")
            && out[1] == Hdr(start, |gone|, start, |came|, "", Numerals(start, |gone|, start, |came|))
            && (forall i :: 2 <= i < 2 + |gone| ==> out[i] == Del(gone[i - 2]))
            && (forall i :: 2 + |gone| <= i < 2 + |gone| + |came| ==> out[i] == Add(came[i - 2 - |gone|]))
  {
  }

  /** No smaller edit exists: every way to keep a common start and a common end replaces at least as many lines. */
  lemma NoSmallerHunk(old0: seq<string>, new0: seq<string>, p: nat, s: nat, p0: nat, s0: nat)
    requires Settled(old0, new0, p, s) && Edits(old0, new0, p0, s0)
    ensures p0 <= p && p0 + s0 <= p + s
  {
    assert s < s0 ==> old0[|old0| - 1 - s] == new0[|new0| - 1 - s];
  }

  /** An empty hunk means that nothing differs, and only then. */
  lemma EmptyIffSame(old0: seq<string>, new0: seq<string>, p: nat, s: nat)
    requires Settled(old0, new0, p, s)
    ensures old0 == new0 <==> |old0| == p + s && |new0| == p + s
  {
    if |old0| == p + s && |new0| == p + s {
      SameEndSlices(old0, new0, s);
      assert old0[..p] == new0[..p];
      assert old0 == old0[..p] + old0[|old0| - s..];
      assert new0 == new0[..p] + new0[|new0| - s..];
    }
  }

  /** In the unified format an empty side starts at the line before it. The header names the line after it instead, so
      its numbers are the format's own exactly when neither side is empty. */
  lemma HeaderIsConventionalIff(p: nat, oldMid: seq<string>, newMid: seq<string>)
    ensures |Hunks(Fenced(p + 1, oldMid, newMid))| == 1
    ensures var h := Hunks(Fenced(p + 1, oldMid, newMid))[0].header;
            h.Hdr? && ((h.start1 == p + (if oldMid == [] then 0 else 1) && h.start2 == p + (if newMid == [] then 0 else 1))
                       <==> oldMid != [] && newMid != [])
  {
    FencedReadsBack(p + 1, oldMid, newMid);
  }
}
