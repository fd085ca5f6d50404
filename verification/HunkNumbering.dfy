/** The numbers of the new sections: what they are for every patch, and when they are the head file's own. */
module HunkNumbering {
  import opened Basics
  import opened Text
  import opened Patches
  import opened HunkSpec
  import opened HunkTheorems

  function OldLines(lines: seq<Line>): seq<Line> {
    if lines == [] then []
    else (if lines[0].Add? then [] else [lines[0]]) + OldLines(lines[1..])
  }

  predicate Changed(body: seq<Line>) {
    SomeAdd(body) || SomeDel(body)
  }

  /** Hunk by hunk: the lines that are not deletions, numbered from the header's start, where anything changed. */
  function NumbersOf(hunks: seq<Hunk>): seq<What>
    requires forall i :: 0 <= i < |hunks| ==> hunks[i].header.Hdr?
  {
    if hunks == [] then [] else NumbersIn(hunks[0]) + NumbersOf(hunks[1..])
  }

  function NumbersIn(k: Hunk): seq<What>
    requires k.header.Hdr?
  {
    if Changed(k.body) then Counted(k.header.start2, Marks(Numbers, k.body)) else []
  }

  /** The hunks as the conversion sees them. A hunk that holds a malformed header loses its own, and its lines go to the
      next hunk, as do those before the first header; where no header follows they are not shown. */
  function Effective(carry: seq<Line>, hunks: seq<Hunk>): (r: seq<Hunk>)
    requires WellShaped(hunks)
    ensures forall i :: 0 <= i < |r| ==> r[i].header.Hdr?
    decreases |hunks|
  {
    if hunks == [] then []
    else
      var body := carry + WithoutBad(hunks[0].body);
      if NoBad(hunks[0].body) then [Hunk(hunks[0].header, body)] + Effective([], hunks[1..])
      else Effective(body, hunks[1..])
  }

  /** The state after the lines `b` since the last section: `h` is the header in force, if any is. */
  predicate Inside(s: State, h: Option<Line>, b: seq<Line>) {
    (h.Some? ==> h.value.Hdr?) && Sound(s) && s.header == h && s.news == Marks(Numbers, b) && s.olds == OldLines(b) && NoBad(b)
  }

  /** The hunks still to come, where `b` waits under `h`, and `body` and then `hunks` follow. */
  function Coming(h: Option<Line>, b: seq<Line>, body: seq<Line>, hunks: seq<Hunk>): (r: seq<Hunk>)
    requires (h.Some? ==> h.value.Hdr?) && WellShaped(hunks)
    ensures forall i :: 0 <= i < |r| ==> r[i].header.Hdr?
  {
    if h.Some? && NoBad(body) then [Hunk(h.value, b + body)] + Effective([], hunks)
    else Effective(b + WithoutBad(body), hunks)
  }

  lemma ComingHeader(h: Option<Line>, b: seq<Line>, h2: Line, body: seq<Line>, hunks: seq<Hunk>)
    requires (h.Some? ==> h.value.Hdr?) && h2.Hdr? && WellShaped(hunks) && WellShaped([Hunk(h2, body)] + hunks) && NoBad(b)
    ensures Coming(h, b, [], [Hunk(h2, body)] + hunks) ==
            if h.Some? then [Hunk(h.value, b)] + Coming(Some(h2), [], body, hunks) else Coming(Some(h2), b, body, hunks)
  {
    var all := [Hunk(h2, body)] + hunks;
    assert all[1..] == hunks;
    assert b + [] == b && b + WithoutBad([]) == b;
    if NoBad(body) {
      NothingBad(body);
    }
    assert Effective([], all) == Coming(Some(h2), [], body, hunks);
    assert Effective(b, all) == Coming(Some(h2), b, body, hunks);
  }

  lemma ComingLine(h: Option<Line>, b: seq<Line>, line: Line, body: seq<Line>, hunks: seq<Hunk>, more: seq<Line>, all: seq<Hunk>)
    requires (h.Some? ==> h.value.Hdr?) && WellShaped(hunks) && !line.Hdr? && more == [line] + body && all == hunks
    ensures Coming(h, b, more, all) ==
            if line.BadHdr? then Coming(None, b, body, hunks) else Coming(h, b + [line], body, hunks)
  {
    assert more[0] == line && more[1..] == body;
    NoBadConcat([line], body);
    Assoc(b, [line], body);
    Assoc(b, [line], WithoutBad(body));
    assert WithoutBad(more) == if line.BadHdr? then WithoutBad(body) else [line] + WithoutBad(body);
  }

  lemma {:induction false} Members(b: seq<Line>)
    ensures SomeAdd(Marks(Numbers, b)) <==> SomeAdd(b)
    ensures SomeDel(OldLines(b)) <==> SomeDel(b)
  {
    if b != [] {
      Members(b[1..]);
      assert forall l :: l in b <==> l == b[0] || l in b[1..];
      assert forall l :: l in Marks(Numbers, b) <==> (Bears(Numbers, b[0]) && l == b[0]) || l in Marks(Numbers, b[1..]);
      assert forall l :: l in OldLines(b) <==> (!b[0].Add? && l == b[0]) || l in OldLines(b[1..]);
    }
  }

  lemma {:induction false} OldLinesConcat(a: seq<Line>, b: seq<Line>)
    ensures OldLines(a + b) == OldLines(a) + OldLines(b)
  {
    if a == [] {
      assert a + b == b;
    } else {
      OldLinesConcat(a[1..], b);
      assert (a + b)[1..] == a[1..] + b;
      Assoc(if a[0].Add? then [] else [a[0]], OldLines(a[1..]), OldLines(b));
    }
  }

  lemma FlushInside(s: State, h: Line, b: seq<Line>, isLast: bool)
    requires Inside(s, Some(h), b)
    ensures Sound(Flush(s, isLast)) && Prints(Numbers, Flush(s, isLast).out) == Prints(Numbers, s.out) + NumbersIn(Hunk(h, b))
    ensures Flush(s, isLast).news == [] && Flush(s, isLast).olds == []
  {
    FlushPrints(Numbers, s, isLast);
    Members(b);
    NumberedPrints(h.start2, s.news);
  }

  lemma TakeInside(s: State, h: Option<Line>, b: seq<Line>, line: Line)
    requires Inside(s, h, b) && !At(line)
    ensures Inside(Take(s, line), h, b + [line]) && Take(s, line).out == s.out
  {
    MarksConcat(Numbers, b, [line]);
    OldLinesConcat(b, [line]);
  }

  /** Every printed number: what is out, and the numbers of the hunks to come. */
  ghost predicate PrintsComing(s: State, h: Option<Line>, b: seq<Line>, lines: seq<Line>)
    requires (h.Some? ==> h.value.Hdr?) && WellShaped(Hunks(lines))
  {
    var out := Flush(Run(s, lines), true).out;
    Prints(Numbers, out) == Prints(Numbers, s.out) + NumbersOf(Coming(h, b, Body(lines), Hunks(lines))) && AllFaithful(out)
  }

  lemma {:induction false} RunInside(s: State, h: Option<Line>, b: seq<Line>, lines: seq<Line>)
    requires Inside(s, h, b)
    ensures WellShaped(Hunks(lines)) && PrintsComing(s, h, b, lines)
    decreases |lines|
  {
    HunksAreWellShaped(lines);
    if lines == [] {
      RunEnds(s, h, b);
    } else if lines[0].Hdr? {
      var rest := Headless(s, h, b, lines);
      RunInside(Take(s, lines[0]), Some(lines[0]), if h.Some? then [] else b, rest);
      RunHeaderLine(s, h, b, lines);
    } else if lines[0].BadHdr? {
      RunInside(Take(s, lines[0]), None, b, lines[1..]);
      RunOtherLine(s, h, b, lines);
    } else {
      TakeInside(s, h, b, lines[0]);
      RunInside(Take(s, lines[0]), h, b + [lines[0]], lines[1..]);
      RunOtherLine(s, h, b, lines);
    }
  }

  lemma RunEnds(s: State, h: Option<Line>, b: seq<Line>)
    requires Inside(s, h, b)
    ensures PrintsComing(s, h, b, [])
  {
    assert b + [] == b && b + WithoutBad([]) == b;
    if h.Some? {
      FlushInside(s, h.value, b, true);
      NumbersOfCons(Hunk(h.value, b), []);
      assert NumbersIn(Hunk(h.value, b)) + [] == NumbersIn(Hunk(h.value, b));
    } else {
      assert Prints(Numbers, s.out) + [] == Prints(Numbers, s.out);
    }
  }

  /** What follows a header, and that its state is again inside a hunk. */
  lemma Headless(s: State, h: Option<Line>, b: seq<Line>, lines: seq<Line>) returns (rest: seq<Line>)
    requires Inside(s, h, b) && lines != [] && lines[0].Hdr?
    ensures rest == lines[1..] && Inside(Take(s, lines[0]), Some(lines[0]), if h.Some? then [] else b)
  {
    rest := lines[1..];
    if h.Some? {
      FlushInside(s, h.value, b, false);
    }
  }

  lemma {:induction false} RunHeaderLine(s: State, h: Option<Line>, b: seq<Line>, lines: seq<Line>)
    requires Inside(s, h, b) && lines != [] && lines[0].Hdr?
    requires WellShaped(Hunks(lines)) && WellShaped(Hunks(lines[1..]))
    requires PrintsComing(Take(s, lines[0]), Some(lines[0]), if h.Some? then [] else b, lines[1..])
    ensures PrintsComing(s, h, b, lines)
  {
    var body, hunks := Body(lines[1..]), Hunks(lines[1..]);
    HunksOfHeader(lines);
    assert Body(lines) == [];
    ComingHeader(h, b, lines[0], body, hunks);
    if h.Some? {
      FlushInside(s, h.value, b, false);
      var next := Coming(Some(lines[0]), [], body, hunks);
      NumbersOfCons(Hunk(h.value, b), next);
      Assoc(Prints(Numbers, s.out), NumbersIn(Hunk(h.value, b)), NumbersOf(next));
    }
  }

  lemma {:induction false} HunksOfOther(lines: seq<Line>)
    requires lines != [] && !lines[0].Hdr?
    ensures Body(lines) == [lines[0]] + Body(lines[1..]) && Hunks(lines) == Hunks(lines[1..])
  {
    assert Rest(lines) == Rest(lines[1..]);
  }

  lemma OtherPrintsNothing(s: State, line: Line)
    requires !line.Hdr?
    ensures Take(s, line).out == s.out
  {
  }

  lemma {:induction false} RunOtherLine(s: State, h: Option<Line>, b: seq<Line>, lines: seq<Line>)
    requires Inside(s, h, b) && lines != [] && !lines[0].Hdr?
    requires WellShaped(Hunks(lines)) && WellShaped(Hunks(lines[1..]))
    requires if lines[0].BadHdr? then PrintsComing(Take(s, lines[0]), None, b, lines[1..])
             else PrintsComing(Take(s, lines[0]), h, b + [lines[0]], lines[1..])
    ensures PrintsComing(s, h, b, lines)
  {
    var line, body, hunks := lines[0], Body(lines[1..]), Hunks(lines[1..]);
    HunksOfOther(lines);
    var next := if line.BadHdr? then Coming(None, b, body, hunks) else Coming(h, b + [line], body, hunks);
    ComingLine(h, b, line, body, hunks, Body(lines), Hunks(lines));
    OtherPrintsNothing(s, line);
    assert Run(s, lines) == Run(Take(s, line), lines[1..]);
    assert Prints(Numbers, Flush(Run(Take(s, line), lines[1..]), true).out) == Prints(Numbers, s.out) + NumbersOf(next);
  }

  lemma {:induction false} NumbersOfCons(k: Hunk, hunks: seq<Hunk>)
    requires k.header.Hdr? && forall i :: 0 <= i < |hunks| ==> hunks[i].header.Hdr?
    ensures NumbersOf([k] + hunks) == NumbersIn(k) + NumbersOf(hunks)
  {
    assert ([k] + hunks)[1..] == hunks;
  }

  lemma {:induction false} HunksOfHeader(lines: seq<Line>)
    requires lines != [] && lines[0].Hdr?
    ensures Hunks(lines) == [Hunk(lines[0], Body(lines[1..]))] + Hunks(lines[1..])
  {
    assert Rest(lines) == lines;
  }

  /** The hunks the conversion sees in a whole patch. */
  function Read(lines: seq<Line>): (r: seq<Hunk>)
    requires WellShaped(Hunks(lines))
    ensures forall i :: 0 <= i < |r| ==> r[i].header.Hdr?
  {
    Effective(WithoutBad(Body(lines)), Hunks(lines))
  }

  /** The numbers shown, for every patch: hunk by hunk, from the header's start and up. */
  lemma {:induction false} NumbersAreCounted(patch: seq<Line>, file: Option<File>)
    requires file.Some? ==> !file.value.deleted
    ensures WellShaped(Hunks(Kept(patch, true)))
    ensures Prints(Numbers, Converted(patch, file)) == NumbersOf(Read(Kept(patch, true)))
  {
    var lines := Kept(patch, true);
    HunksAreWellShaped(lines);
    StartIsSound(Numbers, file);
    RunInside(Start(file), None, [], lines);
    assert [] + WithoutBad(Body(lines)) == WithoutBad(Body(lines));
    assert [] + NumbersOf(Read(lines)) == NumbersOf(Read(lines));
    TrimTailKeeps(Numbers, Flush(Run(Start(file), lines), true).out);
  }

  /** For a patch that begins with a header and has no malformed one, those are its own hunks. */
  lemma {:induction false} EffectiveIsAll(hunks: seq<Hunk>)
    requires WellShaped(hunks) && forall i :: 0 <= i < |hunks| ==> NoBad(hunks[i].body)
    ensures Effective([], hunks) == hunks
  {
    if hunks != [] {
      EffectiveIsAll(hunks[1..]);
      NothingBad(hunks[0].body);
      assert [] + WithoutBad(hunks[0].body) == hunks[0].body;
    }
  }

  /** A hunk as diff writes it, but for what the conversion skips: git's own marker, and an empty last line. */
  predicate Proper(body: seq<Line>) {
    forall i :: 0 <= i < |body| ==>
      && !At(body[i])
      && (body[i].Raw? ==> Phrase(body[i]) || (body[i] == Raw("") && i == |body| - 1))
  }

  /** What a new section counts: the lines of the new side, without those that hold the phrase. */
  lemma {:induction false} CountedLines(body: seq<Line>)
    requires Proper(body)
    ensures Marks(Numbers, Kept(body, false)) == Plain(Pick(New, body))
  {
    if body != [] {
      ProperTail(body);
      CountedLines(body[1..]);
      assert Kept(body, false) != Kept(body[1..], false) ==> Kept(body, false)[1..] == Kept(body[1..], false);
      assert On(New, body[0]) ==> Pick(New, body)[1..] == Pick(New, body[1..]);
    }
  }

  lemma ProperTail(body: seq<Line>)
    requires body != [] && Proper(body)
    ensures Proper(body[1..])
  {
    assert forall i :: 0 <= i < |body| - 1 ==> body[1..][i] == body[i + 1];
  }

  lemma {:induction false} PlainConcat(a: seq<Line>, b: seq<Line>)
    ensures Plain(a + b) == Plain(a) + Plain(b)
  {
    if a == [] {
      assert a + b == b;
    } else {
      PlainConcat(a[1..], b);
      assert (a + b)[1..] == a[1..] + b;
      Assoc(if Phrase(a[0]) then [] else [a[0]], Plain(a[1..]), Plain(b));
    }
  }

  predicate Unsaid(lines: seq<Line>) {
    forall i :: 0 <= i < |lines| ==> !Phrase(lines[i])
  }

  lemma {:induction false} PlainIsShorter(lines: seq<Line>)
    ensures |Plain(lines)| < |lines| || (|Plain(lines)| == |lines| && Unsaid(lines) && Plain(lines) == lines)
    ensures Unsaid(lines) ==> Plain(lines) == lines
  {
    if lines != [] {
      PlainIsShorter(lines[1..]);
      UnsaidSplit(lines);
      assert lines == [lines[0]] + lines[1..];
    }
  }

  lemma UnsaidSplit(lines: seq<Line>)
    requires lines != []
    ensures Unsaid(lines) <==> !Phrase(lines[0]) && Unsaid(lines[1..])
  {
    assert forall i :: 0 < i < |lines| ==> lines[i] == lines[1..][i - 1];
  }

  lemma {:induction false} PlainAround(before: seq<Line>, line: Line, after: seq<Line>)
    requires !Phrase(line)
    ensures Plain(before + ([line] + after)) == Plain(before) + ([line] + Plain(after))
  {
    PlainConcat(before, [line] + after);
    assert ([line] + after)[1..] == after;
  }

  lemma {:induction false} PickCons(side: Side, line: Line, after: seq<Line>)
    requires On(side, line)
    ensures Pick(side, [line] + after) == [line] + Pick(side, after)
  {
    assert ([line] + after)[1..] == after;
  }

  lemma {:induction false} PickAround(before: seq<Line>, line: Line, after: seq<Line>)
    requires On(New, line)
    ensures Pick(New, before + ([line] + after)) == Pick(New, before) + ([line] + Pick(New, after))
  {
    PickConcat(New, before, [line] + after);
    PickCons(New, line, after);
  }

  lemma CountedAt(start: nat, before: seq<Line>, line: Line, after: seq<Line>)
    ensures var counted := Counted(start, before + ([line] + after));
            |before| < |counted| && counted[|before|] == NewAt(start + |before|, line)
  {
  }

  lemma {:induction false} ShownAt(start: nat, before: seq<Line>, line: Line, after: seq<Line>)
    requires !Phrase(line)
    ensures var counted := Counted(start, Plain(before + ([line] + after)));
            |Plain(before)| < |counted| && counted[|Plain(before)|] == NewAt(start + |Plain(before)|, line)
    ensures |Plain(before)| == |before| <==> Unsaid(before)
  {
    PlainAround(before, line, after);
    CountedAt(start, Plain(before), line, Plain(after));
    PlainIsShorter(before);
  }

  /** The number a line of the new side gets, exactly: the header's start plus the lines before it on that side, less
      those that hold the phrase. So it is the line's own number if and only if no line before it does. */
  lemma {:induction false} ShownNumber(h: Line, body: seq<Line>, j: nat)
    requires h.Hdr? && Proper(body) && j < |body| && On(New, body[j]) && !Phrase(body[j])
    ensures var counted := Counted(h.start2, Marks(Numbers, Kept(body, false)));
            var before := Pick(New, body[..j]);
            && |Plain(before)| < |counted|
            && counted[|Plain(before)|] == NewAt(h.start2 + |Plain(before)|, body[j])
            && (h.start2 + |Plain(before)| == h.start2 + |before| <==> Unsaid(before))
  {
    var before, after := body[..j], body[j + 1..];
    assert body == before + ([body[j]] + after);
    CountedLines(body);
    PickAround(before, body[j], after);
    ShownAt(h.start2, Pick(New, before), body[j], Pick(New, after));
  }

  function KeptHunk(k: Hunk): Hunk {
    Hunk(k.header, Kept(k.body, false))
  }

  function KeptAll(hunks: seq<Hunk>): (r: seq<Hunk>)
    ensures |r| == |hunks| && forall i :: 0 <= i < |r| ==> r[i] == KeptHunk(hunks[i])
  {
    seq(|hunks|, i requires 0 <= i < |hunks| => KeptHunk(hunks[i]))
  }

  /** Whether a line is kept does not depend on what follows a header. */
  lemma ClosesBefore(body: seq<Line>, rest: seq<Line>)
    requires body != [] && (rest != [] ==> rest[0].Hdr?)
    ensures Closes(body + rest, false) <==> Closes(body, false)
  {
    assert (body + rest)[0] == body[0];
    if |body| > 1 {
      assert (body + rest)[1] == body[1];
    } else if rest != [] {
      assert (body + rest)[1] == rest[0];
    }
  }

  lemma {:induction false} KeptFirst(lines: seq<Line>, tail: seq<Line>)
    requires lines != [] && tail == lines[1..]
    ensures Kept(lines, false) == (if Phrase(lines[0]) || Closes(lines, false) then [] else [lines[0]]) + Kept(tail, false)
  {
  }

  lemma {:induction false} KeptConcat(body: seq<Line>, rest: seq<Line>)
    requires rest != [] ==> rest[0].Hdr?
    ensures Kept(body + rest, false) == Kept(body, false) + Kept(rest, false)
  {
    if body == [] {
      assert body + rest == rest;
    } else {
      KeptConcat(body[1..], rest);
      ClosesBefore(body, rest);
      KeptFirst(body, body[1..]);
      KeptFirst(body + rest, body[1..] + rest);
      Assoc(if Phrase(body[0]) || Closes(body, false) then [] else [body[0]], Kept(body[1..], false), Kept(rest, false));
    }
  }

  predicate Spoken(hunks: seq<Hunk>) {
    forall i :: 0 <= i < |hunks| ==> !Phrase(hunks[i].header)
  }

  lemma {:induction false} KeptByHunk(hunks: seq<Hunk>, first: bool)
    requires WellShaped(hunks) && Spoken(hunks)
    ensures Kept(Flatten(hunks), first) == Flatten(KeptAll(hunks))
  {
    if hunks != [] {
      var k, rest := hunks[0], Flatten(hunks[1..]);
      KeptByHunk(hunks[1..], false);
      KeptConcat(k.body, rest);
      assert ([k.header] + (k.body + rest))[1..] == k.body + rest;
      assert KeptAll(hunks)[1..] == KeptAll(hunks[1..]);
    }
  }

  lemma {:induction false} KeptShape(lines: seq<Line>, first: bool)
    ensures NoHeader(lines) ==> NoHeader(Kept(lines, first))
    ensures NoBad(lines) ==> NoBad(Kept(lines, first))
  {
    if lines != [] {
      KeptShape(lines[1..], false);
      assert forall i :: 0 < i < |lines| ==> lines[i] == lines[1..][i - 1];
    }
  }

  lemma KeptAllShape(hunks: seq<Hunk>)
    requires WellShaped(hunks)
    ensures WellShaped(KeptAll(hunks))
  {
    forall i | 0 <= i < |hunks| ensures NoHeader(Kept(hunks[i].body, false)) {
      KeptShape(hunks[i].body, false);
    }
  }

  /** A hunk as diff writes it, whose header does not hold the phrase. */
  predicate Fair(k: Hunk) {
    k.header.Hdr? && !Phrase(k.header) && Proper(k.body)
  }

  predicate AllFair(hunks: seq<Hunk>) {
    forall i :: 0 <= i < |hunks| ==> Fair(hunks[i])
  }

  /** The lines of a new side that are shown, each with its own place on that side. */
  function Placed(start: nat, news: seq<Line>): seq<What>
    decreases |news|
  {
    if news == [] then []
    else (if Phrase(news[0]) then [] else [NewAt(start, news[0])]) + Placed(start + 1, news[1..])
  }

  function PlacesIn(k: Hunk): seq<What>
    requires k.header.Hdr?
  {
    if Changed(Kept(k.body, false)) then Placed(k.header.start2, Pick(New, k.body)) else []
  }

  function PlacesOf(hunks: seq<Hunk>): seq<What>
    requires WellShaped(hunks)
  {
    if hunks == [] then [] else PlacesIn(hunks[0]) + PlacesOf(hunks[1..])
  }

  /** Once a line of the new side holds the phrase, so do all that follow. */
  predicate SaidLast(news: seq<Line>) {
    if news == [] then true
    else if Phrase(news[0]) then Plain(news) == []
    else SaidLast(news[1..])
  }

  /** No shown line of the hunk stands behind a line of the new side that holds the phrase. */
  predicate InPlace(k: Hunk) {
    Changed(Kept(k.body, false)) ==> SaidLast(Pick(New, k.body))
  }

  predicate AllInPlace(hunks: seq<Hunk>) {
    forall i :: 0 <= i < |hunks| ==> InPlace(hunks[i])
  }

  lemma {:induction false} CountedIsPlacedIff(start: nat, news: seq<Line>)
    ensures |Placed(start, news)| == |Plain(news)|
    ensures Counted(start, Plain(news)) == Placed(start, news) <==> SaidLast(news)
    decreases |news|
  {
    if news != [] {
      var plain, placed := Plain(news[1..]), Placed(start + 1, news[1..]);
      CountedIsPlacedIff(start + 1, news[1..]);
      if Phrase(news[0]) {
        PlacedFrom(start + 1, news[1..]);
        NoneMorePlaced(start, plain, placed);
        assert Plain(news) == plain && Placed(start, news) == placed;
      } else {
        OneMorePlaced(start, news[0], plain, placed);
        assert Plain(news) == [news[0]] + plain && Placed(start, news) == [NewAt(start, news[0])] + placed;
      }
    }
  }

  /** Behind a line that is not shown, every number is one too small. */
  lemma NoneMorePlaced(start: nat, plain: seq<Line>, placed: seq<What>)
    requires |placed| == |plain| && forall i :: 0 <= i < |placed| ==> placed[i].NewAt? && placed[i].number >= start + 1
    ensures Counted(start, plain) == placed <==> plain == []
  {
    if plain != [] {
      assert Counted(start, plain)[0] == NewAt(start, plain[0]);
    }
  }

  lemma OneMorePlaced(start: nat, line: Line, plain: seq<Line>, placed: seq<What>)
    ensures Counted(start, [line] + plain) == [NewAt(start, line)] + placed <==> Counted(start + 1, plain) == placed
  {
    assert ([line] + plain)[1..] == plain;
    CountedCons(start, [line] + plain);
    SameTails([NewAt(start, line)], Counted(start + 1, plain), placed);
  }

  lemma {:induction false} PlacedFrom(start: nat, news: seq<Line>)
    ensures forall i :: 0 <= i < |Placed(start, news)| ==> Placed(start, news)[i].NewAt? && Placed(start, news)[i].number >= start
    decreases |news|
  {
    if news != [] {
      PlacedFrom(start + 1, news[1..]);
    }
  }

  lemma SameTails<T>(a: seq<T>, b: seq<T>, c: seq<T>)
    ensures a + b == a + c <==> b == c
  {
    assert (a + b)[|a|..] == b && (a + c)[|a|..] == c;
  }

  lemma SameParts<T>(a: seq<T>, b: seq<T>, c: seq<T>, d: seq<T>)
    requires |a| == |c|
    ensures a + b == c + d <==> a == c && b == d
  {
    assert (a + b)[..|a|] == a && (c + d)[..|c|] == c;
    assert (a + b)[|a|..] == b && (c + d)[|c|..] == d;
  }

  lemma NumbersInAre(k: Hunk)
    requires Fair(k)
    ensures |NumbersIn(KeptHunk(k))| == |PlacesIn(k)|
    ensures NumbersIn(KeptHunk(k)) == PlacesIn(k) <==> InPlace(k)
  {
    CountedLines(k.body);
    CountedIsPlacedIff(k.header.start2, Pick(New, k.body));
  }

  lemma {:induction false} NumbersOfAre(hunks: seq<Hunk>)
    requires AllFair(hunks) && WellShaped(hunks) && WellShaped(KeptAll(hunks))
    ensures |NumbersOf(KeptAll(hunks))| == |PlacesOf(hunks)|
    ensures NumbersOf(KeptAll(hunks)) == PlacesOf(hunks) <==> AllInPlace(hunks)
  {
    if hunks != [] {
      assert KeptAll(hunks)[1..] == KeptAll(hunks[1..]);
      NumbersInAre(hunks[0]);
      NumbersOfAre(hunks[1..]);
      SameParts(NumbersIn(KeptHunk(hunks[0])), NumbersOf(KeptAll(hunks[1..])), PlacesIn(hunks[0]), PlacesOf(hunks[1..]));
      assert AllInPlace(hunks) <==> InPlace(hunks[0]) && AllInPlace(hunks[1..]) by {
        assert forall i :: 0 < i < |hunks| ==> hunks[i] == hunks[1..][i - 1];
        assert forall i :: 0 <= i < |hunks| - 1 ==> hunks[1..][i] == hunks[i + 1];
      }
    }
  }

  lemma {:induction false} FairHunksHaveNoBad(hunks: seq<Hunk>)
    requires AllFair(hunks)
    ensures WellShaped(hunks) && Spoken(hunks) && NoBad(Flatten(hunks))
    ensures forall i :: 0 <= i < |hunks| ==> NoBad(hunks[i].body)
  {
    if hunks != [] {
      FairHunksHaveNoBad(hunks[1..]);
      NoBadConcat(hunks[0].body, Flatten(hunks[1..]));
      NoBadConcat([hunks[0].header], hunks[0].body + Flatten(hunks[1..]));
    }
  }

  /** The numbers of a patch of fair hunks. */
  lemma {:induction false} NumbersOfFair(hunks: seq<Hunk>, file: Option<File>)
    requires (file.Some? ==> !file.value.deleted) && AllFair(hunks)
    ensures WellShaped(hunks) && WellShaped(KeptAll(hunks))
    ensures Prints(Numbers, Converted(Flatten(hunks), file)) == NumbersOf(KeptAll(hunks))
  {
    FairHunksHaveNoBad(hunks);
    KeptByHunk(hunks, true);
    KeptAllShape(hunks);
    HunksOfFlatten([], KeptAll(hunks));
    assert [] + Flatten(KeptAll(hunks)) == Flatten(KeptAll(hunks));
    NumbersAreCounted(Flatten(hunks), file);
    forall i | 0 <= i < |hunks| ensures NoBad(KeptAll(hunks)[i].body) {
      KeptShape(hunks[i].body, false);
    }
    EffectiveIsAll(KeptAll(hunks));
  }

  /** For every patch as diff writes it: each shown line has the number of its own place if and only if, in each hunk
      that shows any, no line that holds the phrase stands on the new side before a shown one. */
  lemma {:induction false} NumbersAreInPlaceIff(hunks: seq<Hunk>, file: Option<File>)
    requires (file.Some? ==> !file.value.deleted) && AllFair(hunks)
    ensures WellShaped(hunks)
    ensures |Prints(Numbers, Converted(Flatten(hunks), file))| == |PlacesOf(hunks)|
    ensures Prints(Numbers, Converted(Flatten(hunks), file)) == PlacesOf(hunks) <==> AllInPlace(hunks)
  {
    NumbersOfFair(hunks, file);
    NumbersOfAre(hunks);
  }

  /** The hunk tells the truth about the head file. */
  ghost predicate True(k: Hunk, head: seq<string>) {
    Fair(k) && ShowsAt(NewSide(k.body), head, k.header.start2)
  }

  ghost predicate AllTrue(hunks: seq<Hunk>, head: seq<string>) {
    forall i :: 0 <= i < |hunks| ==> True(hunks[i], head)
  }

  /** A number printed beside a line is the place of that line in the head file. */
  ghost predicate Right(w: What, head: seq<string>) {
    w.NewAt? && 1 <= w.number <= |head| && (w.line.Ctx? || w.line.Add?) && head[w.number - 1] == w.line.text
  }

  lemma {:induction false} PlacedAreRight(start: nat, news: seq<Line>, head: seq<string>)
    requires (forall i :: 0 <= i < |news| ==> On(New, news[i])) && ShowsAt(Texts(news), head, start)
    ensures forall w :: w in Placed(start, news) ==> Right(w, head)
    decreases |news|
  {
    if news != [] {
      FirstIsRight(start, news, head);
      PlacedAreRight(start + 1, news[1..], head);
    }
  }

  lemma FirstIsRight(start: nat, news: seq<Line>, head: seq<string>)
    requires news != [] && On(New, news[0]) && ShowsAt(Texts(news), head, start)
    ensures Right(NewAt(start, news[0]), head) && ShowsAt(Texts(news[1..]), head, start + 1)
  {
    assert Texts(news)[0] == head[start - 1];
    assert Texts(news)[1..] == Texts(news[1..]);
    ShowsTail(Texts(news), head, start);
  }

  lemma ShowsTail(side: seq<string>, head: seq<string>, start: nat)
    requires side != [] && ShowsAt(side, head, start)
    ensures ShowsAt(side[1..], head, start + 1)
  {
    forall i | 0 <= i < |side| - 1 ensures side[1..][i] == head[start + i] {
      assert side[1..][i] == side[i + 1];
    }
  }

  lemma {:induction false} PlacesAreRight(hunks: seq<Hunk>, head: seq<string>)
    requires AllTrue(hunks, head) && WellShaped(hunks)
    ensures forall w :: w in PlacesOf(hunks) ==> Right(w, head)
  {
    if hunks != [] {
      PlacedAreRight(hunks[0].header.start2, Pick(New, hunks[0].body), head);
      PlacesAreRight(hunks[1..], head);
    }
  }

  /** So for every patch made of hunks that are true of the head file, and with nothing behind a phrase, every number
      shown is the place of its line in that file. */
  lemma {:induction false} NumbersAreRight(hunks: seq<Hunk>, file: Option<File>, head: seq<string>)
    requires file.Some? ==> !file.value.deleted
    requires AllTrue(hunks, head) && AllInPlace(hunks)
    ensures forall w :: w in Prints(Numbers, Converted(Flatten(hunks), file)) ==> Right(w, head)
  {
    assert AllFair(hunks);
    NumbersAreInPlaceIff(hunks, file);
    PlacesAreRight(hunks, head);
  }

  function Chosen(hunks: seq<Hunk>): seq<Hunk> {
    if hunks == [] then [] else (if SomeAdd(hunks[0].body) then [hunks[0]] else []) + Chosen(hunks[1..])
  }

  lemma {:induction false} AddingIsFlat(hunks: seq<Hunk>)
    ensures Adding(hunks) == Flatten(Chosen(hunks))
  {
    if hunks != [] {
      AddingIsFlat(hunks[1..]);
      if SomeAdd(hunks[0].body) {
        FlattenCons(hunks[0], Chosen(hunks[1..]));
        Assoc([hunks[0].header], hunks[0].body, Flatten(Chosen(hunks[1..])));
      } else {
        assert Chosen(hunks) == Chosen(hunks[1..]) && Adding(hunks) == Adding(hunks[1..]);
      }
    }
  }

  lemma {:induction false} ChosenAre(hunks: seq<Hunk>)
    ensures forall k :: k in Chosen(hunks) ==> k in hunks
  {
    if hunks != [] {
      ChosenAre(hunks[1..]);
    }
  }

  lemma {:induction false} ChosenAreTrue(hunks: seq<Hunk>, head: seq<string>)
    requires AllTrue(hunks, head)
    ensures AllTrue(Chosen(hunks), head)
    ensures AllInPlace(hunks) ==> AllInPlace(Chosen(hunks))
  {
    ChosenAre(hunks);
    forall i | 0 <= i < |Chosen(hunks)| ensures True(Chosen(hunks)[i], head) && (AllInPlace(hunks) ==> InPlace(Chosen(hunks)[i])) {
      assert Chosen(hunks)[i] in hunks;
    }
  }

  /** The two passes together: every addition once and in order, and every number the line's own place in the head file
      if and only if no shown line stands behind the phrase in the hunks that add something. */
  lemma {:induction false} NumberedPatchIsRight(hunks: seq<Hunk>, file: Option<File>, head: seq<string>)
    requires file.Some? ==> !file.value.deleted
    requires AllTrue(hunks, head)
    ensures WellShaped(Chosen(hunks))
    ensures var out := Converted(Omitted(Flatten(hunks)), file);
            && LinesOf(Prints(Plus, out)) == Plain(Marks(Plus, Flatten(hunks)))
            && (Prints(Numbers, out) == PlacesOf(Chosen(hunks)) <==> AllInPlace(Chosen(hunks)))
            && (AllInPlace(Chosen(hunks)) ==> forall w :: w in Prints(Numbers, out) ==> Right(w, head))
  {
    assert AllFair(hunks);
    FairHunksHaveNoBad(hunks);
    NothingBad(Flatten(hunks));
    HunksOfFlatten([], hunks);
    assert [] + Flatten(hunks) == Flatten(hunks);
    AddingIsFlat(hunks);
    OmittedIsAdding(hunks);
    ChosenAreTrue(hunks, head);
    assert AllFair(Chosen(hunks));
    NumbersAreInPlaceIff(Chosen(hunks), file);
    PlacesAreRight(Chosen(hunks), head);
    AdditionsOfChosen(hunks, file);
  }

  lemma {:induction false} AdditionsOfChosen(hunks: seq<Hunk>, file: Option<File>)
    requires (file.Some? ==> !file.value.deleted) && AllFair(hunks)
    requires Omitted(Flatten(hunks)) == Flatten(Chosen(hunks)) && AllFair(Chosen(hunks))
    ensures LinesOf(Prints(Plus, Converted(Omitted(Flatten(hunks)), file))) == Plain(Marks(Plus, Flatten(hunks)))
  {
    EveryAdditionShownOnce(Flatten(hunks), file);
    if Chosen(hunks) == [] {
      NothingToShow(hunks);
    } else {
      assert Flatten(Chosen(hunks))[0] == Chosen(hunks)[0].header;
    }
  }

  lemma {:induction false} OmittedIsAdding(hunks: seq<Hunk>)
    requires WithoutBad(Flatten(hunks)) == Flatten(hunks) && Body(Flatten(hunks)) == [] && Hunks(Flatten(hunks)) == hunks
    ensures Omitted(Flatten(hunks)) == Adding(hunks)
  {
    if hunks != [] {
      assert [] + ([hunks[0].header] + hunks[0].body) == [hunks[0].header] + hunks[0].body;
    }
  }

  lemma {:induction false} NothingToShow(hunks: seq<Hunk>)
    requires AllFair(hunks) && Chosen(hunks) == []
    ensures Marks(Plus, Flatten(hunks)) == []
  {
    FairHunksHaveNoBad(hunks);
    AddingKeeps(hunks);
    AddingIsFlat(hunks);
  }
}
