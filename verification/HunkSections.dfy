/** The whole text of the numbered form, hunk by hunk: headings, sections, and what stands in each. */
module HunkSections {
  import opened Basics
  import opened Text
  import opened Patches
  import opened HunkSpec
  import opened HunkTheorems
  import opened HunkNumbering

  /** A line with the character that says what it is. */
  function Written(line: Line): string {
    match line
    case Add(t) => "+" + t
    case Del(t) => "-" + t
    case Ctx(t) => " " + t
    case _ => line.text
  }

  function Counting(start: nat, lines: seq<Line>, n: nat): (r: seq<Shown>)
    requires n <= |lines|
    ensures |r| == n && forall i :: 0 <= i < n ==> r[i] == Shown(NewAt(start + i, lines[i]), Decimal(start + i) + (" " + Written(lines[i])))
  {
    if n == 0 then []
    else Counting(start, lines, n - 1)
         + [Shown(NewAt(start + n - 1, lines[n - 1]), Decimal(start + n - 1) + (" " + Written(lines[n - 1])))]
  }

  function Quoting(lines: seq<Line>, n: nat): (r: seq<Shown>)
    requires n <= |lines|
    ensures |r| == n && forall i :: 0 <= i < n ==> r[i] == Shown(OldAt(lines[i]), Written(lines[i]))
  {
    if n == 0 then [] else Quoting(lines, n - 1) + [Shown(OldAt(lines[n - 1]), Written(lines[n - 1]))]
  }

  /** A section mark below what is printed so far, without the white space that ends it. */
  function Below(out: seq<Shown>, mark: Shown): seq<Shown> {
    (if TrimTail(out) == [] then [Shown(Gap, "")] else TrimTail(out)) + [mark]
  }

  /** What a hunk adds: its header, but for the last hunk; where something changed, a section of the lines that are not
      deleted, numbered from the header's start; and where something was deleted, one of the lines that are not added. */
  function ShowOne(out: seq<Shown>, k: Hunk, isLast: bool): seq<Shown>
    requires k.header.Hdr?
  {
    var news, olds := Marks(Numbers, k.body), OldLines(k.body);
    var deletes := exists l | l in k.body :: l.Del?;
    var a := if isLast then out else out + [Shown(Gap, ""), Shown(Heading, k.header.text)];
    if k.body == [] then out
    else if !deletes && !exists l | l in k.body :: l.Add? then a
    else
      var b := Below(a, Shown(NewMark, "__new hunk__")) + Counting(k.header.start2, news, |news|);
      if deletes then Below(b, Shown(OldMark, "__old hunk__")) + Quoting(olds, |olds|) else b
  }

  function ShowAll(out: seq<Shown>, hunks: seq<Hunk>): seq<Shown>
    requires WellShaped(hunks)
    decreases |hunks|
  {
    if hunks == [] then out else ShowAll(ShowOne(out, hunks[0], |hunks| == 1), hunks[1..])
  }

  lemma {:induction false} WrittenIs(line: Line)
    requires !line.Hdr? && !line.BadHdr?
    ensures FullText(line) == Written(line)
  {
  }

  lemma {:induction false} CountingIs(start: nat, lines: seq<Line>)
    requires forall i :: 0 <= i < |lines| ==> !At(lines[i])
    ensures Numbered(start, lines) == Counting(start, lines, |lines|)
  {
    forall i | 0 <= i < |lines| ensures Numbered(start, lines)[i] == Counting(start, lines, |lines|)[i] {
      WrittenIs(lines[i]);
    }
  }

  lemma {:induction false} QuotingIs(lines: seq<Line>)
    requires forall i :: 0 <= i < |lines| ==> !At(lines[i])
    ensures Quoted(lines) == Quoting(lines, |lines|)
  {
    forall i | 0 <= i < |lines| ensures Quoted(lines)[i] == Quoting(lines, |lines|)[i] {
      WrittenIs(lines[i]);
    }
  }

  predicate Simple(body: seq<Line>) {
    forall i :: 0 <= i < |body| ==> !At(body[i])
  }

  lemma {:induction false} PartsAreSimple(body: seq<Line>)
    requires Simple(body)
    ensures Simple(Marks(Numbers, body)) && Simple(OldLines(body))
    ensures body == [] <==> Marks(Numbers, body) == [] && OldLines(body) == []
  {
    if body != [] {
      PartsAreSimple(body[1..]);
    }
  }

  /** A flush shows the hunk whose lines wait. */
  lemma {:induction false} FlushShows(out: seq<Shown>, h: Line, body: seq<Line>, isLast: bool)
    requires h.Hdr? && Simple(body)
    ensures Flush(State(out, Marks(Numbers, body), OldLines(body), Some(h)), isLast) ==
            State(ShowOne(out, Hunk(h, body), isLast), [], [], Some(h))
  {
    PartsAreSimple(body);
    Members(body);
    CountingIs(h.start2, Marks(Numbers, body));
    QuotingIs(OldLines(body));
  }

  /** The lines of a body wait for their flush. */
  lemma {:induction false} BodyWaits(s: State, body: seq<Line>, rest: seq<Line>)
    requires Simple(body)
    ensures Run(s, body + rest) == Run(s.(news := s.news + Marks(Numbers, body), olds := s.olds + OldLines(body)), rest)
    decreases |body|
  {
    if body == [] {
      assert body + rest == rest && s.news + [] == s.news && s.olds + [] == s.olds;
    } else {
      var next := Take(s, body[0]);
      assert (body + rest)[1..] == body[1..] + rest;
      BodyWaits(next, body[1..], rest);
      Assoc(s.news, if Bears(Numbers, body[0]) then [body[0]] else [], Marks(Numbers, body[1..]));
      Assoc(s.olds, if body[0].Add? then [] else [body[0]], OldLines(body[1..]));
      assert next.news == s.news + if Bears(Numbers, body[0]) then [body[0]] else [];
      assert next.olds == s.olds + if body[0].Add? then [] else [body[0]];
    }
  }

  lemma {:induction false} ShowCons(out: seq<Shown>, k: Hunk, hunks: seq<Hunk>)
    requires WellShaped([k] + hunks) && WellShaped(hunks) && k.header.Hdr?
    ensures ShowAll(out, [k] + hunks) == ShowAll(ShowOne(out, k, hunks == []), hunks)
  {
    assert ([k] + hunks)[1..] == hunks;
  }

  /** A header and what follows it, as a hunk. */
  lemma {:induction false} FirstHunk(lines: seq<Line>) returns (body: seq<Line>, rest: seq<Line>)
    requires lines != [] && lines[0].Hdr? && NoBad(lines)
    ensures lines[1..] == body + rest && Simple(body) && NoBad(rest) && (rest != [] ==> rest[0].Hdr?) && |rest| < |lines|
    ensures WellShaped(Hunks(rest)) && WellShaped(Hunks(lines)) && Hunks(lines) == [Hunk(lines[0], body)] + Hunks(rest)
    ensures Hunks(rest) == [] <==> rest == []
  {
    var from := lines[1..];
    body, rest := Body(from), Rest(from);
    BodyEndsAtHeader(from);
    HunksAreWellShaped(lines);
    HunksAreWellShaped(rest);
    assert from == body + rest;
    assert forall i :: 0 <= i < |body| ==> body[i] == lines[1 + i];
    assert forall i :: 0 <= i < |rest| ==> rest[i] == lines[1 + |body| + i];
    assert Rest(lines) == lines;
    RestOfRest(rest);
  }

  lemma {:induction false} RestOfRest(rest: seq<Line>)
    requires rest != [] ==> rest[0].Hdr?
    ensures Rest(rest) == rest && (Hunks(rest) == [] <==> rest == [])
  {
  }

  lemma {:induction false} RunCons(s: State, line: Line, lines: seq<Line>)
    ensures Run(s, [line] + lines) == Run(Take(s, line), lines)
  {
    assert ([line] + lines)[1..] == lines;
  }

  /** The run from a hunk on whose lines wait, to the end of the patch. */
  lemma {:induction false} RestShows(out: seq<Shown>, h: Line, body: seq<Line>, lines: seq<Line>)
    requires h.Hdr? && Simple(body) && NoBad(lines) && (lines != [] ==> lines[0].Hdr?) && WellShaped(Hunks(lines))
    ensures Flush(Run(State(out, Marks(Numbers, body), OldLines(body), Some(h)), lines), true).out ==
            ShowAll(ShowOne(out, Hunk(h, body), lines == []), Hunks(lines))
    decreases |lines|
  {
    FlushShows(out, h, body, lines == []);
    if lines != [] {
      var body2, rest := FirstHunk(lines);
      var out2 := ShowOne(out, Hunk(h, body), false);
      OpensNext(out, out2, h, body, lines, body2, rest);
      RestShows(out2, lines[0], body2, rest);
      ShowCons(out2, Hunk(lines[0], body2), Hunks(rest));
    }
  }

  lemma {:induction false} OpensNext(out: seq<Shown>, out2: seq<Shown>, h: Line, body: seq<Line>, lines: seq<Line>, body2: seq<Line>, rest: seq<Line>)
    requires h.Hdr? && Simple(body) && lines != [] && lines[0].Hdr? && Simple(body2) && lines[1..] == body2 + rest
    requires out2 == ShowOne(out, Hunk(h, body), false)
    ensures Run(State(out, Marks(Numbers, body), OldLines(body), Some(h)), lines) ==
            Run(State(out2, Marks(Numbers, body2), OldLines(body2), Some(lines[0])), rest)
  {
    FlushShows(out, h, body, false);
    assert lines == [lines[0]] + (body2 + rest);
    RunCons(State(out, Marks(Numbers, body), OldLines(body), Some(h)), lines[0], body2 + rest);
    BodyWaits(State(out2, [], [], Some(lines[0])), body2, rest);
    assert [] + Marks(Numbers, body2) == Marks(Numbers, body2) && [] + OldLines(body2) == OldLines(body2);
  }

  function TitleLines(file: Option<File>): seq<Shown> {
    if file.None? then [] else [Shown(Gap, ""), Shown(Gap, ""), Shown(Title, "## File: '" + Trim(file.value.name) + "'")]
  }

  /** For every patch whose lines, those left out apart, begin with a header and hold no malformed one: the whole output is
      the title and then the hunks, one after another, without the white space at the end. */
  lemma {:induction false} SectionsAre(patch: seq<Line>, file: Option<File>)
    requires file.Some? ==> !file.value.deleted
    requires NoBad(Kept(patch, true)) && Body(Kept(patch, true)) == []
    ensures WellShaped(Hunks(Kept(patch, true)))
    ensures Converted(patch, file) == TrimTail(ShowAll(TitleLines(file), Hunks(Kept(patch, true))))
  {
    var lines := Kept(patch, true);
    var start := State(TitleLines(file), [], [], None);
    HunksAreWellShaped(lines);
    if lines == [] {
      assert Run(start, lines) == start;
    } else {
      var body, rest := FirstHunk(lines);
      assert lines == [lines[0]] + (body + rest);
      RunCons(start, lines[0], body + rest);
      BodyWaits(start.(header := Some(lines[0])), body, rest);
      assert [] + Marks(Numbers, body) == Marks(Numbers, body) && [] + OldLines(body) == OldLines(body);
      RestShows(TitleLines(file), lines[0], body, rest);
      ShowCons(TitleLines(file), Hunk(lines[0], body), Hunks(rest));
    }
  }

  /** A deleted file shows that it was, and nothing else. */
  lemma {:induction false} DeletedIs(patch: seq<Line>, file: File)
    requires file.deleted
    ensures Converted(patch, Some(file)) == [Shown(Gap, ""), Shown(Gap, ""), Shown(Title, "## File '" + Trim(file.name) + "' was deleted")]
  {
  }

  /** The words of git's marker. */
  const WORDS: string := "no newline at end of file"

  /** The words stand there, in small letters or capitals. */
  predicate SaidAt(text: string, words: string, i: int) {
    0 <= i <= |text| - |words| && forall j :: 0 <= j < |words| ==> SameLetter(text[i + j], words[j])
  }

  predicate SameLetter(c: char, small: char) {
    c == small || ('a' <= small <= 'z' && c as int == small as int - 32)
  }

  lemma {:induction false} LowerSays(text: string, words: string, i: int)
    requires forall j :: 0 <= j < |words| ==> !('A' <= words[j] <= 'Z')
    ensures OccursAt(Lower(text), words, i) <==> SaidAt(text, words, i)
  {
    if 0 <= i <= |text| - |words| {
      var there := Lower(text)[i..i + |words|];
      assert forall j :: 0 <= j < |words| ==> there[j] == Lower(text)[i + j];
      assert there == words <==> forall j :: 0 <= j < |words| ==> there[j] == words[j];
      assert forall j :: 0 <= j < |words| ==> (there[j] == words[j] <==> SameLetter(text[i + j], words[j]));
    }
  }

  lemma {:induction false} PhraseIff(line: Line)
    ensures Phrase(line) <==> exists i :: SaidAt(line.text, WORDS, i)
  {
    forall i ensures OccursAt(Lower(line.text), WORDS, i) <==> SaidAt(line.text, WORDS, i) {
      LowerSays(line.text, WORDS, i);
    }
    if i :| SaidAt(line.text, WORDS, i) {
      assert OccursAt(Lower(line.text), WORDS, i);
    }
  }

  /** Which lines are left out: those with the words, and an empty line that is not the first and stands before a header or
      at the end. */
  ghost predicate LeftOut(lines: seq<Line>, i: nat)
    requires i < |lines|
  {
    || (exists k :: SaidAt(lines[i].text, WORDS, k))
    || (lines[i] == Raw("") && i > 0 && (i + 1 == |lines| || lines[i + 1].Hdr? || lines[i + 1].BadHdr?))
  }

  ghost function LeftIn(lines: seq<Line>, n: nat): seq<Line>
    requires n <= |lines|
  {
    if n == 0 then [] else LeftIn(lines, n - 1) + if LeftOut(lines, n - 1) then [] else [lines[n - 1]]
  }

  lemma {:induction false} KeptFromThere(lines: seq<Line>, n: nat)
    requires n <= |lines|
    ensures LeftIn(lines, n) + Kept(lines[n..], n == 0) == Kept(lines, true)
  {
    if n == 0 {
      assert lines[0..] == lines;
    } else {
      KeptFromThere(lines, n - 1);
      TailOfTail(lines, n - 1);
      PhraseIff(lines[n - 1]);
      assert Closes(lines[n - 1..], n == 1) == (lines[n - 1] == Raw("") && n > 1 && (n == |lines| || At(lines[n])));
      Assoc(LeftIn(lines, n - 1), if LeftOut(lines, n - 1) then [] else [lines[n - 1]], Kept(lines[n..], false));
    }
  }

  lemma {:induction false} KeptIs(lines: seq<Line>)
    ensures Kept(lines, true) == LeftIn(lines, |lines|)
  {
    KeptFromThere(lines, |lines|);
  }

  /** What trimming the end leaves: the lines up to the last that is not blank, and that one without the white space behind
      it. */
  lemma {:induction false} TrimTailMeans(out: seq<Shown>)
    ensures var r := TrimTail(out);
            && |r| <= |out| && (forall i :: 0 <= i < |r| - 1 ==> r[i] == out[i])
            && (r != [] ==> r[|r| - 1] == out[|r| - 1].(text := TrimEnd(out[|r| - 1].text)) && TrimEnd(out[|r| - 1].text) != "")
            && (forall i :: |r| <= i < |out| ==> TrimEnd(out[i].text) == "")
  {
    if out != [] && Blank(out[|out| - 1]) {
      TrimTailMeans(out[..|out| - 1]);
    }
  }
}
