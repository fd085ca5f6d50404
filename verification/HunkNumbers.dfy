/** The numbered form of a patch: which lines it shows, in which section, and under which number. */
module HunkSpec {
  import opened Text
  import opened Patches

  datatype File = File(name: string, deleted: bool)

  /** What a printed line stands for. */
  datatype What = Gap | Title | Heading | NewMark | OldMark | NewAt(number: nat, line: Line) | OldAt(line: Line)

  /** A printed line: what it stands for, and its characters. */
  datatype Shown = Shown(what: What, text: string)

  const GAP := Shown(Gap, "")

  function Lower(s: string): (r: string)
    ensures |r| == |s|
  {
    seq(|s|, i requires 0 <= i < |s| => if 'A' <= s[i] <= 'Z' then s[i] - 'A' + 'a' else s[i])
  }

  function FullText(line: Line): string {
    match line
    case Hdr(_, _, _, _, _, t) => t
    case BadHdr(t) => t
    case Ctx(t) => " " + t
    case Add(t) => "+" + t
    case Del(t) => "-" + t
    case Raw(t) => t
  }

  /** Git's marker for a missing last newline, and every other line that happens to hold its words. */
  predicate Phrase(line: Line) {
    Includes(Lower(line.text), "no newline at end of file")
  }

  predicate At(line: Line) {
    line.Hdr? || line.BadHdr?
  }

  /** An empty line that only ends a hunk, or the patch. */
  predicate Closes(lines: seq<Line>, first: bool)
    requires lines != []
  {
    lines[0] == Raw("") && !first && (|lines| == 1 || At(lines[1]))
  }

  /** The lines the conversion looks at. */
  function Kept(lines: seq<Line>, first: bool): seq<Line> {
    if lines == [] then []
    else if Phrase(lines[0]) || Closes(lines, first) then Kept(lines[1..], false)
    else [lines[0]] + Kept(lines[1..], false)
  }

  predicate Blank(s: Shown) {
    TrimEnd(s.text) == ""
  }

  /** out.replace(/\s*$/, "") on the printed lines. */
  function TrimTail(out: seq<Shown>): seq<Shown> {
    if out == [] then []
    else
      var last := out[|out| - 1];
      if Blank(last) then TrimTail(out[..|out| - 1])
      else out[..|out| - 1] + [last.(text := TrimEnd(last.text))]
  }

  function Marked(out: seq<Shown>, mark: Shown): seq<Shown> {
    (if TrimTail(out) == [] then [GAP] else TrimTail(out)) + [mark]
  }

  function NewText(number: nat, line: Line): string {
    Decimal(number) + (" " + FullText(line))
  }

  function NewLine(number: nat, line: Line): Shown {
    Shown(NewAt(number, line), NewText(number, line))
  }

  function Numbered(start: nat, lines: seq<Line>): (r: seq<Shown>)
    ensures |r| == |lines|
    ensures forall i :: 0 <= i < |lines| ==> r[i] == NewLine(start + i, lines[i])
  {
    seq(|lines|, i requires 0 <= i < |lines| => NewLine(start + i, lines[i]))
  }

  function Quoted(lines: seq<Line>): (r: seq<Shown>)
    ensures |r| == |lines|
    ensures forall i :: 0 <= i < |lines| ==> r[i] == Shown(OldAt(lines[i]), FullText(lines[i]))
  {
    seq(|lines|, i requires 0 <= i < |lines| => Shown(OldAt(lines[i]), FullText(lines[i])))
  }

  predicate SomeAdd(lines: seq<Line>) {
    exists l | l in lines :: l.Add?
  }

  predicate SomeDel(lines: seq<Line>) {
    exists l | l in lines :: l.Del?
  }

  /** What is printed so far, the lines waiting for each section, and the header in force. */
  datatype State = State(out: seq<Shown>, news: seq<Line>, olds: seq<Line>, header: Option<Line>)

  function Headed(out: seq<Shown>, h: Line, isLast: bool): seq<Shown> {
    if isLast then out else out + [GAP, Shown(Heading, FullText(h))]
  }

  function WithNews(out: seq<Shown>, start: nat, news: seq<Line>): seq<Shown> {
    Marked(out, Shown(NewMark, "__new hunk__")) + Numbered(start, news)
  }

  function WithOlds(out: seq<Shown>, olds: seq<Line>): seq<Shown> {
    Marked(out, Shown(OldMark, "__old hunk__")) + Quoted(olds)
  }

  function Flush(s: State, isLast: bool): State {
    if s.header.None? || !s.header.value.Hdr? || (s.news == [] && s.olds == []) then s
    else
      var a := Headed(s.out, s.header.value, isLast);
      var b := if SomeAdd(s.news) || SomeDel(s.olds) then WithNews(a, s.header.value.start2, s.news) else a;
      State(if SomeDel(s.olds) then WithOlds(b, s.olds) else b, [], [], s.header)
  }

  function Take(s: State, line: Line): State {
    match line
    case Hdr(_, _, _, _, _, _) => Flush(s, false).(header := Some(line))
    case BadHdr(_) => s.(header := None)
    case Add(_) => s.(news := s.news + [line])
    case Del(_) => s.(olds := s.olds + [line])
    case _ => s.(news := s.news + [line], olds := s.olds + [line])
  }

  function Run(s: State, lines: seq<Line>): State
    decreases |lines|
  {
    if lines == [] then s else Run(Take(s, lines[0]), lines[1..])
  }

  function Titled(file: Option<File>): seq<Shown> {
    if file.None? then [] else [GAP, GAP, Shown(Title, "## File: '" + Trim(file.value.name) + "'")]
  }

  function Converted(patch: seq<Line>, file: Option<File>): seq<Shown> {
    if file.Some? && file.value.deleted then [GAP, GAP, Shown(Title, "## File '" + Trim(file.value.name) + "' was deleted")]
    else TrimTail(Flush(Run(State(Titled(file), [], [], None), Kept(patch, true)), true).out)
  }

  /** omitDeletionHunks: malformed headers vanish, and so does every hunk that adds nothing. What comes before the
      first header stays with the first hunk. */
  function WithoutBad(lines: seq<Line>): seq<Line> {
    if lines == [] then []
    else if lines[0].BadHdr? then WithoutBad(lines[1..])
    else [lines[0]] + WithoutBad(lines[1..])
  }

  function Adding(hunks: seq<Hunk>): seq<Line> {
    if hunks == [] then []
    else (if SomeAdd(hunks[0].body) then [hunks[0].header] + hunks[0].body else []) + Adding(hunks[1..])
  }

  function Omitted(patch: seq<Line>): seq<Line> {
    var lines := WithoutBad(patch);
    var pre, hunks := Body(lines), Hunks(lines);
    if hunks == [] then []
    else (if SomeAdd(pre) || SomeAdd(hunks[0].body) then pre + ([hunks[0].header] + hunks[0].body) else []) + Adding(hunks[1..])
  }
}

/** The conversion as it runs. */
module HunkNumbers {
  import opened Basics
  import opened Text
  import opened Patches
  import opened HunkSpec

  method PrintNews(out0: seq<Shown>, start: nat, news: seq<Line>) returns (out: seq<Shown>)
    ensures out == out0 + Numbered(start, news)
  {
    out := out0;
    var i := 0;
    while i < |news|
      invariant i <= |news| && out == out0 + Numbered(start, news[..i])
    {
      assert Numbered(start, news[..i + 1]) == Numbered(start, news[..i]) + [NewLine(start + i, news[i])];
      out := out + [NewLine(start + i, news[i])];
      i := i + 1;
    }
    assert news[..i] == news;
  }

  method PrintOlds(out0: seq<Shown>, olds: seq<Line>) returns (out: seq<Shown>)
    ensures out == out0 + Quoted(olds)
  {
    out := out0;
    var i := 0;
    while i < |olds|
      invariant i <= |olds| && out == out0 + Quoted(olds[..i])
    {
      var shown := Shown(OldAt(olds[i]), FullText(olds[i]));
      assert Quoted(olds[..i + 1]) == Quoted(olds[..i]) + [shown];
      out := out + [shown];
      i := i + 1;
    }
    assert olds[..i] == olds;
  }

  /** flushHunk, on the variables it closes over. */
  method FlushHunk(out0: seq<Shown>, news: seq<Line>, olds: seq<Line>, matched: Option<Line>, start2: int, prevHeader: Line,
                   isLast: bool)
    returns (out: seq<Shown>, newContentLines: seq<Line>, oldContentLines: seq<Line>)
    requires matched.Some? ==> matched.value.Hdr? && start2 == matched.value.start2 && prevHeader == matched.value
    ensures State(out, newContentLines, oldContentLines, matched) == Flush(State(out0, news, olds, matched), isLast)
  {
    out, newContentLines, oldContentLines := out0, news, olds;
    if matched.Some? && (|newContentLines| > 0 || |oldContentLines| > 0) {
      if !isLast {
        out := out + [GAP, Shown(Heading, FullText(prevHeader))];
      }
      var isPlus := SomeAdd(newContentLines);
      var isMinus := SomeDel(oldContentLines);
      if isPlus || isMinus {
        out := PrintNews(Marked(out, Shown(NewMark, "__new hunk__")), start2, newContentLines);
      }
      if isMinus {
        out := PrintOlds(Marked(out, Shown(OldMark, "__old hunk__")), oldContentLines);
      }
      newContentLines, oldContentLines := [], [];
    }
  }

  /** The loop invariant: what is done and what is left make up the whole run. */
  ghost predicate OnTrack(s: State, lines: seq<Line>, first: bool, whole: State) {
    Run(s, Kept(lines, first)) == whole
  }

  lemma SkipStep(s: State, lines: seq<Line>, first: bool, whole: State)
    requires lines != [] && (Phrase(lines[0]) || Closes(lines, first)) && OnTrack(s, lines, first, whole)
    ensures OnTrack(s, lines[1..], false, whole)
  {
  }

  lemma TakeStep(s: State, lines: seq<Line>, first: bool, whole: State)
    requires lines != [] && !Phrase(lines[0]) && !Closes(lines, first) && OnTrack(s, lines, first, whole)
    ensures OnTrack(Take(s, lines[0]), lines[1..], false, whole)
  {
    assert Kept(lines, first)[1..] == Kept(lines[1..], false);
  }

  method Convert(patchLines: seq<Line>, file: Option<File>) returns (out: seq<Shown>)
    ensures out == Converted(patchLines, file)
  {
    out := [];
    if file.Some? {
      if file.value.deleted {
        return [GAP, GAP, Shown(Title, "## File '" + Trim(file.value.name) + "' was deleted")];
      }
      out := [GAP, GAP, Shown(Title, "## File: '" + Trim(file.value.name) + "'")];
    }
    var news, olds: seq<Line> := [], [];
    var matched: Option<Line> := None;
    var start2 := -1;
    var prevHeader := Raw("");
    var lineI := 0;
    ghost var whole := Run(State(out, news, olds, matched), Kept(patchLines, true));
    ghost var lines := patchLines;
    while lineI < |patchLines|
      invariant lineI <= |patchLines| && lines == patchLines[lineI..]
      invariant matched.Some? ==> matched.value.Hdr? && start2 == matched.value.start2 && prevHeader == matched.value
      invariant OnTrack(State(out, news, olds, matched), lines, lineI == 0, whole)
    {
      var line := patchLines[lineI];
      TailOfTail(patchLines, lineI);
      var skipped := Phrase(line) || (line == Raw("") && lineI != 0 && (lineI + 1 == |patchLines| || At(patchLines[lineI + 1])));
      if skipped {
        SkipStep(State(out, news, olds, matched), lines, lineI == 0, whole);
      } else {
        TakeStep(State(out, news, olds, matched), lines, lineI == 0, whole);
        match line {
          case Hdr(_, _, s2, _, _, _) =>
            if |news| > 0 || |olds| > 0 {
              out, news, olds := FlushHunk(out, news, olds, matched, start2, prevHeader, false);
            }
            matched, start2, prevHeader := Some(line), s2, line;
          case BadHdr(_) => matched := None;
          case Add(_) => news := news + [line];
          case Del(_) => olds := olds + [line];
          case _ => news, olds := news + [line], olds + [line];
        }
      }
      lineI, lines := lineI + 1, lines[1..];
    }
    out, news, olds := FlushHunk(out, news, olds, matched, start2, prevHeader, true);
    out := TrimTail(out);
  }

  /** What omitDeletionHunks still adds when `temp` waits and it stands before `lines`. */
  ghost function Pending(temp: seq<Line>, lines: seq<Line>): seq<Line> {
    var good := WithoutBad(lines);
    (if SomeAdd(temp + Body(good)) then temp + Body(good) else []) + Adding(Hunks(good))
  }

  ghost predicate Doing(added: seq<Line>, temp: seq<Line>, inside: bool, lines: seq<Line>, patch: seq<Line>) {
    if inside then added + Pending(temp, lines) == Omitted(patch)
    else added == [] && NoHeader(temp) && temp + WithoutBad(lines) == WithoutBad(patch)
  }

  method OmitDeletionHunks(patch: seq<Line>) returns (addedPatched: seq<Line>)
    ensures addedPatched == Omitted(patch)
  {
    addedPatched := [];
    var tempHunk: seq<Line> := [];
    var addHunk, insideHunk := false, false;
    var i := 0;
    ghost var lines := patch;
    while i < |patch|
      invariant i <= |patch| && lines == patch[i..]
      invariant addHunk == SomeAdd(tempHunk)
      invariant Doing(addedPatched, tempHunk, insideHunk, lines, patch)
    {
      var line := patch[i];
      TailOfTail(patch, i);
      if At(line) {
        if line.Hdr? {
          HeaderStep(addedPatched, tempHunk, insideHunk, lines, patch);
          if insideHunk {
            if addHunk {
              addedPatched := addedPatched + tempHunk;
            }
            tempHunk, addHunk := [], false;
          }
          AddOne(tempHunk, line);
          tempHunk := tempHunk + [line];
          insideHunk := true;
        } else {
          BadStep(addedPatched, tempHunk, insideHunk, lines, patch);
        }
      } else {
        LineStep(addedPatched, tempHunk, insideHunk, lines, patch);
        AddOne(tempHunk, line);
        tempHunk := tempHunk + [line];
        if line.Add? {
          addHunk := true;
        }
      }
      i, lines := i + 1, lines[1..];
    }
    OmitEnds(addedPatched, tempHunk, insideHunk, patch);
    if insideHunk && addHunk {
      addedPatched := addedPatched + tempHunk;
    }
  }

  lemma BadStep(added: seq<Line>, temp: seq<Line>, inside: bool, lines: seq<Line>, patch: seq<Line>)
    requires lines != [] && lines[0].BadHdr? && Doing(added, temp, inside, lines, patch)
    ensures Doing(added, temp, inside, lines[1..], patch)
  {
  }

  lemma AddOne(temp: seq<Line>, line: Line)
    ensures SomeAdd(temp + [line]) <==> SomeAdd(temp) || line.Add?
  {
    assert (temp + [line])[|temp|] == line;
    if SomeAdd(temp) {
      var l :| l in temp && l.Add?;
      assert l in temp + [line];
    }
  }

  lemma LineStep(added: seq<Line>, temp: seq<Line>, inside: bool, lines: seq<Line>, patch: seq<Line>)
    requires lines != [] && !At(lines[0]) && Doing(added, temp, inside, lines, patch)
    ensures Doing(added, temp + [lines[0]], inside, lines[1..], patch)
  {
    var next := WithoutBad(lines[1..]);
    if inside {
      PendingLine(temp, lines);
    } else {
      Assoc(temp, [lines[0]], next);
    }
  }

  lemma PendingLine(temp: seq<Line>, lines: seq<Line>)
    requires lines != [] && !At(lines[0])
    ensures Pending(temp, lines) == Pending(temp + [lines[0]], lines[1..])
  {
    var good, next := WithoutBad(lines), WithoutBad(lines[1..]);
    assert good == [lines[0]] + next && good[1..] == next;
    assert Rest(good) == Rest(next);
    Assoc(temp, [lines[0]], Body(next));
  }

  lemma HeaderStep(added: seq<Line>, temp: seq<Line>, inside: bool, lines: seq<Line>, patch: seq<Line>)
    requires lines != [] && lines[0].Hdr? && Doing(added, temp, inside, lines, patch)
    ensures inside ==> Doing(if SomeAdd(temp) then added + temp else added, [] + [lines[0]], true, lines[1..], patch)
    ensures !inside ==> Doing(added, temp + [lines[0]], true, lines[1..], patch)
  {
    var rest := Pending([lines[0]], lines[1..]);
    assert [] + [lines[0]] == [lines[0]];
    if inside {
      PendingHeader(temp, lines);
      Assoc(added, temp, rest);
      assert [] + rest == rest;
    } else {
      FirstHeader(temp, lines, patch);
      assert [] + Pending(temp + [lines[0]], lines[1..]) == Pending(temp + [lines[0]], lines[1..]);
    }
  }

  lemma PendingHeader(temp: seq<Line>, lines: seq<Line>)
    requires lines != [] && lines[0].Hdr?
    ensures Pending(temp, lines) == (if SomeAdd(temp) then temp else []) + Pending([lines[0]], lines[1..])
  {
    var good, next := WithoutBad(lines), WithoutBad(lines[1..]);
    assert good == [lines[0]] + next && good[1..] == next;
    assert Hunks(good) == [Hunk(lines[0], Body(next))] + Hunks(next);
    assert Hunks(good)[1..] == Hunks(next);
    assert temp + Body(good) == temp;
    AddFirst(lines[0], Body(next));
  }

  lemma {:induction false} FirstHeader(temp: seq<Line>, lines: seq<Line>, patch: seq<Line>)
    requires lines != [] && lines[0].Hdr? && NoHeader(temp) && temp + WithoutBad(lines) == WithoutBad(patch)
    ensures Pending(temp + [lines[0]], lines[1..]) == Omitted(patch)
  {
    var good, next := WithoutBad(lines), WithoutBad(lines[1..]);
    assert good == [lines[0]] + next && good[1..] == next;
    BodyOfConcat(temp, good);
    assert Hunks(WithoutBad(patch)) == [Hunk(lines[0], Body(next))] + Hunks(next);
    assert Hunks(WithoutBad(patch))[1..] == Hunks(next);
    Assoc(temp, [lines[0]], Body(next));
    AddFirst(lines[0], Body(next));
    AddSplit(temp, [lines[0]] + Body(next));
  }

  lemma AddFirst(h: Line, body: seq<Line>)
    requires h.Hdr?
    ensures SomeAdd([h] + body) <==> SomeAdd(body)
  {
    AddSplit([h], body);
  }

  lemma AddSplit(a: seq<Line>, b: seq<Line>)
    ensures SomeAdd(a + b) <==> SomeAdd(a) || SomeAdd(b)
  {
    assert forall l :: l in a + b <==> l in a || l in b;
  }

  lemma OmitEnds(added: seq<Line>, temp: seq<Line>, inside: bool, patch: seq<Line>)
    requires Doing(added, temp, inside, [], patch)
    ensures Omitted(patch) == if inside && SomeAdd(temp) then added + temp else added
  {
    assert temp + Body([]) == temp && Rest([]) == [];
    if inside {
      assert Pending(temp, []) == if SomeAdd(temp) then temp else [];
      assert added + [] == added;
    } else {
      BodyOfConcat(temp, []);
    }
  }
}
