/** What the numbered form of a patch keeps: every change once, in order, under the right number. */
module HunkTheorems {
  import opened Basics
  import opened Text
  import opened Patches
  import opened HunkSpec

  /** A way of reading what was printed: the numbered lines, the additions among them, the quoted deletions. */
  datatype View = Numbers | Plus | Minus

  predicate Sees(view: View, what: What) {
    match view
    case Numbers => what.NewAt?
    case Plus => what.NewAt? && what.line.Add?
    case Minus => what.OldAt? && what.line.Del?
  }

  function Prints(view: View, out: seq<Shown>): (r: seq<What>)
    ensures forall i :: 0 <= i < |r| ==> Sees(view, r[i])
  {
    if out == [] then []
    else (if Sees(view, out[0].what) then [out[0].what] else []) + Prints(view, out[1..])
  }

  function LinesOf(whats: seq<What>): (r: seq<Line>)
    requires forall i :: 0 <= i < |whats| ==> whats[i].NewAt? || whats[i].OldAt?
    ensures |r| == |whats| && forall i :: 0 <= i < |r| ==> r[i] == whats[i].line
  {
    seq(|whats|, i requires 0 <= i < |whats| => whats[i].line)
  }

  lemma {:induction false} PrintsConcat(view: View, a: seq<Shown>, b: seq<Shown>)
    ensures Prints(view, a + b) == Prints(view, a) + Prints(view, b)
  {
    if a == [] {
      assert a + b == b;
    } else {
      PrintsConcat(view, a[1..], b);
      assert (a + b)[1..] == a[1..] + b;
      Assoc(if Sees(view, a[0].what) then [a[0].what] else [], Prints(view, a[1..]), Prints(view, b));
    }
  }

  /** The additions, or the deletions, among the lines of a patch. */
  function Marks(view: View, lines: seq<Line>): seq<Line> {
    if lines == [] then []
    else (if Bears(view, lines[0]) then [lines[0]] else []) + Marks(view, lines[1..])
  }

  predicate Bears(view: View, line: Line) {
    match view
    case Numbers => !line.Del?
    case Plus => line.Add?
    case Minus => line.Del?
  }

  lemma {:induction false} MarksConcat(view: View, a: seq<Line>, b: seq<Line>)
    ensures Marks(view, a + b) == Marks(view, a) + Marks(view, b)
  {
    if a == [] {
      assert a + b == b;
    } else {
      MarksConcat(view, a[1..], b);
      assert (a + b)[1..] == a[1..] + b;
      Assoc(if Bears(view, a[0]) then [a[0]] else [], Marks(view, a[1..]), Marks(view, b));
    }
  }

  /** The printed characters are the line's own, under its number, but for white space at the end. */
  predicate Faithful(s: Shown) {
    match s.what
    case NewAt(number, line) => TrimEnd(s.text) == TrimEnd(NewText(number, line))
    case OldAt(line) => TrimEnd(s.text) == TrimEnd(FullText(line))
    case _ => true
  }

  predicate AllFaithful(out: seq<Shown>) {
    forall i :: 0 <= i < |out| ==> Faithful(out[i])
  }

  lemma {:induction false} TrimKeepsFirst(s: string)
    requires s != [] && !IsSpace(s[0])
    ensures TrimEnd(s) != "" && TrimEnd(s)[0] == s[0]
  {
    if IsSpace(s[|s| - 1]) {
      TrimKeepsFirst(s[..|s| - 1]);
    }
  }

  /** Numbered lines and deletions are never blank, so trimming cannot lose one. */
  lemma SeenIsNotBlank(view: View, s: Shown)
    requires Faithful(s) && Sees(view, s.what)
    ensures !Blank(s)
  {
    if s.what.NewAt? {
      assert NewText(s.what.number, s.what.line)[0] == Decimal(s.what.number)[0];
      TrimKeepsFirst(NewText(s.what.number, s.what.line));
    } else {
      TrimKeepsFirst(FullText(s.what.line));
    }
  }

  lemma {:induction false} TrimTailKeeps(view: View, out: seq<Shown>)
    requires AllFaithful(out)
    ensures Prints(view, TrimTail(out)) == Prints(view, out) && AllFaithful(TrimTail(out))
  {
    if out != [] {
      var init, last := out[..|out| - 1], out[|out| - 1];
      assert out == init + [last];
      PrintsConcat(view, init, [last]);
      if Blank(last) {
        TrimTailKeeps(view, init);
        if Sees(view, last.what) {
          SeenIsNotBlank(view, last);
        }
        assert Prints(view, [last]) == [];
      } else {
        var short := last.(text := TrimEnd(last.text));
        PrintsConcat(view, init, [short]);
        TrimEndTwice(last.text);
        assert Prints(view, [short]) == Prints(view, [last]);
      }
    }
  }

  predicate IsMark(s: Shown) {
    s.what.NewMark? || s.what.OldMark? || s.what.Gap? || s.what.Heading?
  }

  lemma {:induction false} MarkPrintsNothing(view: View, mark: Shown)
    requires IsMark(mark)
    ensures Prints(view, [mark]) == [] && AllFaithful([mark])
  {
  }

  /** Behind what is printed, a mark prints nothing. */
  lemma {:induction false} MarkAdds(view: View, out: seq<Shown>, mark: Shown)
    requires AllFaithful(out) && IsMark(mark)
    ensures Prints(view, out + [mark]) == Prints(view, out) && AllFaithful(out + [mark])
  {
    PrintsConcat(view, out, [mark]);
    MarkPrintsNothing(view, mark);
    assert Prints(view, out) + [] == Prints(view, out);
  }

  lemma {:induction false} MarkedKeeps(view: View, out: seq<Shown>, mark: Shown)
    requires AllFaithful(out) && (mark.what.NewMark? || mark.what.OldMark?)
    ensures Prints(view, Marked(out, mark)) == Prints(view, out) && AllFaithful(Marked(out, mark))
  {
    TrimTailKeeps(view, out);
    MarkAdds(view, TrimTail(out), mark);
    MarkPrintsNothing(view, GAP);
    MarkAdds(view, [GAP], mark);
  }

  /** The numbers a new section gives its lines: from `start` on, one after another. */
  function Counted(start: nat, lines: seq<Line>): (r: seq<What>)
    ensures |r| == |lines| && forall i :: 0 <= i < |r| ==> r[i] == NewAt(start + i, lines[i])
  {
    seq(|lines|, i requires 0 <= i < |lines| => NewAt(start + i, lines[i]))
  }

  lemma NumberedTail(start: nat, lines: seq<Line>)
    requires lines != []
    ensures Numbered(start, lines)[0] == NewLine(start, lines[0])
    ensures Numbered(start, lines)[1..] == Numbered(start + 1, lines[1..])
  {
  }

  lemma NumberedCons(start: nat, lines: seq<Line>)
    requires lines != []
    ensures Numbered(start, lines) == [NewLine(start, lines[0])] + Numbered(start + 1, lines[1..])
  {
    NumberedTail(start, lines);
  }

  lemma CountedCons(start: nat, lines: seq<Line>)
    requires lines != []
    ensures Counted(start, lines) == [NewAt(start, lines[0])] + Counted(start + 1, lines[1..])
  {
  }

  lemma {:induction false} NumberCons(s: Shown, rest: seq<Shown>)
    requires s.what.NewAt?
    ensures Prints(Numbers, [s] + rest) == [s.what] + Prints(Numbers, rest)
    ensures Prints(Minus, [s] + rest) == Prints(Minus, rest)
  {
    assert ([s] + rest)[1..] == rest;
  }

  lemma {:induction false} NumberedCounts(start: nat, lines: seq<Line>)
    ensures Prints(Numbers, Numbered(start, lines)) == Counted(start, lines)
    ensures Prints(Minus, Numbered(start, lines)) == []
    decreases |lines|
  {
    if lines != [] {
      NumberedCounts(start + 1, lines[1..]);
      NumberedCons(start, lines);
      CountedCons(start, lines);
      NumberCons(NewLine(start, lines[0]), Numbered(start + 1, lines[1..]));
    }
  }

  lemma {:induction false} NumberedShows(start: nat, lines: seq<Line>)
    ensures LinesOf(Prints(Plus, Numbered(start, lines))) == Marks(Plus, lines)
    decreases |lines|
  {
    if lines != [] {
      NumberedShows(start + 1, lines[1..]);
      NumberedCons(start, lines);
      PlusCons(NewLine(start, lines[0]), Numbered(start + 1, lines[1..]));
    }
  }

  lemma {:induction false} PlusCons(s: Shown, rest: seq<Shown>)
    requires s.what.NewAt?
    ensures LinesOf(Prints(Plus, [s] + rest)) == (if s.what.line.Add? then [s.what.line] else []) + LinesOf(Prints(Plus, rest))
  {
    assert ([s] + rest)[1..] == rest;
  }

  lemma {:induction false} NumberedPrints(start: nat, lines: seq<Line>)
    ensures Prints(Numbers, Numbered(start, lines)) == Counted(start, lines)
    ensures LinesOf(Prints(Plus, Numbered(start, lines))) == Marks(Plus, lines)
    ensures Prints(Minus, Numbered(start, lines)) == []
  {
    NumberedCounts(start, lines);
    NumberedShows(start, lines);
  }

  lemma {:induction false} QuotedPrints(lines: seq<Line>)
    ensures Prints(Numbers, Quoted(lines)) == [] && Prints(Plus, Quoted(lines)) == []
    ensures LinesOf(Prints(Minus, Quoted(lines))) == Marks(Minus, lines)
  {
    if lines != [] {
      QuotedPrints(lines[1..]);
      assert Quoted(lines)[1..] == Quoted(lines[1..]);
    }
  }

  lemma {:induction false} NoMarks(lines: seq<Line>)
    ensures !SomeAdd(lines) ==> Marks(Plus, lines) == []
    ensures !SomeDel(lines) ==> Marks(Minus, lines) == []
  {
    if lines != [] {
      assert lines[0] in lines;
      assert forall l :: l in lines[1..] ==> l in lines;
      NoMarks(lines[1..]);
    }
  }

  predicate Sound(s: State) {
    AllFaithful(s.out) && (s.header.Some? ==> s.header.value.Hdr?)
  }

  /** Two pieces of output, both faithful. */
  lemma {:induction false} Joined(view: View, a: seq<Shown>, b: seq<Shown>)
    requires AllFaithful(a) && AllFaithful(b)
    ensures Prints(view, a + b) == Prints(view, a) + Prints(view, b) && AllFaithful(a + b)
  {
    PrintsConcat(view, a, b);
  }

  lemma NumberedIsFaithful(start: nat, news: seq<Line>)
    ensures AllFaithful(Numbered(start, news))
  {
  }

  lemma QuotedIsFaithful(olds: seq<Line>)
    ensures AllFaithful(Quoted(olds))
  {
  }

  lemma {:induction false} WithNewsPrints(view: View, out: seq<Shown>, start: nat, news: seq<Line>)
    requires AllFaithful(out)
    ensures Prints(view, WithNews(out, start, news)) == Prints(view, out) + Prints(view, Numbered(start, news))
    ensures AllFaithful(WithNews(out, start, news))
  {
    var mark := Shown(NewMark, "__new hunk__");
    MarkedKeeps(view, out, mark);
    NumberedIsFaithful(start, news);
    Joined(view, Marked(out, mark), Numbered(start, news));
  }

  lemma {:induction false} WithOldsPrints(view: View, out: seq<Shown>, olds: seq<Line>)
    requires AllFaithful(out)
    ensures Prints(view, WithOlds(out, olds)) == Prints(view, out) + Prints(view, Quoted(olds))
    ensures AllFaithful(WithOlds(out, olds))
  {
    var mark := Shown(OldMark, "__old hunk__");
    MarkedKeeps(view, out, mark);
    QuotedIsFaithful(olds);
    Joined(view, Marked(out, mark), Quoted(olds));
  }

  lemma {:induction false} HeadedPrints(view: View, out: seq<Shown>, h: Line, isLast: bool)
    requires AllFaithful(out)
    ensures Prints(view, Headed(out, h, isLast)) == Prints(view, out) && AllFaithful(Headed(out, h, isLast))
  {
    var heading := Shown(Heading, FullText(h));
    MarkAdds(view, out, GAP);
    MarkAdds(view, out + [GAP], heading);
    assert out + [GAP, heading] == out + [GAP] + [heading];
  }

  /** Whether a flush prints anything but a heading. */
  predicate Prints?(s: State) {
    s.header.Some? && s.header.value.Hdr? && (SomeAdd(s.news) || SomeDel(s.olds))
  }

  /** What a flush adds to what is printed. */
  function Flushed(view: View, s: State): (r: seq<What>)
    ensures forall i :: 0 <= i < |r| ==> Sees(view, r[i])
  {
    if !Prints?(s) then []
    else if view.Minus? then (if SomeDel(s.olds) then Prints(view, Quoted(s.olds)) else [])
    else Prints(view, Numbered(s.header.value.start2, s.news))
  }

  lemma {:induction false} FlushPrints(view: View, s: State, isLast: bool)
    requires Sound(s)
    ensures Sound(Flush(s, isLast)) && Prints(view, Flush(s, isLast).out) == Prints(view, s.out) + Flushed(view, s)
  {
    if s.header.Some? && !(s.news == [] && s.olds == []) {
      var a := Headed(s.out, s.header.value, isLast);
      HeadedPrints(view, s.out, s.header.value, isLast);
      if Prints?(s) {
        SectionsPrint(view, a, s.header.value.start2, s.news, s.olds);
      }
    }
  }

  lemma SectionsPrint(view: View, out: seq<Shown>, start: nat, news: seq<Line>, olds: seq<Line>)
    requires AllFaithful(out)
    ensures var b := WithNews(out, start, news);
            var c := if SomeDel(olds) then WithOlds(b, olds) else b;
            && AllFaithful(c)
            && Prints(view, c) == Prints(view, out) +
                 (if view.Minus? then (if SomeDel(olds) then Prints(view, Quoted(olds)) else [])
                  else Prints(view, Numbered(start, news)))
  {
    var b := WithNews(out, start, news);
    WithNewsPrints(view, out, start, news);
    if SomeDel(olds) {
      WithOldsPrints(view, b, olds);
    }
    if view.Minus? {
      NumberedPrints(start, news);
      assert Prints(view, out) + [] == Prints(view, out);
    } else {
      QuotedPrints(olds);
      assert Prints(view, b) + [] == Prints(view, b);
    }
  }

  /** The additions, or the deletions, a state has printed or still holds. */
  function Holds(view: View, s: State): seq<Line> {
    LinesOf(Prints(view, s.out)) + Waiting(view, s)
  }

  function Waiting(view: View, s: State): seq<Line> {
    Marks(view, if view.Minus? then s.olds else s.news)
  }

  lemma FlushKeeps(view: View, s: State, isLast: bool)
    requires Sound(s) && !view.Numbers?
    ensures Sound(Flush(s, isLast)) && Holds(view, Flush(s, isLast)) == Holds(view, s)
    ensures s.header.Some? ==> Waiting(view, Flush(s, isLast)) == []
  {
    FlushPrints(view, s, isLast);
    if s.header.Some? {
      FlushedIsWaiting(view, s);
      LinesOfConcat(Prints(view, s.out), Flushed(view, s));
    }
  }

  lemma FlushedIsWaiting(view: View, s: State)
    requires s.header.Some? && s.header.value.Hdr? && !view.Numbers?
    ensures LinesOf(Flushed(view, s)) == Waiting(view, s)
  {
    NoMarks(s.news);
    NoMarks(s.olds);
    NumberedPrints(s.header.value.start2, s.news);
    QuotedPrints(s.olds);
  }

  lemma LinesOfConcat(a: seq<What>, b: seq<What>)
    requires forall i :: 0 <= i < |a| ==> a[i].NewAt? || a[i].OldAt?
    requires forall i :: 0 <= i < |b| ==> b[i].NewAt? || b[i].OldAt?
    ensures forall i :: 0 <= i < |a + b| ==> (a + b)[i].NewAt? || (a + b)[i].OldAt?
    ensures LinesOf(a + b) == LinesOf(a) + LinesOf(b)
  {
  }

  lemma {:induction false} TakeKeeps(view: View, s: State, line: Line)
    requires Sound(s) && !view.Numbers?
    ensures Sound(Take(s, line))
    ensures Holds(view, Take(s, line)) == Holds(view, s) + Marks(view, [line])
  {
    match line
    case Hdr(_, _, _, _, _, _) => FlushKeeps(view, s, false);
    case BadHdr(_) =>
    case _ =>
      MarksConcat(view, s.news, [line]);
      MarksConcat(view, s.olds, [line]);
      Assoc(LinesOf(Prints(view, s.out)), Waiting(view, s), Marks(view, [line]));
  }

  lemma {:induction false} RunKeeps(view: View, s: State, lines: seq<Line>)
    requires Sound(s) && !view.Numbers?
    ensures Sound(Run(s, lines)) && Holds(view, Run(s, lines)) == Holds(view, s) + Marks(view, lines)
    decreases |lines|
  {
    if lines != [] {
      TakeKeeps(view, s, lines[0]);
      RunKeeps(view, Take(s, lines[0]), lines[1..]);
      assert lines == [lines[0]] + lines[1..];
      MarksConcat(view, [lines[0]], lines[1..]);
      Assoc(Holds(view, s), Marks(view, [lines[0]]), Marks(view, lines[1..]));
    }
  }

  function Start(file: Option<File>): State {
    State(Titled(file), [], [], None)
  }

  function End(patch: seq<Line>, file: Option<File>): State {
    Run(Start(file), Kept(patch, true))
  }

  lemma {:induction false} StartIsSound(view: View, file: Option<File>)
    ensures Sound(Start(file)) && Prints(view, Start(file).out) == []
  {
    if file.Some? {
      var title := Titled(file);
      assert title[1..][1..] == [title[2]];
      assert Prints(view, title[1..][1..]) == [];
    }
  }

  /** Every addition and every deletion the conversion looks at is printed exactly once, in order, or is among those
      that still wait at the end for a header that never came. */
  lemma {:induction false} EveryChangeOnce(view: View, patch: seq<Line>, file: Option<File>)
    requires !view.Numbers? && (file.Some? ==> !file.value.deleted)
    ensures AllFaithful(Converted(patch, file))
    ensures LinesOf(Prints(view, Converted(patch, file))) +
            (if End(patch, file).header.Some? then [] else Waiting(view, End(patch, file)))
            == Marks(view, Kept(patch, true))
  {
    StartIsSound(view, file);
    RunKeeps(view, Start(file), Kept(patch, true));
    var s := End(patch, file);
    FlushKeeps(view, s, true);
    TrimTailKeeps(view, Flush(s, true).out);
    assert Holds(view, Start(file)) == [];
  }

  predicate SomeHeader(lines: seq<Line>) {
    exists l | l in lines :: l.Hdr? && !Phrase(l)
  }

  predicate NoBad(lines: seq<Line>) {
    forall i :: 0 <= i < |lines| ==> !lines[i].BadHdr?
  }

  lemma {:induction false} RunHeader(s: State, lines: seq<Line>)
    requires NoBad(lines)
    ensures Run(s, lines).header.Some? <==> s.header.Some? || !NoHeader(lines)
    ensures Run(s, lines).header.None? ==> Run(s, lines).out == s.out
    decreases |lines|
  {
    if lines != [] {
      RunHeader(Take(s, lines[0]), lines[1..]);
      if !NoHeader(lines[1..]) {
        var i :| 0 <= i < |lines[1..]| && lines[1..][i].Hdr?;
        assert lines[i + 1].Hdr?;
      } else if !lines[0].Hdr? {
        assert forall i :: 0 < i < |lines| ==> lines[i] == lines[1..][i - 1];
      }
    }
  }

  /** Lines without the phrase. */
  function Plain(lines: seq<Line>): seq<Line> {
    if lines == [] then []
    else (if Phrase(lines[0]) then [] else [lines[0]]) + Plain(lines[1..])
  }

  lemma {:induction false} KeptMarks(view: View, lines: seq<Line>, first: bool)
    requires !view.Numbers?
    ensures Marks(view, Kept(lines, first)) == Plain(Marks(view, lines))
  {
    if lines != [] {
      KeptMarks(view, lines[1..], false);
      var rest := Marks(view, lines[1..]);
      assert Marks(view, lines) == if Bears(view, lines[0]) then [lines[0]] + rest else rest;
      assert ([lines[0]] + rest)[1..] == rest;
      if !(Phrase(lines[0]) || Closes(lines, first)) {
        assert Kept(lines, first)[1..] == Kept(lines[1..], false);
      }
    }
  }

  lemma {:induction false} KeptHeaders(lines: seq<Line>, first: bool)
    ensures NoBad(lines) ==> NoBad(Kept(lines, first))
    ensures NoHeader(Kept(lines, first)) <==> !SomeHeader(lines)
  {
    if lines != [] {
      KeptHeaders(lines[1..], false);
      SomeHeaderSplit(lines);
      if !(Phrase(lines[0]) || Closes(lines, first)) {
        assert Kept(lines, first)[1..] == Kept(lines[1..], false);
        NoHeaderSplit(Kept(lines, first));
      }
    }
  }

  lemma SomeHeaderSplit(lines: seq<Line>)
    requires lines != []
    ensures SomeHeader(lines) <==> (lines[0].Hdr? && !Phrase(lines[0])) || SomeHeader(lines[1..])
  {
    assert forall l :: l in lines <==> l == lines[0] || l in lines[1..];
  }

  lemma {:induction false} WithoutBadFacts(lines: seq<Line>)
    ensures NoBad(WithoutBad(lines)) && Marks(Plus, WithoutBad(lines)) == Marks(Plus, lines)
  {
    if lines != [] {
      WithoutBadFacts(lines[1..]);
    }
  }

  lemma {:induction false} AddingKeeps(hunks: seq<Hunk>)
    requires WellShaped(hunks)
    ensures Marks(Plus, Adding(hunks)) == Marks(Plus, Flatten(hunks))
  {
    if hunks != [] {
      var k := hunks[0];
      AddingKeeps(hunks[1..]);
      MarksConcat(Plus, k.body, Flatten(hunks[1..]));
      MarksConcat(Plus, [k.header] + k.body, Adding(hunks[1..]));
      HeaderBearsNothing(k);
      assert ([k.header] + (k.body + Flatten(hunks[1..])))[1..] == k.body + Flatten(hunks[1..]);
      NoMarks(k.body);
      assert [] + Adding(hunks[1..]) == Adding(hunks[1..]);
    }
  }

  lemma HeaderBearsNothing(k: Hunk)
    requires k.header.Hdr?
    ensures Marks(Plus, [k.header] + k.body) == Marks(Plus, k.body)
  {
    assert ([k.header] + k.body)[1..] == k.body;
  }

  /** Leaving out deletion-only hunks loses no addition, unless the patch has no header at all; then everything goes. */
  lemma {:induction false} OmittedKeepsAdditions(patch: seq<Line>)
    ensures Marks(Plus, Omitted(patch)) == if NoHeader(patch) then [] else Marks(Plus, patch)
  {
    var lines := WithoutBad(patch);
    var pre, hunks := Body(lines), Hunks(lines);
    WithoutBadFacts(patch);
    HeadersSurvive(patch);
    HunksIffHeader(lines);
    if hunks != [] {
      HunksAreWellShaped(lines);
      FlattenHunks(lines);
      AddingKeeps(hunks);
      MarksConcat(Plus, pre, Flatten(hunks));
      OmittedParts(pre, hunks);
    }
  }

  lemma {:induction false} OmittedParts(pre: seq<Line>, hunks: seq<Hunk>)
    requires hunks != [] && WellShaped(hunks)
    ensures Marks(Plus, (if SomeAdd(pre) || SomeAdd(hunks[0].body) then pre + ([hunks[0].header] + hunks[0].body) else [])
                        + Adding(hunks[1..])) == Marks(Plus, pre) + Marks(Plus, Adding(hunks))
  {
    var first := [hunks[0].header] + hunks[0].body;
    HeaderBearsNothing(hunks[0]);
    NoMarks(pre);
    NoMarks(hunks[0].body);
    MarksConcat(Plus, pre, first);
    MarksConcat(Plus, pre + first, Adding(hunks[1..]));
    MarksConcat(Plus, first, Adding(hunks[1..]));
    Assoc(Marks(Plus, pre), Marks(Plus, first), Marks(Plus, Adding(hunks[1..])));
    assert [] + Adding(hunks[1..]) == Adding(hunks[1..]);
  }

  lemma {:induction false} HeadersSurvive(lines: seq<Line>)
    ensures NoHeader(WithoutBad(lines)) <==> NoHeader(lines)
  {
    if lines != [] {
      HeadersSurvive(lines[1..]);
      NoHeaderSplit(lines);
      if !lines[0].BadHdr? {
        NoHeaderSplit(WithoutBad(lines));
        assert WithoutBad(lines)[1..] == WithoutBad(lines[1..]);
      }
    }
  }

  lemma NoHeaderSplit(lines: seq<Line>)
    requires lines != []
    ensures NoHeader(lines) <==> !lines[0].Hdr? && NoHeader(lines[1..])
  {
    assert forall i :: 0 < i < |lines| ==> lines[i] == lines[1..][i - 1];
  }

  lemma {:induction false} HunksIffHeader(lines: seq<Line>)
    ensures Hunks(lines) == [] <==> NoHeader(lines)
  {
    BodyEndsAtHeader(lines);
    assert Body(lines) + Rest(lines) == lines;
    if Rest(lines) != [] {
      assert lines[|Body(lines)|] == Rest(lines)[0];
    }
  }

  lemma NoBadConcat(a: seq<Line>, b: seq<Line>)
    ensures NoBad(a + b) <==> NoBad(a) && NoBad(b)
  {
    assert forall i :: 0 <= i < |a| ==> a[i] == (a + b)[i];
    assert forall i :: 0 <= i < |b| ==> b[i] == (a + b)[|a| + i];
  }

  lemma {:induction false} AddingHasNoBad(hunks: seq<Hunk>)
    requires NoBad(Flatten(hunks))
    ensures NoBad(Adding(hunks))
  {
    if hunks != [] {
      FirstHasNoBad(hunks);
      AddingHasNoBad(hunks[1..]);
      NoBadConcat(if SomeAdd(hunks[0].body) then [hunks[0].header] + hunks[0].body else [], Adding(hunks[1..]));
    }
  }

  lemma {:induction false} FirstHasNoBad(hunks: seq<Hunk>)
    requires hunks != [] && NoBad(Flatten(hunks))
    ensures NoBad([hunks[0].header] + hunks[0].body) && NoBad(Flatten(hunks[1..]))
  {
    Assoc([hunks[0].header], hunks[0].body, Flatten(hunks[1..]));
    NoBadConcat([hunks[0].header] + hunks[0].body, Flatten(hunks[1..]));
  }

  lemma OmittedHasNoBad(patch: seq<Line>)
    ensures NoBad(Omitted(patch))
  {
    var lines := WithoutBad(patch);
    var pre, hunks := Body(lines), Hunks(lines);
    WithoutBadFacts(patch);
    FlattenHunks(lines);
    NoBadConcat(pre, Flatten(hunks));
    if hunks != [] {
      var first := [hunks[0].header] + hunks[0].body;
      FirstHasNoBad(hunks);
      AddingHasNoBad(hunks[1..]);
      NoBadConcat(pre, first);
      NoBadConcat(pre + first, Adding(hunks[1..]));
      NoBadConcat([], Adding(hunks[1..]));
    }
  }

  /** The two passes together, on every patch: each added line is shown exactly once, in order and under its own
      words, but for lines that hold the "no newline" phrase; and nothing is shown when no header without that
      phrase is left. */
  lemma {:induction false} EveryAdditionShownOnce(patch: seq<Line>, file: Option<File>)
    requires file.Some? ==> !file.value.deleted
    ensures var out := Converted(Omitted(patch), file);
            && AllFaithful(out)
            && LinesOf(Prints(Plus, out)) == if SomeHeader(Omitted(patch)) then Plain(Marks(Plus, patch)) else []
  {
    var lines := Omitted(patch);
    EveryChangeOnce(Plus, lines, file);
    OmittedKeepsAdditions(patch);
    OmittedHasNoBad(patch);
    KeptMarks(Plus, lines, true);
    KeptHeaders(lines, true);
    RunHeader(Start(file), Kept(lines, true));
    var s := End(lines, file);
    if s.header.Some? {
      assert SomeHeader(lines);
      HeaderInPatch(patch);
    } else {
      StartIsSound(Plus, file);
      TrimTailKeeps(Plus, s.out);
      assert Flush(s, true) == s;
    }
  }

  lemma HeaderInPatch(patch: seq<Line>)
    requires SomeHeader(Omitted(patch))
    ensures !NoHeader(patch)
  {
    HeadersSurvive(patch);
    HunksIffHeader(WithoutBad(patch));
  }

  const PHRASED_HEADER := Hdr(1, 1, 1, 2, "no newline at end of file", "@@ -1 +1,2 @@ " + "no newline at end of file")

  lemma EndsInWords(before: string, words: string)
    requires Lower(words) == words
    ensures Includes(Lower(before + words), words)
  {
    var s := Lower(before + words);
    assert |s| == |before| + |words|;
    forall i | 0 <= i < |words| ensures s[|before| + i] == words[i] {
      assert (before + words)[|before| + i] == words[i];
      assert Lower(words)[i] == words[i];
    }
    assert s[|before|..|before| + |words|] == words;
    assert OccursAt(s, words, |before|);
  }

  lemma PhraseIsLower()
    ensures Lower("no newline at end of file") == "no newline at end of file"
  {
  }

  /** A patch that adds a line and shows none: the words stand in the section text of its only header. */
  lemma PhraseInHeaderHidesTheHunk(file: Option<File>)
    requires file.Some? ==> !file.value.deleted
    ensures var patch := [PHRASED_HEADER, Ctx("a"), Add("b")];
            && Omitted(patch) == patch && Marks(Plus, patch) == [Add("b")]
            && Prints(Plus, Converted(Omitted(patch), file)) == []
  {
    var body := [Ctx("a"), Add("b")];
    var patch := [PHRASED_HEADER, Ctx("a"), Add("b")];
    assert [PHRASED_HEADER] + body == patch;
    assert body[1] in body && body[1].Add?;
    PhraseIsLower();
    EndsInWords("@@ -1 +1,2 @@ ", "no newline at end of file");
    assert Phrase(PHRASED_HEADER);
    OneHunkStays(PHRASED_HEADER, body);
    assert patch[1..] == body && body[1..] == [Add("b")];
    assert Marks(Plus, [Add("b")]) == [Add("b")];
    EveryAdditionShownOnce(patch, file);
    assert |LinesOf(Prints(Plus, Converted(Omitted(patch), file)))| == 0;
  }

  lemma OneHunkStays(h: Line, body: seq<Line>)
    requires h.Hdr? && NoHeader(body) && NoBad(body) && SomeAdd(body)
    ensures Omitted([h] + body) == [h] + body
  {
    NothingBad([h] + body);
    OneHunk(h, body);
    AroundNothing([h] + body);
  }

  lemma AroundNothing(lines: seq<Line>)
    ensures ([] + lines) + [] == lines
  {
  }

  lemma {:induction false} OneHunk(h: Line, body: seq<Line>)
    requires h.Hdr? && NoHeader(body)
    ensures Body([h] + body) == [] && Hunks([h] + body) == [Hunk(h, body)]
  {
    BodyOfConcat(body, []);
    assert body + [] == body && ([h] + body)[1..] == body;
  }

  lemma {:induction false} NothingBad(lines: seq<Line>)
    requires NoBad(lines)
    ensures WithoutBad(lines) == lines
  {
    if lines != [] {
      NothingBad(lines[1..]);
    }
  }
}
