/** Unified patches, line by line, the way the diff engine looks at them. */
module Patches {
  import opened Basics
  import opened Text

  /** A line of a patch by its first characters; `text` leaves out the prefix of Ctx, Add and Del. A line that
      starts with "@@" and is no hunk header is BadHdr; Raw is everything else. A header has the numbers it was read
      as, where a size left out is 1, and its own characters. */
  datatype Line =
    | Hdr(start1: nat, size1: int, start2: nat, size2: int, section: string, text: string)
    | BadHdr(text: string)
    | Ctx(text: string)
    | Add(text: string)
    | Del(text: string)
    | Raw(text: string)

  function Digits(n: int): string {
    if n < 0 then "-" + Decimal(-n) else Decimal(n)
  }

  /** The characters of a header as the code itself writes one. */
  function Numerals(start1: nat, size1: int, start2: nat, size2: int): string {
    "@@ -" + Decimal(start1) + "," + Digits(size1) + " +" + Decimal(start2) + "," + Digits(size2) + " @@"
  }

  lemma {:induction false} NumberCuts(m1: nat, c: char, rest1: string, m2: nat, rest2: string)
    requires !IsDigit(c) && Decimal(m1) + ([c] + rest1) == Decimal(m2) + ([c] + rest2)
    ensures m1 == m2 && rest1 == rest2
  {
    CutIsInjective(Decimal(m1), c, rest1, Decimal(m2), rest2);
    DecimalIsInjective(m1, m2);
  }

  lemma {:induction false} SamePart(front: string, a: string, b: string)
    requires front + a == front + b
    ensures a == b
  {
    assert (front + a)[|front|..] == a && (front + b)[|front|..] == b;
  }

  /** The two numbers of one side, and what follows them. */
  function SideText(start: nat, size: nat, rest: string): string {
    Decimal(start) + ([','] + (Decimal(size) + ([' '] + rest)))
  }

  lemma {:induction false} SidesAreApart(a1: nat, b1: nat, rest1: string, a2: nat, b2: nat, rest2: string)
    requires SideText(a1, b1, rest1) == SideText(a2, b2, rest2)
    ensures a1 == a2 && b1 == b2 && rest1 == rest2
  {
    NumberCuts(a1, ',', Decimal(b1) + ([' '] + rest1), a2, Decimal(b2) + ([' '] + rest2));
    NumberCuts(b1, ' ', rest1, b2, rest2);
  }

  lemma {:induction false} Regroup(p: string, a: string, b: string, r: string, c: string, d: string, t: string)
    ensures p + a + "," + b + r + c + "," + d + t == p + (a + ([','] + (b + (r + (c + ([','] + (d + t)))))))
  {
  }

  lemma {:induction false} NumeralsAre(a: nat, b: nat, c: nat, d: nat)
    ensures Numerals(a, b, c, d) == "@@ -" + SideText(a, b, "+" + SideText(c, d, "@@"))
  {
    var x := Decimal(c) + ([','] + (Decimal(d) + " @@"));
    Regroup("@@ -", Decimal(a), Decimal(b), " +", Decimal(c), Decimal(d), " @@");
    assert " @@" == [' '] + "@@" && " +" + x == [' '] + ("+" + x);
  }

  /** The characters of a header say which numbers it has. */
  lemma {:induction false} NumeralsAreApart(a1: nat, b1: nat, c1: nat, d1: nat, a2: nat, b2: nat, c2: nat, d2: nat)
    requires Numerals(a1, b1, c1, d1) == Numerals(a2, b2, c2, d2)
    ensures a1 == a2 && b1 == b2 && c1 == c2 && d1 == d2
  {
    var x1, x2 := SideText(c1, d1, "@@"), SideText(c2, d2, "@@");
    NumeralsAre(a1, b1, c1, d1);
    NumeralsAre(a2, b2, c2, d2);
    SamePart("@@ -", SideText(a1, b1, "+" + x1), SideText(a2, b2, "+" + x2));
    SidesAreApart(a1, b1, "+" + x1, a2, b2, "+" + x2);
    SamePart("+", x1, x2);
    SidesAreApart(c1, d1, "@@", c2, d2, "@@");
  }

  datatype Hunk = Hunk(header: Line, body: seq<Line>)

  /** The lines before the next hunk header, and those from it on. */
  function Body(lines: seq<Line>): (body: seq<Line>)
    ensures body <= lines
  {
    if lines == [] || lines[0].Hdr? then [] else [lines[0]] + Body(lines[1..])
  }

  function Rest(lines: seq<Line>): seq<Line> {
    lines[|Body(lines)|..]
  }

  predicate NoHeader(lines: seq<Line>) {
    forall i :: 0 <= i < |lines| ==> !lines[i].Hdr?
  }

  lemma {:induction false} BodyEndsAtHeader(lines: seq<Line>)
    ensures NoHeader(Body(lines))
    ensures Rest(lines) != [] ==> Rest(lines)[0].Hdr?
  {
    if lines != [] && !lines[0].Hdr? {
      BodyEndsAtHeader(lines[1..]);
      assert Rest(lines) == Rest(lines[1..]);
    }
  }

  lemma {:induction false} BodyOfConcat(body: seq<Line>, rest: seq<Line>)
    requires NoHeader(body) && (rest != [] ==> rest[0].Hdr?)
    ensures Body(body + rest) == body && Rest(body + rest) == rest
  {
    if body != [] {
      BodyOfConcat(body[1..], rest);
      assert (body + rest)[1..] == body[1..] + rest;
    }
  }

  /** The hunks of a patch; lines before the first header belong to none. */
  function Hunks(lines: seq<Line>): seq<Hunk>
    decreases |lines|
  {
    var from := Rest(lines);
    if from == [] then [] else [Hunk(from[0], Body(from[1..]))] + Hunks(from[1..])
  }

  function Flatten(hunks: seq<Hunk>): seq<Line> {
    if hunks == [] then [] else [hunks[0].header] + (hunks[0].body + Flatten(hunks[1..]))
  }

  predicate WellShaped(hunks: seq<Hunk>) {
    forall i :: 0 <= i < |hunks| ==> hunks[i].header.Hdr? && NoHeader(hunks[i].body)
  }

  lemma {:induction false} HunksAreWellShaped(lines: seq<Line>)
    ensures WellShaped(Hunks(lines))
    decreases |lines|
  {
    BodyEndsAtHeader(lines);
    var from := Rest(lines);
    if from != [] {
      HunksAreWellShaped(from[1..]);
      BodyEndsAtHeader(from[1..]);
    }
  }

  /** Splitting into hunks and writing them out again are inverse, both ways round. */
  lemma {:induction false} FlattenHunks(lines: seq<Line>)
    ensures Body(lines) + Flatten(Hunks(lines)) == lines
    decreases |lines|
  {
    var from := Rest(lines);
    assert Body(lines) + from == lines;
    if from != [] {
      FlattenHunks(from[1..]);
      FlattenCons(Hunk(from[0], Body(from[1..])), Hunks(from[1..]));
      assert Flatten(Hunks(lines)) == [from[0]] + from[1..];
      assert [from[0]] + from[1..] == from;
    }
  }

  lemma {:induction false} FlattenCons(first: Hunk, hunks: seq<Hunk>)
    ensures Flatten([first] + hunks) == [first.header] + (first.body + Flatten(hunks))
  {
    assert ([first] + hunks)[1..] == hunks;
  }

  lemma {:induction false} HunksOfFlatten(pre: seq<Line>, hunks: seq<Hunk>)
    requires NoHeader(pre) && WellShaped(hunks)
    ensures Body(pre + Flatten(hunks)) == pre && Hunks(pre + Flatten(hunks)) == hunks
    decreases |hunks|
  {
    var from := Flatten(hunks);
    BodyOfConcat(pre, from);
    if hunks != [] {
      HunksOfFlatten(hunks[0].body, hunks[1..]);
      FlattenFirst(hunks);
      FirstOfHunks(pre + from, from);
      assert hunks == [hunks[0]] + hunks[1..];
    }
  }

  lemma {:induction false} FlattenFirst(hunks: seq<Hunk>)
    requires hunks != []
    ensures Flatten(hunks) != [] && Flatten(hunks)[0] == hunks[0].header && Flatten(hunks)[1..] == hunks[0].body + Flatten(hunks[1..])
  {
  }

  lemma {:induction false} FirstOfHunks(lines: seq<Line>, from: seq<Line>)
    requires Rest(lines) == from && from != []
    ensures Hunks(lines) == [Hunk(from[0], Body(from[1..]))] + Hunks(from[1..])
  {
  }

  /** The lines that stand for the old file, for the new file, or for a difference. */
  datatype Side = Old | New | Change

  predicate On(side: Side, line: Line) {
    match side
    case Old => line.Ctx? || line.Del?
    case New => line.Ctx? || line.Add?
    case Change => line.Add? || line.Del?
  }

  function Pick(side: Side, lines: seq<Line>): (r: seq<Line>)
    ensures forall i :: 0 <= i < |r| ==> On(side, r[i])
  {
    if lines == [] then []
    else if On(side, lines[0]) then [lines[0]] + Pick(side, lines[1..])
    else Pick(side, lines[1..])
  }

  lemma {:induction false} PickConcat(side: Side, a: seq<Line>, b: seq<Line>)
    ensures Pick(side, a + b) == Pick(side, a) + Pick(side, b)
  {
    if a == [] {
      assert a + b == b;
    } else {
      PickConcat(side, a[1..], b);
      assert (a + b)[1..] == a[1..] + b;
      Assoc([a[0]], Pick(side, a[1..]), Pick(side, b));
    }
  }

  function Texts(lines: seq<Line>): (texts: seq<string>)
    ensures |texts| == |lines|
    ensures forall i :: 0 <= i < |lines| ==> texts[i] == if lines[i].Hdr? then "" else lines[i].text
  {
    seq(|lines|, i requires 0 <= i < |lines| => if lines[i].Hdr? then "" else lines[i].text)
  }

  /** What a piece of a patch says the old file, and the new file, holds at its place. */
  function OldSide(lines: seq<Line>): seq<string> {
    Texts(Pick(Old, lines))
  }

  function NewSide(lines: seq<Line>): seq<string> {
    Texts(Pick(New, lines))
  }

  function Changes(lines: seq<Line>): seq<Line> {
    Pick(Change, lines)
  }

  function Context(texts: seq<string>): (lines: seq<Line>)
    ensures |lines| == |texts|
    ensures forall i :: 0 <= i < |texts| ==> lines[i] == Ctx(texts[i])
  {
    seq(|texts|, i requires 0 <= i < |texts| => Ctx(texts[i]))
  }

  lemma {:induction false} PickContext(side: Side, texts: seq<string>)
    ensures Pick(side, Context(texts)) == if side == Change then [] else Context(texts)
    ensures Texts(Context(texts)) == texts
  {
    if texts != [] {
      PickContext(side, texts[1..]);
      assert Context(texts)[1..] == Context(texts[1..]);
      assert Context(texts) == [Ctx(texts[0])] + Context(texts[1..]);
    }
  }

  lemma {:induction false} PickPadded(side: Side, lead: seq<string>, body: seq<Line>, trail: seq<string>)
    ensures Pick(side, Context(lead) + body + Context(trail)) ==
            if side == Change then Pick(side, body) else Context(lead) + Pick(side, body) + Context(trail)
  {
    PickConcat(side, Context(lead) + body, Context(trail));
    PickConcat(side, Context(lead), body);
    PickContext(side, lead);
    PickContext(side, trail);
  }

  lemma {:induction false} TextsPadded(lead: seq<string>, lines: seq<Line>, trail: seq<string>)
    ensures Texts(Context(lead) + lines + Context(trail)) == lead + Texts(lines) + trail
  {
  }

  /** Context lines put around a body add themselves to both sides and nothing to the differences. */
  lemma {:induction false} SidesOfPadded(lead: seq<string>, body: seq<Line>, trail: seq<string>)
    ensures OldSide(Context(lead) + body + Context(trail)) == lead + OldSide(body) + trail
    ensures NewSide(Context(lead) + body + Context(trail)) == lead + NewSide(body) + trail
    ensures Changes(Context(lead) + body + Context(trail)) == Changes(body)
  {
    PickPadded(Old, lead, body, trail);
    TextsPadded(lead, Pick(Old, body), trail);
    PickPadded(New, lead, body, trail);
    TextsPadded(lead, Pick(New, body), trail);
    PickPadded(Change, lead, body, trail);
  }

  /** The lines a file has from `start` on, as many as the patch shows. */
  ghost predicate ShowsAt(side: seq<string>, file: seq<string>, start: int) {
    && 1 <= start && start - 1 + |side| <= |file|
    && forall i :: 0 <= i < |side| ==> side[i] == file[start - 1 + i]
  }

  /** Array.prototype.slice: negative bounds count from the end, and everything is clipped. */
  function Clip(i: int, n: nat): nat {
    if i < 0 then (if i + n < 0 then 0 else i + n) else if i < n then i else n
  }

  function Slice(s: seq<string>, from: int, to: int): seq<string> {
    if Clip(from, |s|) <= Clip(to, |s|) then s[Clip(from, |s|)..Clip(to, |s|)] else []
  }
}
