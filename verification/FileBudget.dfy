/** Which files go into the one full diff, and in which order they are offered. */
module FileBudget {
  import opened Basics
  import opened Lists
  import opened Text

  /** A converted file: its tokens as it stands, and with the frame put around it. */
  datatype Entry = Entry(name: string, tokens: nat, framed: nat)

  /** A file in the diff: framed, or as it stands when the soft threshold is no limit. */
  datatype Kept = Framed(entry: Entry) | Plain(entry: Entry)

  datatype Budget = Budget(maxTokensModel: int, soft: int, hard: int) {
    function HardThreshold(): nat { Max(maxTokensModel - hard, 0) }
    function SoftThreshold(): nat { Max(maxTokensModel - soft, 0) }
    predicate Unlimited() { soft >= maxTokensModel || soft <= 0 }
  }

  datatype Outcome = Outcome(patches: seq<Kept>, remaining: seq<Entry>, total: nat)

  /** One turn of the loop. */
  function Offer(o: Outcome, e: Entry, b: Budget): Outcome {
    if o.total > b.HardThreshold() then o.(remaining := o.remaining + [e])
    else if o.total + e.tokens <= b.SoftThreshold() then o.(patches := o.patches + [Framed(e)], total := o.total + e.framed)
    else if b.Unlimited() then o.(patches := o.patches + [Plain(e)], total := o.total + e.tokens)
    else o.(remaining := o.remaining + [e])
  }

  function Offered(o: Outcome, entries: seq<Entry>, b: Budget): Outcome
    decreases |entries|
  {
    if entries == [] then o else Offered(Offer(o, entries[0], b), entries[1..], b)
  }

  method GenerateFullPatch(entries: seq<Entry>, b: Budget, promptTokens: nat) returns (o: Outcome)
    ensures o == Offered(Outcome([], [], promptTokens), entries, b)
  {
    var patches: seq<Kept> := [];
    var remaining: seq<Entry> := [];
    var totalTokens: nat := promptTokens;
    var i := 0;
    ghost var rest := entries;
    while i < |entries|
      invariant i <= |entries| && rest == entries[i..]
      invariant Offered(Outcome(patches, remaining, totalTokens), rest, b) == Offered(Outcome([], [], promptTokens), entries, b)
    {
      var data := entries[i];
      assert data == rest[0] && entries[i + 1..] == rest[1..];
      i, rest := i + 1, rest[1..];
      if totalTokens > b.HardThreshold() {
        remaining := remaining + [data];
        continue;
      }
      if totalTokens + data.tokens > b.SoftThreshold() {
        if b.Unlimited() {
          patches := patches + [Plain(data)];
          totalTokens := totalTokens + data.tokens;
          continue;
        }
        remaining := remaining + [data];
        continue;
      }
      patches := patches + [Framed(data)];
      totalTokens := totalTokens + data.framed;
    }
    o := Outcome(patches, remaining, totalTokens);
  }

  function Entries(patches: seq<Kept>): (r: seq<Entry>)
    ensures |r| == |patches| && forall i :: 0 <= i < |r| ==> r[i] == patches[i].entry
  {
    seq(|patches|, i requires 0 <= i < |patches| => patches[i].entry)
  }

  /** `whole` is an interleaving of `a` and `b`: each keeps its own order and nothing is lost or doubled. */
  predicate Interleaves(a: seq<Entry>, b: seq<Entry>, whole: seq<Entry>)
    decreases |whole|
  {
    if whole == [] then a == [] && b == []
    else
      var init, last := whole[..|whole| - 1], whole[|whole| - 1];
      || (a != [] && a[|a| - 1] == last && Interleaves(a[..|a| - 1], b, init))
      || (b != [] && b[|b| - 1] == last && Interleaves(a, b[..|b| - 1], init))
  }

  lemma {:induction false} OfferInterleaves(o: Outcome, e: Entry, b: Budget, done: seq<Entry>)
    requires Interleaves(Entries(o.patches), o.remaining, done)
    ensures Interleaves(Entries(Offer(o, e, b).patches), Offer(o, e, b).remaining, done + [e])
  {
    var next := Offer(o, e, b);
    assert (done + [e])[..|done|] == done;
    if next.remaining == o.remaining {
      assert Entries(next.patches)[..|o.patches|] == Entries(o.patches);
    } else {
      assert next.remaining[..|o.remaining|] == o.remaining;
    }
  }

  /** Every file is either in the diff or left over, in the order they came. */
  lemma {:induction false} OfferedPartitions(o: Outcome, entries: seq<Entry>, b: Budget, done: seq<Entry>)
    requires Interleaves(Entries(o.patches), o.remaining, done)
    ensures var r := Offered(o, entries, b);
            Interleaves(Entries(r.patches), r.remaining, done + entries)
    decreases |entries|
  {
    if entries == [] {
      assert done + entries == done;
    } else {
      OfferInterleaves(o, entries[0], b, done);
      OfferedPartitions(Offer(o, entries[0], b), entries[1..], b, done + [entries[0]]);
      assert done + entries == done + [entries[0]] + entries[1..];
    }
  }

  /** The frame adds at most `slack` tokens. */
  predicate FramedWell(entries: seq<Entry>, slack: nat) {
    forall i :: 0 <= i < |entries| ==> entries[i].framed <= entries[i].tokens + slack
  }

  lemma FramedWellTail(entries: seq<Entry>, slack: nat)
    requires entries != [] && FramedWell(entries, slack)
    ensures entries[0].framed <= entries[0].tokens + slack && FramedWell(entries[1..], slack)
  {
  }

  /** The total never passes the soft threshold by more than one frame, unless the prompt alone does. */
  lemma {:induction false} TotalIsBounded(o: Outcome, entries: seq<Entry>, b: Budget, prompt: nat, slack: nat)
    requires !b.Unlimited() && FramedWell(entries, slack)
    requires o.total <= Max(prompt, b.maxTokensModel - b.soft + slack)
    ensures Offered(o, entries, b).total <= Max(prompt, b.maxTokensModel - b.soft + slack)
    decreases |entries|
  {
    if entries != [] {
      FramedWellTail(entries, slack);
      TotalIsBounded(Offer(o, entries[0], b), entries[1..], b, prompt, slack);
    }
  }

  /** Without a soft limit it may pass the hard threshold by one file. */
  lemma {:induction false} TotalIsBoundedWithoutSoft(o: Outcome, entries: seq<Entry>, b: Budget, prompt: nat, largest: nat)
    requires b.Unlimited() && forall i :: 0 <= i < |entries| ==> entries[i].framed <= largest && entries[i].tokens <= largest
    requires o.total <= Max(prompt, b.HardThreshold() + largest)
    ensures Offered(o, entries, b).total <= Max(prompt, b.HardThreshold() + largest)
    decreases |entries|
  {
    if entries != [] {
      TotalIsBoundedWithoutSoft(Offer(o, entries[0], b), entries[1..], b, prompt, largest);
    }
  }

  /** No room for `e` beside what makes `total`. */
  predicate NoRoom(total: nat, e: Entry, b: Budget) {
    || total > Max(b.maxTokensModel - b.hard, 0)
    || (0 < b.soft < b.maxTokensModel && total + e.tokens > Max(b.maxTokensModel - b.soft, 0))
  }

  /** What is left over has no room even at the end. */
  lemma {:induction false} NothingMoreFits(o: Outcome, entries: seq<Entry>, b: Budget)
    requires forall i :: 0 <= i < |o.remaining| ==> NoRoom(o.total, o.remaining[i], b)
    ensures var r := Offered(o, entries, b);
            r.total >= o.total && forall i :: 0 <= i < |r.remaining| ==> NoRoom(r.total, r.remaining[i], b)
    decreases |entries|
  {
    if entries != [] {
      NothingMoreFits(Offer(o, entries[0], b), entries[1..], b);
    }
  }

  /** generateFullPatch as a whole. */
  lemma {:induction false} FullPatchKeepsTheBudget(entries: seq<Entry>, b: Budget, prompt: nat, slack: nat)
    requires 0 < b.soft < b.maxTokensModel
    requires FramedWell(entries, slack)
    ensures var r := Offered(Outcome([], [], prompt), entries, b);
            && r.total <= Max(prompt, b.maxTokensModel - b.soft + slack)
            && Interleaves(Entries(r.patches), r.remaining, entries)
            && forall i :: 0 <= i < |r.remaining| ==> NoRoom(r.total, r.remaining[i], b)
  {
    var o := Outcome([], [], prompt);
    TotalIsBounded(o, entries, b, prompt, slack);
    OfferedPartitions(o, entries, b, []);
    assert [] + entries == entries;
    NothingMoreFits(o, entries, b);
  }

  /** A changed file: the language of its extension, the tokens of its extended patch if it has a patch, and its
      converted form unless it was deleted, has nothing to show, or is generated. */
  datatype File = File(name: string, lang: string, extended: Option<nat>, shown: Option<Entry>)

  datatype Language = Language(name: string, size: int)

  function OfLang(lang: string): File -> bool {
    (f: File) => f.lang == lang
  }

  function OfNone(langs: seq<string>): File -> bool {
    (f: File) => f.lang !in langs
  }

  function Buckets(langs: seq<string>, files: seq<File>): seq<File> {
    if langs == [] then []
    else Buckets(langs[..|langs| - 1], files) + Filter(OfLang(langs[|langs| - 1]), files)
  }

  function Names(languages: seq<Language>): (r: seq<string>)
    ensures |r| == |languages| && forall i :: 0 <= i < |r| ==> r[i] == languages[i].name
  {
    seq(|languages|, i requires 0 <= i < |languages| => languages[i].name)
  }

  function Size(): Language -> int {
    (l: Language) => l.size
  }

  function Ordered(languages: seq<Language>, files: seq<File>): seq<File> {
    var langs := Names(SortDown(Size(), languages));
    Buckets(langs, files) + Filter(OfNone(langs), files)
  }

  method SortFilesByMainLanguages(languages: seq<Language>, files: seq<File>) returns (ordered: seq<File>)
    ensures ordered == Ordered(languages, files)
  {
    var langList := Names(SortDown(Size(), languages));
    ordered := [];
    var i := 0;
    while i < |langList|
      invariant i <= |langList| && ordered == Buckets(langList[..i], files)
    {
      var bucket := Filter(OfLang(langList[i]), files);
      assert langList[..i + 1][..i] == langList[..i];
      ordered := ordered + bucket;
      i := i + 1;
    }
    assert langList[..i] == langList;
    ordered := ordered + Filter(OfNone(langList), files);
  }

  predicate Unique(s: seq<Language>) {
    forall i, j :: 0 <= i < j < |s| ==> s[i].name != s[j].name
  }

  lemma UniqueNames(s: seq<Language>)
    ensures Unique(s) <==> Distinct(Names(s))
  {
    if Distinct(Names(s)) {
      forall i, j | 0 <= i < j < |s| ensures s[i].name != s[j].name {
        assert Names(s)[i] != Names(s)[j];
      }
    }
  }

  /** No language of `s` is called `name`. */
  predicate Unnamed(s: seq<Language>, name: string) {
    forall i :: 0 <= i < |s| ==> s[i].name != name
  }

  lemma InsertKeepsUnique(x: Language, s: seq<Language>)
    requires Unique(s) && Unnamed(s, x.name)
    ensures Unique(Insert(Size(), x, s))
    ensures forall l :: l in Insert(Size(), x, s) <==> l == x || l in s
  {
    InsertAt(x, s, Place(Size(), x, s, 0));
  }

  lemma {:induction false} SortKeepsUnique(s: seq<Language>, n: nat)
    requires n <= |s| && Unique(s)
    ensures Unique(SortTo(Size(), s, n)) && forall l :: l in SortTo(Size(), s, n) <==> l in s[..n]
  {
    if n > 0 {
      SortKeepsUnique(s, n - 1);
      var sorted := SortTo(Size(), s, n - 1);
      forall i | 0 <= i < |sorted| ensures sorted[i].name != s[n - 1].name {
        assert sorted[i] in s[..n - 1];
        var j :| 0 <= j < n - 1 && s[..n - 1][j] == sorted[i];
        assert s[j].name != s[n - 1].name;
      }
      assert s[..n] == s[..n - 1] + [s[n - 1]];
      InsertKeepsUnique(s[n - 1], SortTo(Size(), s, n - 1));
    }
  }

  lemma SortKeepsDistinct(s: seq<Language>)
    requires Distinct(Names(s))
    ensures Distinct(Names(SortDown(Size(), s)))
  {
    UniqueNames(s);
    SortKeepsUnique(s, |s|);
    UniqueNames(SortDown(Size(), s));
  }

  lemma {:induction false} BucketsOfLang(langs: seq<string>, files: seq<File>, lang: string)
    requires Distinct(langs)
    ensures Filter(OfLang(lang), Buckets(langs, files)) == if lang in langs then Filter(OfLang(lang), files) else []
  {
    if langs != [] {
      var init, last := langs[..|langs| - 1], langs[|langs| - 1];
      BucketsOfLang(init, files, lang);
      FilterConcat(OfLang(lang), Buckets(init, files), Filter(OfLang(last), files));
      assert langs == init + [last];
      if lang == last {
        FilterWider(OfLang(lang), OfLang(last), files);
      } else {
        FilterDisjoint(OfLang(lang), OfLang(last), files);
      }
    }
  }

  /** Within each language, named or not, the files are the same ones in the same order. */
  lemma {:induction false} OrderedIsStable(languages: seq<Language>, files: seq<File>, lang: string)
    requires Distinct(Names(languages))
    ensures Filter(OfLang(lang), Ordered(languages, files)) == Filter(OfLang(lang), files)
  {
    var langs := Names(SortDown(Size(), languages));
    SortKeepsDistinct(languages);
    BucketsOfLang(langs, files, lang);
    FilterConcat(OfLang(lang), Buckets(langs, files), Filter(OfNone(langs), files));
    if lang in langs {
      FilterDisjoint(OfLang(lang), OfNone(langs), files);
    } else {
      FilterWider(OfLang(lang), OfNone(langs), files);
    }
  }

  /** The place of a language, the last place standing for all the others. */
  function Rank(langs: seq<string>, lang: string): (r: nat)
    ensures r <= |langs| && (r < |langs| ==> langs[r] == lang)
  {
    if langs == [] then 0
    else if lang in langs[..|langs| - 1] then Rank(langs[..|langs| - 1], lang)
    else if langs[|langs| - 1] == lang then |langs| - 1
    else |langs|
  }

  lemma {:induction false} RankIs(langs: seq<string>, i: nat)
    requires Distinct(langs) && i < |langs|
    ensures Rank(langs, langs[i]) == i
  {
    var init := langs[..|langs| - 1];
    if i < |init| {
      assert init[i] == langs[i];
      RankIs(init, i);
    }
  }

  predicate Grouped(langs: seq<string>, files: seq<File>) {
    forall i, j :: 0 <= i < j < |files| ==> Rank(langs, files[i].lang) <= Rank(langs, files[j].lang)
  }

  lemma {:induction false} BucketsAreGrouped(langs: seq<string>, n: nat, files: seq<File>)
    requires Distinct(langs) && n <= |langs|
    ensures Grouped(langs, Buckets(langs[..n], files))
    ensures forall f :: f in Buckets(langs[..n], files) ==> Rank(langs, f.lang) < n
  {
    if n > 0 {
      BucketsAreGrouped(langs, n - 1, files);
      assert langs[..n][..n - 1] == langs[..n - 1];
      RankIs(langs, n - 1);
      var a, b := Buckets(langs[..n - 1], files), Filter(OfLang(langs[n - 1]), files);
      FilterMembers(OfLang(langs[n - 1]), files);
      assert forall f :: f in b ==> Rank(langs, f.lang) == n - 1;
      GroupedConcat(langs, a, b, n - 1);
    }
  }

  lemma {:induction false} GroupedConcat(langs: seq<string>, a: seq<File>, b: seq<File>, n: nat)
    requires Grouped(langs, a) && (forall f :: f in a ==> Rank(langs, f.lang) <= n) && (forall f :: f in b ==> Rank(langs, f.lang) == n)
    ensures Grouped(langs, a + b)
  {
    forall i, j | 0 <= i < j < |a + b| ensures Rank(langs, (a + b)[i].lang) <= Rank(langs, (a + b)[j].lang) {
      assert (a + b)[j] == (if j < |a| then a[j] else b[j - |a|]);
      assert (a + b)[i] == (if i < |a| then a[i] else b[i - |a|]);
    }
  }

  /** The larger a language, the earlier its files; files of other languages come last. */
  lemma OrderedIsGrouped(languages: seq<Language>, files: seq<File>)
    requires Distinct(Names(languages))
    ensures Descending(Size(), SortDown(Size(), languages))
    ensures Grouped(Names(SortDown(Size(), languages)), Ordered(languages, files))
  {
    var langs := Names(SortDown(Size(), languages));
    SortIsStable(Size(), languages, 0);
    SortKeepsDistinct(languages);
    BucketsAreGrouped(langs, |langs|, files);
    assert langs[..|langs|] == langs;
    FilterMembers(OfNone(langs), files);
    GroupedConcat(langs, Buckets(langs, files), Filter(OfNone(langs), files), |langs|);
  }

  /** A heading put after the diff: its tokens as it stands, and clipped to the room there is. */
  datatype Heading = Heading(full: nat, cut: int -> nat)

  datatype PrDiff =
    | Whole(files: seq<File>, tokens: nat)
    | Compressed(files: seq<File>, outcome: Outcome, headings: seq<nat>)

  function ExtendedTo(files: seq<File>, n: nat): nat
    requires n <= |files|
  {
    if n == 0 then 0
    else ExtendedTo(files, n - 1) + if files[n - 1].extended.Some? then files[n - 1].extended.value else 0
  }

  function ShownTo(files: seq<File>, n: nat): seq<Entry>
    requires n <= |files|
  {
    if n == 0 then []
    else ShownTo(files, n - 1) + if files[n - 1].shown.Some? then [files[n - 1].shown.value] else []
  }

  /** The tokens a heading may take out of `room`; nothing is printed without room. */
  function Clip(h: Heading, room: int): (r: nat) {
    if room <= 0 then 0 else if h.full <= room then h.full else h.cut(room)
  }

  /** What the diff weighs with its headings, each set off by two more tokens. */
  function Weight(total: nat, headings: seq<nat>): nat {
    if headings == [] then total else Weight(total, headings[..|headings| - 1]) + headings[|headings| - 1] + 2
  }

  lemma {:induction false} OneHeadingMore(total: nat, headings: seq<nat>, last: nat)
    ensures Weight(total, headings + [last]) == Weight(total, headings) + last + 2
  {
    assert (headings + [last])[..|headings|] == headings;
  }

  function HeadingsTo(total: nat, limit: int, from: seq<Heading>, n: nat): seq<nat>
    requires n <= |from|
  {
    if n == 0 then []
    else
      var before := HeadingsTo(total, limit, from, n - 1);
      var room := limit - Weight(total, before);
      if room <= 0 then before else before + [Clip(from[n - 1], room)]
  }

  method AddHeadings(total: nat, limit: int, from: seq<Heading>) returns (headings: seq<nat>)
    ensures headings == HeadingsTo(total, limit, from, |from|)
  {
    headings := [];
    var currToken := total;
    var i := 0;
    while i < |from|
      invariant i <= |from| && currToken == Weight(total, headings)
      invariant headings == HeadingsTo(total, limit, from, i)
    {
      if limit - currToken > 0 {
        var clipped := Clip(from[i], limit - currToken);
        OneHeadingMore(total, headings, clipped);
        headings := headings + [clipped];
        currToken := currToken + clipped + 2;
      }
      i := i + 1;
    }
  }

  /** Each heading's turn: it is added if there is any room, whole if it fits and else cut to it. */
  lemma {:induction false} HeadingsTurn(total: nat, limit: int, from: seq<Heading>, n: nat)
    requires n < |from|
    ensures var before := HeadingsTo(total, limit, from, n);
            var room := limit - Weight(total, before);
            HeadingsTo(total, limit, from, n + 1) ==
            before + if room <= 0 then [] else [if from[n].full <= room then from[n].full else from[n].cut(room)]
  {
  }

  /** The first pass. */
  method CountExtended(files: seq<File>, promptTokens: nat) returns (totalTokens: nat)
    ensures totalTokens == promptTokens + ExtendedTo(files, |files|)
  {
    totalTokens := promptTokens;
    var i := 0;
    while i < |files|
      invariant i <= |files| && totalTokens == promptTokens + ExtendedTo(files, i)
    {
      if files[i].extended.Some? {
        totalTokens := totalTokens + files[i].extended.value;
      }
      i := i + 1;
    }
  }

  /** The files the second pass offers. */
  method CollectShown(files: seq<File>) returns (fileDict: seq<Entry>)
    ensures fileDict == ShownTo(files, |files|)
  {
    fileDict := [];
    var i := 0;
    while i < |files|
      invariant i <= |files| && fileDict == ShownTo(files, i)
    {
      if files[i].shown.Some? {
        fileDict := fileDict + [files[i].shown.value];
      }
      i := i + 1;
    }
  }

  /** getPrDiff: the whole extended diff if it fits, else what the budget takes of the converted files. */
  method GetPrDiff(files: seq<File>, languages: seq<Language>, promptTokens: nat, b: Budget, from: seq<Heading>)
    returns (r: PrDiff)
    ensures r == Diffed(Ordered(languages, files), promptTokens, b, from)
  {
    var sortedFiles := SortFilesByMainLanguages(languages, files);
    var totalTokens := CountExtended(sortedFiles, promptTokens);
    if totalTokens + b.soft < b.maxTokensModel {
      return Whole(sortedFiles, totalTokens);
    }
    var fileDict := CollectShown(sortedFiles);
    var outcome := GenerateFullPatch(fileDict, b, promptTokens);
    var headings := AddHeadings(outcome.total, b.maxTokensModel - b.hard, from);
    r := Compressed(sortedFiles, outcome, headings);
  }

  function Diffed(sorted: seq<File>, prompt: nat, b: Budget, from: seq<Heading>): PrDiff {
    var total := prompt + ExtendedTo(sorted, |sorted|);
    if total + b.soft < b.maxTokensModel then Whole(sorted, total)
    else
      var outcome := Offered(Outcome([], [], prompt), ShownTo(sorted, |sorted|), b);
      Compressed(sorted, outcome, HeadingsTo(outcome.total, b.maxTokensModel - b.hard, from, |from|))
  }

  /** Clipping leaves the heading no larger than its room, but for what it adds itself. */
  ghost predicate CutsWell(h: Heading, dots: nat) {
    forall room: int :: room > 0 ==> h.cut(room) <= room + dots
  }

  ghost predicate AllCutWell(from: seq<Heading>, n: nat, dots: nat)
    requires n <= |from|
  {
    n == 0 || (AllCutWell(from, n - 1, dots) && CutsWell(from[n - 1], dots))
  }

  /** Only one heading can pass the limit, by what clipping adds. */
  lemma {:induction false} HeadingsAreBounded(total: nat, limit: int, from: seq<Heading>, n: nat, dots: nat)
    requires n <= |from| && AllCutWell(from, n, dots)
    ensures Weight(total, HeadingsTo(total, limit, from, n)) <= Max(total, limit + dots + 2)
    ensures total >= limit ==> HeadingsTo(total, limit, from, n) == []
  {
    if n > 0 {
      HeadingsAreBounded(total, limit, from, n - 1, dots);
      var before := HeadingsTo(total, limit, from, n - 1);
      var room := limit - Weight(total, before);
      if room > 0 {
        ClipsWell(from[n - 1], room, dots);
        OneHeadingMore(total, before, Clip(from[n - 1], room));
      }
    }
  }

  lemma {:induction false} ClipsWell(h: Heading, room: int, dots: nat)
    requires room > 0 && CutsWell(h, dots)
    ensures Clip(h, room) <= room + dots
  {
  }

  /** A compressed diff passes the soft threshold by one frame or the hard limit by one clipped heading at most. */
  lemma {:induction false} CompressedIsBounded(shown: seq<Entry>, prompt: nat, b: Budget, from: seq<Heading>, frame: nat, dots: nat)
    requires 0 < b.soft < b.maxTokensModel && AllCutWell(from, |from|, dots) && FramedWell(shown, frame)
    ensures var total := Offered(Outcome([], [], prompt), shown, b).total;
            Weight(total, HeadingsTo(total, b.maxTokensModel - b.hard, from, |from|))
            <= Max(Max(prompt, b.maxTokensModel - b.soft + frame), b.maxTokensModel - b.hard + dots + 2)
  {
    TotalIsBounded(Outcome([], [], prompt), shown, b, prompt, frame);
    HeadingsAreBounded(Offered(Outcome([], [], prompt), shown, b).total, b.maxTokensModel - b.hard, from, |from|, dots);
  }

  /** The outcome of the budget loop: every file offered is in it or left over for want of room. */
  predicate KeepsAll(o: Outcome, shown: seq<Entry>, b: Budget) {
    && Interleaves(Entries(o.patches), o.remaining, shown)
    && forall i :: 0 <= i < |o.remaining| ==> NoRoom(o.total, o.remaining[i], b)
  }

  lemma {:induction false} CompressedKeepsAll(shown: seq<Entry>, prompt: nat, b: Budget, frame: nat)
    requires 0 < b.soft < b.maxTokensModel && FramedWell(shown, frame)
    ensures KeepsAll(Offered(Outcome([], [], prompt), shown, b), shown, b)
  {
    FullPatchKeepsTheBudget(shown, b, prompt, frame);
  }

  predicate AllFramedWell(files: seq<File>, n: nat, frame: nat)
    requires n <= |files|
  {
    n == 0
    || (AllFramedWell(files, n - 1, frame)
        && (files[n - 1].shown.Some? ==> files[n - 1].shown.value.framed <= files[n - 1].shown.value.tokens + frame))
  }

  lemma {:induction false} ShownAreFramedWell(files: seq<File>, n: nat, frame: nat)
    requires n <= |files| && AllFramedWell(files, n, frame)
    ensures FramedWell(ShownTo(files, n), frame)
  {
    if n > 0 {
      ShownAreFramedWell(files, n - 1, frame);
    }
  }

  /** What getPrDiff returns fits: the whole diff under the soft threshold with room to spare, a compressed one up to
      one frame and one heading. */
  lemma {:induction false} PrDiffFits(sorted: seq<File>, prompt: nat, b: Budget, from: seq<Heading>, frame: nat, dots: nat)
    requires 0 < b.soft < b.maxTokensModel && AllCutWell(from, |from|, dots) && AllFramedWell(sorted, |sorted|, frame)
    ensures var r := Diffed(sorted, prompt, b, from);
            if r.Whole? then r.tokens < b.maxTokensModel - b.soft
            else Weight(r.outcome.total, r.headings)
                 <= Max(Max(prompt, b.maxTokensModel - b.soft + frame), b.maxTokensModel - b.hard + dots + 2)
  {
    ShownAreFramedWell(sorted, |sorted|, frame);
    CompressedIsBounded(ShownTo(sorted, |sorted|), prompt, b, from, frame, dots);
  }

  /** And no file with something to show is lost between a compressed diff and the list of the rest, whose files had no
      room. */
  lemma {:induction false} PrDiffKeepsAll(sorted: seq<File>, prompt: nat, b: Budget, from: seq<Heading>, frame: nat)
    requires 0 < b.soft < b.maxTokensModel && AllFramedWell(sorted, |sorted|, frame)
    ensures var r := Diffed(sorted, prompt, b, from);
            r.Compressed? ==> KeepsAll(r.outcome, ShownTo(sorted, |sorted|), b)
  {
    ShownAreFramedWell(sorted, |sorted|, frame);
    CompressedKeepsAll(ShownTo(sorted, |sorted|), prompt, b, frame);
  }

  /** Offering some files and then more is offering them all. */
  lemma {:induction false} OfferedInTwo(o: Outcome, first: seq<Entry>, second: seq<Entry>, b: Budget)
    ensures Offered(o, first + second, b) == Offered(Offered(o, first, b), second, b)
    decreases |first|
  {
    if first == [] {
      assert first + second == second;
    } else {
      OfferedInTwo(Offer(o, first[0], b), first[1..], second, b);
      assert (first + second)[1..] == first[1..] + second;
    }
  }

  /** Each file's turn, whatever was offered before it: it is left over exactly if it has no room then; otherwise it is
      taken with its frame where that stays within the soft threshold, and as it stands where there is no such limit. */
  lemma {:induction false} EachTurn(prompt: nat, before: seq<Entry>, e: Entry, b: Budget)
    ensures var o, r := Offered(Outcome([], [], prompt), before, b), Offered(Outcome([], [], prompt), before + [e], b);
            if NoRoom(o.total, e, b) then r == o.(remaining := o.remaining + [e])
            else if o.total + e.tokens <= Max(b.maxTokensModel - b.soft, 0)
            then r == o.(patches := o.patches + [Framed(e)], total := o.total + e.framed)
            else r == o.(patches := o.patches + [Plain(e)], total := o.total + e.tokens)
  {
    OfferedInTwo(Outcome([], [], prompt), before, [e], b);
    assert [e][1..] == [];
  }

  /** What is counted and what is shown of a list of files is what is of its parts, in order, and what is of each file. */
  lemma {:induction false} FileByFile(a: seq<File>, f: File, n: nat)
    requires n <= |a|
    ensures ShownTo(a + [f], n) == ShownTo(a, n) && ExtendedTo(a + [f], n) == ExtendedTo(a, n)
    ensures n == |a| ==> ShownTo(a + [f], n + 1) == ShownTo(a, n) + if f.shown.Some? then [f.shown.value] else []
    ensures n == |a| ==> ExtendedTo(a + [f], n + 1) == ExtendedTo(a, n) + if f.extended.Some? then f.extended.value else 0
  {
    if n > 0 {
      FileByFile(a, f, n - 1);
    }
  }

  /** The whole diff is given exactly if it leaves the soft threshold free. */
  lemma {:induction false} WholeIff(sorted: seq<File>, prompt: nat, b: Budget, from: seq<Heading>)
    ensures Diffed(sorted, prompt, b, from).Whole? <==> prompt + ExtendedTo(sorted, |sorted|) < b.maxTokensModel - b.soft
    ensures Diffed(sorted, prompt, b, from).files == sorted
    ensures Diffed(sorted, prompt, b, from).Compressed? ==>
              Diffed(sorted, prompt, b, from).outcome == Offered(Outcome([], [], prompt), ShownTo(sorted, |sorted|), b)
  {
  }
}
