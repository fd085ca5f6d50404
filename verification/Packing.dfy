/** Packing a pull request's files into model calls. */
module Packing {
  import opened Basics
  import opened Text
  import opened Lists

  /** A converted file: its text and how many tokens that takes. */
  datatype Item = Item(name: string, patch: string, tokens: nat)

  function Sum(items: seq<Item>): nat {
    if items == [] then 0 else items[0].tokens + Sum(items[1..])
  }

  function Joined(chunks: seq<seq<Item>>): seq<Item> {
    if chunks == [] then [] else chunks[0] + Joined(chunks[1..])
  }

  /** A chunk one call can take: within the limit, or a single file. */
  predicate Fits(chunk: seq<Item>, limit: int) {
    chunk != [] && (Sum(chunk) <= limit || |chunk| == 1)
  }

  predicate AllFit(chunks: seq<seq<Item>>, limit: int) {
    forall i :: 0 <= i < |chunks| ==> Fits(chunks[i], limit)
  }

  lemma {:induction false} SumConcat(a: seq<Item>, b: seq<Item>)
    ensures Sum(a + b) == Sum(a) + Sum(b)
  {
    if a == [] {
      assert a + b == b;
    } else {
      SumConcat(a[1..], b);
      assert (a + b)[1..] == a[1..] + b;
    }
  }

  /** The tokens of a stretch of files. */
  function Weight(items: seq<Item>, from: nat, end: nat): nat
    requires from <= end <= |items|
    decreases end
  {
    if from == end then 0 else Weight(items, from, end - 1) + items[end - 1].tokens
  }

  lemma {:induction false} WeightIsSum(items: seq<Item>, from: nat, end: nat)
    requires from <= end <= |items|
    ensures Weight(items, from, end) == Sum(items[from..end])
    decreases end
  {
    if from < end {
      WeightIsSum(items, from, end - 1);
      SumConcat(items[from..end - 1], [items[end - 1]]);
      assert items[from..end] == items[from..end - 1] + [items[end - 1]];
      assert [items[end - 1]][1..] == [];
    }
  }

  lemma {:induction false} WeightSplit(items: seq<Item>, from: nat, mid: nat, end: nat)
    requires from <= mid <= end <= |items|
    ensures Weight(items, from, end) == Weight(items, from, mid) + Weight(items, mid, end)
    decreases end
  {
    if mid < end {
      WeightSplit(items, from, mid, end - 1);
    }
  }

  /** Where a chunk ends that has taken the files before `i`, weighing `sum`. */
  function End(items: seq<Item>, i: nat, sum: nat, limit: int): (e: nat)
    requires i <= |items|
    ensures i <= e <= |items|
    decreases |items| - i
  {
    if i == |items| || sum + items[i].tokens > limit then i else End(items, i + 1, sum + items[i].tokens, limit)
  }

  /** Where the chunk that begins at `i` ends. */
  function Next(items: seq<Item>, i: nat, limit: int): (e: nat)
    requires i < |items|
    ensures i < e <= |items|
  {
    End(items, i + 1, items[i].tokens, limit)
  }

  /** The files from `i` on, chunk after chunk, each as full as the limit allows. */
  function ChunksFrom(items: seq<Item>, i: nat, limit: int): seq<seq<Item>>
    requires i <= |items|
    decreases |items| - i
  {
    if i == |items| then []
    else [items[i..Next(items, i, limit)]] + ChunksFrom(items, Next(items, i, limit), limit)
  }

  function Chunks(items: seq<Item>, limit: int): seq<seq<Item>> {
    ChunksFrom(items, 0, limit)
  }

  function Upto<T>(s: seq<T>, n: int): seq<T> {
    if n <= 0 then [] else if n < |s| then s[..n] else s
  }

  /** The chunks still to come when the open one holds the files from `start` to `i`, and it among them. */
  function Ahead(items: seq<Item>, start: nat, i: nat, limit: int): seq<seq<Item>>
    requires start <= i <= |items|
  {
    if start == i then ChunksFrom(items, i, limit)
    else
      var e := End(items, i, Weight(items, start, i), limit);
      [items[start..e]] + ChunksFrom(items, e, limit)
  }

  lemma AheadPush(items: seq<Item>, start: nat, i: nat, limit: int)
    requires start <= i < |items| && (start == i || Weight(items, start, i) + items[i].tokens <= limit)
    ensures Ahead(items, start, i, limit) == Ahead(items, start, i + 1, limit)
  {
  }

  lemma {:induction false} AheadEnds(items: seq<Item>, start: nat, i: nat, limit: int)
    requires start < i <= |items| && (i == |items| || Weight(items, start, i) + items[i].tokens > limit)
    ensures Ahead(items, start, i, limit) == [items[start..i]] + Ahead(items, i, i, limit)
  {
  }

  /** The loop invariant: the chunks flushed, and as many of those to come as the calls allow. */
  ghost predicate Underway(chunks: seq<seq<Item>>, items: seq<Item>, start: nat, i: nat, limit: int, left: int,
                           whole: seq<seq<Item>>) {
    start <= i <= |items| && chunks + Upto(Ahead(items, start, i, limit), left) == whole
  }

  lemma {:induction false} Flushed(chunks: seq<seq<Item>>, items: seq<Item>, start: nat, i: nat, limit: int, left: int, whole: seq<seq<Item>>)
    requires Underway(chunks, items, start, i, limit, left, whole) && left > 0
    requires start < i && (i == |items| || Weight(items, start, i) + items[i].tokens > limit)
    ensures Underway(chunks + [items[start..i]], items, i, i, limit, left - 1, whole)
  {
    AheadEnds(items, start, i, limit);
    UptoCons(items[start..i], Ahead(items, i, i, limit), left);
    Assoc(chunks, [items[start..i]], Upto(Ahead(items, i, i, limit), left - 1));
  }

  lemma Pushed(chunks: seq<seq<Item>>, items: seq<Item>, start: nat, i: nat, limit: int, left: int, whole: seq<seq<Item>>)
    requires Underway(chunks, items, start, i, limit, left, whole) && i < |items|
    requires start == i || Weight(items, start, i) + items[i].tokens <= limit
    ensures Underway(chunks, items, start, i + 1, limit, left, whole)
  {
    AheadPush(items, start, i, limit);
  }

  /** The open chunk is a stretch of the files, and its token count their weight. */
  ghost predicate Holds(items: seq<Item>, start: nat, i: nat, current: seq<Item>, tokens: nat) {
    start <= i <= |items| && current == items[start..i] && tokens == Weight(items, start, i)
  }

  lemma HoldsMore(items: seq<Item>, start: nat, i: nat, current: seq<Item>, tokens: nat)
    requires i < |items| && Holds(items, start, i, current, tokens)
    ensures Holds(items, start, i + 1, current + [items[i]], tokens + items[i].tokens)
  {
  }

  lemma HoldsNothing(items: seq<Item>, i: nat)
    requires i <= |items|
    ensures Holds(items, i, i, [], 0)
  {
  }

  lemma UptoCons<T>(x: T, s: seq<T>, n: int)
    requires n > 0
    ensures Upto([x] + s, n) == [x] + Upto(s, n - 1)
  {
  }

  lemma Ended(chunks: seq<seq<Item>>, items: seq<Item>, i: nat, limit: int, left: int, whole: seq<seq<Item>>)
    requires Underway(chunks, items, i, i, limit, left, whole) && (left <= 0 || i == |items|)
    ensures chunks == whole
  {
    assert chunks + [] == chunks;
  }

  /** The closure that closes the open chunk, if there is one. */
  method Flush(chunks: seq<seq<Item>>, curChunk: seq<Item>, ghost items: seq<Item>, ghost start: nat, ghost i: nat,
               ghost limit: int, ghost left: int, ghost whole: seq<seq<Item>>)
    returns (flushed: seq<seq<Item>>)
    requires Underway(chunks, items, start, i, limit, left, whole) && curChunk == items[start..i]
    requires start < i ==> left > 0 && (i == |items| || Weight(items, start, i) + items[i].tokens > limit)
    ensures Underway(flushed, items, i, i, limit, if start < i then left - 1 else left, whole)
  {
    if |curChunk| == 0 {
      return chunks;
    }
    Flushed(chunks, items, start, i, limit, left, whole);
    flushed := chunks + [curChunk];
  }

  /** Puts a file into the open chunk, which has room for it or is empty. */
  method PushFile(ghost chunks: seq<seq<Item>>, curChunk0: seq<Item>, curChunkTokens0: nat, data: Item, ghost items: seq<Item>,
                  ghost start: nat, ghost i: nat, ghost limit: int, ghost left: int, ghost whole: seq<seq<Item>>)
    returns (curChunk: seq<Item>, curChunkTokens: nat)
    requires i < |items| && data == items[i] && Holds(items, start, i, curChunk0, curChunkTokens0)
    requires Underway(chunks, items, start, i, limit, left, whole)
    requires curChunkTokens0 + data.tokens <= limit || |curChunk0| == 0
    ensures Holds(items, start, i + 1, curChunk, curChunkTokens) && Underway(chunks, items, start, i + 1, limit, left, whole)
  {
    Pushed(chunks, items, start, i, limit, left, whole);
    HoldsMore(items, start, i, curChunk0, curChunkTokens0);
    curChunk, curChunkTokens := curChunk0 + [data], curChunkTokens0 + data.tokens;
  }

  /** One file's turn: the open chunk is flushed when the file would overflow it, and the loop stops when that was the last
      call. */
  method TakeFile(chunks0: seq<seq<Item>>, curChunk0: seq<Item>, curChunkTokens0: nat, callNumber0: int, maxCalls: int, limit: int,
                  items: seq<Item>, i: nat, ghost start0: nat, ghost whole: seq<seq<Item>>)
    returns (chunks: seq<seq<Item>>, curChunk: seq<Item>, curChunkTokens: nat, callNumber: int, stop: bool, ghost start: nat)
    requires i < |items| && callNumber0 <= maxCalls && Holds(items, start0, i, curChunk0, curChunkTokens0)
    requires Underway(chunks0, items, start0, i, limit, maxCalls - callNumber0 + 1, whole)
    ensures !stop ==> callNumber <= maxCalls && Holds(items, start, i + 1, curChunk, curChunkTokens)
                      && Underway(chunks, items, start, i + 1, limit, maxCalls - callNumber + 1, whole)
    ensures stop ==> curChunk == [] && Underway(chunks, items, i, i, limit, 0, whole)
  {
    chunks, curChunk, curChunkTokens, callNumber, stop, start := chunks0, curChunk0, curChunkTokens0, callNumber0, false, start0;
    if curChunkTokens + items[i].tokens > limit && |curChunk| > 0 {
      chunks := Flush(chunks, curChunk, items, start, i, limit, maxCalls - callNumber + 1, whole);
      curChunk, curChunkTokens, start := [], 0, i;
      callNumber := callNumber + 1;
      HoldsNothing(items, i);
      if callNumber > maxCalls {
        stop := true;
        return;
      }
    }
    curChunk, curChunkTokens :=
      PushFile(chunks, curChunk, curChunkTokens, items[i], items, start, i, limit, maxCalls - callNumber + 1, whole);
  }

  /** The chunked path: in the given order, at most `maxCalls` chunks. */
  method Pack(items: seq<Item>, limit: int, maxCalls: int) returns (chunks: seq<seq<Item>>)
    ensures chunks == Upto(Chunks(items, limit), maxCalls)
  {
    chunks := [];
    var callNumber := 1;
    var curChunk: seq<Item> := [];
    var curChunkTokens: nat := 0;
    if callNumber > maxCalls {
      return;
    }
    var i := 0;
    var stop := false;
    ghost var start: nat := 0;
    ghost var whole := Upto(Chunks(items, limit), maxCalls);
    Starts(items, limit, maxCalls);
    while i < |items| && !stop
      invariant i <= |items| && (if stop then curChunk == [] && Underway(chunks, items, i, i, limit, 0, whole)
                                 else callNumber <= maxCalls && Holds(items, start, i, curChunk, curChunkTokens)
                                      && Underway(chunks, items, start, i, limit, maxCalls - callNumber + 1, whole))
      decreases |items| - i, if stop then 0 else 1
    {
      chunks, curChunk, curChunkTokens, callNumber, stop, start :=
        TakeFile(chunks, curChunk, curChunkTokens, callNumber, maxCalls, limit, items, i, start, whole);
      if !stop {
        i := i + 1;
      }
    }
    if stop {
      Ended(chunks, items, i, limit, 0, whole);
    } else {
      chunks := Flush(chunks, curChunk, items, start, i, limit, maxCalls - callNumber + 1, whole);
      Ended(chunks, items, i, limit, if start < i then maxCalls - callNumber else maxCalls - callNumber + 1, whole);
    }
  }

  lemma Starts(items: seq<Item>, limit: int, left: int)
    ensures Underway([], items, 0, 0, limit, left, Upto(Chunks(items, limit), left)) && Holds(items, 0, 0, [], 0)
  {
    assert [] + Upto(Chunks(items, limit), left) == Upto(Chunks(items, limit), left);
  }

  lemma {:induction false} EndFits(items: seq<Item>, start: nat, i: nat, limit: int)
    requires start < i <= |items|
    ensures var e := End(items, i, Weight(items, start, i), limit);
            && (e > i ==> Weight(items, start, e) <= limit)
            && (e < |items| ==> Weight(items, start, e) + items[e].tokens > limit)
    decreases |items| - i
  {
    if i < |items| && Weight(items, start, i) + items[i].tokens <= limit {
      EndFits(items, start, i + 1, limit);
    }
  }

  /** A chunk fits, and the file after it would not. */
  lemma {:induction false} NextFits(items: seq<Item>, i: nat, limit: int)
    requires i < |items|
    ensures var e := Next(items, i, limit);
            Fits(items[i..e], limit) && (e < |items| ==> Weight(items, i, e) + items[e].tokens > limit)
  {
    EndFits(items, i, i + 1, limit);
    WeightIsSum(items, i, Next(items, i, limit));
  }

  lemma {:induction false} ConsChunk(chunk: seq<Item>, rest: seq<seq<Item>>, limit: int)
    ensures Joined([chunk] + rest) == chunk + Joined(rest)
    ensures Fits(chunk, limit) && AllFit(rest, limit) ==> AllFit([chunk] + rest, limit)
  {
    assert ([chunk] + rest)[1..] == rest;
  }

  /** Chunks are the files themselves, in order, nothing lost and nothing twice, and each fits. */
  lemma {:induction false} ChunksPartition(items: seq<Item>, i: nat, limit: int)
    requires i <= |items|
    ensures Joined(ChunksFrom(items, i, limit)) == items[i..] && AllFit(ChunksFrom(items, i, limit), limit)
    decreases |items| - i
  {
    if i < |items| {
      var e := Next(items, i, limit);
      NextFits(items, i, limit);
      ChunksPartition(items, e, limit);
      ConsChunk(items[i..e], ChunksFrom(items, e, limit), limit);
      assert items[i..] == items[i..e] + items[e..];
    }
  }

  lemma {:induction false} JoinedConcat(a: seq<seq<Item>>, b: seq<seq<Item>>)
    ensures Joined(a + b) == Joined(a) + Joined(b)
  {
    if a == [] {
      assert a + b == b;
    } else {
      JoinedConcat(a[1..], b);
      assert (a + b)[1..] == a[1..] + b;
      Assoc(a[0], Joined(a[1..]), Joined(b));
    }
  }

  /** What is packed is the files from the first on, chunk by chunk; the rest is what the further chunks would hold. */
  lemma PackedIsPrefix(items: seq<Item>, limit: int, maxCalls: nat)
    ensures var chunks := Upto(Chunks(items, limit), maxCalls);
            && |chunks| <= maxCalls && AllFit(chunks, limit) && Joined(chunks) <= items
            && (Joined(chunks) == items <==> |Chunks(items, limit)| <= maxCalls)
  {
    var all := Chunks(items, limit);
    ChunksPartition(items, 0, limit);
    assert items[0..] == items;
    if maxCalls < |all| {
      assert all == all[..maxCalls] + all[maxCalls..];
      JoinedConcat(all[..maxCalls], all[maxCalls..]);
      assert Fits(all[maxCalls], limit);
      assert Joined(all[maxCalls..]) != [];
    }
  }

  /** A chunk that has room for the files up to `to` takes them all. */
  lemma {:induction false} EndIsFar(items: seq<Item>, start: nat, i: nat, to: nat, limit: int)
    requires start < i <= to <= |items| && Weight(items, start, to) <= limit
    ensures to <= End(items, i, Weight(items, start, i), limit)
    decreases |items| - i
  {
    if i < to {
      WeightSplit(items, start, i + 1, to);
      EndIsFar(items, start, i + 1, to, limit);
    }
  }

  /** Starting later never ends earlier: a chunk that fits and ends at `to`, wherever it begins, ends no later than
      the full chunk that starts at or after its beginning. */
  lemma StaysAhead(items: seq<Item>, from: nat, start: nat, to: nat, limit: int)
    requires from <= start < |items| && from < to <= |items| && Fits(items[from..to], limit)
    ensures to <= Next(items, start, limit)
  {
    if to > start + 1 {
      WeightIsSum(items, from, to);
      WeightSplit(items, from, start, to);
      EndIsFar(items, start, start + 1, to, limit);
    }
  }

  /** No packing of the same files in the same order uses fewer chunks, from any point it is not ahead of. */
  lemma {:induction false} FewestFrom(items: seq<Item>, other: seq<seq<Item>>, from: nat, start: nat, limit: int)
    requires from <= start <= |items| && Joined(other) == items[from..] && AllFit(other, limit)
    ensures |ChunksFrom(items, start, limit)| <= |other|
    decreases |other|
  {
    if start < |items| {
      assert other != [];
      var to := from + |other[0]|;
      assert Fits(other[0], limit);
      FirstOf(items, other, from);
      StaysAhead(items, from, start, to, limit);
      FewestFrom(items, other[1..], to, Next(items, start, limit), limit);
    }
  }

  lemma {:induction false} FirstOf(items: seq<Item>, other: seq<seq<Item>>, from: nat)
    requires from <= |items| && other != [] && Joined(other) == items[from..]
    ensures from + |other[0]| <= |items| && other[0] == items[from..from + |other[0]|]
    ensures Joined(other[1..]) == items[from + |other[0]|..]
  {
    var n := |other[0]|;
    assert items[from..] == other[0] + Joined(other[1..]);
    assert items[from..][..n] == other[0] && items[from..][n..] == Joined(other[1..]);
  }

  /** A file is left out exactly when no packing in this order fits all of them into the allowed calls. */
  lemma LeftOutIff(items: seq<Item>, limit: int, maxCalls: nat)
    ensures Joined(Upto(Chunks(items, limit), maxCalls)) != items <==>
            !exists other :: |other| <= maxCalls && Joined(other) == items && AllFit(other, limit)
  {
    PackedIsPrefix(items, limit, maxCalls);
    ChunksPartition(items, 0, limit);
    assert items[0..] == items;
    forall other | Joined(other) == items && AllFit(other, limit) ensures |Chunks(items, limit)| <= |other| {
      FewestFrom(items, other, 0, 0, limit);
    }
  }

  lemma {:induction false} PairsOverflow(items: seq<Item>, i: nat, limit: int, n: nat)
    requires i <= |items| && 1 <= n < |ChunksFrom(items, i, limit)|
    ensures Weight(items, i, |items|) > ((n + 1) / 2) * limit
    decreases n
  {
    var a := Next(items, i, limit);
    var b := Next(items, a, limit);
    NextFits(items, i, limit);
    WeightSplit(items, i, a, |items|);
    WeightSplit(items, a, b, |items|);
    WeightSplit(items, a, a + 1, b);
    if n >= 3 {
      PairsOverflow(items, b, limit, n - 2);
      Half(n, limit);
    } else {
      assert (n + 1) / 2 == 1;
    }
  }

  lemma Half(n: nat, limit: int)
    requires n >= 2
    ensures ((n + 1) / 2) * limit == ((n - 2 + 1) / 2) * limit + limit
  {
    assert (n + 1) / 2 == (n - 2 + 1) / 2 + 1;
  }

  /** And then the files are too much for half the calls even when filled to the brim. */
  lemma {:induction false} LeftOutOnlyWhenLarge(items: seq<Item>, limit: int, maxCalls: nat)
    requires maxCalls >= 1 && Joined(Upto(Chunks(items, limit), maxCalls)) != items
    ensures Sum(items) > ((maxCalls + 1) / 2) * limit
  {
    PackedIsPrefix(items, limit, maxCalls);
    PairsOverflow(items, 0, limit, maxCalls);
    WeightIsSum(items, 0, |items|);
    assert items[0..|items|] == items;
  }

  /** A file of the pull request with a patch: its tokens in the extended diff, and its converted form unless it was
      deleted, has nothing to show, or is generated. */
  datatype Source = Source(extended: nat, shown: Option<Item>)

  function Shown(files: seq<Source>): seq<Item> {
    if files == [] then []
    else (if files[0].shown.Some? then [files[0].shown.value] else []) + Shown(files[1..])
  }

  function Extended(files: seq<Source>): nat {
    if files == [] then 0 else files[0].extended + Extended(files[1..])
  }

  function Tokens(): Item -> int {
    (item: Item) => item.tokens
  }

  method CountExtended(files: seq<Source>, promptTokens: nat) returns (totalTokens: nat)
    ensures totalTokens == promptTokens + Extended(files)
  {
    totalTokens := promptTokens;
    var i := 0;
    while i < |files|
      invariant i <= |files| && totalTokens + Extended(files[i..]) == promptTokens + Extended(files)
    {
      Step([], files, i);
      totalTokens := totalTokens + files[i].extended;
      i := i + 1;
    }
  }

  method CollectShown(files: seq<Source>) returns (fileDict: seq<Item>)
    ensures fileDict == Shown(files)
  {
    fileDict := [];
    var i := 0;
    while i < |files|
      invariant i <= |files| && fileDict + Shown(files[i..]) == Shown(files)
    {
      Step(fileDict, files, i);
      if files[i].shown.Some? {
        fileDict := fileDict + [files[i].shown.value];
      }
      i := i + 1;
    }
    assert fileDict + [] == fileDict;
  }

  /** getPrMultiDiffs; None stands for the single extended diff. */
  method GetPrMultiDiffs(files: seq<Source>, promptTokens: nat, maxTokensModel: int, soft: int, maxCalls: int)
    returns (r: Option<seq<seq<Item>>>)
    ensures var sorted := SortDown(Tokens(), Shown(files));
            var chunks := Upto(Chunks(sorted, maxTokensModel - soft), maxCalls);
            r == if promptTokens + Extended(files) + soft < maxTokensModel || chunks == [] then None else Some(chunks)
  {
    var totalTokens := CountExtended(files, promptTokens);
    if totalTokens + soft < maxTokensModel {
      return None;
    }
    var fileDict := CollectShown(files);
    fileDict := SortDown(Tokens(), fileDict);
    var chunks := Pack(fileDict, maxTokensModel - soft, maxCalls);
    r := if |chunks| > 0 then Some(chunks) else None;
  }

  lemma Step(done: seq<Item>, files: seq<Source>, i: nat)
    requires i < |files|
    ensures Extended(files[i..]) == files[i].extended + Extended(files[i + 1..])
    ensures done + Shown(files[i..]) ==
            (if files[i].shown.Some? then done + [files[i].shown.value] else done) + Shown(files[i + 1..])
  {
    assert files[i..][1..] == files[i + 1..];
    if files[i].shown.Some? {
      Assoc(done, [files[i].shown.value], Shown(files[i + 1..]));
    }
  }

  /** What is counted and what is shown of a list of files is what is of its parts, in order, and what is of each file. */
  lemma {:induction false} FileByFile(a: seq<Source>, f: Source, b: seq<Source>)
    ensures Shown(a + [f] + b) == Shown(a) + (if f.shown.Some? then [f.shown.value] else []) + Shown(b)
    ensures Extended(a + [f] + b) == Extended(a) + f.extended + Extended(b)
  {
    if a == [] {
      assert a + [f] + b == [f] + b && ([f] + b)[1..] == b;
    } else {
      FileByFile(a[1..], f, b);
      assert (a + [f] + b)[1..] == a[1..] + [f] + b;
      Regrouped(if a[0].shown.Some? then [a[0].shown.value] else [], Shown(a[1..]), if f.shown.Some? then [f.shown.value] else [], Shown(b));
    }
  }

  lemma {:induction false} Regrouped<T>(a: seq<T>, b: seq<T>, c: seq<T>, d: seq<T>)
    ensures a + (b + c + d) == a + b + c + d
  {
  }

  /** The same items, larger ones first and equal ones in the order they came. */
  ghost predicate LargestFirst(sorted: seq<Item>, items: seq<Item>) {
    && (forall i, j :: 0 <= i < j < |sorted| ==> sorted[i].tokens >= sorted[j].tokens)
    && (forall t :: WithKey(Tokens(), t, sorted) == WithKey(Tokens(), t, items))
  }

  /** Chunks of the items in order, as many as may be, each within the limit or a single item, and all of the items if any
      packing in this order can take them all. */
  ghost predicate PackedWell(chunks: seq<seq<Item>>, items: seq<Item>, limit: int, maxCalls: nat) {
    && |chunks| <= maxCalls && AllFit(chunks, limit) && Joined(chunks) <= items
    && (Joined(chunks) == items <==> Packable(items, limit, maxCalls))
  }

  /** What getPrMultiDiffs comes to: nothing is packed if the whole diff fits, if nothing is shown, or without a call;
      otherwise the files shown, largest first, as many of them as the calls take. */
  method PacksLargestFirst(files: seq<Source>, promptTokens: nat, maxTokensModel: int, soft: int, maxCalls: nat)
    returns (r: Option<seq<seq<Item>>>, sorted: seq<Item>)
    ensures LargestFirst(sorted, Shown(files))
    ensures r.None? <==> promptTokens + Extended(files) + soft < maxTokensModel || Shown(files) == [] || maxCalls == 0
    ensures r.Some? ==> PackedWell(r.value, sorted, maxTokensModel - soft, maxCalls)
  {
    r := GetPrMultiDiffs(files, promptTokens, maxTokensModel, soft, maxCalls);
    sorted := SortDown(Tokens(), Shown(files));
    Comes(Shown(files), sorted, promptTokens + Extended(files) + soft < maxTokensModel, maxTokensModel - soft, maxCalls, r);
  }

  lemma {:induction false} Comes(shown: seq<Item>, sorted: seq<Item>, fits: bool, limit: int, maxCalls: nat, r: Option<seq<seq<Item>>>)
    requires sorted == SortDown(Tokens(), shown)
    requires r == if fits || Upto(Chunks(sorted, limit), maxCalls) == [] then None else Some(Upto(Chunks(sorted, limit), maxCalls))
    ensures LargestFirst(sorted, shown) && (r.None? <==> fits || shown == [] || maxCalls == 0)
    ensures r.Some? ==> PackedWell(r.value, sorted, limit, maxCalls)
  {
    var same := SortedItems(shown);
    PackedFacts(sorted, limit, maxCalls);
  }

  lemma {:induction false} SortedItems(items: seq<Item>) returns (sorted: seq<Item>)
    ensures sorted == SortDown(Tokens(), items) && LargestFirst(sorted, items) && |sorted| == |items|
  {
    sorted := SortDown(Tokens(), items);
    Sorted(items);
  }

  /** Some packing in this order takes all files in the calls there are. */
  ghost predicate Packable(items: seq<Item>, limit: int, maxCalls: nat) {
    exists other :: |other| <= maxCalls && Joined(other) == items && AllFit(other, limit)
  }

  lemma {:induction false} PackedFacts(items: seq<Item>, limit: int, maxCalls: nat)
    ensures PackedWell(Upto(Chunks(items, limit), maxCalls), items, limit, maxCalls)
    ensures Upto(Chunks(items, limit), maxCalls) == [] <==> items == [] || maxCalls == 0
  {
    PackedIsPrefix(items, limit, maxCalls);
    LeftOutIff(items, limit, maxCalls);
  }

  lemma {:induction false} Sorted(items: seq<Item>)
    ensures var sorted := SortDown(Tokens(), items);
            && (forall i, j :: 0 <= i < j < |sorted| ==> sorted[i].tokens >= sorted[j].tokens)
            && (forall x :: x in sorted <==> x in items)
            && forall t :: WithKey(Tokens(), t, sorted) == WithKey(Tokens(), t, items)
  {
    var sorted := SortDown(Tokens(), items);
    SortIsStable(Tokens(), items, 0);
    forall i, j | 0 <= i < j < |sorted| ensures sorted[i].tokens >= sorted[j].tokens {
      assert Tokens()(sorted[i]) >= Tokens()(sorted[j]);
    }
    forall t ensures WithKey(Tokens(), t, sorted) == WithKey(Tokens(), t, items) {
      SortIsStable(Tokens(), items, t);
    }
  }
}
