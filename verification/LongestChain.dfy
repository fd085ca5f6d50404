/** The longest chain of a diagram: a backtracking search over its edges. */
module LongestChains {
  import opened Basics
  import opened Text

  datatype Edge = Edge(source: string, target: string)

  /** The names every JavaScript object inherits. Looking one up in the adjacency record finds the inherited value,
      which is neither undefined nor an array: pushing to it, or iterating over it, throws a TypeError. */
  const INHERITED: set<string> :=
    {"constructor", "__defineGetter__", "__defineSetter__", "hasOwnProperty", "__lookupGetter__", "__lookupSetter__",
     "isPrototypeOf", "propertyIsEnumerable", "toString", "valueOf", "__proto__", "toLocaleString"}

  function Nodes(edges: seq<Edge>): set<string> {
    (set e | e in edges :: e.source) + (set e | e in edges :: e.target)
  }

  predicate Linked(edges: seq<Edge>, p: seq<string>) {
    forall i :: 0 <= i < |p| - 1 ==> Edge(p[i], p[i + 1]) in edges
  }

  /** A path of the graph that visits no node twice. */
  predicate Simple(edges: seq<Edge>, p: seq<string>) {
    if |p| == 0 then false
    else if |p| == 1 then p[0] in Nodes(edges)
    else
      var stem, last := p[..|p| - 1], p[|p| - 1];
      Simple(edges, stem) && last !in stem && Edge(p[|p| - 2], last) in edges
  }

  /** The same, without the recursion. */
  lemma {:induction false} SimpleMeans(edges: seq<Edge>, p: seq<string>)
    ensures Simple(edges, p) <==> p != [] && p[0] in Nodes(edges) && Distinct(p) && Linked(edges, p)
  {
    if |p| > 1 {
      var stem, last := p[..|p| - 1], p[|p| - 1];
      SimpleMeans(edges, stem);
      assert p == stem + [last];
      assert Distinct(p) <==> Distinct(stem) && last !in stem by {
        assert forall i :: 0 <= i < |stem| ==> stem[i] == p[i];
      }
      assert Linked(edges, p) <==> Linked(edges, stem) && Edge(p[|p| - 2], last) in edges by {
        assert forall i :: 0 <= i < |stem| ==> stem[i] == p[i];
      }
    }
  }

  lemma {:induction false} PrefixIsSimple(edges: seq<Edge>, p: seq<string>, k: nat)
    requires Simple(edges, p) && 1 <= k <= |p|
    ensures Simple(edges, p[..k])
  {
    if k < |p| {
      PrefixIsSimple(edges, p[..|p| - 1], k);
      assert p[..|p| - 1][..k] == p[..k];
    } else {
      assert p[..k] == p;
    }
  }

  /** `best` is the number of nodes on a longest simple path. */
  ghost predicate IsLongest(edges: seq<Edge>, best: nat) {
    && (forall p :: Simple(edges, p) ==> |p| <= best)
    && (if edges == [] then best == 0 else Attained(edges, best))
  }

  ghost predicate Throws(edges: seq<Edge>, inherited: set<string>) {
    exists n :: n in Nodes(edges) && n in inherited
  }

  function Listed(adj: map<string, seq<string>>, n: string): seq<string> {
    if n in adj then adj[n] else []
  }

  /** The adjacency record: to each source its targets, in the order of the edges. */
  function Adjacent(edges: seq<Edge>): map<string, seq<string>> {
    if edges == [] then map[]
    else
      var before, e := Adjacent(edges[..|edges| - 1]), edges[|edges| - 1];
      before[e.source := Listed(before, e.source) + [e.target]]
  }

  lemma {:induction false} AdjacentMeans(edges: seq<Edge>)
    ensures forall a, b :: Edge(a, b) in edges <==> b in Listed(Adjacent(edges), a)
    ensures forall a :: a in Adjacent(edges) ==> Adjacent(edges)[a] != []
  {
    if edges != [] {
      var init, e := edges[..|edges| - 1], edges[|edges| - 1];
      AdjacentMeans(init);
      assert edges == init + [e];
      forall a, b ensures Edge(a, b) in edges <==> b in Listed(Adjacent(edges), a) {
        assert Edge(a, b) in edges <==> Edge(a, b) in init || Edge(a, b) == e;
      }
    }
  }

  /** Paths that begin with `stem`. */
  ghost predicate Grows(edges: seq<Edge>, stem: seq<string>, p: seq<string>) {
    stem <= p && Simple(edges, p)
  }

  ghost predicate Within(edges: seq<Edge>, stem: seq<string>, best: nat) {
    forall p :: Grows(edges, stem, p) ==> |p| <= best
  }

  ghost predicate Reached(edges: seq<Edge>, stem: seq<string>, best: nat) {
    exists p :: Grows(edges, stem, p) && |p| == best
  }

  /** As Within, for the paths that go on to one of `next`. */
  ghost predicate WithinVia(edges: seq<Edge>, stem: seq<string>, next: seq<string>, best: nat) {
    forall p :: Grows(edges, stem, p) && |p| > |stem| && p[|stem|] in next ==> |p| <= best
  }

  /** What a completed visit to the last node of `path` has achieved. */
  ghost predicate Done(edges: seq<Edge>, inherited: set<string>, path: seq<string>, best0: nat, best: nat) {
    && path != [] && best >= best0 && Within(edges, path, best) && (best == best0 || Reached(edges, path, best))
    && path[|path| - 1] !in inherited
    && forall m | Edge(path[|path| - 1], m) in edges && m !in path :: m !in inherited
  }

  /** The same after only some of its neighbours. */
  ghost predicate Going(edges: seq<Edge>, inherited: set<string>, path: seq<string>, next: seq<string>, best0: nat, best: nat) {
    && path != [] && best >= best0 && best >= |path| && path[|path| - 1] !in inherited
    && WithinVia(edges, path, next, best) && (best == best0 || Reached(edges, path, best))
    && forall m | m in next && m !in path :: m !in inherited
  }

  lemma ViaStep(edges: seq<Edge>, stem: seq<string>, next: seq<string>, i: nat, best: nat, before: nat)
    requires stem != [] && i < |next| && WithinVia(edges, stem, next[..i], before) && before <= best
    requires next[i] !in stem ==> Within(edges, stem + [next[i]], best)
    ensures WithinVia(edges, stem, next[..i + 1], best)
  {
    assert next[..i + 1] == next[..i] + [next[i]];
    forall p | Grows(edges, stem, p) && |p| > |stem| && p[|stem|] in next[..i + 1] ensures |p| <= best {
      NextNode(edges, stem, p);
    }
  }

  lemma ViaEnd(edges: seq<Edge>, stem: seq<string>, next: seq<string>, best: nat)
    requires stem != [] && WithinVia(edges, stem, next, best) && |stem| <= best
    requires forall m :: Edge(stem[|stem| - 1], m) in edges ==> m in next
    ensures Within(edges, stem, best)
  {
    forall p | Grows(edges, stem, p) ensures |p| <= best {
      if |p| > |stem| {
        NextNode(edges, stem, p);
      }
    }
  }

  lemma GoingOn(edges: seq<Edge>, inherited: set<string>, path: seq<string>, next: seq<string>, i: nat,
                best0: nat, before: nat, best: nat)
    requires i < |next| && Going(edges, inherited, path, next[..i], best0, before)
    requires if next[i] in path then best == before else Done(edges, inherited, path + [next[i]], before, best)
    ensures Going(edges, inherited, path, next[..i + 1], best0, best)
  {
    ViaStep(edges, path, next, i, best, before);
    assert next[..i + 1] == next[..i] + [next[i]];
    if best != before {
      var p :| Grows(edges, path + [next[i]], p) && |p| == best;
      assert Grows(edges, path, p);
    }
  }

  /** A longer path goes on from its stem along an edge, to a node that is not on the stem. */
  lemma NextNode(edges: seq<Edge>, stem: seq<string>, p: seq<string>)
    requires stem != [] && Grows(edges, stem, p) && |p| > |stem|
    ensures Edge(stem[|stem| - 1], p[|stem|]) in edges && p[|stem|] !in stem && Grows(edges, stem + [p[|stem|]], p)
  {
    PrefixIsSimple(edges, p, |stem| + 1);
    assert stem + [p[|stem|]] == p[..|stem| + 1];
    assert p[..|stem| + 1][..|stem|] == stem;
  }

  ghost predicate Attained(edges: seq<Edge>, best: nat) {
    exists p :: Simple(edges, p) && |p| == best
  }

  /** The sources already searched from. */
  ghost predicate Covered(edges: seq<Edge>, inherited: set<string>, done: set<string>, best: nat) {
    && (forall p :: Simple(edges, p) && p[0] in done ==> |p| <= best)
    && (forall a, b :: a in done && Edge(a, b) in edges ==> b !in inherited)
  }

  ghost predicate Tracks(visited: set<string>, stem: seq<string>) {
    forall m :: m in visited <==> m in stem
  }

  /** The search stands at `n`, having walked `stem`. */
  ghost predicate Standing(edges: seq<Edge>, visited: set<string>, stem: seq<string>, n: string) {
    Simple(edges, stem + [n]) && Tracks(visited, stem)
  }

  lemma StandingFacts(edges: seq<Edge>, visited: set<string>, stem: seq<string>, n: string)
    requires Standing(edges, visited, stem, n)
    ensures n !in visited && n in Nodes(edges) && Tracks(visited + {n}, stem + [n])
    ensures visited + {n} - {n} == visited
    ensures |Nodes(edges) - (visited + {n})| < |Nodes(edges) - visited|
  {
    assert (stem + [n])[..|stem|] == stem;
    if stem != [] {
      var e := Edge(stem[|stem| - 1], n);
      assert e in edges && e.target == n;
    }
    assert Nodes(edges) - visited == (Nodes(edges) - (visited + {n})) + {n};
  }

  lemma StandingNext(edges: seq<Edge>, visited: set<string>, stem: seq<string>, n: string, next: string)
    requires Standing(edges, visited, stem, n) && Edge(n, next) in edges && next !in visited + {n}
    ensures Standing(edges, visited + {n}, stem + [n], next)
  {
    StandingFacts(edges, visited, stem, n);
    assert (stem + [n] + [next])[..|stem| + 1] == stem + [n];
  }

  lemma GoingStarts(edges: seq<Edge>, inherited: set<string>, visited: set<string>, stem: seq<string>, n: string,
                    next: seq<string>, best0: nat, best: nat)
    requires Standing(edges, visited, stem, n) && n !in inherited
    requires best == if best0 < |stem| + 1 then |stem| + 1 else best0
    ensures Going(edges, inherited, stem + [n], next[..0], best0, best)
  {
    assert Grows(edges, stem + [n], stem + [n]);
  }

  lemma GoingEnds(edges: seq<Edge>, inherited: set<string>, stem: seq<string>, n: string, next: seq<string>,
                  best0: nat, best: nat)
    requires Going(edges, inherited, stem + [n], next[..|next|], best0, best)
    requires forall m :: Edge(n, m) in edges ==> m in next
    ensures Done(edges, inherited, stem + [n], best0, best)
  {
    assert next[..|next|] == next;
    ViaEnd(edges, stem + [n], next, best);
  }

  lemma {:induction false} NextAre(edges: seq<Edge>, n: string)
    ensures forall m :: m in Listed(Adjacent(edges), n) <==> Edge(n, m) in edges
  {
    AdjacentMeans(edges);
  }

  class Search {
    const edges: seq<Edge>
    const inherited: set<string>
    var adj: map<string, seq<string>>
    var visited: set<string>
    var best: nat

    constructor (edges: seq<Edge>, inherited: set<string>)
      ensures this.edges == edges && this.inherited == inherited && adj == map[] && visited == {} && best == 0
    {
      this.edges, this.inherited := edges, inherited;
      adj, visited, best := map[], {}, 0;
    }

    /** The first loop: one entry a source. False when it throws. */
    method Build() returns (ok: bool)
      requires adj == map[]
      modifies this`adj
      ensures ok ==> adj == Adjacent(edges) && forall e :: e in edges ==> e.source !in inherited
      ensures !ok ==> Throws(edges, inherited)
    {
      var i := 0;
      while i < |edges|
        invariant i <= |edges| && adj == Adjacent(edges[..i])
        invariant forall k :: 0 <= k < i ==> edges[k].source !in inherited
      {
        var e := edges[i];
        if e.source in inherited {
          assert e.source in Nodes(edges);
          return false;
        }
        adj := adj[e.source := Listed(adj, e.source) + [e.target]];
        assert edges[..i + 1][..i] == edges[..i];
        i := i + 1;
      }
      assert edges[..i] == edges;
      ok := true;
    }

    /** The recursion: `stem` is the path walked so far, whose nodes are the visited ones. It restores `visited`, and
        leaves `best` at the longest simple path seen: those from before, and every one that goes on through `n`. */
    method Dfs(n: string, depth: nat, ghost stem: seq<string>) returns (ok: bool)
      requires adj == Adjacent(edges) && depth == |stem| + 1
      requires Standing(edges, visited, stem, n)
      modifies this`visited, this`best
      ensures ok ==> visited == old(visited) && Done(edges, inherited, stem + [n], old(best), best)
      ensures !ok ==> Throws(edges, inherited)
      decreases |Nodes(edges) - visited|
    {
      StandingFacts(edges, visited, stem, n);
      ghost var path, best0, visited0 := stem + [n], best, visited;
      visited := visited + {n};
      best := if best < depth then depth else best;
      if n in inherited {
        return false;
      }
      var next := Listed(adj, n);
      NextAre(edges, n);
      GoingStarts(edges, inherited, visited0, stem, n, next, best0, best);
      var i := 0;
      while i < |next|
        invariant i <= |next| && visited == visited0 + {n}
        invariant Going(edges, inherited, path, next[..i], best0, best)
      {
        var nb := next[i];
        ghost var before := best;
        if nb !in visited {
          StandingNext(edges, visited0, stem, n, nb);
          var fine := Dfs(nb, depth + 1, path);
          if !fine {
            return false;
          }
        }
        GoingOn(edges, inherited, path, next, i, best0, before, best);
        i := i + 1;
      }
      GoingEnds(edges, inherited, stem, n, next, best0, best);
      visited := visited - {n};
      ok := true;
    }

    /** The whole search, from every source in turn, in any order. None stands for the TypeError. */
    method Longest() returns (r: Option<nat>)
      requires adj == map[] && visited == {} && best == 0
      modifies this
      ensures r.None? <==> Throws(edges, inherited)
      ensures r.Some? ==> IsLongest(edges, r.value)
    {
      var built := Build();
      if !built {
        return None;
      }
      var left := adj.Keys;
      while left != {}
        invariant left <= adj.Keys && adj == Adjacent(edges) && visited == {}
        invariant best == 0 || Attained(edges, best)
        invariant Covered(edges, inherited, adj.Keys - left, best)
        decreases |left|
      {
        var n :| n in left;
        ghost var before := best;
        SourceIsSimple(edges, n);
        assert [] + [n] == [n];
        var fine := Dfs(n, 1, []);
        if !fine {
          return None;
        }
        FromSource(edges, inherited, n, best, before, adj.Keys, left);
        left := left - {n};
      }
      assert left == {} && adj.Keys - left == adj.Keys;
      Conclude(edges, inherited, best);
      NothingThrows(edges, inherited, best);
      r := Some(best);
    }

    static lemma {:induction false} SourceIsSimple(edges: seq<Edge>, n: string)
      requires n in Adjacent(edges)
      ensures Simple(edges, [n])
    {
      AdjacentMeans(edges);
      var m := Adjacent(edges)[n][0];
      assert m in Listed(Adjacent(edges), n);
      assert Edge(n, m).source in Nodes(edges);
    }

    static lemma FromSource(edges: seq<Edge>, inherited: set<string>, n: string, best: nat, before: nat,
                            keys: set<string>, left: set<string>)
      requires n in left && left <= keys
      requires Done(edges, inherited, [n], before, best)
      requires (before == 0 || Attained(edges, before)) && Covered(edges, inherited, keys - left, before)
      ensures Covered(edges, inherited, keys - (left - {n}), best) && (best == 0 || Attained(edges, best))
    {
      var done := keys - left;
      assert keys - (left - {n}) == done + {n};
      forall p | Simple(edges, p) && p[0] in done + {n} ensures |p| <= best {
        if p[0] == n {
          assert Grows(edges, [n], p);
        }
      }
      if best != before {
        var p :| Grows(edges, [n], p) && |p| == best;
        assert Simple(edges, p);
      }
    }

    static lemma {:induction false} Conclude(edges: seq<Edge>, inherited: set<string>, best: nat)
      requires Covered(edges, inherited, Adjacent(edges).Keys, best)
      requires best == 0 || Attained(edges, best)
      ensures IsLongest(edges, best)
    {
      forall p | Simple(edges, p) ensures |p| <= best {
        SimpleMeans(edges, p);
        NodeHasEdge(edges, p[0]);
        var e :| e in edges && (e.source == p[0] || e.target == p[0]);
        SourceIsKey(edges, e);
        SourceIsSimple(edges, e.source);
        assert [e.source][0] in Adjacent(edges).Keys;
        if p[0] !in Adjacent(edges) {
          OnlySources(edges, p);
        }
      }
      if edges != [] {
        SourceIsKey(edges, edges[0]);
        SourceIsSimple(edges, edges[0].source);
      } else {
        NoEdgesNoPath(best);
      }
    }

    static lemma {:induction false} SourceIsKey(edges: seq<Edge>, e: Edge)
      requires e in edges
      ensures e.source in Adjacent(edges)
    {
      AdjacentMeans(edges);
      assert e == Edge(e.source, e.target);
    }

    static lemma NoEdgesNoPath(best: nat)
      ensures !Attained([], best)
    {
      forall p ensures !Simple([], p) {
        SimpleMeans([], p);
      }
    }

    static lemma {:induction false} NothingThrows(edges: seq<Edge>, inherited: set<string>, best: nat)
      requires Covered(edges, inherited, Adjacent(edges).Keys, best)
      requires forall e :: e in edges ==> e.source !in inherited
      ensures !Throws(edges, inherited)
    {
      forall n | n in Nodes(edges) ensures n !in inherited {
        NodeHasEdge(edges, n);
        var e :| e in edges && (e.source == n || e.target == n);
        SourceIsKey(edges, e);
        assert Edge(e.source, e.target) in edges;
      }
    }

    static lemma NodeHasEdge(edges: seq<Edge>, n: string)
      requires n in Nodes(edges)
      ensures exists e :: e in edges && (e.source == n || e.target == n)
    {
      if n in set e | e in edges :: e.source {
        var e :| e in edges && e.source == n;
      } else {
        var e :| e in edges && e.target == n;
      }
    }

    static lemma {:induction false} FirstStep(edges: seq<Edge>, p: seq<string>)
      requires Simple(edges, p) && |p| > 1
      ensures Edge(p[0], p[1]) in edges
    {
      SimpleMeans(edges, p);
    }

    /** A path from a node without edges out is that node alone. */
    static lemma {:induction false} OnlySources(edges: seq<Edge>, p: seq<string>)
      requires Simple(edges, p) && p[0] !in Adjacent(edges)
      ensures |p| == 1
    {
      if |p| > 1 {
        FirstStep(edges, p);
        AdjacentMeans(edges);
        assert false;
      }
    }
  }

  /** longestChain: the length of a longest simple path, or a TypeError when an end of an edge has an inherited name. */
  method LongestChain(edges: seq<Edge>) returns (r: Option<nat>)
    ensures r.None? <==> Throws(edges, INHERITED)
    ensures r.Some? ==> IsLongest(edges, r.value)
  {
    var search := new Search(edges, INHERITED);
    r := search.Longest();
  }
}
