/** Includes name files, not headers: when the order of the merged headers respects what the
    includes mean, and what goes wrong when two headers share a file name. */
module HeaderNames {
  import opened Sequences
  import opened TopoSort

  /** `g` is the graph that is built for the headers. */
  ghost predicate GraphOf(src: Sources, headers: seq<Header>, g: Graph) {
    && Distinct(headers) && (forall h :: h in headers ==> h in src.name && h in src.included)
    && Among(g, headers)
    && forall h :: h in headers ==> Includes(g, h) == Resolved(src, headers, src.included[h])
  }

  /** `r` is a result that the sort can have when it finds an order. */
  ghost predicate OrderOf(g: Graph, headers: seq<Header>, r: seq<Header>) {
    && |r| == |headers| && Distinct(r) && (forall h :: h in r <==> h in headers)
    && (forall i, j :: 0 <= i < |r| && 0 <= j < |r| && r[j] in Includes(g, r[i]) ==> j < i)
    && EndsWithRoots(r, Roots(g, headers, headers))
  }

  /** An include of `h` can mean `u`: it names the file. */
  predicate CanMean(src: Sources, h: Header, u: Header)
    requires h in src.included && u in src.name
  {
    src.name[u] in src.included[h]
  }

  /** No later header has the same file name. */
  predicate LastOfName(src: Sources, headers: seq<Header>, u: Header)
    requires (forall h :: h in headers ==> h in src.name) && u in src.name
  {
    forall i, j :: 0 <= i < j < |headers| && headers[i] == u ==> src.name[headers[j]] != src.name[u]
  }

  lemma {:induction false} ByNameIsLast(src: Sources, walked: seq<Header>, u: Header)
    requires Distinct(walked) && (forall h :: h in walked ==> h in src.name) && u in walked
    ensures ByName(src, walked, src.name[u]) == [u] <==> LastOfName(src, walked, u)
  {
    var rest, last := walked[..|walked| - 1], walked[|walked| - 1];
    assert walked == rest + [last];
    if last == u {
    } else if src.name[last] == src.name[u] {
      var i :| 0 <= i < |rest| && rest[i] == u;
      assert walked[i] == u;
    } else {
      ByNameIsLast(src, rest, u);
      assert forall i :: 0 <= i < |rest| ==> walked[i] == rest[i];
    }
  }

  lemma {:induction false} ResolvedIs(src: Sources, headers: seq<Header>, names: seq<string>, u: Header)
    requires (forall h :: h in headers ==> h in src.name) && u in src.name
    ensures u in Resolved(src, headers, names) <==> src.name[u] in names && ByName(src, headers, src.name[u]) == [u]
  {
    if names != [] {
      var rest, n := names[..|names| - 1], names[|names| - 1];
      assert names == rest + [n];
      ResolvedIs(src, headers, rest, u);
    }
  }

  /** An include becomes an edge to a header it can mean exactly if that is the last one of its name. */
  lemma EdgeIff(src: Sources, headers: seq<Header>, g: Graph, h: Header, u: Header)
    requires GraphOf(src, headers, g) && h in headers && u in headers
    ensures u in Includes(g, h) <==> CanMean(src, h, u) && LastOfName(src, headers, u)
  {
    ResolvedIs(src, headers, src.included[h], u);
    ByNameIsLast(src, headers, u);
    hide Includes, ByName, Resolved, LastOfName, Distinct, Among;
  }

  /** Every include that can mean a header has an edge to it. */
  ghost predicate MeaningsAreEdges(src: Sources, headers: seq<Header>, g: Graph)
    requires forall h :: h in headers ==> h in src.name && h in src.included
  {
    forall h, u :: h in headers && u in headers && CanMean(src, h, u) ==> u in Includes(g, h)
  }

  /** No include can mean two headers. */
  ghost predicate MeaningsAreClear(src: Sources, headers: seq<Header>)
    requires forall h :: h in headers ==> h in src.name && h in src.included
  {
    forall h, u, v :: h in headers && u in headers && v in headers && CanMean(src, h, u) && CanMean(src, h, v) ==>
      (src.name[u] == src.name[v] ==> u == v)
  }

  /** The graph has an edge for whatever an include can mean exactly if no include can mean two headers. */
  lemma MeaningsAreEdgesIff(src: Sources, headers: seq<Header>, g: Graph)
    requires GraphOf(src, headers, g)
    ensures MeaningsAreEdges(src, headers, g) <==> MeaningsAreClear(src, headers)
  {
    forall h, u | h in headers && u in headers
      ensures u in Includes(g, h) <==> CanMean(src, h, u) && LastOfName(src, headers, u)
    {
      EdgeIff(src, headers, g, h, u);
    }
    hide Includes, Resolved, Among;
    if MeaningsAreEdges(src, headers, g) {
      forall h, u, v | h in headers && u in headers && v in headers && CanMean(src, h, u) && CanMean(src, h, v) && src.name[u] == src.name[v]
        ensures u == v
      {
        LastIsOne(src, headers, u, v);
      }
    } else {
      var h, u :| h in headers && u in headers && CanMean(src, h, u) && u !in Includes(g, h);
      var i, j :| 0 <= i < j < |headers| && headers[i] == u && src.name[headers[j]] == src.name[u];
      assert headers[j] in headers && CanMean(src, h, headers[j]) && headers[j] != u;
    }
  }

  lemma LastIsOne(src: Sources, headers: seq<Header>, u: Header, v: Header)
    requires (forall h :: h in headers ==> h in src.name) && u in headers && v in headers && src.name[u] == src.name[v]
    requires LastOfName(src, headers, u) && LastOfName(src, headers, v)
    ensures u == v
  {
    var i :| 0 <= i < |headers| && headers[i] == u;
    var j :| 0 <= j < |headers| && headers[j] == v;
  }

  /** What the merger is for: if no include can mean two headers, whatever a header's includes mean
      comes before it. */
  lemma MeantComesFirst(src: Sources, headers: seq<Header>, g: Graph, r: seq<Header>, i: nat, j: nat)
    requires GraphOf(src, headers, g) && OrderOf(g, headers, r) && MeaningsAreClear(src, headers)
    requires i < |r| && j < |r|
    ensures r[i] in headers && r[j] in headers
    ensures CanMean(src, r[i], r[j]) ==> j < i
  {
    MeaningsAreEdgesIff(src, headers, g);
    hide Includes, MeaningsAreClear, EndsWithRoots, Roots, Resolved;
    assert r[i] in r && r[j] in r;
  }

  /** Builds the graph and sorts it. */
  method OrderHeaders(src: Sources, headers: seq<Header>) returns (ghost g: Graph, r: seq<Header>)
    requires Distinct(headers) && forall h :: h in headers ==> h in src.name && h in src.included
    ensures GraphOf(src, headers, g) && (headers != [] ==> (r == [] <==> HasCycle(g, headers)))
    ensures r != [] ==> OrderOf(g, headers, r)
    ensures r != [] && MeaningsAreClear(src, headers) ==>
              forall i, j :: 0 <= i < |r| && 0 <= j < |r| && CanMean(src, r[i], r[j]) ==> j < i
  {
    hide HasCycle, Includes, EndsWithRoots, Roots, Resolved, MeaningsAreClear;
    var graph, order := BuildDependencyGraph(src, headers);
    r := TopologicalSort(graph, headers, order);
    g := graph;
    if r != [] && MeaningsAreClear(src, headers) {
      assert OrderOf(g, headers, r);
      forall i, j | 0 <= i < |r| && 0 <= j < |r| ensures r[i] in headers && r[j] in headers && (CanMean(src, r[i], r[j]) ==> j < i) {
        MeantComesFirst(src, headers, g, r, i, j);
      }
    }
  }

  // ----- two headers with one file name -----

  const A := Header("a/x.h")
  const B := Header("b/x.h")
  const M := Header("m.h")
  const HEADERS := [A, B, M]
  const NAMES: map<Header, string> := map[A := "x.h", B := "x.h", M := "m.h"]

  /** `m.h` includes a file `x.h`. */
  const ONE_INCLUDE := Sources(NAMES, map[A := [], B := [], M := ["x.h"]])

  /** And `b/x.h` includes `m.h`. */
  const TWO_INCLUDES := Sources(NAMES, map[A := [], B := ["m.h"], M := ["x.h"]])

  lemma EdgesAre(src: Sources, g: Graph, h: Header, u: Header)
    requires src in {ONE_INCLUDE, TWO_INCLUDES} && GraphOf(src, HEADERS, g) && h in HEADERS && u in HEADERS
    ensures u in Includes(g, h) <==> (h == M && u == B) || (h == B && u == M && src == TWO_INCLUDES)
  {
    EdgeIff(src, HEADERS, g, h, u);
    assert HEADERS[0] == A && HEADERS[1] == B && HEADERS[2] == M;
    hide GraphOf, Includes;
  }

  lemma RootsOfThree(g: Graph, a: Header, b: Header, m: Header)
    requires var all := [a, b, m];
             !IncludedFrom(g, all, a) && IncludedFrom(g, all, b) && !IncludedFrom(g, all, m)
    ensures Roots(g, [a, b, m], [a, b, m]) == [a, m]
  {
    hide IncludedFrom;
    var all := [a, b, m];
    assert all[..2] == [a, b] && [a, b][..1] == [a] && [a][..0] == [];
    assert Roots(g, all, [a]) == [a];
    assert Roots(g, all, [a, b]) == [a];
  }

  lemma RootsAre(g: Graph)
    requires GraphOf(ONE_INCLUDE, HEADERS, g)
    ensures Roots(g, HEADERS, HEADERS) == [A, M]
  {
    forall h, u | h in HEADERS && u in HEADERS ensures u in Includes(g, h) <==> h == M && u == B {
      EdgesAre(ONE_INCLUDE, g, h, u);
    }
    assert HEADERS[2] == M && M in HEADERS && HEADERS[0] == A && A in HEADERS && HEADERS[1] == B && B in HEADERS;
    hide GraphOf, Includes, ONE_INCLUDE, NAMES, Roots, A, B, M;
    assert IncludedFrom(g, HEADERS, B) && !IncludedFrom(g, HEADERS, A) && !IncludedFrom(g, HEADERS, M);
    RootsOfThree(g, A, B, M);
  }

  /** Where the include of `m.h` means `a/x.h`, every order that the sort can yield puts `m.h` before it. */
  lemma MeantComesLast(g: Graph, r: seq<Header>)
    requires GraphOf(ONE_INCLUDE, HEADERS, g) && OrderOf(g, HEADERS, r)
    ensures CanMean(ONE_INCLUDE, M, A) && r == [B, M, A]
  {
    RootsAre(g);
    hide GraphOf, Roots, Includes;
    var roots := Roots(g, HEADERS, HEADERS);
    assert r[2] == roots[0] && r[1] == roots[1];
    assert r[0] in r && r[0] in HEADERS;
  }

  /** Whatever a header includes of the headers in `s`, some header before it has that name. */
  ghost predicate Readable(src: Sources, s: seq<Header>)
    requires forall h :: h in s ==> h in src.name && h in src.included
  {
    forall i, u :: 0 <= i < |s| && u in s && CanMean(src, s[i], u) ==>
      exists j :: 0 <= j < i && src.name[s[j]] == src.name[u]
  }

  lemma LastThenFirst()
    ensures Readable(TWO_INCLUDES, [A, M, B])
  {
    var s := [A, M, B];
    assert s[0] == A && s[1] == M;
    forall i, u | 0 <= i < 3 && u in s && CanMean(TWO_INCLUDES, s[i], u)
      ensures exists j :: 0 <= j < i && TWO_INCLUDES.name[s[j]] == TWO_INCLUDES.name[u]
    {
      assert TWO_INCLUDES.name[s[i - 1]] == TWO_INCLUDES.name[u];
    }
  }

  /** And the sort can find a cycle, and so no order, where there is one that can be read. */
  lemma CycleOfNames(g: Graph)
    requires GraphOf(TWO_INCLUDES, HEADERS, g)
    ensures HasCycle(g, HEADERS) && Readable(TWO_INCLUDES, [A, M, B])
  {
    LastThenFirst();
    assert HEADERS[2] == M && M in HEADERS && HEADERS[1] == B && B in HEADERS;
    EdgesAre(TWO_INCLUDES, g, M, B);
    EdgesAre(TWO_INCLUDES, g, B, M);
    hide GraphOf, Includes, TWO_INCLUDES, NAMES, A, B, M, Readable;
    assert IsCycle(g, HEADERS, [M, B]);
  }
}
