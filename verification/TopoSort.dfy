/** The order in which headers are merged: whatever a header includes comes before it. */
module TopoSort {
  import opened Sequences

  datatype Header = Header(path: string)

  type Graph = map<Header, seq<Header>>

  /** The headers that `h` includes, with repetitions. */
  function Includes(g: Graph, h: Header): seq<Header> {
    if h in g then g[h] else []
  }

  /** All edges run between headers. */
  predicate Among(g: Graph, headers: seq<Header>) {
    forall h :: h in g ==> h in headers && forall k :: 0 <= k < |g[h]| ==> g[h][k] in headers
  }

  function Count(s: seq<Header>, h: Header): nat {
    if s == [] then 0 else Count(s[..|s| - 1], h) + if s[|s| - 1] == h then 1 else 0
  }

  lemma {:induction false} CountIsMembership(s: seq<Header>, h: Header)
    ensures Count(s, h) > 0 <==> h in s
  {
    if s != [] {
      assert s == s[..|s| - 1] + [s[|s| - 1]];
      CountIsMembership(s[..|s| - 1], h);
    }
  }

  lemma {:induction false} CountFirst(s: seq<Header>, h: Header)
    requires s != []
    ensures Count(s, h) == Count(s[1..], h) + if s[0] == h then 1 else 0
  {
    if |s| > 1 {
      assert s[..|s| - 1][1..] == s[1..][..|s| - 2];
      CountFirst(s[..|s| - 1], h);
    }
  }

  /** How often `h` is included by the headers of `walked` that are not done. */
  function Pending(g: Graph, walked: seq<Header>, done: seq<Header>, h: Header): nat {
    if walked == [] then 0 else
      var u := walked[|walked| - 1];
      Pending(g, walked[..|walked| - 1], done, h) + if u in done then 0 else Count(Includes(g, u), h)
  }

  lemma {:induction false} PendingIsMembership(g: Graph, walked: seq<Header>, done: seq<Header>, h: Header)
    ensures Pending(g, walked, done, h) > 0 <==> exists u :: u in walked && u !in done && h in Includes(g, u)
  {
    if walked != [] {
      var rest, u := walked[..|walked| - 1], walked[|walked| - 1];
      assert walked == rest + [u];
      PendingIsMembership(g, rest, done, h);
      CountIsMembership(Includes(g, u), h);
    }
  }

  /** Finishing a header takes its includes off the count. */
  lemma {:induction false} PendingAfter(g: Graph, walked: seq<Header>, done: seq<Header>, node: Header, h: Header)
    requires Distinct(walked) && node !in done
    ensures Pending(g, walked, done, h)
            == Pending(g, walked, done + [node], h) + if node in walked then Count(Includes(g, node), h) else 0
  {
    if walked != [] {
      var rest, u := walked[..|walked| - 1], walked[|walked| - 1];
      assert walked == rest + [u];
      PendingAfter(g, rest, done, node, h);
      assert u in done + [node] <==> u in done || u == node;
    }
  }

  lemma {:induction false} SubsetIsShorter(s: seq<Header>, t: seq<Header>)
    requires Distinct(s) && forall h :: h in s ==> h in t
    ensures |s| <= |t|
    decreases |s|
  {
    if s != [] {
      var last := s[|s| - 1];
      assert last in s;
      var k :| 0 <= k < |t| && t[k] == last;
      var t' := t[..k] + t[k + 1..];
      forall h | h in s[..|s| - 1] ensures h in t' {
        assert h in s && h != last;
        var j :| 0 <= j < |t| && t[j] == h;
        assert t'[if j < k then j else j - 1] == h;
      }
      SubsetIsShorter(s[..|s| - 1], t');
    }
  }

  /** A shorter distinct list misses something, and one of the same length misses nothing. */
  lemma FullIsEverything(s: seq<Header>, t: seq<Header>)
    requires Distinct(s) && Distinct(t) && (forall h :: h in s ==> h in t)
    ensures |s| <= |t|
    ensures |s| == |t| <==> forall h :: h in t ==> h in s
  {
    SubsetIsShorter(s, t);
    if forall h :: h in t ==> h in s {
      SubsetIsShorter(t, s);
    } else {
      var x :| x in t && x !in s;
      SubsetIsShorter(s + [x], t);
    }
  }

  /** `c` goes round: each header includes the next, and the last one the first. */
  ghost predicate IsCycle(g: Graph, headers: seq<Header>, c: seq<Header>) {
    && c != [] && (forall i :: 0 <= i < |c| ==> c[i] in headers)
    && (forall i :: 0 <= i < |c| - 1 ==> c[i + 1] in Includes(g, c[i]))
    && c[0] in Includes(g, c[|c| - 1])
  }

  ghost predicate HasCycle(g: Graph, headers: seq<Header>) {
    exists c :: IsCycle(g, headers, c)
  }

  /** Every includer of a header in `s` comes before it in `s`. */
  ghost predicate IncludersFirst(g: Graph, s: seq<Header>) {
    forall j, u :: 0 <= j < |s| && s[j] in Includes(g, u) ==> u in s[..j]
  }

  lemma {:induction false} AlongTheCycle(g: Graph, s: seq<Header>, c: seq<Header>, i: nat, p: nat) returns (q: nat)
    requires IncludersFirst(g, s) && i < |c| && p < |s| && s[p] == c[i]
    requires forall k :: 0 <= k < |c| - 1 ==> c[k + 1] in Includes(g, c[k])
    ensures q <= p && s[q] == c[0] && (i > 0 ==> q < p)
    decreases i
  {
    q := p;
    if i > 0 {
      assert c[i - 1 + 1] in Includes(g, c[i - 1]);
      assert c[i - 1] in s[..p];
      var r :| 0 <= r < p && s[r] == c[i - 1];
      q := AlongTheCycle(g, s, c, i - 1, r);
    }
  }

  /** What can be put in order has no cycle: around a cycle positions would have to decrease forever. */
  lemma OrderedHasNoCycle(g: Graph, headers: seq<Header>, s: seq<Header>)
    requires Distinct(s) && IncludersFirst(g, s) && forall h :: h in headers ==> h in s
    ensures !HasCycle(g, headers)
  {
    if HasCycle(g, headers) {
      var c :| IsCycle(g, headers, c);
      assert c[0] in headers && c[0] in s;
      var p :| 0 <= p < |s| && s[p] == c[0];
      assert c[|c| - 1] in s[..p];
      var r :| 0 <= r < p && s[r] == c[|c| - 1];
      var q := AlongTheCycle(g, s, c, |c| - 1, r);
      assert false;
    }
  }

  ghost predicate IncludedFrom(g: Graph, rest: seq<Header>, h: Header) {
    exists u :: u in rest && h in Includes(g, u)
  }

  ghost predicate AllIncluded(g: Graph, rest: seq<Header>) {
    forall h {:trigger IncludedFrom(g, rest, h)} :: h in rest ==> IncludedFrom(g, rest, h)
  }

  lemma LoopCloses(g: Graph, headers: seq<Header>, path: seq<Header>, k: nat)
    requires k < |path| && (forall h :: h in path ==> h in headers) && path[0] in Includes(g, path[k])
    requires forall i :: 0 <= i < |path| - 1 ==> path[i + 1] in Includes(g, path[i])
    ensures HasCycle(g, headers)
  {
    var c := path[..k + 1];
    forall i | 0 <= i < |c| ensures c[i] in headers { assert path[i] in path; }
    assert IsCycle(g, headers, c);
  }

  /** Walking from includer to includer among headers that are all waiting must come round. */
  lemma {:induction false} WalkComesRound(g: Graph, headers: seq<Header>, rest: seq<Header>, path: seq<Header>)
    requires Distinct(path) && path != [] && (forall h :: h in path ==> h in rest) && (forall h :: h in rest ==> h in headers)
    requires AllIncluded(g, rest)
    requires forall i :: 0 <= i < |path| - 1 ==> path[i + 1] in Includes(g, path[i])
    ensures HasCycle(g, headers)
    decreases |rest| - |path|
  {
    SubsetIsShorter(path, rest);
    assert path[0] in path;
    assert IncludedFrom(g, rest, path[0]);
    var u :| u in rest && path[0] in Includes(g, u);
    hide HasCycle, IncludedFrom, Includes;
    if u in path {
      var k :| 0 <= k < |path| && path[k] == u;
      LoopCloses(g, headers, path, k);
    } else {
      var longer := [u] + path;
      SubsetIsShorter(longer, rest);
      WalkComesRound(g, headers, rest, longer);
    }
  }

  /** The state of the sort while it releases the includes of the header it took last: `left` are
      those still to be counted down. */
  ghost predicate Releasing(g: Graph, headers: seq<Header>, order: seq<Header>, degree: map<Header, int>,
                            sorted: seq<Header>, queue: seq<Header>, left: seq<Header>)
  {
    && Distinct(headers) && Among(g, headers) && Distinct(order) && (forall h :: h in g ==> h in order)
    && (forall h :: h in degree <==> h in headers)
    && (forall h :: h in degree ==> degree[h] == Pending(g, order, sorted, h) + Count(left, h))
    && Distinct(sorted + queue) && (forall h :: h in sorted + queue <==> h in degree && degree[h] == 0)
    && (forall h :: h in left ==> h in headers) && IncludersFirst(g, sorted)
  }

  lemma TakeNext(g: Graph, headers: seq<Header>, order: seq<Header>, degree: map<Header, int>,
                 sorted: seq<Header>, queue: seq<Header>)
    requires queue != [] && Releasing(g, headers, order, degree, sorted, queue, [])
    ensures Releasing(g, headers, order, degree, sorted + [queue[0]], queue[1..], Includes(g, queue[0]))
    ensures |sorted| < |headers|
  {
    var node := queue[0];
    var all := sorted + queue;
    assert (sorted + [node]) + queue[1..] == all;
    assert all[|sorted|] == node && node in all;
    FullIsEverything(all, headers);
    forall i | 0 <= i < |sorted| ensures sorted[i] != node {
      assert all[i] == sorted[i];
    }
    TakingIsOrdered(g, order, sorted, node);
    hide Distinct, Count, Pending, IncludersFirst;
    forall h | h in degree
      ensures degree[h] == Pending(g, order, sorted + [node], h) + Count(Includes(g, node), h)
    {
      NoCount(h);
      PendingAfter(g, order, sorted, node, h);
      if node !in order { NoCount(h); }
    }
  }

  lemma NoCount(h: Header)
    ensures Count([], h) == 0
  {
  }

  /** A header is only taken once all its includers are. */
  lemma TakingIsOrdered(g: Graph, order: seq<Header>, sorted: seq<Header>, node: Header)
    requires IncludersFirst(g, sorted) && Pending(g, order, sorted, node) == 0 && forall h :: h in g ==> h in order
    ensures IncludersFirst(g, sorted + [node])
  {
    var s := sorted + [node];
    PendingIsMembership(g, order, sorted, node);
    forall j, u | 0 <= j < |s| && s[j] in Includes(g, u) ensures u in s[..j] {
      if j < |sorted| {
        assert s[..j] == sorted[..j] && s[j] == sorted[j];
      } else {
        assert s[..j] == sorted && u in order;
      }
    }
  }

  /** Counting one include down; its header joins the queue when nothing else includes it. */
  lemma ReleaseOne(g: Graph, headers: seq<Header>, order: seq<Header>, degree: map<Header, int>,
                   sorted: seq<Header>, queue: seq<Header>, left: seq<Header>)
    requires left != [] && Releasing(g, headers, order, degree, sorted, queue, left)
    ensures left[0] in degree
    ensures var n := left[0];
            Releasing(g, headers, order, degree[n := degree[n] - 1], sorted,
              if degree[n] == 1 then queue + [n] else queue, left[1..])
  {
    var n := left[0];
    assert n in left;
    CountIsMembership(left, n);
    forall h { CountFirst(left, h); }
    hide Count, Pending, IncludersFirst, Among;
    var degree' := degree[n := degree[n] - 1];
    assert n !in sorted + queue;
    if degree[n] == 1 {
      assert sorted + (queue + [n]) == (sorted + queue) + [n];
    }
  }

  lemma SortedIsEverything(g: Graph, headers: seq<Header>, order: seq<Header>, degree: map<Header, int>, sorted: seq<Header>)
    requires Releasing(g, headers, order, degree, sorted, [], [])
    ensures (forall h :: h in sorted ==> h in headers) && Distinct(sorted) && IncludersFirst(g, sorted)
    ensures |sorted| == |headers| <==> forall h :: h in headers ==> h in sorted
    ensures |sorted| == |headers| <==> !HasCycle(g, headers)
  {
    assert sorted + [] == sorted;
    FullIsEverything(sorted, headers);
    if |sorted| == |headers| {
      OrderedHasNoCycle(g, headers, sorted);
    } else {
      var x :| x in headers && x !in sorted;
      CycleIsLeft(g, headers, order, degree, sorted, x);
    }
  }

  /** When the queue runs dry early, every header that is left is included by one that is left too. */
  lemma CycleIsLeft(g: Graph, headers: seq<Header>, order: seq<Header>, degree: map<Header, int>, sorted: seq<Header>, x: Header)
    requires Releasing(g, headers, order, degree, sorted, [], []) && x in headers && x !in sorted
    ensures HasCycle(g, headers)
  {
    var rest := Remaining(headers, sorted);
    forall h | h in rest ensures IncludedFrom(g, rest, h) {
      assert h in degree && h !in sorted + [];
      NoCount(h);
      PendingIsMembership(g, order, sorted, h);
      var u :| u in order && u !in sorted && h in Includes(g, u);
      assert u in rest;
    }
    assert x in rest;
    WalkComesRound(g, headers, rest, [x]);
  }

  function Remaining(headers: seq<Header>, sorted: seq<Header>): (r: seq<Header>)
    ensures forall h :: h in r <==> h in headers && h !in sorted
  {
    if headers == [] then [] else
      (if headers[0] in sorted then [] else [headers[0]]) + Remaining(headers[1..], sorted)
  }

  function Reversed(s: seq<Header>): (r: seq<Header>)
    ensures |r| == |s| && forall i :: 0 <= i < |s| ==> r[i] == s[|s| - 1 - i]
  {
    if s == [] then [] else Reversed(s[1..]) + [s[0]]
  }

  method CountUp(degree: map<Header, int>, neighbors: seq<Header>) returns (r: map<Header, int>)
    requires forall k :: 0 <= k < |neighbors| ==> neighbors[k] in degree
    ensures r.Keys == degree.Keys && forall h :: h in degree ==> r[h] == degree[h] + Count(neighbors, h)
  {
    r := degree;
    var k := 0;
    while k < |neighbors|
      invariant k <= |neighbors| && r.Keys == degree.Keys
      invariant forall h :: h in degree ==> r[h] == degree[h] + Count(neighbors[..k], h)
    {
      assert neighbors[..k + 1][..k] == neighbors[..k];
      r := r[neighbors[k] := r[neighbors[k]] + 1];
      k := k + 1;
    }
    assert neighbors[..k] == neighbors;
  }

  /** How often each header is included. */
  method CountIncluders(g: Graph, headers: seq<Header>, order: seq<Header>) returns (degree: map<Header, int>)
    requires Distinct(headers) && Among(g, headers) && Distinct(order) && forall h :: h in order <==> h in g
    ensures forall h :: h in degree <==> h in headers
    ensures forall h :: h in degree ==> degree[h] == Pending(g, order, [], h)
  {
    hide Distinct, Count;
    degree := map h | h in headers :: 0;
    var i := 0;
    while i < |order|
      invariant i <= |order| && forall h :: h in degree <==> h in headers
      invariant forall h :: h in degree ==> degree[h] == Pending(g, order[..i], [], h)
    {
      var node := order[i];
      assert node in order;
      assert order[..i + 1][..i] == order[..i];
      degree := CountUp(degree, g[node]);
      i := i + 1;
    }
    assert order[..i] == order;
  }

  /** The headers that nothing includes, in the order given. */
  ghost function Roots(g: Graph, headers: seq<Header>, walked: seq<Header>): seq<Header> {
    if walked == [] then [] else
      var h := walked[|walked| - 1];
      Roots(g, headers, walked[..|walked| - 1]) + if IncludedFrom(g, headers, h) then [] else [h]
  }

  method FindRoots(ghost g: Graph, headers: seq<Header>, degree: map<Header, int>) returns (roots: seq<Header>)
    requires Distinct(headers) && forall h :: h in headers ==> h in degree
    requires forall h :: h in headers ==> (degree[h] == 0 <==> !IncludedFrom(g, headers, h))
    ensures Distinct(roots) && forall h :: h in roots <==> h in headers && degree[h] == 0
    ensures roots == Roots(g, headers, headers)
  {
    hide IncludedFrom;
    roots := [];
    var i := 0;
    while i < |headers|
      invariant i <= |headers| && Distinct(roots)
      invariant forall h :: h in roots <==> h in headers[..i] && degree[h] == 0
      invariant roots == Roots(g, headers, headers[..i])
    {
      assert headers[..i + 1][..i] == headers[..i];
      if degree[headers[i]] == 0 { roots := roots + [headers[i]]; }
      i := i + 1;
    }
    assert headers[..i] == headers;
  }

  /** Counted over the whole graph, zero includers means that no header includes it. */
  lemma CountedIncluders(g: Graph, headers: seq<Header>, order: seq<Header>, degree: map<Header, int>)
    requires Among(g, headers) && (forall h :: h in order <==> h in g)
    requires (forall h :: h in degree <==> h in headers) && forall h :: h in degree ==> degree[h] == Pending(g, order, [], h)
    ensures forall h :: h in headers ==> (degree[h] == 0 <==> !IncludedFrom(g, headers, h))
  {
    hide Pending;
    forall h | h in headers ensures degree[h] == 0 <==> !IncludedFrom(g, headers, h) {
      PendingIsMembership(g, order, [], h);
    }
  }

  /** Orders the headers so that whatever a header includes comes before it; yields nothing when
      that is impossible. The headers that nothing includes end up last, the first of them at the
      very end. `order` is the order in which the graph yields its nodes. */
  method TopologicalSort(g: Graph, headers: seq<Header>, order: seq<Header>) returns (r: seq<Header>)
    requires Distinct(headers) && Among(g, headers) && Distinct(order) && forall h :: h in order <==> h in g
    ensures r != [] ==>
              && |r| == |headers| && Distinct(r) && (forall h :: h in r <==> h in headers)
              && (forall i, j :: 0 <= i < |r| && 0 <= j < |r| && r[j] in Includes(g, r[i]) ==> j < i)
    ensures headers != [] ==> (r == [] <==> HasCycle(g, headers))
    ensures r != [] ==> EndsWithRoots(r, Roots(g, headers, headers))
  {
    hide *;
    var degree := CountIncluders(g, headers, order);
    CountedIncluders(g, headers, order, degree);
    var queue := FindRoots(g, headers, degree);
    ghost var roots := queue;
    var sorted: seq<Header> := [];
    StartSort(g, headers, order, degree, queue);
    while queue != []
      invariant Releasing(g, headers, order, degree, sorted, queue, []) && roots <= sorted + queue
      decreases |headers| - |sorted|
    {
      TakeNext(g, headers, order, degree, sorted, queue);
      var node := queue[0];
      assert (sorted + [node]) + queue[1..] == sorted + queue;
      queue, sorted := queue[1..], sorted + [node];
      var left := Includes(g, node);
      while left != []
        invariant Releasing(g, headers, order, degree, sorted, queue, left) && roots <= sorted + queue
        decreases |left|
      {
        ReleaseOne(g, headers, order, degree, sorted, queue, left);
        var neighbor := left[0];
        degree := degree[neighbor := degree[neighbor] - 1];
        assert sorted + (queue + [neighbor]) == (sorted + queue) + [neighbor];
        if degree[neighbor] == 0 { queue := queue + [neighbor]; }
        left := left[1..];
      }
    }
    SortedIsEverything(g, headers, order, degree, sorted);
    if |sorted| != |headers| {
      r := [];
    } else {
      r := Reversed(sorted);
      ReversedIsOrdered(g, headers, sorted);
      assert sorted + [] == sorted;
      ReversedEndsWithRoots(sorted, roots);
    }
  }

  predicate EndsWithRoots(r: seq<Header>, roots: seq<Header>) {
    |roots| <= |r| && forall i :: 0 <= i < |roots| ==> r[|r| - 1 - i] == roots[i]
  }

  lemma ReversedEndsWithRoots(sorted: seq<Header>, roots: seq<Header>)
    requires roots <= sorted
    ensures EndsWithRoots(Reversed(sorted), roots)
  {
  }

  lemma StartSort(g: Graph, headers: seq<Header>, order: seq<Header>, degree: map<Header, int>, queue: seq<Header>)
    requires Distinct(headers) && Among(g, headers) && Distinct(order) && (forall h :: h in order <==> h in g)
    requires forall h :: h in degree <==> h in headers
    requires forall h :: h in degree ==> degree[h] == Pending(g, order, [], h)
    requires Distinct(queue) && forall h :: h in queue <==> h in headers && degree[h] == 0
    ensures Releasing(g, headers, order, degree, [], queue, [])
  {
    assert [] + queue == queue;
    hide Pending, Among;
  }

  lemma ReversedIsOrdered(g: Graph, headers: seq<Header>, s: seq<Header>)
    requires Distinct(s) && IncludersFirst(g, s) && forall h :: h in s <==> h in headers
    ensures var r := Reversed(s);
            && |r| == |s| && Distinct(r) && (forall h :: h in r <==> h in headers)
            && (forall i, j :: 0 <= i < |r| && 0 <= j < |r| && r[j] in Includes(g, r[i]) ==> j < i)
  {
    var r := Reversed(s);
    forall h ensures h in r <==> h in s {
      if h in s {
        var i :| 0 <= i < |s| && s[i] == h;
        assert r[|s| - 1 - i] == h;
      }
    }
    forall i, j | 0 <= i < |r| && 0 <= j < |r| && r[j] in Includes(g, r[i]) ensures j < i {
      var p := |s| - 1 - j;
      assert s[p] == r[j];
      assert r[i] in s[..p];
      var q :| 0 <= q < p && s[q] == r[i];
      assert s[|s| - 1 - i] == r[i];
    }
  }

  /** What the files say: the name of each header, and the names it includes, in order. */
  datatype Sources = Sources(name: map<Header, string>, included: map<Header, seq<string>>)

  /** The header that stands for a name: of several with the same name the last one. */
  function ByName(src: Sources, walked: seq<Header>, name: string): (r: seq<Header>)
    requires forall h :: h in walked ==> h in src.name
    ensures |r| <= 1 && forall h :: h in r ==> h in walked && src.name[h] == name
  {
    if walked == [] then []
    else if src.name[walked[|walked| - 1]] == name then [walked[|walked| - 1]]
    else ByName(src, walked[..|walked| - 1], name)
  }

  function Resolved(src: Sources, headers: seq<Header>, names: seq<string>): (r: seq<Header>)
    requires forall h :: h in headers ==> h in src.name
    ensures forall h :: h in r ==> h in headers
  {
    if names == [] then []
    else Resolved(src, headers, names[..|names| - 1]) + ByName(src, headers, names[|names| - 1])
  }

  method IndexByName(src: Sources, headers: seq<Header>) returns (byName: map<string, Header>)
    requires forall h :: h in headers ==> h in src.name
    ensures forall n :: ByName(src, headers, n) == if n in byName then [byName[n]] else []
  {
    byName := map[];
    var i := 0;
    while i < |headers|
      invariant i <= |headers|
      invariant forall n :: ByName(src, headers[..i], n) == if n in byName then [byName[n]] else []
    {
      assert headers[..i + 1][..i] == headers[..i];
      byName := byName[src.name[headers[i]] := headers[i]];
      i := i + 1;
    }
    assert headers[..i] == headers;
  }

  /** Builds the graph of the includes that can be resolved to one of the headers: the shape that
      the sort relies on. `order` is the order in which the graph yields its nodes. */
  method BuildDependencyGraph(src: Sources, headers: seq<Header>) returns (g: Graph, order: seq<Header>)
    requires Distinct(headers) && forall h :: h in headers ==> h in src.name && h in src.included
    ensures Among(g, headers)
    ensures forall h :: h in headers ==> Includes(g, h) == Resolved(src, headers, src.included[h])
    ensures forall h :: h in g ==> g[h] != []
    ensures Distinct(order) && forall h :: h in order <==> h in g
  {
    hide ByName, Resolved;
    var byName := IndexByName(src, headers);
    g, order := map[], [];
    var i := 0;
    while i < |headers|
      invariant Distinct(order) && forall h :: h in order <==> h in g
      invariant i <= |headers| && Among(g, headers) && forall h :: h in g ==> g[h] != []
      invariant forall h :: h in headers[..i] ==> Includes(g, h) == Resolved(src, headers, src.included[h])
      invariant forall h :: h in g ==> h in headers[..i]
    {
      var h := headers[i];
      assert h in headers && h !in headers[..i];
      var found := ResolveIncludes(src, headers, byName, src.included[h]);
      if found != [] { g, order := g[h := found], order + [h]; }
      i := i + 1;
    }
  }

  method ResolveIncludes(src: Sources, headers: seq<Header>, byName: map<string, Header>, names: seq<string>) returns (found: seq<Header>)
    requires forall h :: h in headers ==> h in src.name
    requires forall n :: ByName(src, headers, n) == if n in byName then [byName[n]] else []
    ensures found == Resolved(src, headers, names)
  {
    found := [];
    var k := 0;
    while k < |names|
      invariant k <= |names| && found == Resolved(src, headers, names[..k])
    {
      assert names[..k + 1][..k] == names[..k];
      if names[k] in byName { found := found + [byName[names[k]]]; }
      k := k + 1;
    }
    assert names[..k] == names;
  }
}
