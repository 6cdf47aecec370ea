/** The text keys of the graph store (src/infrastructure/graph_store/redis_store.py): as long
    as no node id and no edge type contains a colon, the keys and the glob patterns over
    them tell everything apart, which is what lets GraphStore use numbers for ids and
    types. */
module GraphKeys {
  import opened Text

  const NEIGHBORS := "GRAPH:NEIGHBORS:"
  const EDGE := "GRAPH:EDGE:"

  function NeighborKey(node: string, etype: string): string
  {
    NEIGHBORS + node + ":" + etype
  }

  function EdgeKey(source: string, target: string, etype: string): string
  {
    EDGE + source + ":" + target + ":" + etype
  }

  /** A glob pattern given by its literal stretches: a `*` stands between each two. */
  predicate Glob(literals: seq<string>, s: string)
    requires literals != []
    decreases |literals|
  {
    if |literals| == 1 then s == literals[0]
    else
      && literals[0] <= s
      && exists k :: |literals[0]| <= k <= |s| && Glob(literals[1..], s[k..])
  }

  /** The last piece of a key, `key.split(":")[-1]`. */
  function LastPiece(key: string): string
  {
    var parts := Split(key, ':');
    parts[|parts| - 1]
  }

  // ---- keys ----

  lemma Pieces3(head: string, source: string, target: string, etype: string)
    requires ':' !in source && ':' !in target && ':' !in etype && ':' !in head
    ensures Split(head + ":" + source + ":" + target + ":" + etype, ':') == [head, source, target, etype]
  {
    SplitWhole(etype, ':');
    SplitPrefix(target, etype, ':');
    SplitPrefix(source, target + [':'] + etype, ':');
    SplitPrefix(head, source + [':'] + (target + [':'] + etype), ':');
    assert head + [':'] + (source + [':'] + (target + [':'] + etype)) == head + ":" + source + ":" + target + ":" + etype;
  }

  lemma EdgePieces(source: string, target: string, etype: string)
    requires ':' !in source && ':' !in target && ':' !in etype
    ensures Split(EdgeKey(source, target, etype), ':') == ["GRAPH", "EDGE", source, target, etype]
  {
    Pieces3("EDGE", source, target, etype);
    var tail := "EDGE" + ":" + source + ":" + target + ":" + etype;
    SplitPrefix("GRAPH", tail, ':');
    assert EDGE == "GRAPH" + [':'] + "EDGE" + ":";
    assert EdgeKey(source, target, etype) == "GRAPH" + [':'] + tail;
  }

  lemma NeighborPieces(node: string, etype: string)
    requires ':' !in node && ':' !in etype
    ensures Split(NeighborKey(node, etype), ':') == ["GRAPH", "NEIGHBORS", node, etype]
  {
    Pieces3("GRAPH", "NEIGHBORS", node, etype);
    assert NEIGHBORS == "GRAPH" + ":" + "NEIGHBORS" + ":";
    assert NeighborKey(node, etype) == "GRAPH" + ":" + "NEIGHBORS" + ":" + node + ":" + etype;
  }

  /** Different edges have different keys, no edge key is a neighbour key, and the type is
      the last piece of each. */
  lemma EdgeKeysTellApart(a: string, b: string, t: string, c: string, d: string, u: string)
    requires forall x :: x in [a, b, t, c, d, u] ==> ':' !in x
    ensures EdgeKey(a, b, t) == EdgeKey(c, d, u) <==> (a, b, t) == (c, d, u)
    ensures NeighborKey(a, t) == NeighborKey(c, u) <==> (a, t) == (c, u)
    ensures EdgeKey(a, b, t) != NeighborKey(c, u)
    ensures LastPiece(EdgeKey(a, b, t)) == t && LastPiece(NeighborKey(a, t)) == t
  {
    assert forall x :: x in [a, b, t, c, d, u] <==> x in {a, b, t, c, d, u};
    EdgePieces(a, b, t);
    EdgePieces(c, d, u);
    NeighborPieces(a, t);
    NeighborPieces(c, u);
  }

  /** With a colon in an id the keys no longer tell edges apart. */
  lemma ColonsMixEdgesUp(a: string, b: string, c: string, t: string)
    ensures EdgeKey(a + ":" + b, c, t) == EdgeKey(a, b + ":" + c, t)
    ensures (a + ":" + b, c, t) != (a, b + ":" + c, t)
  {
    assert |a + ":" + b| > |a|;
    assert EdgeKey(a + ":" + b, c, t) == EDGE + a + ":" + b + ":" + c + ":" + t;
    assert EdgeKey(a, b + ":" + c, t) == EDGE + a + ":" + b + ":" + c + ":" + t;
  }

  // ---- patterns ----

  /** A pattern whose only `*` is at its end matches by prefix. */
  lemma TrailingStar(prefix: string, s: string)
    ensures Glob([prefix, ""], s) <==> prefix <= s
  {
    if prefix <= s {
      assert s[|s|..] == "" && Glob([prefix, ""][1..], s[|s|..]);
    }
  }

  /** A colon-free piece followed by a colon is a prefix of another such text exactly when
      the pieces are the same. */
  lemma PieceIsPrefix(head: string, p: string, q: string, tail: string)
    requires ':' !in p && ':' !in q
    ensures head + p + ":" <= head + q + ":" + tail <==> p == q
  {
    var s, u := head + p + ":", head + q + ":" + tail;
    if |p| < |q| {
      assert s[|head| + |p|] == ':' && u[|head| + |p|] == q[|p|];
      assert q[|p|] in q;
    } else if |q| < |p| {
      assert u[|head| + |q|] == ':' && s[|head| + |q|] == p[|q|];
      assert p[|q|] in p;
    } else {
      assert s[|head|..|head| + |p|] == p && u[|head|..|head| + |p|] == q;
      assert p == q ==> u[..|s|] == s;
    }
  }

  /** `GRAPH:NEIGHBORS:{n}:*` finds exactly the adjacency sets of n, `GRAPH:EDGE:{n}:*`
      exactly the edge hashes with n as source. */
  lemma SourcePatterns(n: string, source: string, target: string, etype: string)
    requires ':' !in n && ':' !in source
    ensures Glob([NEIGHBORS + n + ":", ""], NeighborKey(source, etype)) <==> source == n
    ensures Glob([EDGE + n + ":", ""], EdgeKey(source, target, etype)) <==> source == n
  {
    TrailingStar(NEIGHBORS + n + ":", NeighborKey(source, etype));
    PieceIsPrefix(NEIGHBORS, n, source, etype);
    TrailingStar(EDGE + n + ":", EdgeKey(source, target, etype));
    PieceIsPrefix(EDGE, n, source, target + ":" + etype);
    assert EdgeKey(source, target, etype) == EDGE + source + ":" + (target + ":" + etype);
  }

  /** `GRAPH:EDGE:{a}:{b}:*` finds exactly the edge hashes from a to b. */
  lemma PairPattern(a: string, b: string, source: string, target: string, etype: string)
    requires ':' !in a && ':' !in b && ':' !in source && ':' !in target
    ensures Glob([EDGE + a + ":" + b + ":", ""], EdgeKey(source, target, etype)) <==> source == a && target == b
  {
    var p, s := EDGE + a + ":" + b + ":", EdgeKey(source, target, etype);
    TrailingStar(p, s);
    PieceIsPrefix(EDGE, a, source, target + ":" + etype);
    assert s == EDGE + source + ":" + (target + ":" + etype);
    if source == a {
      PieceIsPrefix(EDGE + a + ":", b, target, etype);
    } else {
      assert EDGE + a + ":" <= p;
      assert p <= s ==> EDGE + a + ":" <= s;
    }
  }

  /** Where the colons of source:target:etype are. */
  lemma Colons(source: string, target: string, etype: string, i: nat)
    requires ':' !in source && ':' !in target && ':' !in etype
    requires i < |source + ":" + target + ":" + etype|
    ensures (source + ":" + target + ":" + etype)[i] == ':' <==> i == |source| || i == |source| + 1 + |target|
  {
    var s := source + ":" + target + ":" + etype;
    if i < |source| {
      assert s[i] == source[i];
    } else if |source| < i < |source| + 1 + |target| {
      assert s[i] == target[i - |source| - 1];
    } else if i > |source| + 1 + |target| {
      assert s[i] == etype[i - |source| - |target| - 2];
    }
  }

  /** `GRAPH:EDGE:*:{n}:*` finds exactly the edge hashes with n as target. */
  lemma TargetPattern(n: string, source: string, target: string, etype: string)
    requires ':' !in n && ':' !in source && ':' !in target && ':' !in etype
    ensures Glob([EDGE, ":" + n + ":", ""], EdgeKey(source, target, etype)) <==> target == n
  {
    var s, mid := EdgeKey(source, target, etype), ":" + n + ":";
    var body := source + ":" + target + ":" + etype;
    assert s == EDGE + body;
    assert [EDGE, mid, ""][1..] == [mid, ""];
    forall k | |EDGE| <= k <= |s| ensures Glob([mid, ""], s[k..]) <==> k == |EDGE| + |source| && target == n {
      TrailingStar(mid, s[k..]);
      var j := k - |EDGE|;
      assert s[k..] == body[j..];
      MiddlePiece(n, source, target, etype, j);
    }
    if target == n {
      assert Glob([mid, ""], s[|EDGE| + |source|..]);
    }
  }

  lemma MiddlePiece(n: string, source: string, target: string, etype: string, j: nat)
    requires ':' !in n && ':' !in source && ':' !in target && ':' !in etype
    requires j <= |source + ":" + target + ":" + etype|
    ensures ":" + n + ":" <= (source + ":" + target + ":" + etype)[j..] <==> j == |source| && target == n
  {
    var mid, body := ":" + n + ":", source + ":" + target + ":" + etype;
    if mid <= body[j..] {
      assert body[j..][0] == ':' && body[j..][|n| + 1] == ':';
      Colons(source, target, etype, j);
      Colons(source, target, etype, j + |n| + 1);
      assert j == |source| && |n| == |target|;
      assert forall i :: 0 <= i < |n| ==> n[i] == mid[i + 1] && body[j..][i + 1] == target[i];
    }
    if j == |source| && target == n {
      assert body[j..] == mid + etype;
    }
  }
}
