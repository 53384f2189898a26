/** schema/client.py: exactly when the body of a request does not depend on the order of its fields. */
module FieldOrder {
  import opened Outcomes
  import opened PolicyClient

  function Body(fs: seq<Field>, ctx: Context, id: Json, n: nat): Result<Tree> { Build(fs, ctx, id, n, 0, map[]).0 }

  /** Every order of the fields builds the same body, or every order raises. */
  ghost predicate OrderFree(fs: seq<Field>, ctx: Context, id: Json, n: nat) {
    forall gs: seq<Field> | multiset(gs) == multiset(fs) :: Body(gs, ctx, id, n) == Body(fs, ctx, id, n)
  }

  predicate IsLeaf(v: Option<Json>) { v.Some? && v.value.Leaf? }

  /** Every field resolves, to a value that is not a dict. */
  predicate Plain(fs: seq<Field>, ctx: Context, id: Json, n: nat) {
    forall i | 0 <= i < |fs| :: IsLeaf(PureValue(fs[i].source, ctx, id, n))
  }

  predicate DistinctNames(fs: seq<Field>) {
    forall i, j | 0 <= i < j < |fs| :: fs[i].path != fs[j].path
  }

  // ------------------------------------------------------------ longest names first

  function Insert(f: Field, fs: seq<Field>): seq<Field> {
    if fs == [] || |f.path| >= |fs[0].path| then [f] + fs else [fs[0]] + Insert(f, fs[1..])
  }

  function LongestFirst(fs: seq<Field>): seq<Field> {
    if fs == [] then [] else Insert(fs[0], LongestFirst(fs[1..]))
  }

  predicate Descending(fs: seq<Field>) {
    forall i, j | 0 <= i < j < |fs| :: |fs[i].path| >= |fs[j].path|
  }

  lemma {:induction false} InsertAdds(f: Field, fs: seq<Field>)
    ensures multiset(Insert(f, fs)) == multiset{f} + multiset(fs)
  {
    if fs != [] && |f.path| < |fs[0].path| {
      InsertAdds(f, fs[1..]);
      hide Insert;
      assert fs == [fs[0]] + fs[1..];
    }
  }

  lemma {:induction false} InsertKeeps(f: Field, fs: seq<Field>)
    requires Descending(fs)
    ensures Descending(Insert(f, fs))
  {
    if fs != [] && |f.path| < |fs[0].path| {
      var rest := Insert(f, fs[1..]);
      InsertKeeps(f, fs[1..]);
      InsertAdds(f, fs[1..]);
      forall j | 0 <= j < |rest| ensures |fs[0].path| >= |rest[j].path| {
        FirstIsLongest(f, fs, rest[j]) by { assert rest[j] in multiset(rest); }
      }
    }
  }

  lemma FirstIsLongest(f: Field, fs: seq<Field>, g: Field)
    requires fs != [] && Descending(fs) && |f.path| < |fs[0].path| && g in multiset{f} + multiset(fs[1..])
    ensures |fs[0].path| >= |g.path|
  {
    if g != f {
      var j :| 0 <= j < |fs[1..]| && fs[1..][j] == g;
    }
  }

  lemma {:induction false} LongestFirstSorts(fs: seq<Field>)
    ensures Descending(LongestFirst(fs)) && multiset(LongestFirst(fs)) == multiset(fs)
  {
    if fs != [] {
      LongestFirstSorts(fs[1..]);
      InsertKeeps(fs[0], LongestFirst(fs[1..]));
      InsertAdds(fs[0], LongestFirst(fs[1..]));
      assert fs == [fs[0]] + fs[1..];
    }
  }

  /** Plain values sit at names of at least this length only. */
  ghost predicate LeavesFrom(tree: Tree, length: nat) {
    forall r: Path | LeafAt(tree, r) :: |r| >= length
  }

  /** Assigning a plain value makes a leaf at its own name only. */
  lemma {:induction false} PutMakesOneLeaf(tree: Tree, p: Path, v: Json, r: Path)
    requires Put(tree, p, v).Ok? && v.Leaf? && LeafAt(Put(tree, p, v).value, r)
    ensures r == p || LeafAt(tree, r)
    decreases |p|
  {
    if p[0] == r[0] && |p| > 1 && |r| > 1 {
      var sub := if p[0] in tree then tree[p[0]].fields else map[];
      PutMakesOneLeaf(sub, p[1..], v, r[1..]);
      if r[1..] == p[1..] { assert r == [r[0]] + r[1..] && p == [p[0]] + p[1..]; }
    }
  }

  lemma PutLongest(tree: Tree, p: Path, v: Json, length: nat)
    requires LeavesFrom(tree, |p|) && v.Leaf? && length <= |p|
    ensures Put(tree, p, v).Ok? && LeavesFrom(Put(tree, p, v).value, length)
  {
    hide Put, LeafAt;
    PutFailsIff(tree, p, v);
    forall k | 0 < k < |p| ensures !LeafAt(tree, p[..k]) { }
    forall r: Path | LeafAt(Put(tree, p, v).value, r) ensures |r| >= length {
      PutMakesOneLeaf(tree, p, v, r);
    }
  }

  lemma {:induction false} LongestFirstBuilds(fs: seq<Field>, ctx: Context, id: Json, n: nat, tree: Tree)
    requires Descending(fs) && Plain(fs, ctx, id, n) && (fs != [] ==> LeavesFrom(tree, |fs[0].path|))
    ensures PutValues(fs, ctx, id, n, tree).Ok?
  {
    if fs != [] {
      hide Put, PureValue, LeavesFrom;
      var rest := fs[1..];
      assert IsLeaf(PureValue(fs[0].source, ctx, id, n));
      var v := PureValue(fs[0].source, ctx, id, n).value;
      PutLongest(tree, fs[0].path, v, if rest == [] then 0 else |rest[0].path|);
      LongestFirstBuilds(rest, ctx, id, n, Put(tree, fs[0].path, v).value);
    }
  }

  // ------------------------------------------------------------ exactly

  lemma PlainPermutes(fs: seq<Field>, gs: seq<Field>, ctx: Context, id: Json, n: nat)
    requires multiset(fs) == multiset(gs) && Plain(fs, ctx, id, n)
    ensures Plain(gs, ctx, id, n)
  {
    hide PureValue;
    forall i | 0 <= i < |gs| ensures IsLeaf(PureValue(gs[i].source, ctx, id, n)) {
      assert gs[i] in multiset(fs);
    }
  }

  lemma BodyIsPutValues(fs: seq<Field>, gs: seq<Field>, ctx: Context, id: Json, n: nat)
    requires multiset(fs) == multiset(gs) && Pure(fs) && Sequences(fs) <= 1
    ensures Body(gs, ctx, id, n) == PutValues(gs, ctx, id, n, map[])
  {
    assert gs[0..] == gs;
    PurePermutes(fs, gs);
    SequencesPermute(fs, gs);
    BuildIsPutValues(gs, ctx, id, n, n, 0, map[]);
  }

  /** Some order builds: the longest names first. */
  lemma SomeOrderBuilds(fs: seq<Field>, ctx: Context, id: Json, n: nat) returns (gs: seq<Field>)
    requires Pure(fs) && Sequences(fs) <= 1 && Plain(fs, ctx, id, n)
    ensures multiset(gs) == multiset(fs) && Body(gs, ctx, id, n).Ok?
  {
    gs := LongestFirst(fs);
    LongestFirstSorts(fs);
    PlainPermutes(fs, gs, ctx, id, n);
    forall r: Path ensures !LeafAt(map[], r) { }
    BodyIsPutValues(fs, gs, ctx, id, n);
    hide Body, PutValues, LeafAt, LongestFirst;
    LongestFirstBuilds(gs, ctx, id, n, map[]);
  }

  /** All fields but i and j. */
  function Others(fs: seq<Field>, i: nat, j: nat): seq<Field>
    requires i < j < |fs|
  {
    fs[..i] + fs[i + 1..j] + fs[j + 1..]
  }

  /** Fields i and j first, in this order. */
  function PairFirst(fs: seq<Field>, i: nat, j: nat): seq<Field>
    requires i < |fs| && j < |fs| && i != j
  {
    [fs[i], fs[j]] + if i < j then Others(fs, i, j) else Others(fs, j, i)
  }

  lemma Pieces(fs: seq<Field>, i: nat, j: nat)
    requires i < j < |fs|
    ensures fs == fs[..i] + [fs[i]] + fs[i + 1..j] + [fs[j]] + fs[j + 1..]
  {
  }

  lemma PairFirstPermutes(fs: seq<Field>, i: nat, j: nat)
    requires i < |fs| && j < |fs| && i != j
    ensures multiset(PairFirst(fs, i, j)) == multiset(fs)
  {
    if i < j { PairFromOthers(fs, i, j); } else { PairFromOthers(fs, j, i); }
  }

  lemma PairFromOthers(fs: seq<Field>, i: nat, j: nat)
    requires i < j < |fs|
    ensures multiset([fs[i], fs[j]] + Others(fs, i, j)) == multiset(fs) == multiset([fs[j], fs[i]] + Others(fs, i, j))
  {
    Pieces(fs, i, j);
    PairAround(fs[..i], fs[i], fs[i + 1..j], fs[j], fs[j + 1..]);
  }

  lemma PairAround(a: seq<Field>, f: Field, b: seq<Field>, g: Field, c: seq<Field>)
    ensures multiset(a + [f] + b + [g] + c) == multiset([f, g] + (a + b + c)) == multiset([g, f] + (a + b + c))
  {
    assert multiset(a + [f] + b + [g] + c) == multiset(a) + multiset{f} + multiset(b) + multiset{g} + multiset(c);
    assert multiset([f, g] + (a + b + c)) == multiset{f, g} + multiset(a + b + c);
  }

  lemma PutValuesOfTwo(f: Field, g: Field, rest: seq<Field>, ctx: Context, id: Json, n: nat)
    requires var v, w := PureValue(f.source, ctx, id, n), PureValue(g.source, ctx, id, n);
      v.Some? && w.Some? && PutResult(Put(map[], f.path, v.value), g.path, w.value).Err?
    ensures PutValues([f, g] + rest, ctx, id, n, map[]).Err?
  {
    hide Put, PureValue;
    assert ([f, g] + rest)[1..] == [g] + rest;
  }

  /** And where a name is above another one, some order raises: that name first, the other one next. */
  lemma SomeOrderRaises(fs: seq<Field>, ctx: Context, id: Json, n: nat, i: nat, j: nat)
    requires Pure(fs) && Sequences(fs) <= 1 && Plain(fs, ctx, id, n)
    requires i < |fs| && j < |fs| && i != j && Above(fs[i].path, fs[j].path)
    ensures multiset(PairFirst(fs, i, j)) == multiset(fs) && Body(PairFirst(fs, i, j), ctx, id, n).Err?
  {
    var gs := PairFirst(fs, i, j);
    PairFirstPermutes(fs, i, j);
    BodyIsPutValues(fs, gs, ctx, id, n);
    assert IsLeaf(PureValue(fs[i].source, ctx, id, n)) && IsLeaf(PureValue(fs[j].source, ctx, id, n));
    var v, w := PureValue(fs[i].source, ctx, id, n).value, PureValue(fs[j].source, ctx, id, n).value;
    PrefixNamesClash(map[], fs[i].path, v.scalar, fs[j].path, w);
    PutValuesOfTwo(fs[i], fs[j], gs[2..], ctx, id, n);
    assert gs == [fs[i], fs[j]] + gs[2..];
  }

  /**
   * For distinct names with plain, repeatable values and at most one sequence number, the body does not depend on
   * the order of the fields exactly when no name is a prefix of another.
   */
  lemma OrderFreeIff(fs: seq<Field>, ctx: Context, id: Json, n: nat)
    requires Pure(fs) && Sequences(fs) <= 1 && Plain(fs, ctx, id, n) && DistinctNames(fs)
    ensures OrderFree(fs, ctx, id, n) <==> PrefixFree(fs)
  {
    if PrefixFree(fs) {
      forall gs: seq<Field> | multiset(gs) == multiset(fs) ensures Body(gs, ctx, id, n) == Body(fs, ctx, id, n) {
        BodyIgnoresFieldOrder(fs, gs, ctx, id, n);
      }
    } else {
      hide Pure, Plain, Body, PairFirst;
      var i, j :| 0 <= i < j < |fs| && !Apart(fs[i].path, fs[j].path);
      var gs := SomeOrderBuilds(fs, ctx, id, n);
      if fs[i].path <= fs[j].path {
        SomeOrderRaises(fs, ctx, id, n, i, j);
      } else {
        SomeOrderRaises(fs, ctx, id, n, j, i);
      }
    }
  }
}
