/** schema/client.py: building a nested request body from dotted field names, and the session's sequence numbers. */
module PolicyClient {
  import opened Outcomes

  datatype Scalar = Null | Number(n: int) | Data(bytes: string)

  datatype Json = Leaf(scalar: Scalar) | Dict(fields: Tree)

  type Tree = map<string, Json>

  /** A dotted name, split at its dots. */
  type Path = p: seq<string> | p != [] witness [""]

  // ------------------------------------------------------------ assigning at a path

  /** _assign_nested: Err when the walk meets a value that is not a dict. */
  function Put(tree: Tree, path: Path, v: Json): Result<Tree>
    decreases |path|
  {
    if |path| == 1 then Ok(tree[path[0] := v])
    else
      match if path[0] in tree then tree[path[0]] else Dict(map[])
      case Leaf(_) => Err
      case Dict(sub) =>
        match Put(sub, path[1..], v)
        case Err => Err
        case Ok(inner) => Ok(tree[path[0] := Dict(inner)])
  }

  function Lookup(tree: Tree, path: Path): Option<Json>
    decreases |path|
  {
    if path[0] !in tree then None
    else if |path| == 1 then Some(tree[path[0]])
    else
      match tree[path[0]]
      case Leaf(_) => None
      case Dict(sub) => Lookup(sub, path[1..])
  }

  /** Neither name is a dotted prefix of the other. */
  predicate Apart(p: Path, q: Path) { !(p <= q) && !(q <= p) }

  /** Some proper prefix of the path holds a value that is not a dict. */
  predicate Blocked(tree: Tree, path: Path) {
    exists k | 0 < k < |path| :: LeafAt(tree, path[..k])
  }

  predicate LeafAt(tree: Tree, path: Path) { Lookup(tree, path).Some? && Lookup(tree, path).value.Leaf? }

  lemma {:induction false} PutFailsIff(tree: Tree, path: Path, v: Json)
    ensures Put(tree, path, v).Err? <==> Blocked(tree, path)
    decreases |path|
  {
    if |path| > 1 {
      var rest: Path := path[1..];
      if path[0] in tree && tree[path[0]].Leaf? {
        assert LeafAt(tree, path[..1]);
      } else if path[0] in tree {
        var sub := tree[path[0]].fields;
        PutFailsIff(sub, rest, v);
        if Blocked(sub, rest) {
          var k :| 0 < k < |rest| && LeafAt(sub, rest[..k]);
          assert path[..k + 1][1..] == rest[..k];
          assert LeafAt(tree, path[..k + 1]);
        }
        if Blocked(tree, path) {
          var k :| 0 < k < |path| && LeafAt(tree, path[..k]);
          assert path[..k][1..] == rest[..k - 1];
          assert LeafAt(sub, rest[..k - 1]);
        }
      } else {
        PutFailsIff(map[], rest, v);
      }
    }
  }

  /** The value is found at its own path. */
  lemma {:induction false} PutThenLookup(tree: Tree, path: Path, v: Json)
    requires Put(tree, path, v).Ok?
    ensures Lookup(Put(tree, path, v).value, path) == Some(v)
    decreases |path|
  {
    if |path| > 1 {
      var sub := if path[0] in tree then tree[path[0]].fields else map[];
      PutThenLookup(sub, path[1..], v);
    }
  }

  lemma ApartTails(p: Path, q: Path)
    requires Apart(p, q) && p[0] == q[0]
    ensures |p| > 1 && |q| > 1 && Apart(p[1..], q[1..])
  {
  }

  /** No other path is disturbed. */
  lemma {:induction false} PutKeepsOthers(tree: Tree, p: Path, v: Json, q: Path)
    requires Put(tree, p, v).Ok? && Apart(p, q)
    ensures Lookup(Put(tree, p, v).value, q) == Lookup(tree, q)
    decreases |p|
  {
    if p[0] == q[0] {
      ApartTails(p, q);
      var sub := if p[0] in tree then tree[p[0]].fields else map[];
      PutKeepsOthers(sub, p[1..], v, q[1..]);
    }
  }

  function PutResult(r: Result<Tree>, path: Path, v: Json): Result<Tree> {
    match r case Err => Err case Ok(tree) => Put(tree, path, v)
  }

  /** Put replaces one entry, and looks at no other. */
  lemma {:induction false} PutTouchesOneKey(tree: Tree, other: Tree, p: Path, v: Json)
    requires p[0] in tree <==> p[0] in other
    requires p[0] in tree ==> tree[p[0]] == other[p[0]]
    ensures Put(tree, p, v).Ok? <==> Put(other, p, v).Ok?
    ensures Put(tree, p, v).Ok? ==>
      p[0] in Put(tree, p, v).value &&
      var j := Put(tree, p, v).value[p[0]];
      Put(tree, p, v).value == tree[p[0] := j] && Put(other, p, v).value == other[p[0] := j]
  {
  }

  /** Assignments at paths apart commute, errors included. */
  lemma {:induction false} PutsCommute(tree: Tree, p: Path, v: Json, q: Path, w: Json)
    requires Apart(p, q)
    ensures PutResult(Put(tree, p, v), q, w) == PutResult(Put(tree, q, w), p, v)
    decreases |p|
  {
    if p[0] == q[0] {
      ApartTails(p, q);
      if p[0] !in tree || tree[p[0]].Dict? {
        var sub := if p[0] in tree then tree[p[0]].fields else map[];
        PutsCommute(sub, p[1..], v, q[1..], w);
        NestedPuts(tree, sub, p, v, q, w);
        NestedPuts(tree, sub, q, w, p, v);
      }
    } else {
      SeparatePuts(tree, p, v, q, w);
    }
  }

  lemma SeparatePuts(tree: Tree, p: Path, v: Json, q: Path, w: Json)
    requires p[0] != q[0]
    ensures PutResult(Put(tree, p, v), q, w) == PutResult(Put(tree, q, w), p, v)
    ensures Put(tree, p, v).Ok? && Put(tree, q, w).Ok? ==> PutResult(Put(tree, p, v), q, w).Ok?
  {
    PutTouchesOneKey(tree, tree, p, v);
    PutTouchesOneKey(tree, tree, q, w);
    hide Put;
    if Put(tree, p, v).Ok? { PutTouchesOneKey(tree, Put(tree, p, v).value, q, w); }
    if Put(tree, q, w).Ok? { PutTouchesOneKey(tree, Put(tree, q, w).value, p, v); }
    if Put(tree, p, v).Ok? && Put(tree, q, w).Ok? {
      var i, j := Put(tree, p, v).value[p[0]], Put(tree, q, w).value[q[0]];
      assert tree[p[0] := i][q[0] := j] == tree[q[0] := j][p[0] := i];
    }
  }

  /** Of two assignments at paths apart, neither blocks the other. */
  lemma {:induction false} PutsDoNotBlock(tree: Tree, p: Path, v: Json, q: Path, w: Json)
    requires Apart(p, q) && Put(tree, p, v).Ok? && Put(tree, q, w).Ok?
    ensures PutResult(Put(tree, p, v), q, w).Ok?
    decreases |p|
  {
    if p[0] == q[0] {
      ApartTails(p, q);
      var sub := if p[0] in tree then tree[p[0]].fields else map[];
      PutsDoNotBlock(sub, p[1..], v, q[1..], w);
      NestedPuts(tree, sub, p, v, q, w);
    } else {
      SeparatePuts(tree, p, v, q, w);
    }
  }

  function Inside(tree: Tree, key: string, r: Result<Tree>): Result<Tree> {
    match r case Err => Err case Ok(sub) => Ok(tree[key := Dict(sub)])
  }

  /** Two assignments below the same key happen in its dict. */
  lemma NestedPuts(tree: Tree, sub: Tree, p: Path, v: Json, q: Path, w: Json)
    requires |p| > 1 && |q| > 1 && p[0] == q[0]
    requires if p[0] in tree then tree[p[0]] == Dict(sub) else sub == map[]
    ensures PutResult(Put(tree, p, v), q, w) == Inside(tree, p[0], PutResult(Put(sub, p[1..], v), q[1..], w))
  {
    match Put(sub, p[1..], v)
    case Err =>
    case Ok(inner) =>
      var mid := tree[p[0] := Dict(inner)];
      assert Put(tree, p, v) == Ok(mid);
      match Put(inner, q[1..], w)
      case Err =>
      case Ok(last) => assert mid[p[0] := Dict(last)] == tree[p[0] := Dict(last)];
  }

  // ------------------------------------------------------------ building a body

  /** Where a field's value comes from; External sources are resolved and encoded by the context. */
  datatype Source = SessionId | Sequence | RequestId | Timestamp | UnknownSession | External(detail: string)

  datatype Field = Field(path: Path, source: Source)

  /** What the world supplies while one body is built: None where resolving or encoding raises. */
  datatype Context = Context(external: string -> Option<Json>, requestId: nat -> Json, timestamp: nat -> Json)

  /** The value of field number i, and the sequence counter after it. */
  function Resolve(src: Source, ctx: Context, id: Json, n: nat, i: nat): (Option<Json>, nat) {
    match src
    case SessionId => (Some(id), n)
    case Sequence => (Some(Leaf(Number(n))), n + 1)
    case RequestId => (Some(ctx.requestId(i)), n)
    case Timestamp => (Some(ctx.timestamp(i)), n)
    case UnknownSession => (None, n)
    case External(detail) => (ctx.external(detail), n)
  }

  /** The body built from the fields from number i on, into tree, and the counter after it, raised or not. */
  function Build(fields: seq<Field>, ctx: Context, id: Json, n: nat, i: nat, tree: Tree): (Result<Tree>, nat)
    requires i <= |fields|
    decreases |fields| - i
  {
    if i == |fields| then (Ok(tree), n)
    else
      var r := Resolve(fields[i].source, ctx, id, n, i);
      if r.0.None? then (Err, r.1)
      else
        match Put(tree, fields[i].path, r.0.value)
        case Err => (Err, r.1)
        case Ok(next) => Build(fields, ctx, id, r.1, i + 1, next)
  }

  /** No dotted name is a prefix of another, and none occurs twice. */
  predicate PrefixFree(fields: seq<Field>) {
    forall i, j | 0 <= i < j < |fields| :: Apart(fields[i].path, fields[j].path)
  }

  class PolicyClient {
    const fields: seq<Field>
    const resetFields: seq<Field>
    const instructionField: Option<Path>
    var sessionId: Json
    var sequence: nat

    constructor (fs: seq<Field>, resets: seq<Field>, instruction: Option<Path>)
      ensures fields == fs && resetFields == resets && instructionField == instruction
      ensures sessionId == Leaf(Null) && sequence == 0
    {
      fields, resetFields, instructionField := fs, resets, instruction;
      sessionId := Leaf(Null);
      sequence := 0;
    }

    method ResolveSessionSource(src: Source, ctx: Context, i: nat) returns (v: Option<Json>)
      modifies this`sequence
      ensures (v, sequence) == Resolve(src, ctx, sessionId, old(sequence), i)
    {
      match src {
        case SessionId => v := Some(sessionId);
        case Sequence =>
          v := Some(Leaf(Number(sequence)));
          sequence := sequence + 1;
        case RequestId => v := Some(ctx.requestId(i));
        case Timestamp => v := Some(ctx.timestamp(i));
        case UnknownSession => v := None;
        case External(detail) => v := ctx.external(detail);
      }
    }

    method BuildBody(fs: seq<Field>, ctx: Context) returns (r: Result<Tree>)
      modifies this`sequence
      ensures (r, sequence) == Build(fs, ctx, sessionId, old(sequence), 0, map[])
    {
      var payload: Tree := map[];
      for i := 0 to |fs|
        invariant Build(fs, ctx, sessionId, sequence, i, payload) == Build(fs, ctx, sessionId, old(sequence), 0, map[])
      {
        var raw := ResolveSessionSource(fs[i].source, ctx, i);
        if raw.None? {
          return Err;
        }
        match Put(payload, fs[i].path, raw.value) {
          case Err => return Err;
          case Ok(next) => payload := next;
        }
      }
      r := Ok(payload);
    }

    /** The counter restarts before the server answers, so it restarts even when the request fails. */
    method Reset(instruction: Option<Json>, bare: Context, reply: Result<Json>) returns (sent: Result<Tree>, ok: bool)
      modifies this
      ensures sent == ResetBody(resetFields, instructionField, instruction, bare, old(sessionId), old(sequence)).0
      ensures ok <==> sent.Ok? && reply.Ok?
      ensures sent.Ok? ==> sequence == 0 && sessionId == if ok then reply.value else old(sessionId)
      ensures sent.Err? ==> sessionId == old(sessionId)
      ensures sent.Err? ==>
        sequence == ResetBody(resetFields, instructionField, instruction, bare, old(sessionId), old(sequence)).1
      ensures Bookkeeping(sessionId, sequence) ==
        AfterReset(resetFields, instructionField, Bookkeeping(old(sessionId), old(sequence)), instruction, bare, reply)
    {
      sent := BuildBody(resetFields, bare);
      if sent.Err? {
        return Err, false;
      }
      if instructionField.Some? && instruction.Some? {
        sent := Put(sent.value, instructionField.value, instruction.value);
        if sent.Err? {
          return Err, false;
        }
      }
      sequence := 0;
      ok := reply.Ok?;
      if ok {
        sessionId := reply.value;
      }
    }

    /** The payload sent is the built body; a body that raises sends nothing. */
    method Predict(ctx: Context) returns (sent: Result<Tree>)
      modifies this`sequence
      ensures (sent, sequence) == Build(fields, ctx, sessionId, old(sequence), 0, map[])
    {
      sent := BuildBody(fields, ctx);
    }
  }

  /** The session bookkeeping: the id the server gave and the counter. */
  datatype Bookkeeping = Bookkeeping(id: Json, n: nat)

  /** What a reset leaves of it; a reply without an id carries null. */
  function AfterReset(fs: seq<Field>, at: Option<Path>, s: Bookkeeping, instruction: Option<Json>, bare: Context,
                      reply: Result<Json>): Bookkeeping
  {
    var r := ResetBody(fs, at, instruction, bare, s.id, s.n);
    if r.0.Err? then Bookkeeping(s.id, r.1) else Bookkeeping(if reply.Ok? then reply.value else s.id, 0)
  }

  /** The body reset() posts, with the instruction merged in, and the counter after building it. */
  function ResetBody(fs: seq<Field>, at: Option<Path>, instruction: Option<Json>, bare: Context, id: Json, n: nat)
    : (Result<Tree>, nat)
  {
    var r := Build(fs, bare, id, n, 0, map[]);
    if at.Some? && instruction.Some? then (PutResult(r.0, at.value, instruction.value), r.1) else r
  }

  // ------------------------------------------------------------ the order of fields does not matter

  /** The value of a source when the counter stands at n; request ids and timestamps are not repeatable. */
  function PureValue(src: Source, ctx: Context, id: Json, n: nat): Option<Json> {
    match src
    case Sequence => Some(Leaf(Number(n)))
    case _ => Resolve(src, ctx, id, n, 0).0
  }

  predicate Pure(fields: seq<Field>) {
    forall i | 0 <= i < |fields| :: !fields[i].source.RequestId? && !fields[i].source.Timestamp?
  }

  function Sequences(fields: seq<Field>): nat {
    if fields == [] then 0 else (if fields[0].source.Sequence? then 1 else 0) + Sequences(fields[1..])
  }

  /** All fields assigned in order, the counter standing at n. */
  function PutValues(fields: seq<Field>, ctx: Context, id: Json, n: nat, tree: Tree): Result<Tree> {
    if fields == [] then Ok(tree)
    else
      match PureValue(fields[0].source, ctx, id, n)
      case None => Err
      case Some(v) =>
        match Put(tree, fields[0].path, v)
        case Err => Err
        case Ok(next) => PutValues(fields[1..], ctx, id, n, next)
  }

  lemma SwapFirstTwo(f: Field, g: Field, rest: seq<Field>, ctx: Context, id: Json, n: nat, tree: Tree)
    requires Apart(f.path, g.path)
    ensures PutValues([f, g] + rest, ctx, id, n, tree) == PutValues([g, f] + rest, ctx, id, n, tree)
  {
    assert ([f, g] + rest)[1..] == [g] + rest && ([g] + rest)[1..] == rest;
    assert ([g, f] + rest)[1..] == [f] + rest && ([f] + rest)[1..] == rest;
    var v, w := PureValue(f.source, ctx, id, n), PureValue(g.source, ctx, id, n);
    if v.Some? && w.Some? {
      PutsCommute(tree, f.path, v.value, g.path, w.value);
      hide Put, PureValue;
    }
  }

  lemma {:induction false} MoveToFront(a: seq<Field>, f: Field, b: seq<Field>, ctx: Context, id: Json, n: nat,
                                       tree: Tree)
    requires forall i | 0 <= i < |a| :: Apart(a[i].path, f.path)
    ensures PutValues(a + [f] + b, ctx, id, n, tree) == PutValues([f] + a + b, ctx, id, n, tree)
  {
    if a == [] {
      assert a + [f] + b == [f] + a + b;
    } else {
      var g, rest := a[0], a[1..];
      hide Put, PureValue, Apart;
      assert (a + [f] + b)[1..] == rest + [f] + b;
      assert ([g, f] + (rest + b))[1..] == [f] + rest + b;
      assert [f] + a + b == [f, g] + (rest + b);
      var v := PureValue(g.source, ctx, id, n);
      if v.Some? && Put(tree, g.path, v.value).Ok? {
        MoveToFront(rest, f, b, ctx, id, n, Put(tree, g.path, v.value).value);
      }
      assert PutValues(a + [f] + b, ctx, id, n, tree) == PutValues([g, f] + (rest + b), ctx, id, n, tree);
      SwapFirstTwo(g, f, rest + b, ctx, id, n, tree);
    }
  }

  /** In a permutation, the first field sits somewhere, among a permutation of the rest. */
  lemma PullOut(fs: seq<Field>, gs: seq<Field>) returns (a: seq<Field>, b: seq<Field>)
    requires fs != [] && multiset(fs) == multiset(gs)
    ensures gs == a + [fs[0]] + b && multiset(a + b) == multiset(fs[1..])
  {
    var f := fs[0];
    assert fs == [f] + fs[1..];
    assert f in multiset(gs);
    var i :| 0 <= i < |gs| && gs[i] == f;
    a, b := gs[..i], gs[i + 1..];
    assert gs == a + [f] + b;
    assert multiset(gs) == multiset(a) + multiset{f} + multiset(b);
    assert multiset(a + b) == multiset(gs) - multiset{f};
    assert multiset(fs[1..]) == multiset(fs) - multiset{f};
  }

  lemma ApartFromRest(fs: seq<Field>, a: seq<Field>, b: seq<Field>)
    requires PrefixFree(fs) && fs != [] && multiset(a + b) == multiset(fs[1..])
    ensures forall k | 0 <= k < |a| :: Apart(a[k].path, fs[0].path)
    ensures PrefixFree(fs[1..])
  {
    var rest := fs[1..];
    forall k | 0 <= k < |a| ensures Apart(a[k].path, fs[0].path) {
      assert (a + b)[k] in multiset(a + b);
      assert a[k] in multiset(rest);
      var j :| 0 <= j < |rest| && rest[j] == a[k];
      assert Apart(fs[0].path, fs[j + 1].path);
    }
    forall x, y | 0 <= x < y < |rest| ensures Apart(rest[x].path, rest[y].path) {
      assert Apart(fs[x + 1].path, fs[y + 1].path);
    }
  }

  lemma {:induction false} PutValuesPermutes(fs: seq<Field>, gs: seq<Field>, ctx: Context, id: Json, n: nat, tree: Tree)
    requires PrefixFree(fs) && multiset(fs) == multiset(gs)
    ensures PutValues(fs, ctx, id, n, tree) == PutValues(gs, ctx, id, n, tree)
  {
    if fs == [] {
      assert |multiset(gs)| == 0;
      assert gs == [];
    } else {
      hide Put, PureValue, PrefixFree, Apart;
      var f, rest := fs[0], fs[1..];
      var a, b := PullOut(fs, gs);
      ApartFromRest(fs, a, b);
      MoveToFront(a, f, b, ctx, id, n, tree);
      assert ([f] + a + b)[1..] == a + b;
      var v := PureValue(f.source, ctx, id, n);
      if v.Some? && Put(tree, f.path, v.value).Ok? {
        PutValuesPermutes(rest, a + b, ctx, id, n, Put(tree, f.path, v.value).value);
      }
    }
  }

  /** With repeatable sources and at most one sequence field, the body is the plain assignment of the values. */
  lemma {:induction false} BuildIsPutValues(fields: seq<Field>, ctx: Context, id: Json, n: nat, m: nat, i: nat,
                                            tree: Tree)
    requires i <= |fields| && Pure(fields)
    requires if Sequences(fields[i..]) == 0 then true else Sequences(fields[i..]) == 1 && m == n
    ensures Build(fields, ctx, id, m, i, tree).0 == PutValues(fields[i..], ctx, id, n, tree)
    decreases |fields| - i
  {
    if i < |fields| {
      var rest := fields[i..];
      assert rest[0] == fields[i] && rest[1..] == fields[i + 1..];
      var r := Resolve(fields[i].source, ctx, id, m, i);
      assert r.0 == PureValue(fields[i].source, ctx, id, n);
      hide PureValue, Put;
      if r.0.Some? && Put(tree, fields[i].path, r.0.value).Ok? {
        BuildIsPutValues(fields, ctx, id, n, r.1, i + 1, Put(tree, fields[i].path, r.0.value).value);
      }
    }
  }

  lemma {:induction false} SequencesSplit(a: seq<Field>, b: seq<Field>)
    ensures Sequences(a + b) == Sequences(a) + Sequences(b)
  {
    if a == [] {
      assert a + b == b;
    } else {
      assert (a + b)[1..] == a[1..] + b;
      SequencesSplit(a[1..], b);
    }
  }

  lemma {:induction false} SequencesPermute(fs: seq<Field>, gs: seq<Field>)
    requires multiset(fs) == multiset(gs)
    ensures Sequences(fs) == Sequences(gs)
  {
    if fs == [] {
      assert |multiset(gs)| == 0;
      assert gs == [];
    } else {
      var a, b := PullOut(fs, gs);
      SequencesPermute(fs[1..], a + b);
      SequencesSplit(a + [fs[0]], b);
      SequencesSplit(a, [fs[0]]);
      SequencesSplit(a, b);
    }
  }

  lemma PurePermutes(fs: seq<Field>, gs: seq<Field>)
    requires multiset(fs) == multiset(gs) && Pure(fs)
    ensures Pure(gs)
  {
    forall i | 0 <= i < |gs| ensures !gs[i].source.RequestId? && !gs[i].source.Timestamp? {
      assert gs[i] in multiset(fs);
    }
  }

  /**
   * For prefix-free names and repeatable sources with at most one sequence number, the body, or the fact that
   * it cannot be built, is the same in any order of the fields.
   */
  lemma BodyIgnoresFieldOrder(fs: seq<Field>, gs: seq<Field>, ctx: Context, id: Json, n: nat)
    requires multiset(fs) == multiset(gs) && PrefixFree(fs) && Pure(fs) && Sequences(fs) <= 1
    ensures Build(fs, ctx, id, n, 0, map[]).0 == Build(gs, ctx, id, n, 0, map[]).0
  {
    assert fs[0..] == fs && gs[0..] == gs;
    PurePermutes(fs, gs);
    SequencesPermute(fs, gs);
    hide Pure, PrefixFree, Build, PutValues;
    BuildIsPutValues(fs, ctx, id, n, n, 0, map[]);
    BuildIsPutValues(gs, ctx, id, n, n, 0, map[]);
    PutValuesPermutes(fs, gs, ctx, id, n, map[]);
  }

  /** p is a dotted prefix of q and shorter. */
  predicate Above(p: Path, q: Path) { p <= q && p != q }

  lemma {:induction false} BelowLeaf(tree: Tree, p: Path, q: Path)
    requires Above(p, q) && LeafAt(tree, p)
    ensures Lookup(tree, q).None?
    decreases |p|
  {
    if |p| > 1 {
      assert q[1..][..|p| - 1] == p[1..];
      BelowLeaf(tree[p[0]].fields, p[1..], q[1..]);
    }
  }

  /** What can be assigned at a longer name can be assigned above it afterwards. */
  lemma {:induction false} PutAbove(tree: Tree, q: Path, w: Json, p: Path, v: Json)
    requires Above(p, q) && Put(tree, q, w).Ok?
    ensures Put(Put(tree, q, w).value, p, v).Ok?
    decreases |p|
  {
    if |p| > 1 {
      assert q[1..][..|p| - 1] == p[1..];
      PutAbove(if q[0] in tree then tree[q[0]].fields else map[], q[1..], w, p[1..], v);
    }
  }

  /**
   * With one name a dotted prefix of another, whatever was assigned before: a plain value at the shorter name makes
   * the longer one raise, and in the other order it drops the value at the longer one.
   */
  lemma PrefixNamesClash(tree: Tree, p: Path, v: Scalar, q: Path, w: Json)
    requires Above(p, q)
    ensures PutResult(Put(tree, p, Leaf(v)), q, w).Err?
    ensures var last := PutResult(Put(tree, q, w), p, Leaf(v));
      && (last.Ok? <==> Put(tree, q, w).Ok?)
      && (last.Ok? ==> Lookup(last.value, p) == Some(Leaf(v)) && Lookup(last.value, q).None?)
  {
    hide Put, Lookup;
    if Put(tree, p, Leaf(v)).Ok? {
      var next := Put(tree, p, Leaf(v)).value;
      PutThenLookup(tree, p, Leaf(v));
      assert q[..|p|] == p;
      assert LeafAt(next, q[..|p|]);
      PutFailsIff(next, q, w);
    }
    if Put(tree, q, w).Ok? {
      var next := Put(tree, q, w).value;
      PutAbove(tree, q, w, p, Leaf(v));
      PutThenLookup(next, p, Leaf(v));
      BelowLeaf(Put(next, p, Leaf(v)).value, p, q);
    }
  }

  /**
   * Two plain values at different names commute exactly when neither name is a prefix of the other, or the longer
   * one cannot be assigned anyway; on the empty tree, exactly when neither is a prefix of the other.
   */
  lemma LeavesCommuteIff(tree: Tree, p: Path, v: Scalar, q: Path, w: Scalar)
    requires p != q
    ensures PutResult(Put(tree, p, Leaf(v)), q, Leaf(w)) == PutResult(Put(tree, q, Leaf(w)), p, Leaf(v))
      <==> Apart(p, q) || Put(tree, if p <= q then q else p, Leaf(if p <= q then w else v)).Err?
    ensures Put(map[], p, Leaf(v)).Ok? && Put(map[], q, Leaf(w)).Ok?
  {
    EmptyIsOpen(p, Leaf(v));
    EmptyIsOpen(q, Leaf(w));
    hide Put;
    if Apart(p, q) {
      PutsCommute(tree, p, Leaf(v), q, Leaf(w));
    } else if p <= q {
      PrefixNamesClash(tree, p, v, q, Leaf(w));
    } else {
      PrefixNamesClash(tree, q, w, p, Leaf(v));
    }
  }

  // ------------------------------------------------------------ every value is at its own path

  /** The counter when field number j is resolved. */
  function CounterAt(fields: seq<Field>, n: nat, j: nat): nat
    requires j <= |fields|
  {
    n + Sequences(fields[..j])
  }

  lemma CounterSteps(fields: seq<Field>, n: nat, j: nat)
    requires j < |fields|
    ensures CounterAt(fields, n, j + 1) == CounterAt(fields, n, j) + if fields[j].source.Sequence? then 1 else 0
  {
    assert fields[..j + 1] == fields[..j] + [fields[j]];
    SequencesSplit(fields[..j], [fields[j]]);
  }

  predicate AllResolve(fields: seq<Field>, ctx: Context) {
    forall i | 0 <= i < |fields| :: match fields[i].source
      case UnknownSession => false
      case External(detail) => ctx.external(detail).Some?
      case _ => true
  }

  /** The value that field number j contributes to a body begun with the counter at n. */
  function ValueOf(fields: seq<Field>, ctx: Context, id: Json, n: nat, j: nat): Option<Json>
    requires j < |fields|
  {
    Resolve(fields[j].source, ctx, id, CounterAt(fields, n, j), j).0
  }

  /** Every field still to come can be assigned. */
  ghost predicate Open(fields: seq<Field>, i: nat, tree: Tree) {
    forall j, v | i <= j < |fields| :: Put(tree, fields[j].path, v).Ok?
  }

  lemma OpenStays(fields: seq<Field>, i: nat, tree: Tree, v: Json)
    requires i < |fields| && PrefixFree(fields) && Open(fields, i, tree)
    ensures Put(tree, fields[i].path, v).Ok?
    ensures Open(fields, i + 1, Put(tree, fields[i].path, v).value)
  {
    assert Put(tree, fields[i].path, v).Ok?;
    var next := Put(tree, fields[i].path, v).value;
    forall j, w | i + 1 <= j < |fields| ensures Put(next, fields[j].path, w).Ok? {
      assert Put(tree, fields[j].path, w).Ok?;
      assert Apart(fields[i].path, fields[j].path);
      PutsDoNotBlock(tree, fields[i].path, v, fields[j].path, w);
    }
  }

  lemma {:induction false} EmptyIsOpen(path: Path, v: Json)
    ensures Put(map[], path, v).Ok?
    decreases |path|
  {
    if |path| > 1 {
      EmptyIsOpen(path[1..], v);
    }
  }

  /** The first i fields sit at their paths, and the others can still be assigned. */
  ghost predicate Placed(fields: seq<Field>, ctx: Context, id: Json, n: nat, i: nat, tree: Tree)
    requires i <= |fields|
  {
    && Open(fields, i, tree)
    && forall j | 0 <= j < i :: Lookup(tree, fields[j].path) == ValueOf(fields, ctx, id, n, j)
  }

  lemma PlaceNext(fields: seq<Field>, ctx: Context, id: Json, n: nat, i: nat, tree: Tree, v: Json)
    requires i < |fields| && PrefixFree(fields) && Placed(fields, ctx, id, n, i, tree)
    requires ValueOf(fields, ctx, id, n, i) == Some(v)
    ensures Put(tree, fields[i].path, v).Ok?
    ensures Placed(fields, ctx, id, n, i + 1, Put(tree, fields[i].path, v).value)
  {
    OpenStays(fields, i, tree, v);
    PutThenLookup(tree, fields[i].path, v);
    var next := Put(tree, fields[i].path, v).value;
    forall j | 0 <= j < i ensures Lookup(next, fields[j].path) == Lookup(tree, fields[j].path) {
      assert Apart(fields[j].path, fields[i].path);
      PutKeepsOthers(tree, fields[i].path, v, fields[j].path);
    }
    hide Put, Lookup, Open, PrefixFree, Apart, ValueOf;
  }

  lemma ResolvesAt(fields: seq<Field>, ctx: Context, id: Json, n: nat, i: nat)
    requires i < |fields| && AllResolve(fields, ctx)
    ensures var r := Resolve(fields[i].source, ctx, id, CounterAt(fields, n, i), i);
      r.0.Some? && r.0 == ValueOf(fields, ctx, id, n, i) && r.1 == CounterAt(fields, n, i + 1)
  {
    CounterSteps(fields, n, i);
    hide CounterAt;
  }

  lemma {:induction false} BuildFrom(fields: seq<Field>, ctx: Context, id: Json, n: nat, i: nat, tree: Tree)
    requires i <= |fields| && PrefixFree(fields) && AllResolve(fields, ctx) && Placed(fields, ctx, id, n, i, tree)
    ensures var r := Build(fields, ctx, id, CounterAt(fields, n, i), i, tree);
      r.0.Ok? && r.1 == CounterAt(fields, n, |fields|) && Placed(fields, ctx, id, n, |fields|, r.0.value)
    decreases |fields| - i
  {
    hide Put, Lookup, Open, PrefixFree, CounterAt, Placed, Resolve, ValueOf, AllResolve;
    if i < |fields| {
      ResolvesAt(fields, ctx, id, n, i);
      var v := ValueOf(fields, ctx, id, n, i).value;
      PlaceNext(fields, ctx, id, n, i, tree, v);
      BuildFrom(fields, ctx, id, n, i + 1, Put(tree, fields[i].path, v).value);
    }
  }

  /** A body over prefix-free names whose sources resolve is always built, with each value at its own path. */
  lemma EveryFieldAtItsPath(fields: seq<Field>, ctx: Context, id: Json, n: nat)
    requires PrefixFree(fields) && AllResolve(fields, ctx)
    ensures var r := Build(fields, ctx, id, n, 0, map[]);
      && r.0.Ok? && r.1 == n + Sequences(fields)
      && forall j | 0 <= j < |fields| :: Lookup(r.0.value, fields[j].path) == ValueOf(fields, ctx, id, n, j)
  {
    assert fields[..0] == [] && fields[..|fields|] == fields;
    forall j, v | 0 <= j < |fields| ensures Put(map[], fields[j].path, v).Ok? {
      EmptyIsOpen(fields[j].path, v);
    }
    BuildFrom(fields, ctx, id, n, 0, map[]);
  }

  // ------------------------------------------------------------ sequence numbers over a run

  /** The bodies of successive predict calls, from a counter at n; a call whose body raises sends Err. */
  function Calls(fields: seq<Field>, ctxs: seq<Context>, id: Json, n: nat): seq<Result<Tree>> {
    if ctxs == [] then []
    else
      var r := Build(fields, ctxs[0], id, n, 0, map[]);
      [r.0] + Calls(fields, ctxs[1..], id, r.1)
  }

  lemma {:induction false} CallsLength(fields: seq<Field>, ctxs: seq<Context>, id: Json, n: nat)
    ensures |Calls(fields, ctxs, id, n)| == |ctxs|
  {
    if ctxs != [] {
      var r := Build(fields, ctxs[0], id, n, 0, map[]);
      CallsLength(fields, ctxs[1..], id, r.1);
    }
  }

  /** The sequence number a body carries at path at. */
  predicate Carries(body: Result<Tree>, at: Path, n: int) {
    body.Ok? && Lookup(body.value, at) == Some(Leaf(Number(n)))
  }

  lemma OnlySequence(fields: seq<Field>, s: nat)
    requires s < |fields| && fields[s].source.Sequence? && Sequences(fields) == 1
    ensures Sequences(fields[..s]) == 0
  {
    assert fields == fields[..s] + ([fields[s]] + fields[s + 1..]);
    SequencesSplit(fields[..s], [fields[s]] + fields[s + 1..]);
    SequencesSplit([fields[s]], fields[s + 1..]);
  }

  /** With one session:sequence field, the i-th call of a session numbers its body i. */
  lemma {:induction false} SequenceNumbers(fields: seq<Field>, ctxs: seq<Context>, id: Json, n: nat, s: nat, i: nat)
    requires PrefixFree(fields) && s < |fields| && fields[s].source.Sequence? && Sequences(fields) == 1
    requires i < |ctxs| && forall k | 0 <= k <= i :: AllResolve(fields, ctxs[k])
    ensures i < |Calls(fields, ctxs, id, n)| && Carries(Calls(fields, ctxs, id, n)[i], fields[s].path, n + i)
  {
    CallsLength(fields, ctxs, id, n);
    EveryFieldAtItsPath(fields, ctxs[0], id, n);
    hide PrefixFree, AllResolve, Build, Lookup;
    if i == 0 {
      OnlySequence(fields, s);
    } else {
      SequenceNumbers(fields, ctxs[1..], id, n + 1, s, i - 1);
    }
  }

  /** The counter before call number i. */
  function CallCounter(fields: seq<Field>, ctxs: seq<Context>, id: Json, n: nat, i: nat): nat
    requires i <= |ctxs|
  {
    if i == 0 then n else CallCounter(fields, ctxs[1..], id, Build(fields, ctxs[0], id, n, 0, map[]).1, i - 1)
  }

  lemma {:induction false} BuildAdvances(fields: seq<Field>, ctx: Context, id: Json, n: nat, i: nat, tree: Tree)
    requires i <= |fields|
    ensures var r := Build(fields, ctx, id, n, i, tree);
      && r.1 >= n
      && (r.0.Ok? ==> AllResolve(fields[i..], ctx))
    decreases |fields| - i
  {
    if i < |fields| {
      var rest := fields[i..];
      assert rest[1..] == fields[i + 1..] && rest[0] == fields[i];
      var r := Resolve(fields[i].source, ctx, id, n, i);
      hide Put;
      if r.0.Some? && Put(tree, fields[i].path, r.0.value).Ok? {
        BuildAdvances(fields, ctx, id, r.1, i + 1, Put(tree, fields[i].path, r.0.value).value);
        if AllResolve(rest[1..], ctx) {
          forall k | 0 <= k < |rest| ensures match rest[k].source
              case UnknownSession => false
              case External(detail) => ctx.external(detail).Some?
              case _ => true {
            if k > 0 { assert rest[k] == rest[1..][k - 1]; }
          }
        }
      }
    }
  }

  /**
   * Among calls of which some fail to build their body, those that are sent carry strictly increasing
   * numbers: call i carries the counter before it, and every later call starts beyond it.
   */
  lemma {:induction false} SentNumbersIncrease(fields: seq<Field>, ctxs: seq<Context>, id: Json, n: nat, s: nat,
                                               i: nat, j: nat)
    requires PrefixFree(fields) && s < |fields| && fields[s].source.Sequence? && Sequences(fields) == 1
    requires i < j <= |ctxs|
    ensures |Calls(fields, ctxs, id, n)| == |ctxs|
    ensures CallCounter(fields, ctxs, id, n, i) <= CallCounter(fields, ctxs, id, n, j)
    ensures Calls(fields, ctxs, id, n)[i].Ok? ==>
      && Carries(Calls(fields, ctxs, id, n)[i], fields[s].path, CallCounter(fields, ctxs, id, n, i))
      && CallCounter(fields, ctxs, id, n, i) < CallCounter(fields, ctxs, id, n, j)
  {
    CallsLength(fields, ctxs, id, n);
    var r := Build(fields, ctxs[0], id, n, 0, map[]);
    BuildAdvances(fields, ctxs[0], id, n, 0, map[]);
    assert fields[0..] == fields;
    if r.0.Ok? {
      EveryFieldAtItsPath(fields, ctxs[0], id, n);
      OnlySequence(fields, s);
    }
    if i > 0 {
      hide PrefixFree, AllResolve, Build, Lookup;
      SentNumbersIncrease(fields, ctxs[1..], id, r.1, s, i - 1, j - 1);
    } else if j > 1 {
      hide PrefixFree, AllResolve, Build, Lookup;
      SentNumbersIncrease(fields, ctxs[1..], id, r.1, s, 0, j - 1);
    }
  }
}
