/** schema/client.py: what the bodies of a session carry, field by field and call by call. */
module ClientSession {
  import opened Outcomes
  import opened PolicyClient

  /** reset() and predict(), with what the world supplies to them. */
  datatype Op =
    | ResetCall(instruction: Option<Json>, bare: Context, reply: Result<Json>)
    | PredictCall(ctx: Context)

  datatype Setup = Setup(fields: seq<Field>, resetFields: seq<Field>, instructionField: Option<Path>)

  function Serve(u: Setup, s: Bookkeeping, op: Op): Bookkeeping {
    match op
    case ResetCall(instruction, bare, reply) =>
      AfterReset(u.resetFields, u.instructionField, s, instruction, bare, reply)
    case PredictCall(ctx) => Bookkeeping(s.id, Build(u.fields, ctx, s.id, s.n, 0, map[]).1)
  }

  function Served(u: Setup, ops: seq<Op>): Bookkeeping {
    if ops == [] then Bookkeeping(Leaf(Null), 0) else Serve(u, Served(u, ops[..|ops| - 1]), ops[|ops| - 1])
  }

  /** The body that call k sends. */
  function Body(u: Setup, ops: seq<Op>, k: nat): Result<Tree>
    requires k < |ops|
  {
    var s := Served(u, ops[..k]);
    match ops[k]
    case ResetCall(instruction, bare, reply) =>
      ResetBody(u.resetFields, u.instructionField, instruction, bare, s.id, s.n).0
    case PredictCall(ctx) => Build(u.fields, ctx, s.id, s.n, 0, map[]).0
  }

  /** Call k is a reset whose request is sent. */
  predicate SendsReset(u: Setup, ops: seq<Op>, k: nat) { k < |ops| && ops[k].ResetCall? && Body(u, ops, k).Ok? }

  /** And the server answers it. */
  predicate Resets(u: Setup, ops: seq<Op>, k: nat) { SendsReset(u, ops, k) && ops[k].reply.Ok? }

  /** What the field numbered j must hold in a body built with this session's id and counter. */
  function Wanted(fields: seq<Field>, ctx: Context, s: Bookkeeping, j: nat): Option<Json>
    requires j < |fields|
  {
    match fields[j].source
    case SessionId => Some(s.id)
    case Sequence => Some(Leaf(Number(s.n + Sequences(fields[..j]))))
    case RequestId => Some(ctx.requestId(j))
    case Timestamp => Some(ctx.timestamp(j))
    case UnknownSession => None
    case External(detail) => ctx.external(detail)
  }

  predicate Resolves(f: Field, ctx: Context) {
    match f.source
    case UnknownSession => false
    case External(detail) => ctx.external(detail).Some?
    case _ => true
  }

  /** A body over prefix-free names is built exactly when every source resolves, and then holds what each must. */
  lemma BuiltIff(fields: seq<Field>, ctx: Context, s: Bookkeeping)
    requires PrefixFree(fields)
    ensures var r := Build(fields, ctx, s.id, s.n, 0, map[]).0;
      && (r.Ok? <==> forall j | 0 <= j < |fields| :: Wanted(fields, ctx, s, j).Some?)
      && (r.Ok? ==> forall j | 0 <= j < |fields| :: Lookup(r.value, fields[j].path) == Wanted(fields, ctx, s, j))
  {
    if AllResolve(fields, ctx) {
      EveryFieldAtItsPath(fields, ctx, s.id, s.n);
      hide Build, Lookup, PrefixFree;
      forall j | 0 <= j < |fields| ensures ValueOf(fields, ctx, s.id, s.n, j) == Wanted(fields, ctx, s, j) { }
    } else {
      var j :| 0 <= j < |fields| && !Resolves(fields[j], ctx);
      Unresolved(fields, ctx, s.id, s.n, 0, map[], j);
      assert Wanted(fields, ctx, s, j).None?;
    }
  }

  lemma {:induction false} Unresolved(fields: seq<Field>, ctx: Context, id: Json, n: nat, i: nat, tree: Tree, j: nat)
    requires i <= j < |fields| && !Resolves(fields[j], ctx)
    ensures Build(fields, ctx, id, n, i, tree).0.Err?
    decreases j - i
  {
    var r := Resolve(fields[i].source, ctx, id, n, i);
    hide Put;
    if i < j && r.0.Some? && Put(tree, fields[i].path, r.0.value).Ok? {
      Unresolved(fields, ctx, id, r.1, i + 1, Put(tree, fields[i].path, r.0.value).value, j);
    }
  }

  /** Since call k no reset was answered. */
  predicate NoResetSince(u: Setup, ops: seq<Op>, k: nat, m: nat) {
    forall i | k < i < m && i < |ops| :: !Resets(u, ops, i)
  }

  lemma {:induction false} IdStays(u: Setup, ops: seq<Op>, k: nat, m: nat)
    requires k < m <= |ops| && Resets(u, ops, k) && NoResetSince(u, ops, k, m)
    ensures Served(u, ops[..m]).id == ops[k].reply.value
    decreases m
  {
    assert ops[..m][..m - 1] == ops[..m - 1] && ops[..m][m - 1] == ops[m - 1];
    hide ResetBody, Build;
    if m > k + 1 {
      IdStays(u, ops, k, m - 1);
      assert !Resets(u, ops, m - 1);
    }
  }

  /**
   * In any order of calls: a body sent by predict after a reset that was answered, and before another one is, holds
   * that answer's id at the name of every session:id field.
   */
  lemma SessionIdCarried(u: Setup, ops: seq<Op>, k: nat, m: nat, j: nat)
    requires k < m < |ops| && Resets(u, ops, k) && NoResetSince(u, ops, k, m) && ops[m].PredictCall?
    requires PrefixFree(u.fields) && j < |u.fields| && u.fields[j].source.SessionId? && Body(u, ops, m).Ok?
    ensures Lookup(Body(u, ops, m).value, u.fields[j].path) == Some(ops[k].reply.value)
  {
    IdStays(u, ops, k, m);
    BuiltIff(u.fields, ops[m].ctx, Served(u, ops[..m]));
    hide Served, Build, PrefixFree, Lookup, Resets;
  }

  /** Before the first answer it holds null. */
  lemma {:induction false} NoIdYet(u: Setup, ops: seq<Op>, m: nat)
    requires m <= |ops| && forall i | 0 <= i < m :: !Resets(u, ops, i)
    ensures Served(u, ops[..m]).id == Leaf(Null)
  {
    hide ResetBody, Build;
    if m > 0 {
      assert ops[..m][..m - 1] == ops[..m - 1] && ops[..m][m - 1] == ops[m - 1];
      NoIdYet(u, ops, m - 1);
      assert !Resets(u, ops, m - 1);
    }
  }

  /** Right after a reset was sent, answered or not, the counter is zero. */
  lemma SentResetRestarts(u: Setup, ops: seq<Op>, k: nat)
    requires SendsReset(u, ops, k)
    ensures Served(u, ops[..k + 1]).n == 0
  {
    assert ops[..k + 1][..k] == ops[..k];
    hide ResetBody;
  }

  /** A reset given an instruction sends it at its own name. */
  lemma InstructionCarried(u: Setup, ops: seq<Op>, k: nat)
    requires SendsReset(u, ops, k) && u.instructionField.Some? && ops[k].instruction.Some?
    ensures Lookup(Body(u, ops, k).value, u.instructionField.value) == ops[k].instruction
  {
    var s := Served(u, ops[..k]);
    var r := Build(u.resetFields, ops[k].bare, s.id, s.n, 0, map[]).0;
    hide Build, Served, Put, Lookup;
    if r.Ok? { PutThenLookup(r.value, u.instructionField.value, ops[k].instruction.value); }
  }

  lemma {:induction false} CounterGrows(fields: seq<Field>, ctx: Context, id: Json, n: nat, i: nat, tree: Tree)
    requires i <= |fields|
    ensures n <= Build(fields, ctx, id, n, i, tree).1 <= n + Sequences(fields[i..])
    ensures var r := Build(fields, ctx, id, n, i, tree); r.0.Ok? ==> r.1 == n + Sequences(fields[i..])
    decreases |fields| - i
  {
    if i < |fields| {
      assert fields[i..][0] == fields[i] && fields[i..][1..] == fields[i + 1..];
      var r := Resolve(fields[i].source, ctx, id, n, i);
      hide Put;
      if r.0.Some? && Put(tree, fields[i].path, r.0.value).Ok? {
        CounterGrows(fields, ctx, id, r.1, i + 1, Put(tree, fields[i].path, r.0.value).value);
      }
    }
  }

  /** A call whose body cannot be built never takes numbers back, and no call skips more than it has fields for. */
  lemma FailedCallKeepsCount(u: Setup, ops: seq<Op>, k: nat)
    requires k < |ops| && Body(u, ops, k).Err?
    ensures var before, after := Served(u, ops[..k]), Served(u, ops[..k + 1]);
      && before.n <= after.n && after.id == before.id
      && after.n <= before.n + Sequences(if ops[k].ResetCall? then u.resetFields else u.fields)
  {
    var s := Served(u, ops[..k]);
    assert ops[..k + 1][..k] == ops[..k];
    match ops[k]
    case ResetCall(instruction, bare, reply) =>
      CounterGrows(u.resetFields, bare, s.id, s.n, 0, map[]);
      assert u.resetFields[0..] == u.resetFields;
    case PredictCall(ctx) =>
      CounterGrows(u.fields, ctx, s.id, s.n, 0, map[]);
      assert u.fields[0..] == u.fields;
  }

  /**
   * Where a build raises: the fields before k build, field k does not resolve or its name is blocked, and the counter
   * has passed the sequence fields up to and including k.
   */
  lemma {:induction false} RaisesAt(fields: seq<Field>, ctx: Context, id: Json, n: nat, i: nat, tree: Tree)
    returns (k: nat)
    requires i <= |fields| && Build(fields, ctx, id, n, i, tree).0.Err?
    ensures i <= k < |fields| && Build(fields, ctx, id, n, i, tree).1 == n + Sequences(fields[i..k + 1])
    ensures Build(fields[..k], ctx, id, n, i, tree).0.Ok?
    ensures !Resolves(fields[k], ctx) || Blocked(Build(fields[..k], ctx, id, n, i, tree).0.value, fields[k].path)
    decreases |fields| - i
  {
    var r := Resolve(fields[i].source, ctx, id, n, i);
    if r.0.Some? && Put(tree, fields[i].path, r.0.value).Ok? {
      var next := Put(tree, fields[i].path, r.0.value).value;
      hide Put, Blocked;
      k := RaisesAt(fields, ctx, id, r.1, i + 1, next);
      assert fields[i..k + 1][0] == fields[i] && fields[i..k + 1][1..] == fields[i + 1..k + 1];
      assert fields[..k][i] == fields[i];
    } else {
      k := i;
      assert fields[i..i + 1] == [fields[i]] && [fields[i]][1..] == [];
      if r.0.Some? { PutFailsIff(tree, fields[i].path, r.0.value); }
    }
  }
}
