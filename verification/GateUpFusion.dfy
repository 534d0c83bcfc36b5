/**
 Fusing each MLP layer's gate and up projections: one MatMul with the concatenated weights, whose
 result is sliced back into the two original tensors.
 */
module GateUpFusion {
  import opened Options
  import opened Sums
  import opened Graphs

  // ---- the algebra ----

  type Rows = seq<seq<real>>

  function Entry(row: seq<real>, k: int): real {
    if 0 <= k < |row| then row[k] else 0.0
  }

  /** Sum over k < n of row[k] * w[k][j]. */
  function Dot(row: seq<real>, w: Rows, j: int, n: nat): real
    requires n <= |w|
  {
    if n == 0 then 0.0 else Dot(row, w, j, n - 1) + Entry(row, n - 1) * Entry(w[n - 1], j)
  }

  function Width(w: Rows): nat {
    if w == [] then 0 else |w[0]|
  }

  function Mul(x: Rows, w: Rows): Rows {
    seq(|x|, i requires 0 <= i < |x| => seq(Width(w), j => Dot(x[i], w, j, |w|)))
  }

  lemma {:induction false} DotSum(row: seq<real>, w: Rows, j: int, n: nat)
    requires n <= |w| <= |row| && 0 <= j && forall k | 0 <= k < |w| :: j < |w[k]|
    ensures Dot(row, w, j, n) == Sum(n, k => if 0 <= k < |w| then row[k] * w[k][j] else 0.0)
  {
    if n > 0 { DotSum(row, w, j, n - 1); }
  }

  /** Entry (i, j) of a product is the sum over k of x[i][k] * w[k][j]. */
  lemma ProductEntry(x: Rows, w: Rows, i: nat, j: nat)
    requires i < |x| && |x[i]| == |w| > 0 && Rect(w, |w[0]|) && j < |w[0]|
    ensures |Mul(x, w)| == |x| && |Mul(x, w)[i]| == |w[0]|
    ensures Mul(x, w)[i][j] == Sum(|w|, k => if 0 <= k < |w| then x[i][k] * w[k][j] else 0.0)
  {
    DotSum(x[i], w, j, |w|);
  }

  /** Columns lo..hi of every row, clamped to the row. */
  function Columns(y: Rows, lo: int, hi: int): Rows {
    seq(|y|, i requires 0 <= i < |y| => Cut(y[i], lo, hi))
  }

  function Cut(row: seq<real>, lo: int, hi: int): seq<real> {
    if 0 <= lo <= hi <= |row| then row[lo..hi] else []
  }

  function MatMulOf(a: Value, b: Value): Value {
    if a.Tensor? && b.Tensor? then Tensor(Mul(a.rows, b.rows)) else Bad
  }

  /** Slice along the last axis. */
  function SliceOf(y: Value, starts: Value, ends: Value, axes: Value): Value {
    if y.Tensor? && starts.Ints? && ends.Ints? && axes == Ints([-1]) && |starts.v| == 1 && |ends.v| == 1
    then Tensor(Columns(y.rows, starts.v[0], ends.v[0])) else Bad
  }

  /** The two operators the rewrite relies on compute what ONNX says they do. */
  ghost predicate Faithful(kernel: Kernel) {
    && (forall a, b :: kernel(MatMul, [Some(a), Some(b)], 0) == MatMulOf(a, b))
    && (forall y, s, e, x :: kernel(Slice, [Some(y), Some(s), Some(e), Some(x)], 0) == SliceOf(y, s, e, x))
  }

  predicate Rect(w: Rows, h: nat) {
    Width(w) == h && forall k | 0 <= k < |w| :: |w[k]| == h
  }

  /** np.concatenate([a, b], axis=1) */
  function Beside(a: Rows, b: Rows): Rows
    requires |a| == |b|
  {
    seq(|a|, k requires 0 <= k < |a| => a[k] + b[k])
  }

  lemma {:induction false} DotBeside(row: seq<real>, a: Rows, b: Rows, h: nat, j: int, n: nat)
    requires |a| == |b| && Rect(a, h) && Rect(b, h) && 0 <= j < h && n <= |a|
    ensures Dot(row, Beside(a, b), j, n) == Dot(row, a, j, n)
    ensures Dot(row, Beside(a, b), h + j, n) == Dot(row, b, j, n)
  {
    if n > 0 {
      DotBeside(row, a, b, h, j, n - 1);
      var c := Beside(a, b)[n - 1];
      assert Entry(c, j) == Entry(a[n - 1], j) && Entry(c, h + j) == Entry(b[n - 1], j);
    }
  }

  /** Multiplying by the joined weights and cutting the halves apart is multiplying by each. */
  lemma HalvesAreProducts(x: Rows, a: Rows, b: Rows, h: nat)
    requires |a| == |b| && Rect(a, h) && Rect(b, h)
    ensures Columns(Mul(x, Beside(a, b)), 0, h) == Mul(x, a)
    ensures Columns(Mul(x, Beside(a, b)), h, 2 * h) == Mul(x, b)
  {
    var y := Mul(x, Beside(a, b));
    assert Width(Beside(a, b)) == 2 * h;
    forall i | 0 <= i < |x| ensures Cut(y[i], 0, h) == Mul(x, a)[i] && Cut(y[i], h, 2 * h) == Mul(x, b)[i] {
      forall j | 0 <= j < h
        ensures Cut(y[i], 0, h)[j] == Mul(x, a)[i][j] && Cut(y[i], h, 2 * h)[j] == Mul(x, b)[i][j]
      {
        DotBeside(x[i], a, b, h, j, |a|);
      }
    }
  }

  // ---- which nodes are fused ----

  const GateMark := "/mlp/gate_proj/MatMul"
  const UpMark := "/mlp/up_proj/MatMul"

  /** The text before the first occurrence of the mark. */
  function Before(name: string, mark: string, i: nat): Option<string>
    decreases |name| - i
  {
    if i > |name| then None
    else if mark <= name[i..] then Some(name[..i])
    else Before(name, mark, i + 1)
  }

  function GateLayer(node: Node): Option<string> {
    if node.op.MatMul? then Before(node.name, GateMark, 0) else None
  }

  function UpLayer(node: Node): Option<string> {
    if node.op.MatMul? && Before(node.name, GateMark, 0).None? then Before(node.name, UpMark, 0) else None
  }

  datatype Pair = Pair(gate: int, up: int)

  type Plan = map<string, Pair>

  /** The last gate (up) node of each layer among the first nodes. */
  function Gates(nodes: seq<Node>): map<string, int> {
    if nodes == [] then map[]
    else
      var n := |nodes| - 1; var l := GateLayer(nodes[n]);
      if l.Some? then Gates(nodes[..n])[l.value := n] else Gates(nodes[..n])
  }

  function Ups(nodes: seq<Node>): map<string, int> {
    if nodes == [] then map[]
    else
      var n := |nodes| - 1; var l := UpLayer(nodes[n]);
      if l.Some? then Ups(nodes[..n])[l.value := n] else Ups(nodes[..n])
  }

  /** Each layer's gate and up node is the last one with its name; a layer without any is not listed. */
  lemma {:induction false} RolesAre(nodes: seq<Node>, l: string)
    ensures if l in Gates(nodes) then
              && 0 <= Gates(nodes)[l] < |nodes| && GateLayer(nodes[Gates(nodes)[l]]) == Some(l)
              && forall k | Gates(nodes)[l] < k < |nodes| :: GateLayer(nodes[k]) != Some(l)
            else forall k | 0 <= k < |nodes| :: GateLayer(nodes[k]) != Some(l)
    ensures if l in Ups(nodes) then
              && 0 <= Ups(nodes)[l] < |nodes| && UpLayer(nodes[Ups(nodes)[l]]) == Some(l)
              && forall k | Ups(nodes)[l] < k < |nodes| :: UpLayer(nodes[k]) != Some(l)
            else forall k | 0 <= k < |nodes| :: UpLayer(nodes[k]) != Some(l)
  {
    hide GateLayer, UpLayer;
    if nodes != [] {
      var n := |nodes| - 1;
      RolesAre(nodes[..n], l);
      assert forall k | 0 <= k < n :: nodes[..n][k] == nodes[k];
    }
  }

  /** The mark stands at place k of the name. */
  predicate MarkAt(name: string, mark: string, k: int) {
    0 <= k <= |name| && mark <= name[k..]
  }

  /** The layer is the text before the first occurrence of the mark, and there is none without an occurrence. */
  lemma {:induction false} BeforeIsFirst(name: string, mark: string, i: nat)
    requires i <= |name| + 1
    ensures var r := Before(name, mark, i);
            if r.Some? then
              && i <= |r.value| <= |name| && r.value == name[..|r.value|] && MarkAt(name, mark, |r.value|)
              && forall k | i <= k < |r.value| :: !MarkAt(name, mark, k)
            else forall k | i <= k :: !MarkAt(name, mark, k)
    decreases |name| + 1 - i
  {
    if i <= |name| && !(mark <= name[i..]) {
      assert !MarkAt(name, mark, i);
      BeforeIsFirst(name, mark, i + 1);
    }
  }

  /** A MatMul has two inputs and one output. */
  predicate Binary(node: Node) {
    node.op.MatMul? ==>
      && |node.inputs| == 2 && node.inputs[0] != "" && node.inputs[1] != ""
      && |node.outputs| == 1 && node.outputs[0] != ""
  }

  ghost predicate AllBinary(nodes: seq<Node>) {
    forall k | 0 <= k < |nodes| :: Binary(nodes[k])
  }

  predicate SameShape(a: Value, b: Value) {
    a.Tensor? && b.Tensor? && |a.rows| == |b.rows| && Rect(a.rows, Width(a.rows)) && Rect(b.rows, Width(a.rows))
  }

  /** The two projections read the same tensor and their weights are constant matrices of one shape. */
  predicate Fusable(nodes: seq<Node>, inits: Env, p: Pair) {
    && 0 <= p.gate < |nodes| && 0 <= p.up < |nodes|
    && var gate, up := nodes[p.gate], nodes[p.up];
       && |gate.inputs| == 2 && |up.inputs| == 2 && gate.inputs[0] == up.inputs[0]
       && gate.inputs[1] in inits && up.inputs[1] in inits
       && SameShape(inits[gate.inputs[1]], inits[up.inputs[1]])
  }

  /** Exactly the fusable layers, each with its gate and up node. */
  ghost predicate IsPlan(nodes: seq<Node>, inits: Env, plan: Plan) {
    forall l ::
      && (l in plan <==>
            && l in Gates(nodes) && l in Ups(nodes)
            && Fusable(nodes, inits, Pair(Gates(nodes)[l], Ups(nodes)[l])))
      && (l in plan ==> plan[l] == Pair(Gates(nodes)[l], Ups(nodes)[l]))
  }

  /** Node k is the last one with this layer's mark. */
  ghost predicate LastGate(nodes: seq<Node>, l: string, k: int) {
    && 0 <= k < |nodes| && GateLayer(nodes[k]) == Some(l)
    && forall j | k < j < |nodes| :: GateLayer(nodes[j]) != Some(l)
  }

  ghost predicate LastUp(nodes: seq<Node>, l: string, k: int) {
    && 0 <= k < |nodes| && UpLayer(nodes[k]) == Some(l)
    && forall j | k < j < |nodes| :: UpLayer(nodes[j]) != Some(l)
  }

  /** A constant matrix of this shape. */
  predicate Matrix(inits: Env, name: string, rows: nat, columns: nat) {
    && name in inits && inits[name].Tensor? && |inits[name].rows| == rows
    && forall k | 0 <= k < rows :: |inits[name].rows[k]| == columns
  }

  /** Both nodes take the same input, and constant matrices of one shape as weights. */
  ghost predicate Alike(inits: Env, gate: Node, up: Node) {
    && |gate.inputs| == 2 && |up.inputs| == 2 && gate.inputs[0] == up.inputs[0]
    && exists r, c :: Matrix(inits, gate.inputs[1], r, c) && Matrix(inits, up.inputs[1], r, c)
  }

  ghost predicate FusesAt(nodes: seq<Node>, inits: Env, l: string, g: int, u: int) {
    LastGate(nodes, l, g) && LastUp(nodes, l, u) && Alike(inits, nodes[g], nodes[u])
  }

  lemma FusableIsAlike(nodes: seq<Node>, inits: Env, p: Pair)
    requires 0 <= p.gate < |nodes| && 0 <= p.up < |nodes|
    ensures Fusable(nodes, inits, p) <==> Alike(inits, nodes[p.gate], nodes[p.up])
  {
    var gate, up := nodes[p.gate], nodes[p.up];
    if Fusable(nodes, inits, p) {
      var a := inits[gate.inputs[1]].rows;
      assert Matrix(inits, gate.inputs[1], |a|, Width(a)) && Matrix(inits, up.inputs[1], |a|, Width(a));
    }
  }

  /** A layer is fused exactly if its last gate and its last up node are alike, and then those are the pair. */
  lemma FusedIff(nodes: seq<Node>, inits: Env, plan: Plan, l: string)
    requires IsPlan(nodes, inits, plan)
    ensures l in plan <==> exists g, u :: FusesAt(nodes, inits, l, g, u)
    ensures l in plan ==> FusesAt(nodes, inits, l, plan[l].gate, plan[l].up)
  {
    hide Gates, Ups, GateLayer, UpLayer, Fusable, Alike;
    RolesAre(nodes, l);
    if l in Gates(nodes) && l in Ups(nodes) {
      FusableIsAlike(nodes, inits, Pair(Gates(nodes)[l], Ups(nodes)[l]));
    }
    if g, u :| FusesAt(nodes, inits, l, g, u) {
      assert GateLayer(nodes[g]) == Some(l) && UpLayer(nodes[u]) == Some(l);
      assert Gates(nodes)[l] == g && Ups(nodes)[l] == u;
      assert l in plan;
    }
    if l in plan { assert FusesAt(nodes, inits, l, plan[l].gate, plan[l].up); }
  }

  // ---- the rewritten graph ----

  /** Names the rewrite invents for a layer. */
  datatype New = New(
    weight: string, fused: string, gateStarts: string, gateEnds: string, upStarts: string, upEnds: string, axes: string)

  type Naming = string -> New

  function Fused(nodes: seq<Node>, p: Pair, n: New): seq<Node>
    requires 0 <= p.gate < |nodes| && 0 <= p.up < |nodes|
    requires |nodes[p.gate].inputs| == 2 && |nodes[p.gate].outputs| == 1 && |nodes[p.up].outputs| == 1
  {
    [Node(MatMul, "fused", [nodes[p.gate].inputs[0], n.weight], [n.fused]),
     Node(Slice, "gate", [n.fused, n.gateStarts, n.gateEnds, n.axes], [nodes[p.gate].outputs[0]]),
     Node(Slice, "up", [n.fused, n.upStarts, n.upEnds, n.axes], [nodes[p.up].outputs[0]])]
  }

  predicate Skipped(plan: Plan, i: int) {
    exists l :: l in plan && plan[l].up == i
  }

  /** The fused layer whose gate node is at place i. */
  function LayerAt(nodes: seq<Node>, plan: Plan, i: nat): Option<string>
    requires i < |nodes|
  {
    var l := GateLayer(nodes[i]);
    if l.Some? && l.value in plan && plan[l.value].gate == i then l else None
  }

  /** Every planned pair is a gate and an up node of its layer, both proper MatMuls. */
  ghost predicate PlanOk(nodes: seq<Node>, inits: Env, plan: Plan) {
    forall l | l in plan :: PairOk(nodes, inits, l, plan[l])
  }

  predicate PairOk(nodes: seq<Node>, inits: Env, l: string, p: Pair) {
    && Fusable(nodes, inits, p) && GateLayer(nodes[p.gate]) == Some(l) && UpLayer(nodes[p.up]) == Some(l)
    && Binary(nodes[p.gate]) && Binary(nodes[p.up])
  }

  lemma PlanIsOk(nodes: seq<Node>, inits: Env, plan: Plan)
    requires IsPlan(nodes, inits, plan) && AllBinary(nodes)
    ensures PlanOk(nodes, inits, plan)
  {
    hide Gates, Ups, GateLayer, UpLayer, Fusable, Binary;
    forall l | l in plan ensures PairOk(nodes, inits, l, plan[l]) {
      RolesAre(nodes, l);
    }
  }

  /** What takes the place of node i. */
  function Rewritten(nodes: seq<Node>, inits: Env, plan: Plan, names: Naming, i: nat): seq<Node>
    requires PlanOk(nodes, inits, plan) && i < |nodes|
  {
    var l := LayerAt(nodes, plan, i);
    if Skipped(plan, i) then []
    else if l.Some? then
      assert PairOk(nodes, inits, l.value, plan[l.value]);
      Fused(nodes, plan[l.value], names(l.value))
    else [nodes[i]]
  }

  function NewFrom(nodes: seq<Node>, inits: Env, plan: Plan, names: Naming, i: nat): seq<Node>
    requires PlanOk(nodes, inits, plan)
    decreases |nodes| - i
  {
    if i >= |nodes| then [] else Rewritten(nodes, inits, plan, names, i) + NewFrom(nodes, inits, plan, names, i + 1)
  }

  /** The constants a fused layer adds. */
  function LayerInits(nodes: seq<Node>, inits: Env, p: Pair, n: New): Env
    requires Fusable(nodes, inits, p)
  {
    var a, b := inits[nodes[p.gate].inputs[1]].rows, inits[nodes[p.up].inputs[1]].rows;
    var h := Width(a);
    map[n.weight := Tensor(Beside(a, b)), n.gateStarts := Ints([0]), n.gateEnds := Ints([h]),
        n.upStarts := Ints([h]), n.upEnds := Ints([2 * h]), n.axes := Ints([-1])]
  }

  // ---- what the rewritten graph makes available ----

  function NewMade(nodes: seq<Node>, inits: Env, plan: Plan, names: Naming, i: nat): set<string>
    requires PlanOk(nodes, inits, plan) && i <= |nodes|
  {
    if i == 0 then {}
    else NewMade(nodes, inits, plan, names, i - 1) + Written(Rewritten(nodes, inits, plan, names, i - 1))
  }

  lemma {:induction false} MadeStays(nodes: seq<Node>, inits: Env, plan: Plan, names: Naming, j: nat, i: nat)
    requires PlanOk(nodes, inits, plan) && j < i <= |nodes|
    ensures Written(Rewritten(nodes, inits, plan, names, j)) <= NewMade(nodes, inits, plan, names, i)
  {
    hide Rewritten, PlanOk;
    if j + 1 < i { MadeStays(nodes, inits, plan, names, j, i - 1); }
  }

  lemma WritesOne(node: Node)
    requires |node.outputs| == 1 && node.outputs[0] != ""
    ensures Writes(node) == {node.outputs[0]}
  {
    assert node.outputs[0] in Writes(node);
  }

  lemma WrittenThree(a: Node, b: Node, c: Node)
    ensures Written([a, b, c]) == Writes(a) + Writes(b) + Writes(c)
  {
    hide Writes;
    assert [a, b, c][1..] == [b, c];
    assert [b, c][1..] == [c];
    assert [c][1..] == [];
    assert Written([c]) == Writes(c);
    assert Written([b, c]) == Writes(b) + Writes(c);
  }

  /** Both nodes of a pair are proper MatMuls. */
  predicate Proper(nodes: seq<Node>, p: Pair) {
    && 0 <= p.gate < |nodes| && 0 <= p.up < |nodes|
    && nodes[p.gate].op.MatMul? && Binary(nodes[p.gate]) && nodes[p.up].op.MatMul? && Binary(nodes[p.up])
  }

  /** A gate node is nobody's up node. */
  lemma GateIsGate(nodes: seq<Node>, inits: Env, plan: Plan, l: string)
    requires PlanOk(nodes, inits, plan) && l in plan
    ensures Proper(nodes, plan[l]) && PairOk(nodes, inits, l, plan[l])
    ensures !Skipped(plan, plan[l].gate) && LayerAt(nodes, plan, plan[l].gate) == Some(l)
  {
    hide Before;
    assert PairOk(nodes, inits, l, plan[l]);
    forall m | m in plan ensures plan[m].up != plan[l].gate {
      assert PairOk(nodes, inits, m, plan[m]);
    }
  }

  predicate Distinct(n: New) {
    && n.weight !in {n.fused, n.gateStarts, n.gateEnds, n.upStarts, n.upEnds, n.axes}
    && n.fused !in {n.gateStarts, n.gateEnds, n.upStarts, n.upEnds, n.axes}
    && n.gateStarts !in {n.gateEnds, n.upStarts, n.upEnds, n.axes} && n.gateEnds !in {n.upStarts, n.upEnds, n.axes}
    && n.upStarts !in {n.upEnds, n.axes} && n.upEnds != n.axes
  }

  ghost predicate NewNames(n: New, s: set<string>) {
    && Distinct(n)
    && NameSet(n) !! s && "" !in NameSet(n)
  }

  function NameSet(n: New): set<string> {
    {n.weight, n.fused, n.gateStarts, n.gateEnds, n.upStarts, n.upEnds, n.axes}
  }

  /** What replaces a gate node writes the fused tensor and both original ones. */
  lemma FusedWrites(nodes: seq<Node>, inits: Env, plan: Plan, names: Naming, l: string)
    requires PlanOk(nodes, inits, plan) && l in plan && names(l).fused != ""
    ensures Proper(nodes, plan[l])
    ensures var gate, up := nodes[plan[l].gate], nodes[plan[l].up];
            && Writes(gate) == {gate.outputs[0]} && Writes(up) == {up.outputs[0]}
            && Written(Rewritten(nodes, inits, plan, names, plan[l].gate)) ==
               {names(l).fused} + Writes(gate) + Writes(up)
  {
    hide Before, Writes, Written, LayerAt, Fusable, GateLayer, UpLayer;
    GateIsGate(nodes, inits, plan, l);
    var p, n := plan[l], names(l);
    WritesOne(nodes[p.gate]);
    WritesOne(nodes[p.up]);
    var three := Fused(nodes, p, n);
    WrittenThree(three[0], three[1], three[2]);
    WritesOne(three[0]);
    WritesOne(three[1]);
    WritesOne(three[2]);
  }

  /** No surviving reader of an up tensor stands before its layer's gate node. */
  ghost predicate OrderOk(nodes: seq<Node>, plan: Plan) {
    forall l, i | l in plan && 0 <= i < |nodes| && ReadsUp(nodes, plan[l], i) && !Skipped(plan, i) :: plan[l].gate < i
  }

  predicate ReadsUp(nodes: seq<Node>, p: Pair, i: int)
    requires 0 <= i < |nodes|
  {
    0 <= p.up < |nodes| && Reads(nodes[i]) * Writes(nodes[p.up]) != {}
  }

  /** All invented names are fresh and different layers share none. */
  ghost predicate FreshNames(plan: Plan, names: Naming, taken: set<string>) {
    && (forall l | l in plan :: NewNames(names(l), taken))
    && (forall l, m | l in plan && m in plan && l != m :: NameSet(names(l)) !! NameSet(names(m)))
  }

  /** Whatever an old node could read at place i, its replacement can too. */
  lemma StillThere(
    kernel: Kernel, nodes: seq<Node>, inits: Env, plan: Plan, names: Naming, start: set<string>, all: Env, i: nat,
    name: string)
    requires PlanOk(nodes, inits, plan) && Runs(kernel, nodes, start, all) && OrderOk(nodes, plan)
    requires forall l | l in plan :: names(l).fused != ""
    requires i < |nodes| && !Skipped(plan, i) && name in Reads(nodes[i])
    ensures name in start + NewMade(nodes, inits, plan, names, i)
  {
    hide Runs, Reads, Writes, PlanOk, NewMade, Rewritten, Skipped, LayerAt;
    if name !in start {
      RunsEach(kernel, nodes, start, all, i, name);
      var j :| 0 <= j < i && name in Writes(nodes[j]);
      if Skipped(plan, j) {
        var l := UpOf(plan, j);
        assert name in Reads(nodes[i]) * Writes(nodes[plan[l].up]);
        assert ReadsUp(nodes, plan[l], i);
        FusedWrites(nodes, inits, plan, names, l);
        MadeStays(nodes, inits, plan, names, plan[l].gate, i);
      } else {
        Survives(nodes, inits, plan, names, j);
        MadeStays(nodes, inits, plan, names, j, i);
      }
    }
  }

  lemma UpOf(plan: Plan, j: int) returns (l: string)
    requires Skipped(plan, j)
    ensures l in plan && plan[l].up == j
  {
    l :| l in plan && plan[l].up == j;
  }

  lemma Survives(nodes: seq<Node>, inits: Env, plan: Plan, names: Naming, j: nat)
    requires PlanOk(nodes, inits, plan) && j < |nodes| && !Skipped(plan, j)
    requires forall l | l in plan :: names(l).fused != ""
    ensures Writes(nodes[j]) <= Written(Rewritten(nodes, inits, plan, names, j))
  {
    hide Writes, PlanOk, GateLayer, Skipped;
    var l := LayerAt(nodes, plan, j);
    if l.Some? {
      FusedWrites(nodes, inits, plan, names, l.value);
    } else {
      assert [nodes[j]][1..] == [];
    }
  }

  // ---- the rewritten graph computes the same tensors ----

  /** Where the rewritten run is heading: the old tensors, the new constants, and each layer's fused product. */
  ghost predicate Target(nodes: seq<Node>, inits: Env, plan: Plan, names: Naming, all: Env, goal: Env)
    requires PlanOk(nodes, inits, plan)
  {
    && Extends(all, goal)
    && forall l | l in plan ::
         PairOk(nodes, inits, l, plan[l]) && LayerTarget(nodes, inits, plan[l], names(l), all, goal)
  }

  ghost predicate Extends(all: Env, goal: Env) {
    forall name | name in all :: name in goal && goal[name] == all[name]
  }

  ghost predicate LayerTarget(nodes: seq<Node>, inits: Env, p: Pair, n: New, all: Env, goal: Env)
    requires Fusable(nodes, inits, p)
  {
    && Extends(LayerInits(nodes, inits, p, n), goal)
    && nodes[p.gate].inputs[0] in all && n.weight in goal
    && n.fused in goal && goal[n.fused] == MatMulOf(all[nodes[p.gate].inputs[0]], goal[n.weight])
  }

  lemma SolvesOne(kernel: Kernel, node: Node, goal: Env, name: string)
    requires node.outputs == [name] && name != "" && name in goal && Reads(node) <= goal.Keys
    ensures Solves(kernel, node, goal) <==> goal[name] == kernel(node.op, Args(node.inputs, goal), 0)
  {
    WritesOne(node);
    assert name in Writes(node);
  }

  lemma ReadsTwo(node: Node, a: string, b: string)
    requires node.inputs == [a, b] && a != "" && b != ""
    ensures Reads(node) == {a, b}
    ensures forall env: Env | a in env && b in env :: Args(node.inputs, env) == [Some(env[a]), Some(env[b])]
  {
    assert node.inputs[0] == a && node.inputs[1] == b;
    assert a in Reads(node) && b in Reads(node);
  }

  lemma ReadsFour(node: Node, a: string, b: string, c: string, d: string, env: Env)
    requires node.inputs == [a, b, c, d] && a != "" && b != "" && c != "" && d != ""
    requires a in env && b in env && c in env && d in env
    ensures Reads(node) == {a, b, c, d}
    ensures Args(node.inputs, env) == [Some(env[a]), Some(env[b]), Some(env[c]), Some(env[d])]
  {
    assert node.inputs[0] == a && node.inputs[1] == b && node.inputs[2] == c && node.inputs[3] == d;
    assert a in Reads(node) && b in Reads(node) && c in Reads(node) && d in Reads(node);
  }

  /** What a MatMul node of the original run computed. */
  lemma OldProduct(kernel: Kernel, node: Node, all: Env)
    requires Faithful(kernel) && node.op.MatMul? && Binary(node) && Solves(kernel, node, all)
    ensures node.inputs[0] in all && node.inputs[1] in all && node.outputs[0] in all
    ensures all[node.outputs[0]] == MatMulOf(all[node.inputs[0]], all[node.inputs[1]])
  {
    hide MatMulOf, Reads, Writes;
    ReadsTwo(node, node.inputs[0], node.inputs[1]) by { assert node.inputs == [node.inputs[0], node.inputs[1]]; }
    WritesOne(node);
    assert node.outputs[0] in Writes(node);
    SolvesOne(kernel, node, all, node.outputs[0]) by { assert node.outputs == [node.outputs[0]]; }
  }

  /** Each half of the fused product is the tensor it replaces. */
  lemma HalvesAreOld(x: Value, a: Value, b: Value)
    requires SameShape(a, b)
    ensures var h := Width(a.rows); var y := MatMulOf(x, Tensor(Beside(a.rows, b.rows)));
            && SliceOf(y, Ints([0]), Ints([h]), Ints([-1])) == MatMulOf(x, a)
            && SliceOf(y, Ints([h]), Ints([2 * h]), Ints([-1])) == MatMulOf(x, b)
  {
    hide Mul, Columns, Beside;
    if x.Tensor? { HalvesAreProducts(x.rows, a.rows, b.rows, Width(a.rows)); }
  }

  lemma SliceSolves(
    kernel: Kernel, node: Node, goal: Env, lo: int, hi: int, y: string, s: string, e: string, x: string, out: string)
    requires Faithful(kernel) && node.op.Slice? && node.inputs == [y, s, e, x] && node.outputs == [out]
    requires y != "" && s != "" && e != "" && x != "" && out != ""
    requires y in goal && s in goal && e in goal && x in goal && out in goal
    requires goal[s] == Ints([lo]) && goal[e] == Ints([hi]) && goal[x] == Ints([-1])
    requires goal[out] == SliceOf(goal[y], Ints([lo]), Ints([hi]), Ints([-1]))
    ensures Solves(kernel, node, goal) && Reads(node) == {y, s, e, x}
  {
    hide SliceOf;
    ReadsFour(node, y, s, e, x, goal);
    hide Reads;
    SolvesOne(kernel, node, goal, out);
  }

  /** In the target, cutting the fused product apart gives the two original tensors. */
  lemma FusedMeans(kernel: Kernel, nodes: seq<Node>, inits: Env, p: Pair, n: New, all: Env, goal: Env)
    requires Faithful(kernel) && Fusable(nodes, inits, p) && Proper(nodes, p) && Distinct(n)
    requires Extends(inits, all) && Extends(all, goal) && LayerTarget(nodes, inits, p, n, all, goal)
    requires Solves(kernel, nodes[p.gate], all) && Solves(kernel, nodes[p.up], all)
    ensures var gate, up, h := nodes[p.gate], nodes[p.up], Width(inits[nodes[p.gate].inputs[1]].rows);
            && gate.outputs[0] in goal && up.outputs[0] in goal
            && goal[gate.outputs[0]] == SliceOf(goal[n.fused], Ints([0]), Ints([h]), Ints([-1]))
            && goal[up.outputs[0]] == SliceOf(goal[n.fused], Ints([h]), Ints([2 * h]), Ints([-1]))
  {
    hide MatMulOf, SliceOf, Solves, Beside, SameShape, LayerInits;
    var gate, up := nodes[p.gate], nodes[p.up];
    OldProduct(kernel, gate, all);
    OldProduct(kernel, up, all);
    HalvesAreOld(all[gate.inputs[0]], inits[gate.inputs[1]], inits[up.inputs[1]]);
    LayerInitsAre(nodes, inits, p, n, goal);
  }

  /** The three replacement nodes run wherever the gate's input is available. */
  lemma FusedRuns(
    kernel: Kernel, nodes: seq<Node>, inits: Env, p: Pair, n: New, start: set<string>, all: Env, goal: Env)
    requires Faithful(kernel) && Fusable(nodes, inits, p) && Proper(nodes, p) && NewNames(n, all.Keys)
    requires Extends(inits, all) && Extends(all, goal) && LayerTarget(nodes, inits, p, n, all, goal)
    requires Solves(kernel, nodes[p.gate], all) && Solves(kernel, nodes[p.up], all)
    requires nodes[p.gate].inputs[0] in start && LayerInits(nodes, inits, p, n).Keys <= start
    ensures Runs(kernel, Fused(nodes, p, n), start, goal)
  {
    hide MatMulOf, SliceOf, Solves, Reads, Writes, Beside, Runs, Rect, Faithful, Width;
    FusedMeans(kernel, nodes, inits, p, n, all, goal);
    LayerInitsAre(nodes, inits, p, n, goal);
    var gate, up, three := nodes[p.gate], nodes[p.up], Fused(nodes, p, n);
    var x, h := gate.inputs[0], Width(inits[gate.inputs[1]].rows);
    ReadsTwo(three[0], x, n.weight);
    FusedSolves(kernel, three[0], x, n.weight, n.fused, goal);
    SliceSolves(kernel, three[1], goal, 0, h, n.fused, n.gateStarts, n.gateEnds, n.axes, gate.outputs[0]);
    SliceSolves(kernel, three[2], goal, h, 2 * h, n.fused, n.upStarts, n.upEnds, n.axes, up.outputs[0]);
    WritesOne(three[0]);
    RunsThree(kernel, three[0], three[1], three[2], start, goal);
  }

  lemma LayerInitsAre(nodes: seq<Node>, inits: Env, p: Pair, n: New, goal: Env)
    requires Fusable(nodes, inits, p) && Extends(LayerInits(nodes, inits, p, n), goal)
    requires Distinct(n)
    ensures var a, b := inits[nodes[p.gate].inputs[1]].rows, inits[nodes[p.up].inputs[1]].rows; var h := Width(a);
            && n.weight in goal && goal[n.weight] == Tensor(Beside(a, b))
            && n.gateStarts in goal && goal[n.gateStarts] == Ints([0])
            && n.gateEnds in goal && goal[n.gateEnds] == Ints([h])
            && n.upStarts in goal && goal[n.upStarts] == Ints([h])
            && n.upEnds in goal && goal[n.upEnds] == Ints([2 * h])
            && n.axes in goal && goal[n.axes] == Ints([-1])
  {
    hide Beside;
    var m := LayerInits(nodes, inits, p, n);
    assert n.weight in m && n.gateStarts in m && n.gateEnds in m && n.upStarts in m && n.upEnds in m && n.axes in m;
  }

  lemma FusedSolves(kernel: Kernel, node: Node, x: string, w: string, out: string, goal: Env)
    requires Faithful(kernel) && node.op.MatMul? && node.inputs == [x, w] && node.outputs == [out]
    requires x != "" && w != "" && out != "" && x in goal && w in goal && out in goal
    requires goal[out] == MatMulOf(goal[x], goal[w])
    ensures Solves(kernel, node, goal)
  {
    hide MatMulOf;
    ReadsTwo(node, x, w);
    SolvesOne(kernel, node, goal, out);
  }

  lemma RunsThree(kernel: Kernel, a: Node, b: Node, c: Node, start: set<string>, goal: Env)
    requires Reads(a) <= start && Reads(b) <= start + Writes(a) && Reads(c) <= start + Writes(a)
    requires Solves(kernel, a, goal) && Solves(kernel, b, goal) && Solves(kernel, c, goal)
    ensures Runs(kernel, [a, b, c], start, goal)
  {
    hide Reads, Writes, Solves, Runs;
    assert [c] + [] == [c] && [b] + [c] == [b, c] && [a] + [b, c] == [a, b, c];
    RunsNothing(kernel, start + Writes(a) + Writes(b) + Writes(c), goal);
    RunsCons(kernel, c, [], start + Writes(a) + Writes(b), goal);
    RunsCons(kernel, b, [c], start + Writes(a), goal);
    RunsCons(kernel, a, [b, c], start, goal);
  }

  lemma {:induction false} RunsAppend(kernel: Kernel, a: seq<Node>, b: seq<Node>, start: set<string>, goal: Env)
    requires Runs(kernel, a, start, goal) && Runs(kernel, b, start + Written(a), goal)
    ensures Runs(kernel, a + b, start, goal)
  {
    hide Reads, Writes, Solves;
    if a == [] {
      assert a + b == b && start + Written(a) == start;
    } else {
      assert start + Written(a) == start + Writes(a[0]) + Written(a[1..]);
      RunsAppend(kernel, a[1..], b, start + Writes(a[0]), goal);
      assert (a + b)[1..] == a[1..] + b;
    }
  }

  /** A node that the rewrite leaves alone still runs. */
  lemma OldNodeRuns(kernel: Kernel, node: Node, start: set<string>, all: Env, goal: Env)
    requires Reads(node) <= start && Solves(kernel, node, all) && Extends(all, goal)
    ensures Runs(kernel, [node], start, goal)
  {
    forall name | name in Writes(node) ensures name in goal && goal[name] == Output(kernel, node, goal, name) {
      SameOutput(kernel, node, all, goal, {}, name);
    }
    RunsNothing(kernel, start + Writes(node), goal);
    assert [node][1..] == [];
  }

  /** The setting of the main theorem: a completed run of the original, and fresh names. */
  ghost predicate Setting(
    kernel: Kernel, nodes: seq<Node>, inits: Env, plan: Plan, names: Naming, start: set<string>, all: Env)
  {
    && Faithful(kernel) && PlanOk(nodes, inits, plan) && Runs(kernel, nodes, start, all) && Extends(inits, all)
    && FreshNames(plan, names, all.Keys)
  }

  ghost predicate HasInits(nodes: seq<Node>, inits: Env, plan: Plan, names: Naming, have: set<string>)
    requires PlanOk(nodes, inits, plan)
  {
    forall l | l in plan :: PairOk(nodes, inits, l, plan[l]) && LayerInits(nodes, inits, plan[l], names(l)).Keys <= have
  }

  lemma PlaceRuns(
    kernel: Kernel, nodes: seq<Node>, inits: Env, plan: Plan, names: Naming, start: set<string>, all: Env, goal: Env,
    have: set<string>, i: nat)
    requires Setting(kernel, nodes, inits, plan, names, start, all) && OrderOk(nodes, plan)
    requires Target(nodes, inits, plan, names, all, goal) && HasInits(nodes, inits, plan, names, have) && start <= have
    requires i < |nodes|
    ensures Runs(kernel, Rewritten(nodes, inits, plan, names, i), have + NewMade(nodes, inits, plan, names, i), goal)
  {
    hide Runs, Solves, Reads, Writes, LayerTarget, LayerInits, NewMade, Fusable, Faithful, PairOk, GateLayer, PlanOk,
         Fused, OrderOk;
    var now := have + NewMade(nodes, inits, plan, names, i);
    if Skipped(plan, i) {
      RunsNothing(kernel, now, goal);
    } else {
      forall name | name in Reads(nodes[i]) ensures name in now {
        StillThere(kernel, nodes, inits, plan, names, start, all, i, name);
      }
      var l := LayerAt(nodes, plan, i);
      if l.Some? {
        var p := plan[l.value];
        GateIsGate(nodes, inits, plan, l.value);
        RunsEach(kernel, nodes, start, all, p.gate, "");
        RunsEach(kernel, nodes, start, all, p.up, "");
        GateReads(nodes[i]);
        PairIsFusable(nodes, inits, l.value, p);
        FusedRuns(kernel, nodes, inits, p, names(l.value), now, all, goal);
      } else {
        RunsEach(kernel, nodes, start, all, i, "");
        OldNodeRuns(kernel, nodes[i], now, all, goal);
      }
    }
  }

  lemma GateReads(node: Node)
    requires Binary(node) && node.op.MatMul?
    ensures node.inputs[0] in Reads(node)
  {}

  lemma PairIsFusable(nodes: seq<Node>, inits: Env, l: string, p: Pair)
    requires PairOk(nodes, inits, l, p)
    ensures Fusable(nodes, inits, p)
  {}

  lemma {:induction false} NewRuns(
    kernel: Kernel, nodes: seq<Node>, inits: Env, plan: Plan, names: Naming, start: set<string>, all: Env, goal: Env,
    have: set<string>, i: nat)
    requires Setting(kernel, nodes, inits, plan, names, start, all) && OrderOk(nodes, plan)
    requires Target(nodes, inits, plan, names, all, goal) && HasInits(nodes, inits, plan, names, have) && start <= have
    requires i <= |nodes|
    ensures Runs(kernel, NewFrom(nodes, inits, plan, names, i), have + NewMade(nodes, inits, plan, names, i), goal)
    decreases |nodes| - i
  {
    hide Runs, Rewritten, Target, HasInits, OrderOk, FreshNames, PlanOk, Faithful, Extends, Written;
    var now := have + NewMade(nodes, inits, plan, names, i);
    if i == |nodes| {
      RunsNothing(kernel, now, goal);
    } else {
      PlaceRuns(kernel, nodes, inits, plan, names, start, all, goal, have, i);
      NewRuns(kernel, nodes, inits, plan, names, start, all, goal, have, i + 1);
      var here := Rewritten(nodes, inits, plan, names, i);
      assert now + Written(here) == have + NewMade(nodes, inits, plan, names, i + 1);
      RunsAppend(kernel, here, NewFrom(nodes, inits, plan, names, i + 1), now, goal);
    }
  }

  /** Every old tensor is still made. */
  lemma OldTensorsMade(nodes: seq<Node>, inits: Env, plan: Plan, names: Naming, j: nat)
    requires PlanOk(nodes, inits, plan) && j < |nodes| && forall l | l in plan :: names(l).fused != ""
    ensures Writes(nodes[j]) <= NewMade(nodes, inits, plan, names, |nodes|)
  {
    hide Writes, Written, Rewritten, NewMade, PlanOk, Skipped;
    if Skipped(plan, j) {
      var l := UpOf(plan, j);
      FusedWrites(nodes, inits, plan, names, l);
      MadeStays(nodes, inits, plan, names, plan[l].gate, |nodes|);
    } else {
      Survives(nodes, inits, plan, names, j);
      MadeStays(nodes, inits, plan, names, j, |nodes|);
    }
  }

  /** ni holds exactly the constants of the fused layers. */
  ghost predicate NewInits(nodes: seq<Node>, inits: Env, plan: Plan, names: Naming, ni: Env)
    requires PlanOk(nodes, inits, plan)
  {
    && (forall l | l in plan ::
          PairOk(nodes, inits, l, plan[l]) && Extends(LayerInits(nodes, inits, plan[l], names(l)), ni))
    && (forall name | name in ni :: exists l :: l in plan && name in ConstNames(names(l)))
  }

  function ConstNames(n: New): set<string> {
    {n.weight, n.gateStarts, n.gateEnds, n.upStarts, n.upEnds, n.axes}
  }

  lemma ConstsAre(nodes: seq<Node>, inits: Env, p: Pair, n: New)
    requires Fusable(nodes, inits, p)
    ensures LayerInits(nodes, inits, p, n).Keys == ConstNames(n)
  {
    hide Beside;
  }

  /** The new constants clash neither with old names nor with a fused product. */
  lemma InitsApart(nodes: seq<Node>, inits: Env, plan: Plan, names: Naming, ni: Env, taken: set<string>)
    requires PlanOk(nodes, inits, plan) && NewInits(nodes, inits, plan, names, ni) && FreshNames(plan, names, taken)
    ensures ni.Keys !! taken && forall l | l in plan :: names(l).fused !in ni && names(l).fused !in taken
  {
    hide PairOk, LayerInits, PlanOk, Distinct;
    forall name | name in ni ensures name !in taken {
      var m :| m in plan && name in ConstNames(names(m));
      assert name in NameSet(names(m)) && NewNames(names(m), taken);
    }
    forall l | l in plan ensures names(l).fused !in ni && names(l).fused !in taken {
      FusedApart(plan, names, ni, taken, l);
    }
  }

  lemma FusedApart(plan: Plan, names: Naming, ni: Env, taken: set<string>, l: string)
    requires FreshNames(plan, names, taken) && l in plan
    requires forall name | name in ni :: exists m :: m in plan && name in ConstNames(names(m))
    ensures names(l).fused !in ni && names(l).fused !in taken
  {
    assert NewNames(names(l), taken);
    var name := names(l).fused;
    assert name in NameSet(names(l)) && name !in ConstNames(names(l));
    forall m | m in plan ensures name !in ConstNames(names(m)) {
      assert ConstNames(names(m)) <= NameSet(names(m));
      assert m != l ==> NameSet(names(l)) !! NameSet(names(m));
    }
  }

  lemma FusedDiffer(plan: Plan, names: Naming, taken: set<string>, l: string, m: string)
    requires FreshNames(plan, names, taken) && l in plan && m in plan && names(l).fused == names(m).fused
    ensures l == m
  {
    assert names(l).fused in NameSet(names(l)) && names(m).fused in NameSet(names(m));
    assert l == m || NameSet(names(l)) !! NameSet(names(m));
  }

  lemma WeightIn(nodes: seq<Node>, inits: Env, p: Pair, n: New, ni: Env)
    requires Fusable(nodes, inits, p) && Extends(LayerInits(nodes, inits, p, n), ni)
    ensures n.weight in ni
  {
    ConstsAre(nodes, inits, p, n);
    hide LayerInits;
    assert n.weight in ConstNames(n);
  }

  ghost predicate GateInputIn(nodes: seq<Node>, p: Pair, all: Env) {
    0 <= p.gate < |nodes| && |nodes[p.gate].inputs| == 2 && nodes[p.gate].inputs[0] in all
  }

  /** A layer's fused product. */
  function Product(nodes: seq<Node>, p: Pair, n: New, all: Env, ni: Env): Value {
    if 0 <= p.gate < |nodes| && |nodes[p.gate].inputs| == 2 && nodes[p.gate].inputs[0] in all && n.weight in ni
    then MatMulOf(all[nodes[p.gate].inputs[0]], ni[n.weight]) else Bad
  }

  ghost function FusedNames(plan: Plan, names: Naming): set<string> {
    set l | l in plan :: names(l).fused
  }

  /** The layer that a fused tensor belongs to. */
  ghost function LayerNamed(plan: Plan, names: Naming, name: string): (l: string)
    requires name in FusedNames(plan, names)
    ensures l in plan && names(l).fused == name
  {
    var l :| l in plan && names(l).fused == name;
    l
  }

  ghost function Products(nodes: seq<Node>, plan: Plan, names: Naming, all: Env, ni: Env): Env {
    map name | name in FusedNames(plan, names) ::
      var l := LayerNamed(plan, names, name); Product(nodes, plan[l], names(l), all, ni)
  }

  lemma ProductsAre(nodes: seq<Node>, plan: Plan, names: Naming, all: Env, ni: Env, l: string)
    requires FreshNames(plan, names, all.Keys) && l in plan
    ensures var products := Products(nodes, plan, names, all, ni); var name := names(l).fused;
            name in products && products[name] == Product(nodes, plan[l], names(l), all, ni)
  {
    hide FreshNames, Product;
    var name := names(l).fused;
    assert name in FusedNames(plan, names);
    FusedDiffer(plan, names, all.Keys, l, LayerNamed(plan, names, name));
  }

  lemma UnionExtends(a: Env, b: Env, c: Env)
    requires a.Keys !! b.Keys && (a.Keys + b.Keys) !! c.Keys
    ensures Extends(a, a + b + c) && Extends(b, a + b + c) && Extends(c, a + b + c)
  {}

  lemma GoalLayer(nodes: seq<Node>, inits: Env, p: Pair, n: New, all: Env, ni: Env, products: Env, goal: Env)
    requires Fusable(nodes, inits, p) && GateInputIn(nodes, p, all) && Extends(LayerInits(nodes, inits, p, n), ni)
    requires n.fused in products && products[n.fused] == Product(nodes, p, n, all, ni)
    requires Extends(ni, goal) && Extends(products, goal)
    ensures LayerTarget(nodes, inits, p, n, all, goal)
  {
    hide LayerInits, MatMulOf, SameShape;
    WeightIn(nodes, inits, p, n, ni);
  }

  /** A target exists. */
  lemma TargetExists(nodes: seq<Node>, inits: Env, plan: Plan, names: Naming, all: Env, ni: Env) returns (goal: Env)
    requires PlanOk(nodes, inits, plan) && NewInits(nodes, inits, plan, names, ni) && FreshNames(plan, names, all.Keys)
    requires forall l | l in plan :: GateInputIn(nodes, plan[l], all)
    ensures Target(nodes, inits, plan, names, all, goal) && Extends(ni, goal)
  {
    hide PlanOk, FreshNames, GateLayer, UpLayer, LayerInits, Binary, Fusable, Extends, Product, Products,
         GateInputIn, LayerTarget;
    InitsApart(nodes, inits, plan, names, ni, all.Keys);
    var products := Products(nodes, plan, names, all, ni);
    ProductKeys(nodes, plan, names, all, ni);
    UnionExtends(all, ni, products);
    goal := all + ni + products;
    forall l | l in plan
      ensures PairOk(nodes, inits, l, plan[l]) && LayerTarget(nodes, inits, plan[l], names(l), all, goal)
    {
      ProductsAre(nodes, plan, names, all, ni, l);
      GoalLayer(nodes, inits, plan[l], names(l), all, ni, products, goal);
    }
  }

  lemma ProductKeys(nodes: seq<Node>, plan: Plan, names: Naming, all: Env, ni: Env)
    ensures Products(nodes, plan, names, all, ni).Keys == FusedNames(plan, names)
  {}

  // ---- the main theorem, both ways ----

  lemma {:induction false} WrittenWhere(nodes: seq<Node>, name: string)
    ensures name in Written(nodes) <==> exists j :: 0 <= j < |nodes| && name in Writes(nodes[j])
  {
    hide Writes;
    if nodes != [] {
      WrittenWhere(nodes[1..], name);
      if name in Written(nodes[1..]) {
        var j :| 0 <= j < |nodes[1..]| && name in Writes(nodes[1..][j]);
        assert nodes[1..][j] == nodes[j + 1];
      }
      if j :| 0 <= j < |nodes| && name in Writes(nodes[j]) {
        if j > 0 { assert nodes[1..][j - 1] == nodes[j]; }
      }
    }
  }

  lemma {:induction false} WrittenAppend(a: seq<Node>, b: seq<Node>)
    ensures Written(a + b) == Written(a) + Written(b)
  {
    hide Writes;
    if a == [] {
      assert a + b == b;
    } else {
      WrittenAppend(a[1..], b);
      assert (a + b)[1..] == a[1..] + b;
    }
  }

  lemma {:induction false} NewWritten(nodes: seq<Node>, inits: Env, plan: Plan, names: Naming, i: nat)
    requires PlanOk(nodes, inits, plan) && i <= |nodes|
    ensures NewMade(nodes, inits, plan, names, i) + Written(NewFrom(nodes, inits, plan, names, i)) ==
            NewMade(nodes, inits, plan, names, |nodes|)
    decreases |nodes| - i
  {
    hide Rewritten, PlanOk, Written;
    if i < |nodes| {
      NewWritten(nodes, inits, plan, names, i + 1);
      WrittenAppend(Rewritten(nodes, inits, plan, names, i), NewFrom(nodes, inits, plan, names, i + 1));
    } else {
      WrittenNothing();
    }
  }

  lemma WrittenNothing()
    ensures Written([]) == {}
  {}

  /** The hypotheses on a model: it runs, assigns once, and its initializers are not fed over. */
  ghost predicate Model(kernel: Kernel, nodes: seq<Node>, inits: Env, feed: Env, plan: Plan, names: Naming, ni: Env) {
    && Faithful(kernel) && PlanOk(nodes, inits, plan) && inits.Keys !! feed.Keys
    && SingleAssignment(nodes, (inits + feed).Keys) && Exec(kernel, nodes, inits + feed).Some?
    && FreshNames(plan, names, Exec(kernel, nodes, inits + feed).value.Keys)
    && NewInits(nodes, inits, plan, names, ni)
  }

  lemma ModelSetting(kernel: Kernel, nodes: seq<Node>, inits: Env, feed: Env, plan: Plan, names: Naming, ni: Env)
    requires Model(kernel, nodes, inits, feed, plan, names, ni)
    ensures var all := Exec(kernel, nodes, inits + feed).value;
            && Setting(kernel, nodes, inits, plan, names, (inits + feed).Keys, all)
            && Within(inits + feed, all, {}) && all.Keys == (inits + feed).Keys + Written(nodes)
            && HasInits(nodes, inits, plan, names, (inits + feed + ni).Keys)
            && forall l | l in plan :: GateInputIn(nodes, plan[l], all)
  {
    hide Exec, Runs, Written, PlanOk, FreshNames, Faithful, SingleAssignment, LayerInits, Fusable, GateLayer,
         UpLayer, Solves;
    ExecSolves(kernel, nodes, inits + feed);
    var env, all := inits + feed, Exec(kernel, nodes, inits + feed).value;
    assert Extends(inits, all) by {
      forall name | name in inits
        ensures name in all && all[name] == inits[name]
      {
        assert name in env && env[name] == inits[name];
      }
    }
    forall l | l in plan ensures GateInputIn(nodes, plan[l], all) {
      GateIsGate(nodes, inits, plan, l);
      RunsEach(kernel, nodes, env.Keys, all, plan[l].gate, "");
      OldProduct(kernel, nodes[plan[l].gate], all);
    }
  }

  /** Fusion leaves every tensor of the original with its value. */
  lemma FusionPreserves(kernel: Kernel, nodes: seq<Node>, inits: Env, feed: Env, plan: Plan, names: Naming, ni: Env)
    requires Model(kernel, nodes, inits, feed, plan, names, ni) && OrderOk(nodes, plan)
    ensures var all := Exec(kernel, nodes, inits + feed).value;
            var r := Exec(kernel, NewFrom(nodes, inits, plan, names, 0), inits + feed + ni);
            r.Some? && Extends(all, r.value)
  {
    hide Exec, Runs, Written, PlanOk, FreshNames, Faithful, SingleAssignment, NewInits, PairOk, NewFrom, OrderOk,
         HasInits, NewMade;
    ModelSetting(kernel, nodes, inits, feed, plan, names, ni);
    var env, all := inits + feed, Exec(kernel, nodes, inits + feed).value;
    var rewritten := NewFrom(nodes, inits, plan, names, 0);
    var goal := TargetExists(nodes, inits, plan, names, all, ni);
    NewRuns(kernel, nodes, inits, plan, names, env.Keys, all, goal, (env + ni).Keys, 0);
    NewWritten(nodes, inits, plan, names, 0);
    NothingMade(nodes, inits, plan, names);
    assert (env + ni).Keys + {} == (env + ni).Keys;
    ExecMatches(kernel, rewritten, env + ni, goal, {});
    var r := Exec(kernel, rewritten, env + ni).value;
    forall name | name in all ensures name in r && r[name] == all[name] {
      if name !in env {
        WrittenWhere(nodes, name);
        var j :| 0 <= j < |nodes| && name in Writes(nodes[j]);
        FusedNonempty(plan, names, all.Keys);
        OldTensorsMade(nodes, inits, plan, names, j);
      }
    }
  }

  lemma NothingMade(nodes: seq<Node>, inits: Env, plan: Plan, names: Naming)
    requires PlanOk(nodes, inits, plan)
    ensures NewMade(nodes, inits, plan, names, 0) == {}
  {}

  lemma FusedNonempty(plan: Plan, names: Naming, taken: set<string>)
    requires FreshNames(plan, names, taken)
    ensures forall l | l in plan :: names(l).fused != ""
  {
    forall l | l in plan ensures names(l).fused != "" {
      assert NewNames(names(l), taken);
      assert names(l).fused in NameSet(names(l));
    }
  }

  /** Before its layer's gate place, an up tensor is not made. */
  lemma {:induction false} NotMadeYet(
    nodes: seq<Node>, inits: Env, plan: Plan, names: Naming, start: set<string>, taken: set<string>, l: string, i: nat)
    requires PlanOk(nodes, inits, plan) && SingleAssignment(nodes, start) && FreshNames(plan, names, taken)
    requires Written(nodes) <= taken && l in plan && Proper(nodes, plan[l]) && i <= plan[l].gate
    ensures nodes[plan[l].up].outputs[0] !in NewMade(nodes, inits, plan, names, i)
  {
    hide SingleAssignment, FreshNames, Rewritten, Written, PlanOk, Binary;
    if i > 0 {
      NotMadeYet(nodes, inits, plan, names, start, taken, l, i - 1);
      NotMadeHere(nodes, inits, plan, names, start, taken, l, i - 1);
    }
  }

  lemma NotMadeHere(
    nodes: seq<Node>, inits: Env, plan: Plan, names: Naming, start: set<string>, taken: set<string>, l: string, j: nat)
    requires PlanOk(nodes, inits, plan) && SingleAssignment(nodes, start) && FreshNames(plan, names, taken)
    requires Written(nodes) <= taken && l in plan && Proper(nodes, plan[l]) && j < plan[l].gate
    ensures nodes[plan[l].up].outputs[0] !in Written(Rewritten(nodes, inits, plan, names, j))
  {
    hide PlanOk, SingleAssignment, FreshNames, Written, GateLayer, UpLayer, Writes, Skipped, Fused;
    var up := plan[l].up;
    var name := nodes[up].outputs[0];
    WritesOne(nodes[up]);
    WrittenWhere(nodes, name);
    FusedNonempty(plan, names, taken);
    var m := LayerAt(nodes, plan, j);
    if Skipped(plan, j) {
      WrittenNothing();
    } else if m.Some? {
      FusedWrites(nodes, inits, plan, names, m.value);
      FusedOutside(plan, names, taken, m.value);
      GateIsNotUp(nodes, inits, plan, m.value, l);
      if name in Writes(nodes[j]) { OneWriter(nodes, start, name, j, up); }
      if name in Writes(nodes[plan[m.value].up]) { OneWriter(nodes, start, name, plan[m.value].up, up); }
    } else {
      WrittenSingle(nodes[j]);
      if name in Writes(nodes[j]) {
        OneWriter(nodes, start, name, j, up);
        SkippedUp(plan, l);
      }
    }
  }

  lemma WrittenSingle(node: Node)
    ensures Written([node]) == Writes(node)
  {
    assert [node][1..] == [];
  }

  lemma SkippedUp(plan: Plan, l: string)
    requires l in plan
    ensures Skipped(plan, plan[l].up)
  {}

  lemma FusedOutside(plan: Plan, names: Naming, taken: set<string>, m: string)
    requires FreshNames(plan, names, taken) && m in plan
    ensures names(m).fused !in taken
  {
    assert NewNames(names(m), taken) && names(m).fused in NameSet(names(m));
  }

  /** Gate and up places never coincide, and an up place belongs to one layer. */
  lemma GateIsNotUp(nodes: seq<Node>, inits: Env, plan: Plan, m: string, l: string)
    requires PlanOk(nodes, inits, plan) && m in plan && l in plan
    ensures plan[m].gate != plan[l].up && (plan[m].up == plan[l].up ==> m == l)
  {
    hide Before, Fusable;
    assert PairOk(nodes, inits, m, plan[m]) && PairOk(nodes, inits, l, plan[l]);
  }

  lemma OneWriter(nodes: seq<Node>, start: set<string>, name: string, j: int, k: int)
    requires SingleAssignment(nodes, start) && 0 <= j < |nodes| && 0 <= k < |nodes|
    requires name in Writes(nodes[j]) && name in Writes(nodes[k])
    ensures j == k && name !in start
  {
    hide Writes;
    assert Writes(nodes[j]) !! start;
    assert Writes(nodes[j]) !! Writes(nodes[k]) || j == k;
  }

  /** A successful run of a + b is a run of a followed by a run of b. */
  lemma {:induction false} ExecAppend(kernel: Kernel, a: seq<Node>, b: seq<Node>, env: Env) returns (mid: Env)
    requires Exec(kernel, a + b, env).Some?
    ensures mid.Keys == env.Keys + Written(a) && Exec(kernel, b, mid).Some?
    ensures a != [] ==> Reads(a[0]) <= env.Keys
  {
    hide Reads, Writes, Output;
    if a == [] {
      assert a + b == b;
      mid := env;
    } else {
      assert (a + b)[1..] == a[1..] + b && (a + b)[0] == a[0];
      var env' := env + map name | name in Writes(a[0]) :: Output(kernel, a[0], env, name);
      assert env'.Keys == env.Keys + Writes(a[0]);
      mid := ExecAppend(kernel, a[1..], b, env');
    }
  }

  lemma {:induction false} ExecUpTo(
    kernel: Kernel, nodes: seq<Node>, inits: Env, plan: Plan, names: Naming, env: Env, i: nat)
    returns (mid: Env)
    requires PlanOk(nodes, inits, plan) && i <= |nodes|
             && Exec(kernel, NewFrom(nodes, inits, plan, names, 0), env).Some?
    ensures mid.Keys == env.Keys + NewMade(nodes, inits, plan, names, i)
    ensures Exec(kernel, NewFrom(nodes, inits, plan, names, i), mid).Some?
  {
    hide PlanOk, Rewritten, Exec, Written;
    if i == 0 {
      mid := env;
    } else {
      var before := ExecUpTo(kernel, nodes, inits, plan, names, env, i - 1);
      var here, rest := Rewritten(nodes, inits, plan, names, i - 1), NewFrom(nodes, inits, plan, names, i);
      mid := ExecAppend(kernel, here, rest, before);
    }
  }

  /** The first node at a surviving place reads every non-constant the old node read. */
  lemma FirstReads(nodes: seq<Node>, inits: Env, plan: Plan, names: Naming, i: nat, name: string)
    requires PlanOk(nodes, inits, plan) && i < |nodes| && !Skipped(plan, i) && name in Reads(nodes[i]) && name !in inits
    ensures var here := Rewritten(nodes, inits, plan, names, i); here != [] && name in Reads(here[0])
  {
    hide GateLayer, UpLayer, Skipped;
    var l := LayerAt(nodes, plan, i);
    if l.Some? {
      assert PairOk(nodes, inits, l.value, plan[l.value]);
      GateIsGate(nodes, inits, plan, l.value);
      var gate, first := nodes[i], Rewritten(nodes, inits, plan, names, i)[0];
      assert gate.inputs == [gate.inputs[0], gate.inputs[1]];
      ReadsTwo(gate, gate.inputs[0], gate.inputs[1]);
      assert first.inputs[0] == name;
    }
  }

  /** If the rewritten graph runs at all, no reader of an up tensor preceded its gate. */
  lemma FusionNeedsOrder(kernel: Kernel, nodes: seq<Node>, inits: Env, feed: Env, plan: Plan, names: Naming, ni: Env)
    requires Model(kernel, nodes, inits, feed, plan, names, ni)
    requires Exec(kernel, NewFrom(nodes, inits, plan, names, 0), inits + feed + ni).Some?
    ensures OrderOk(nodes, plan)
  {
    hide Exec, PlanOk, FreshNames, NewInits, SingleAssignment, Written, NewMade, Rewritten, Faithful, GateInputIn,
         HasInits, Runs, Within, Proper, Setting, Reads, Writes, Skipped;
    ModelSetting(kernel, nodes, inits, feed, plan, names, ni);
    var env, all := inits + feed, Exec(kernel, nodes, inits + feed).value;
    InitsApart(nodes, inits, plan, names, ni, all.Keys);
    forall l, i | l in plan && 0 <= i < |nodes| && ReadsUp(nodes, plan[l], i) && !Skipped(plan, i)
      ensures plan[l].gate < i
    {
      GateIsGate(nodes, inits, plan, l);
      var up := nodes[plan[l].up];
      UpName(up);
      var name := up.outputs[0];
      OneWriter(nodes, env.Keys, name, plan[l].up, plan[l].up);
      WrittenWhere(nodes, name);
      FirstReads(nodes, inits, plan, names, i, name);
      var mid := ExecUpTo(kernel, nodes, inits, plan, names, env + ni, i);
      var here, rest := Rewritten(nodes, inits, plan, names, i), NewFrom(nodes, inits, plan, names, i + 1);
      var after := ExecAppend(kernel, here, rest, mid);
      if i <= plan[l].gate {
        NotMadeYet(nodes, inits, plan, names, env.Keys, all.Keys, l, i);
      }
    }
  }

  lemma UpName(up: Node)
    requires Binary(up) && up.op.MatMul?
    ensures Writes(up) == {up.outputs[0]}
  {
    WritesOne(up);
  }

  /** The fused model runs exactly when every reader of an up tensor comes after its layer's gate node. */
  lemma FusionRunsIff(kernel: Kernel, nodes: seq<Node>, inits: Env, feed: Env, plan: Plan, names: Naming, ni: Env)
    requires Model(kernel, nodes, inits, feed, plan, names, ni)
    ensures Exec(kernel, NewFrom(nodes, inits, plan, names, 0), inits + feed + ni).Some? <==> OrderOk(nodes, plan)
  {
    hide Exec, OrderOk, NewFrom, PlanOk, FreshNames, NewInits, Faithful, SingleAssignment;
    if OrderOk(nodes, plan) {
      FusionPreserves(kernel, nodes, inits, feed, plan, names, ni);
    } else if Exec(kernel, NewFrom(nodes, inits, plan, names, 0), inits + feed + ni).Some? {
      FusionNeedsOrder(kernel, nodes, inits, feed, plan, names, ni);
    }
  }

  // ---- the rewriting pass ----

  /** The names invented for different layers of this graph do not collide. */
  ghost predicate LayersApart(nodes: seq<Node>, names: Naming) {
    && (forall l | l in Gates(nodes) :: Distinct(names(l)))
    && (forall l, m | l in Gates(nodes) && m in Gates(nodes) && l != m :: NameSet(names(l)) !! NameSet(names(m)))
  }

  ghost predicate PlanSoFar(nodes: seq<Node>, inits: Env, plan: Plan, done: set<string>) {
    forall l ::
      && (l in plan <==>
            && l in done && l in Gates(nodes) && l in Ups(nodes)
            && Fusable(nodes, inits, Pair(Gates(nodes)[l], Ups(nodes)[l])))
      && (l in plan ==> plan[l] == Pair(Gates(nodes)[l], Ups(nodes)[l]))
  }

  ghost predicate InitsSoFar(nodes: seq<Node>, inits: Env, plan: Plan, names: Naming, ni: Env) {
    && (forall l | l in plan ::
          Fusable(nodes, inits, plan[l]) && Extends(LayerInits(nodes, inits, plan[l], names(l)), ni))
    && (forall name | name in ni :: exists l :: l in plan && name in ConstNames(names(l)))
  }

  /** The first loop: the layers' gate and up nodes, later ones replacing earlier ones. */
  method FindProjections(nodes: seq<Node>) returns (gates: map<string, int>, ups: map<string, int>)
    ensures gates == Gates(nodes) && ups == Ups(nodes)
  {
    gates, ups := map[], map[];
    for i := 0 to |nodes|
      invariant gates == Gates(nodes[..i]) && ups == Ups(nodes[..i])
    {
      hide Before;
      assert nodes[..i + 1][..i] == nodes[..i];
      var node := nodes[i];
      if !node.op.MatMul? { continue; }
      var gate, up := Before(node.name, GateMark, 0), Before(node.name, UpMark, 0);
      if gate.Some? {
        gates := gates[gate.value := i];
      } else if up.Some? {
        ups := ups[up.value := i];
      }
    }
    assert nodes[..|nodes|] == nodes;
  }

  /** The second loop: plans every fusable layer and builds its constants. */
  method PlanFusion(nodes: seq<Node>, inits: Env, names: Naming) returns (plan: Plan, ni: Env, skip: set<int>)
    requires LayersApart(nodes, names)
    ensures IsPlan(nodes, inits, plan) && InitsSoFar(nodes, inits, plan, names, ni)
    ensures skip == UpPlaces(plan)
  {
    hide Gates, Ups, Fusable, LayerInits, LayersApart, PlanSoFar, InitsSoFar, UpPlaces, IsPlan;
    var gates, ups := FindProjections(nodes);
    plan, ni, skip := map[], map[], {};
    var todo := gates.Keys;
    NothingPlanned(nodes, inits, names);
    assert gates.Keys - todo == {};
    while todo != {}
      invariant todo <= gates.Keys && PlanSoFar(nodes, inits, plan, gates.Keys - todo)
      invariant InitsSoFar(nodes, inits, plan, names, ni)
      invariant skip == UpPlaces(plan)
      decreases |todo|
    {
      var l :| l in todo;
      PlanOne(nodes, inits, plan, gates.Keys - todo, l);
      assert gates.Keys - (todo - {l}) == gates.Keys - todo + {l};
      todo := todo - {l};
      if l !in ups { continue; }
      var p := Pair(gates[l], ups[l]);
      if !Fusable(nodes, inits, p) { continue; }
      InitsOne(nodes, inits, plan, names, ni, gates.Keys - todo - {l}, l, p);
      UpPlacesAdd(plan, l, p);
      plan := plan[l := p];
      ni := ni + LayerInits(nodes, inits, p, names(l));
      skip := skip + {p.up};
    }
    PlanDone(nodes, inits, plan, gates.Keys - todo);
  }

  function UpPlaces(plan: Plan): set<int> {
    set l | l in plan :: plan[l].up
  }

  lemma UpPlacesAdd(plan: Plan, l: string, p: Pair)
    requires l !in plan
    ensures UpPlaces(plan[l := p]) == UpPlaces(plan) + {p.up}
  {
    forall k | k in UpPlaces(plan) ensures k in UpPlaces(plan[l := p]) {
      var m :| m in plan && plan[m].up == k;
      assert m in plan[l := p] && plan[l := p][m].up == k;
    }
    assert plan[l := p][l].up == p.up;
  }

  lemma NothingPlanned(nodes: seq<Node>, inits: Env, names: Naming)
    ensures PlanSoFar(nodes, inits, map[], {}) && InitsSoFar(nodes, inits, map[], names, map[]) && UpPlaces(map[]) == {}
  {}

  lemma PlanOne(nodes: seq<Node>, inits: Env, plan: Plan, done: set<string>, l: string)
    requires PlanSoFar(nodes, inits, plan, done) && l !in done && l in Gates(nodes)
    ensures l !in plan
    ensures var ok := l in Ups(nodes) && Fusable(nodes, inits, Pair(Gates(nodes)[l], Ups(nodes)[l]));
            PlanSoFar(nodes, inits, if ok then plan[l := Pair(Gates(nodes)[l], Ups(nodes)[l])] else plan, done + {l})
  {
    hide Gates, Ups, Fusable;
  }

  lemma PlanDone(nodes: seq<Node>, inits: Env, plan: Plan, done: set<string>)
    requires PlanSoFar(nodes, inits, plan, done) && done == Gates(nodes).Keys
    ensures IsPlan(nodes, inits, plan)
  {
    hide Gates, Ups, Fusable;
  }

  lemma InitsOne(
    nodes: seq<Node>, inits: Env, plan: Plan, names: Naming, ni: Env, done: set<string>, l: string, p: Pair)
    requires InitsSoFar(nodes, inits, plan, names, ni) && PlanSoFar(nodes, inits, plan, done) && l !in plan
    requires LayersApart(nodes, names) && l in Gates(nodes) && Fusable(nodes, inits, p)
    ensures InitsSoFar(nodes, inits, plan[l := p], names, ni + LayerInits(nodes, inits, p, names(l)))
  {
    hide Gates, Ups, Fusable, LayerInits, Distinct, Extends, NameSet, ConstNames;
    var mine := LayerInits(nodes, inits, p, names(l));
    ConstsAre(nodes, inits, p, names(l));
    var plan', ni' := plan[l := p], ni + mine;
    forall m | m in plan'
      ensures Fusable(nodes, inits, plan'[m]) && Extends(LayerInits(nodes, inits, plan'[m], names(m)), ni')
    {
      if m != l {
        assert m in plan && m in Gates(nodes) && NameSet(names(l)) !! NameSet(names(m));
        ConstsApart(names(l), names(m));
        ConstsAre(nodes, inits, plan[m], names(m));
        ExtendsUnion(LayerInits(nodes, inits, plan[m], names(m)), ni, mine);
      } else {
        ExtendsUnion(map[], ni, mine);
      }
    }
    forall name | name in ni' ensures exists m :: m in plan' && name in ConstNames(names(m)) {
      if name in mine {
        assert l in plan' && name in ConstNames(names(l));
      } else {
        var m :| m in plan && name in ConstNames(names(m));
        assert m in plan';
      }
    }
  }

  lemma ConstsApart(a: New, b: New)
    requires NameSet(a) !! NameSet(b)
    ensures ConstNames(a) !! ConstNames(b)
  {
    assert ConstNames(a) <= NameSet(a) && ConstNames(b) <= NameSet(b);
  }

  lemma ExtendsUnion(c: Env, ni: Env, mine: Env)
    requires Extends(c, ni) && c.Keys !! mine.Keys
    ensures Extends(c, ni + mine) && Extends(mine, ni + mine)
  {}

  /** The third loop: the nodes are copied, fused or skipped in their order. */
  method Rebuild(nodes: seq<Node>, inits: Env, plan: Plan, skip: set<int>, names: Naming) returns (rewritten: seq<Node>)
    requires PlanOk(nodes, inits, plan) && skip == UpPlaces(plan)
    ensures rewritten == NewFrom(nodes, inits, plan, names, 0)
  {
    hide PlanOk, GateLayer, Rewritten, Skipped, Fused, NewFrom, UpPlaces;
    rewritten := [];
    for i := 0 to |nodes|
      invariant rewritten + NewFrom(nodes, inits, plan, names, i) == NewFrom(nodes, inits, plan, names, 0)
    {
      SkipIs(plan, skip, i);
      PlaceIs(nodes, inits, plan, names, i);
      ghost var here, rest := Rewritten(nodes, inits, plan, names, i), NewFrom(nodes, inits, plan, names, i + 1);
      NewFromIs(nodes, inits, plan, names, i);
      Regroup(rewritten, here, rest);
      var l := GateLayer(nodes[i]);
      if i in skip { continue; }
      if l.Some? && l.value in plan && plan[l.value].gate == i {
        rewritten := rewritten + Fused(nodes, plan[l.value], names(l.value));
      } else {
        rewritten := rewritten + [nodes[i]];
      }
    }
    NewFromIs(nodes, inits, plan, names, |nodes|);
    assert rewritten + [] == rewritten;
  }

  lemma NewFromIs(nodes: seq<Node>, inits: Env, plan: Plan, names: Naming, i: nat)
    requires PlanOk(nodes, inits, plan) && i <= |nodes|
    ensures NewFrom(nodes, inits, plan, names, i) ==
            if i == |nodes| then []
            else Rewritten(nodes, inits, plan, names, i) + NewFrom(nodes, inits, plan, names, i + 1)
  {
    hide Rewritten, PlanOk;
  }

  lemma Regroup(a: seq<Node>, b: seq<Node>, c: seq<Node>)
    ensures a + (b + c) == (a + b) + c && (b == [] ==> a + b == a)
  {}

  /** The whole pass; with nothing to fuse the graph is left alone. */
  method FuseMlpGateUp(nodes: seq<Node>, inits: Env, names: Naming)
    returns (rewritten: seq<Node>, ni: Env, count: nat, plan: Plan)
    requires AllBinary(nodes) && LayersApart(nodes, names)
    ensures IsPlan(nodes, inits, plan) && PlanOk(nodes, inits, plan) && count == |plan|
    ensures rewritten == NewFrom(nodes, inits, plan, names, 0) && NewInits(nodes, inits, plan, names, ni)
    ensures count == 0 ==> rewritten == nodes && ni == map[]
  {
    hide IsPlan, PlanOk, LayersApart, InitsSoFar, NewInits, NewFrom;
    var skip;
    plan, ni, skip := PlanFusion(nodes, inits, names);
    PlanIsOk(nodes, inits, plan);
    InitsAreNew(nodes, inits, plan, names, ni);
    count := |plan|;
    if count == 0 {
      Unfused(nodes, inits, plan, names, 0);
      NoInits(nodes, inits, plan, names, ni);
      return nodes, map[], 0, plan;
    }
    rewritten := Rebuild(nodes, inits, plan, skip, names);
  }

  lemma NoInits(nodes: seq<Node>, inits: Env, plan: Plan, names: Naming, ni: Env)
    requires InitsSoFar(nodes, inits, plan, names, ni) && plan == map[]
    ensures ni == map[]
  {
    hide ConstNames, LayerInits;
    assert forall name | name in ni :: exists l :: l in plan && name in ConstNames(names(l));
  }

  lemma SkipIs(plan: Plan, skip: set<int>, i: int)
    requires skip == UpPlaces(plan)
    ensures i in skip <==> Skipped(plan, i)
  {}

  /** What stands at place i, case by case. */
  lemma PlaceIs(nodes: seq<Node>, inits: Env, plan: Plan, names: Naming, i: nat)
    requires PlanOk(nodes, inits, plan) && i < |nodes|
    ensures var l := GateLayer(nodes[i]); var here := Rewritten(nodes, inits, plan, names, i);
            if Skipped(plan, i) then here == []
            else if l.Some? && l.value in plan && plan[l.value].gate == i then
              Proper(nodes, plan[l.value]) && here == Fused(nodes, plan[l.value], names(l.value))
            else here == [nodes[i]]
  {
    hide Skipped;
    var l := LayerAt(nodes, plan, i);
    if l.Some? { GateIsGate(nodes, inits, plan, l.value); }
  }

  lemma InitsAreNew(nodes: seq<Node>, inits: Env, plan: Plan, names: Naming, ni: Env)
    requires InitsSoFar(nodes, inits, plan, names, ni) && PlanOk(nodes, inits, plan)
    ensures NewInits(nodes, inits, plan, names, ni)
  {
    hide LayerInits;
  }

  lemma {:induction false} Unfused(nodes: seq<Node>, inits: Env, plan: Plan, names: Naming, i: nat)
    requires plan == map[] && i <= |nodes|
    ensures PlanOk(nodes, inits, plan) && NewFrom(nodes, inits, plan, names, i) == nodes[i..]
    decreases |nodes| - i
  {
    if i < |nodes| {
      Unfused(nodes, inits, plan, names, i + 1);
      assert nodes[i..] == [nodes[i]] + nodes[i + 1..];
    }
  }

  // ---- a graph the pass breaks ----

  /** The two operators of the rewrite as ONNX defines them; any other computes nothing of interest. */
  function Ops(op: Op, args: seq<Option<Value>>, slot: int): Value {
    if op.MatMul? && |args| == 2 && args[0].Some? && args[1].Some? then MatMulOf(args[0].value, args[1].value)
    else if op.Slice? && |args| == 4 && forall i | 0 <= i < 4 :: args[i].Some? then
      SliceOf(args[0].value, args[1].value, args[2].value, args[3].value)
    else Bad
  }

  /** A layer whose up tensor is read before the gate projection comes. */
  function EarlyReader(): (r: seq<Node>)
    ensures |r| == 3
  {
    [Node(MatMul, "l/mlp/up_proj/MatMul", ["x", "wu"], ["u"]), Node(Other("Relu"), "act", ["u"], ["r"]),
     Node(MatMul, "l/mlp/gate_proj/MatMul", ["x", "wg"], ["g"])]
  }

  function EarlyInits(): Env {
    map["wu" := Tensor([[2.0]]), "wg" := Tensor([[3.0]])]
  }

  function EarlyNames(l: string): New {
    New("w#", "f#", "gs#", "ge#", "us#", "ue#", "ax#")
  }

  lemma {:induction false} TooShort(name: string, mark: string, i: nat)
    requires |name| < i + |mark|
    ensures Before(name, mark, i).None?
    decreases |name| - i
  {
    if i <= |name| { TooShort(name, mark, i + 1); }
  }

  /** A one-letter layer followed by a mark is read back. */
  lemma LayerBefore(mark: string)
    requires mark != [] && mark[0] != 'l'
    ensures Before("l" + mark, mark, 0) == Some("l")
  {
    var name := "l" + mark;
    assert name[0..][0] == 'l';
    assert name[1..] == mark;
    assert name[..1] == "l";
    assert Before(name, mark, 1) == Some("l");
  }

  lemma EarlyRoles()
    ensures Gates(EarlyReader()) == map["l" := 2] && Ups(EarlyReader()) == map["l" := 0]
  {
    hide Before;
    var nodes := EarlyReader();
    assert nodes[0].name == "l" + UpMark && nodes[2].name == "l" + GateMark;
    LayerBefore(GateMark);
    LayerBefore(UpMark);
    TooShort("l" + UpMark, GateMark, 0);
    assert nodes[..2][..1] == nodes[..1];
    assert nodes[..1][..0] == [];
    assert Gates(nodes[..1]) == map[] && Ups(nodes[..1]) == map["l" := 0];
    assert Gates(nodes[..2]) == map[] && Ups(nodes[..2]) == map["l" := 0];
  }

  lemma ReadsOne(node: Node, a: string)
    requires node.inputs == [a] && a != ""
    ensures Reads(node) == {a}
  {
    assert node.inputs[0] in Reads(node);
  }

  lemma EarlyReadsWrites()
    ensures var nodes := EarlyReader();
            && Reads(nodes[0]) == {"x", "wu"} && Reads(nodes[1]) == {"u"} && Reads(nodes[2]) == {"x", "wg"}
            && Writes(nodes[0]) == {"u"} && Writes(nodes[1]) == {"r"} && Writes(nodes[2]) == {"g"}
    ensures SingleAssignment(EarlyReader(), {"x", "wu", "wg"})
  {
    hide Reads, Writes;
    var nodes := EarlyReader();
    ReadsTwo(nodes[0], "x", "wu");
    ReadsTwo(nodes[2], "x", "wg");
    ReadsOne(nodes[1], "u");
    WritesOne(nodes[0]);
    WritesOne(nodes[1]);
    WritesOne(nodes[2]);
  }

  lemma EarlyRuns(v: Value)
    ensures var all := Exec(Ops, EarlyReader(), EarlyInits() + map["x" := v]);
            all.Some? && all.value.Keys == {"x", "wu", "wg", "u", "r", "g"}
  {
    hide Exec, Reads, Writes, EarlyReader, SingleAssignment, Ops;
    EarlyReadsWrites();
    var nodes, env := EarlyReader(), EarlyInits() + map["x" := v];
    var env1 := ExecFirst(Ops, nodes, env);
    var env2 := ExecFirst(Ops, nodes[1..], env1);
    assert nodes[1..][1..] == nodes[2..];
    var env3 := ExecFirst(Ops, nodes[2..], env2);
    ExecNothing(Ops, nodes[2..][1..], env3);
  }

  lemma OpsAreFaithful()
    ensures Faithful(Ops)
  {
    hide MatMulOf, SliceOf;
  }

  lemma EarlyBinary()
    ensures AllBinary(EarlyReader())
  {}

  /** The invented names end in a hash mark, the graph's own do not. */
  lemma EarlyFresh(l: string)
    ensures NewNames(EarlyNames(l), {"x", "wu", "wg", "u", "r", "g"})
  {
    var n := EarlyNames(l);
    forall name | name in NameSet(n) ensures name != "" && name !in {"x", "wu", "wg", "u", "r", "g"} {
      assert name[|name| - 1] == '#';
    }
    assert |n.weight| == |n.fused| == 2 && |n.axes| == 3;
  }

  lemma EarlyFusable()
    ensures Fusable(EarlyReader(), EarlyInits(), Pair(2, 0))
  {}

  /** The one layer is fused, and the early reader breaks the order. */
  lemma EarlyPlan(plan: Plan)
    requires IsPlan(EarlyReader(), EarlyInits(), plan)
    ensures plan == map["l" := Pair(2, 0)] && !OrderOk(EarlyReader(), plan)
  {
    hide Reads, Writes, Gates, Ups, Fusable, EarlyReader, EarlyInits, SingleAssignment;
    var nodes := EarlyReader();
    EarlyReadsWrites();
    EarlyRoles();
    EarlyFusable();
    assert "l" in plan;
    assert forall l | l in plan :: l in Gates(nodes);
    assert plan == map["l" := Pair(2, 0)];
    assert "u" in Reads(nodes[1]) * Writes(nodes[0]);
    assert ReadsUp(nodes, plan["l"], 1) && !Skipped(plan, 1);
  }

  lemma EarlyModel(v: Value, plan: Plan, ni: Env)
    requires plan == map["l" := Pair(2, 0)] && PlanOk(EarlyReader(), EarlyInits(), plan)
    requires NewInits(EarlyReader(), EarlyInits(), plan, EarlyNames, ni)
    ensures Model(Ops, EarlyReader(), EarlyInits(), map["x" := v], plan, EarlyNames, ni)
  {
    hide Exec, Faithful, SingleAssignment, PlanOk, NewInits, NewNames, EarlyReader, EarlyNames, NameSet, Ops;
    EarlyReadsWrites();
    EarlyRuns(v);
    OpsAreFaithful();
    EarlyFresh("l");
    assert (EarlyInits() + map["x" := v]).Keys == {"x", "wu", "wg"};
  }

  /**
   The pass fuses the layer, and the fused graph stops at the reader: its tensor now comes only with
   the gate. The original graph runs for every input.
   */
  method FuseEarlyReader(v: Value) returns (rewritten: seq<Node>, ni: Env)
    ensures Exec(Ops, EarlyReader(), EarlyInits() + map["x" := v]).Some?
    ensures Exec(Ops, rewritten, EarlyInits() + map["x" := v] + ni).None?
  {
    hide Exec, Model, NewFrom, Gates, Ups, IsPlan, PlanOk, NewInits, NewNames, OrderOk, AllBinary, EarlyReader,
         EarlyInits, EarlyNames, Ops, NameSet, Distinct;
    EarlyBinary();
    EarlyApart();
    EarlyRuns(v);
    var count, plan;
    rewritten, ni, count, plan := FuseMlpGateUp(EarlyReader(), EarlyInits(), EarlyNames);
    EarlyPlan(plan);
    EarlyModel(v, plan, ni);
    FusionRunsIff(Ops, EarlyReader(), EarlyInits(), map["x" := v], plan, EarlyNames, ni);
  }

  lemma EarlyApart()
    ensures LayersApart(EarlyReader(), EarlyNames)
  {
    hide Gates, Distinct, NameSet;
    EarlyRoles();
    forall l ensures Distinct(EarlyNames(l)) { EarlyFresh(l); }
  }
}
