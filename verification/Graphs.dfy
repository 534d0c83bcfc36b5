/**
 ONNX graphs by their meaning: nodes run in list order, each reads named tensors and writes new ones.
 What an operator computes is a parameter `kernel` of the operator, its arguments and the output slot.
 The empty name is an omitted optional input or output.
 */
module Graphs {
  import opened Options

  datatype Value = Tensor(rows: seq<seq<real>>) | Ints(v: seq<int>) | Bad

  datatype Op = MatMul | Slice | Other(kind: string)

  datatype Node = Node(op: Op, name: string, inputs: seq<string>, outputs: seq<string>)

  type Env = map<string, Value>

  type Kernel = (Op, seq<Option<Value>>, int) -> Value

  function Args(inputs: seq<string>, env: Env): seq<Option<Value>> {
    seq(|inputs|, i requires 0 <= i < |inputs| =>
      if inputs[i] != "" && inputs[i] in env then Some(env[inputs[i]]) else None)
  }

  function IndexOf(names: seq<string>, name: string): (i: int)
    ensures name in names ==> 0 <= i < |names| && names[i] == name
  {
    if names == [] || names[0] == name then 0 else 1 + IndexOf(names[1..], name)
  }

  function Reads(node: Node): set<string> {
    set i | 0 <= i < |node.inputs| && node.inputs[i] != "" :: node.inputs[i]
  }

  function Writes(node: Node): set<string> {
    set i | 0 <= i < |node.outputs| && node.outputs[i] != "" :: node.outputs[i]
  }

  function Output(kernel: Kernel, node: Node, env: Env, name: string): Value {
    kernel(node.op, Args(node.inputs, env), IndexOf(node.outputs, name))
  }

  /** Runs the nodes in order; None when a node's input does not exist yet. */
  function Exec(kernel: Kernel, nodes: seq<Node>, env: Env): Option<Env> {
    if nodes == [] then Some(env)
    else if !(Reads(nodes[0]) <= env.Keys) then None
    else Exec(kernel, nodes[1..], env + map name | name in Writes(nodes[0]) :: Output(kernel, nodes[0], env, name))
  }

  lemma ExecNothing(kernel: Kernel, nodes: seq<Node>, env: Env)
    requires nodes == []
    ensures Exec(kernel, nodes, env) == Some(env)
  {}

  /** The first node of a list runs and leaves the rest to run. */
  lemma ExecFirst(kernel: Kernel, nodes: seq<Node>, env: Env) returns (env': Env)
    requires nodes != [] && Reads(nodes[0]) <= env.Keys
    ensures Exec(kernel, nodes, env) == Exec(kernel, nodes[1..], env')
    ensures env'.Keys == env.Keys + Writes(nodes[0])
  {
    env' := env + map name | name in Writes(nodes[0]) :: Output(kernel, nodes[0], env, name);
  }

  // ---- what a run computes, without running ----

  /** In `all`, the node's outputs are what its operator makes of its inputs. */
  ghost predicate Solves(kernel: Kernel, node: Node, all: Env) {
    && Reads(node) <= all.Keys
    && forall name | name in Writes(node) :: name in all && all[name] == Output(kernel, node, all, name)
  }

  /** The nodes can run in this order from the names available, and `all` solves each of them. */
  ghost predicate Runs(kernel: Kernel, nodes: seq<Node>, names: set<string>, all: Env) {
    nodes != [] ==>
      && Reads(nodes[0]) <= names && Solves(kernel, nodes[0], all)
      && Runs(kernel, nodes[1..], names + Writes(nodes[0]), all)
  }

  lemma RunsNothing(kernel: Kernel, names: set<string>, all: Env)
    ensures Runs(kernel, [], names, all)
  {}

  lemma RunsCons(kernel: Kernel, node: Node, rest: seq<Node>, names: set<string>, all: Env)
    requires Reads(node) <= names && Solves(kernel, node, all) && Runs(kernel, rest, names + Writes(node), all)
    ensures Runs(kernel, [node] + rest, names, all)
  {
    hide Solves, Reads, Writes;
    assert ([node] + rest)[1..] == rest;
  }

  /** In a run of the whole list each node is solved and reads only names there before it. */
  lemma {:induction false} RunsEach(
    kernel: Kernel, nodes: seq<Node>, names: set<string>, all: Env, k: nat, name: string)
    requires Runs(kernel, nodes, names, all) && k < |nodes|
    ensures Solves(kernel, nodes[k], all)
    ensures name in Reads(nodes[k]) ==> name in names || exists j :: 0 <= j < k && name in Writes(nodes[j])
  {
    hide Solves, Reads, Writes;
    if k > 0 {
      RunsEach(kernel, nodes[1..], names + Writes(nodes[0]), all, k - 1, name);
      assert nodes[1..][k - 1] == nodes[k];
      if j :| 0 <= j < k - 1 && name in Writes(nodes[1..][j]) { assert nodes[1..][j] == nodes[j + 1]; }
    }
  }

  /** Apart from names in `off`, which nobody reads, env holds the values of `all`. */
  ghost predicate Within(env: Env, all: Env, off: set<string>) {
    forall name | name in env && name !in off :: name in all && env[name] == all[name]
  }

  ghost predicate NoneReads(nodes: seq<Node>, off: set<string>) {
    forall k | 0 <= k < |nodes| :: Reads(nodes[k]) !! off
  }

  lemma SameArgs(inputs: seq<string>, env: Env, all: Env)
    requires forall i | 0 <= i < |inputs| && inputs[i] != "" ::
               inputs[i] in env && inputs[i] in all && env[inputs[i]] == all[inputs[i]]
    ensures Args(inputs, env) == Args(inputs, all)
  {}

  lemma SameOutput(kernel: Kernel, node: Node, env: Env, all: Env, off: set<string>, name: string)
    requires Within(env, all, off) && Reads(node) <= env.Keys && Reads(node) !! off
    ensures Output(kernel, node, env, name) == Output(kernel, node, all, name)
  {
    forall i | 0 <= i < |node.inputs| && node.inputs[i] != ""
      ensures node.inputs[i] in env && node.inputs[i] in all && env[node.inputs[i]] == all[node.inputs[i]]
    {
      assert node.inputs[i] in Reads(node);
    }
    SameArgs(node.inputs, env, all);
  }

  /** All names some node of the list writes. */
  function Written(nodes: seq<Node>): set<string> {
    if nodes == [] then {} else Writes(nodes[0]) + Written(nodes[1..])
  }

  /** Running such nodes succeeds, and every tensor gets its value in `all`. */
  lemma {:induction false} ExecMatches(kernel: Kernel, nodes: seq<Node>, env: Env, all: Env, off: set<string>)
    requires Runs(kernel, nodes, env.Keys, all) && Within(env, all, off)
    requires NoneReads(nodes, off) && Written(nodes) !! off
    ensures var r := Exec(kernel, nodes, env);
            r.Some? && r.value.Keys == env.Keys + Written(nodes) && Within(r.value, all, off)
  {
    if nodes != [] {
      var node := nodes[0];
      var out := map name | name in Writes(node) :: Output(kernel, node, env, name);
      forall name | name in Writes(node) ensures out[name] == all[name] {
        SameOutput(kernel, node, env, all, off, name);
      }
      assert (env + out).Keys == env.Keys + Writes(node);
      assert NoneReads(nodes[1..], off) by {
        forall k | 0 <= k < |nodes[1..]| ensures Reads(nodes[1..][k]) !! off { assert nodes[1..][k] == nodes[k + 1]; }
      }
      ExecMatches(kernel, nodes[1..], env + out, all, off);
    }
  }

  /** Nothing is written twice or over a name already there. */
  ghost predicate SingleAssignment(nodes: seq<Node>, names: set<string>) {
    && (forall k | 0 <= k < |nodes| :: Writes(nodes[k]) !! names)
    && (forall j, k | 0 <= j < k < |nodes| :: Writes(nodes[j]) !! Writes(nodes[k]))
  }

  /** A successful run of a single-assignment list is a solution of every one of its nodes. */
  lemma {:induction false} ExecSolves(kernel: Kernel, nodes: seq<Node>, env: Env)
    requires SingleAssignment(nodes, env.Keys) && Exec(kernel, nodes, env).Some?
    ensures var all := Exec(kernel, nodes, env).value;
            Runs(kernel, nodes, env.Keys, all) && Within(env, all, {}) && all.Keys == env.Keys + Written(nodes)
  {
    if nodes != [] {
      var node, rest := nodes[0], nodes[1..];
      var out := map name | name in Writes(node) :: Output(kernel, node, env, name);
      assert (env + out).Keys == env.Keys + Writes(node);
      RestSingle(nodes, env.Keys);
      ExecSolves(kernel, rest, env + out);
      var all := Exec(kernel, nodes, env).value;
      assert Writes(nodes[0]) !! env.Keys;
      assert Within(env, all, {}) by {
        forall name | name in env ensures name in all && env[name] == all[name] {
          assert name in env + out && (env + out)[name] == env[name];
        }
      }
      forall name | name in Writes(node) ensures name in all && all[name] == Output(kernel, node, all, name) {
        SameOutput(kernel, node, env, all, {}, name);
        assert name in env + out && (env + out)[name] == out[name];
      }
    }
  }

  lemma RestSingle(nodes: seq<Node>, names: set<string>)
    requires nodes != [] && SingleAssignment(nodes, names)
    ensures SingleAssignment(nodes[1..], names + Writes(nodes[0]))
  {
    var rest := nodes[1..];
    forall k | 0 <= k < |rest| ensures Writes(rest[k]) !! names + Writes(nodes[0]) {
      assert rest[k] == nodes[k + 1];
    }
    forall j, k | 0 <= j < k < |rest| ensures Writes(rest[j]) !! Writes(rest[k]) {
      assert rest[j] == nodes[j + 1] && rest[k] == nodes[k + 1];
    }
  }
}
