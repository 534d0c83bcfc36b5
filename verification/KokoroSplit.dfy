/**
 Splitting the Kokoro graph into a prefix and a suffix model, by an output's ancestors or by position,
 and the proof that running the prefix and feeding its boundary tensors to the suffix changes nothing.
 */
module KokoroSplit {
  import opened Graphs

  /** Which nodes go where, by position in the original list, and the tensors handed over. */
  datatype Split = Split(prefix: set<int>, suffix: set<int>, boundary: set<string>) | Refused

  // ---- parts of a node list ----

  /** The kept nodes from position i on, in their original order. */
  function Kept(nodes: seq<Node>, keep: set<int>, i: nat): seq<Node>
    decreases |nodes| - i
  {
    if i >= |nodes| then []
    else (if i in keep then [nodes[i]] else []) + Kept(nodes, keep, i + 1)
  }

  /** What the kept nodes before position i write. */
  function MadeBefore(nodes: seq<Node>, keep: set<int>, i: nat): set<string>
    requires i <= |nodes|
  {
    if i == 0 then {} else MadeBefore(nodes, keep, i - 1) + (if i - 1 in keep then Writes(nodes[i - 1]) else {})
  }

  lemma {:induction false} MadeBeforeIs(nodes: seq<Node>, keep: set<int>, i: nat, name: string)
    requires i <= |nodes|
    ensures name in MadeBefore(nodes, keep, i) <==> exists j :: 0 <= j < i && j in keep && name in Writes(nodes[j])
  {
    if i > 0 { MadeBeforeIs(nodes, keep, i - 1, name); }
  }

  lemma {:induction false} KeptWritten(nodes: seq<Node>, keep: set<int>, i: nat)
    requires i <= |nodes|
    ensures MadeBefore(nodes, keep, i) + Written(Kept(nodes, keep, i)) == MadeBefore(nodes, keep, |nodes|)
    decreases |nodes| - i
  {
    hide Writes;
    if i < |nodes| {
      KeptWritten(nodes, keep, i + 1);
      var rest := Kept(nodes, keep, i + 1);
      if i in keep {
        assert Kept(nodes, keep, i)[1..] == rest;
        assert Written(Kept(nodes, keep, i)) == Writes(nodes[i]) + Written(rest);
      } else {
        assert Kept(nodes, keep, i) == rest;
      }
    } else {
      assert Written(Kept(nodes, keep, i)) == {};
    }
  }

  /** Every kept node finds its inputs among the given names and what earlier kept nodes write. */
  ghost predicate Fed(nodes: seq<Node>, keep: set<int>, names: set<string>) {
    forall k | 0 <= k < |nodes| && k in keep :: Reads(nodes[k]) <= names + MadeBefore(nodes, keep, k)
  }

  ghost predicate AllSolved(kernel: Kernel, nodes: seq<Node>, all: Env) {
    forall k | 0 <= k < |nodes| :: Solves(kernel, nodes[k], all)
  }

  lemma {:induction false} KeptRuns(
    kernel: Kernel, nodes: seq<Node>, keep: set<int>, names: set<string>, all: Env, i: nat)
    requires i <= |nodes| && Fed(nodes, keep, names) && AllSolved(kernel, nodes, all)
    ensures Runs(kernel, Kept(nodes, keep, i), names + MadeBefore(nodes, keep, i), all)
    decreases |nodes| - i
  {
    hide Solves, Reads, Writes, Runs;
    if i >= |nodes| {
      RunsNothing(kernel, names + MadeBefore(nodes, keep, i), all);
    } else {
      KeptRuns(kernel, nodes, keep, names, all, i + 1);
      var rest := Kept(nodes, keep, i + 1);
      if i in keep {
        assert names + MadeBefore(nodes, keep, i + 1) == names + MadeBefore(nodes, keep, i) + Writes(nodes[i]);
        RunsCons(kernel, nodes[i], rest, names + MadeBefore(nodes, keep, i), all);
      } else {
        assert Kept(nodes, keep, i) == rest;
        assert MadeBefore(nodes, keep, i + 1) == MadeBefore(nodes, keep, i);
      }
    }
  }

  // ---- producers and ancestors ----

  /** The dictionary from tensor to the position of its producer. */
  function Producers(nodes: seq<Node>): map<string, int> {
    if nodes == [] then map[]
    else
      var n := |nodes| - 1;
      Producers(nodes[..n]) + map name | name in Writes(nodes[n]) :: n
  }

  lemma {:induction false} ProducersAre(nodes: seq<Node>, name: string)
    ensures var p := Producers(nodes);
            if name in p then 0 <= p[name] < |nodes| && name in Writes(nodes[p[name]])
            else forall j | 0 <= j < |nodes| :: name !in Writes(nodes[j])
  {
    hide Writes;
    if nodes != [] {
      var n := |nodes| - 1;
      ProducersAre(nodes[..n], name);
      if name !in Producers(nodes) {
        forall j | 0 <= j < |nodes| ensures name !in Writes(nodes[j]) {
          if j < n { assert nodes[..n][j] == nodes[j]; }
        }
      }
    }
  }

  /** What node k reads is produced inside the set, or by no node at all. */
  ghost predicate InputsIn(nodes: seq<Node>, producers: map<string, int>, k: int, s: set<int>) {
    0 <= k < |nodes| && forall name | name in Reads(nodes[k]) && name in producers :: producers[name] in s
  }

  ghost predicate Closed(nodes: seq<Node>, producers: map<string, int>, s: set<int>) {
    forall k | k in s :: InputsIn(nodes, producers, k, s)
  }

  /** s is closed and holds everything in `seen` and the producer of `name`. */
  ghost predicate Encloses(nodes: seq<Node>, producers: map<string, int>, s: set<int>, seen: set<int>, name: string) {
    Closed(nodes, producers, s) && seen <= s && (name in producers ==> producers[name] in s)
  }

  ghost predicate Positions(s: set<int>, n: int) {
    forall k | k in s :: 0 <= k < n
  }

  ghost function Unseen(n: nat, seen: set<int>): set<int> {
    set k: int | 0 <= k < n && k !in seen
  }

  /** The recursive visitor: adds the producer of `name` and all its ancestors, and nothing else. */
  method VisitTensor(nodes: seq<Node>, producers: map<string, int>, name: string, seen: set<int>) returns (r: set<int>)
    requires producers == Producers(nodes) && Positions(seen, |nodes|)
    ensures seen <= r && Positions(r, |nodes|) && (name in producers ==> producers[name] in r)
    ensures forall k | k in r - seen :: InputsIn(nodes, producers, k, r)
    ensures forall s: set<int> | Encloses(nodes, producers, s, seen, name) :: r <= s
    decreases |Unseen(|nodes|, seen)|
  {
    hide Producers, Reads;
    ProducersAre(nodes, name);
    if name !in producers || producers[name] in seen { return seen; }
    var idx := producers[name];
    r := seen + {idx};
    var inputs := nodes[idx].inputs;
    for i := 0 to |inputs|
      invariant seen + {idx} <= r && Positions(r, |nodes|)
      invariant forall k | k in r - seen - {idx} :: InputsIn(nodes, producers, k, r)
      invariant forall j | 0 <= j < i && inputs[j] != "" && inputs[j] in producers :: producers[inputs[j]] in r
      invariant forall s: set<int> | Encloses(nodes, producers, s, seen, name) :: r <= s
    {
      if inputs[i] != "" {
        assert Unseen(|nodes|, r) <= Unseen(|nodes|, seen) - {idx};
        SubsetSize(Unseen(|nodes|, r), Unseen(|nodes|, seen) - {idx});
        ghost var before := r;
        r := VisitTensor(nodes, producers, inputs[i], r);
        forall s: set<int> | Encloses(nodes, producers, s, seen, name) ensures r <= s {
          InputEnclosed(nodes, producers, s, idx, inputs[i]);
          assert Encloses(nodes, producers, s, before, inputs[i]);
        }
        forall k | k in r - seen - {idx} ensures InputsIn(nodes, producers, k, r) {
          if k in before { Widen(nodes, producers, k, before, r); }
        }
      }
    }
    ReadsInputs(nodes, producers, idx, r);
  }

  lemma InputEnclosed(nodes: seq<Node>, producers: map<string, int>, s: set<int>, idx: int, name: string)
    requires Closed(nodes, producers, s) && idx in s && 0 <= idx < |nodes| && name in nodes[idx].inputs && name != ""
    ensures name in producers ==> producers[name] in s
  {
    assert InputsIn(nodes, producers, idx, s);
    assert name in Reads(nodes[idx]);
  }

  lemma Widen(nodes: seq<Node>, producers: map<string, int>, k: int, s: set<int>, s': set<int>)
    requires InputsIn(nodes, producers, k, s) && s <= s'
    ensures InputsIn(nodes, producers, k, s')
  {}

  lemma ReadsInputs(nodes: seq<Node>, producers: map<string, int>, idx: int, r: set<int>)
    requires 0 <= idx < |nodes|
    requires var inputs := nodes[idx].inputs;
             forall j | 0 <= j < |inputs| && inputs[j] != "" && inputs[j] in producers :: producers[inputs[j]] in r
    ensures InputsIn(nodes, producers, idx, r)
  {}

  lemma {:induction false} SubsetSize<T>(a: set<T>, b: set<T>)
    requires a <= b
    ensures |a| <= |b|
  {
    if a != {} {
      var x :| x in a;
      SubsetSize(a - {x}, b - {x});
    }
  }

  // ---- the two splits ----

  function Range(lo: int, hi: int): (r: set<int>)
    ensures forall k :: k in r <==> lo <= k < hi
    decreases hi - lo
  {
    if lo >= hi then {} else Range(lo, hi - 1) + {hi - 1}
  }

  /** Everything the kept nodes read. */
  function ReadBy(nodes: seq<Node>, keep: set<int>): set<string> {
    set k, name | k in keep && 0 <= k < |nodes| && name in Reads(nodes[k]) :: name
  }

  function WrittenBy(nodes: seq<Node>, keep: set<int>): set<string> {
    set k, name | k in keep && 0 <= k < |nodes| && name in Writes(nodes[k]) :: name
  }

  /**
   The prefix computes the boundary by itself; what the suffix reads comes from the suffix, from the
   boundary, or from no node.
   */
  ghost predicate IsSplit(nodes: seq<Node>, s: Split) {
    var producers := Producers(nodes);
    && s.Split? && Positions(s.prefix, |nodes|) && Positions(s.suffix, |nodes|) && Closed(nodes, producers, s.prefix)
    && s.boundary <= WrittenBy(nodes, s.prefix)
    && (forall name | name in ReadBy(nodes, s.suffix) && name in producers ::
          producers[name] in s.suffix || name in s.boundary)
  }

  /** --cut-output: the ancestors of one tensor become the prefix. */
  method SplitByOutput(nodes: seq<Node>, cut: string) returns (r: Split)
    ensures r.Refused? <==> forall j | 0 <= j < |nodes| :: cut !in Writes(nodes[j])
    ensures r.Split? ==> IsSplit(nodes, r)
    ensures r.Split? ==> r.boundary == WrittenBy(nodes, r.prefix) * ReadBy(nodes, r.suffix) + {cut}
    ensures r.Split? ==> r.prefix !! r.suffix && forall k | 0 <= k < |nodes| :: k in r.prefix || k in r.suffix
    ensures r.Split? ==> forall s: set<int> | Encloses(nodes, Producers(nodes), s, {}, cut) :: r.prefix <= s
  {
    hide Reads, Writes, Producers;
    var producers := Producers(nodes);
    ProducersAre(nodes, cut);
    if cut !in producers { return Refused; }
    var ancestors := VisitTensor(nodes, producers, cut, {});
    var suffix := set k | 0 <= k < |nodes| && k !in ancestors;
    var boundary := WrittenBy(nodes, ancestors) * ReadBy(nodes, suffix);
    if cut !in boundary { boundary := boundary + {cut}; }
    r := Split(ancestors, suffix, boundary);
    assert Closed(nodes, producers, ancestors);
    forall name ensures name in producers && producers[name] !in suffix ==> name in WrittenBy(nodes, ancestors) {
      ProducersAre(nodes, name);
    }
  }

  /** --cut-index: the first nodes become the prefix, of which only the boundary's ancestors are kept. */
  method SplitByIndex(nodes: seq<Node>, cutIndex: int) returns (r: Split)
    requires Topological(nodes, Producers(nodes)) && SingleAssignment(nodes, {})
    ensures r.Refused? <==> !(0 < cutIndex < |nodes|) || CutTensors(nodes, cutIndex) == {}
    ensures r.Split? ==> IsSplit(nodes, r) && r.boundary == CutTensors(nodes, cutIndex)
    ensures r.Split? ==> r.suffix == Range(cutIndex, |nodes|) && Positions(r.prefix, cutIndex)
  {
    hide Reads, Writes, Producers;
    if cutIndex <= 0 || cutIndex >= |nodes| { return Refused; }
    var producers := Producers(nodes);
    var suffix := Range(cutIndex, |nodes|);
    var boundary := CutTensors(nodes, cutIndex);
    if boundary == {} { return Refused; }
    var prefix, left := {}, boundary;
    while left != {}
      invariant left <= boundary && Positions(prefix, |nodes|) && Closed(nodes, producers, prefix)
      invariant forall name | name in boundary - left :: name in producers && producers[name] in prefix
      invariant Positions(prefix, cutIndex)
      decreases |left|
    {
      var name :| name in left;
      ghost var before := prefix;
      prefix := VisitTensor(nodes, producers, name, prefix);
      VisitCloses(nodes, producers, before, prefix);
      LowEncloses(nodes, cutIndex, before, name);
      left := left - {name};
    }
    r := Split(prefix, suffix, boundary);
    IndexSplit(nodes, cutIndex, prefix);
  }

  /** Every tensor a node reads was produced before it. */
  ghost predicate Topological(nodes: seq<Node>, producers: map<string, int>) {
    forall k, name | 0 <= k < |nodes| && name in Reads(nodes[k]) && name in producers :: producers[name] < k
  }

  /** A tensor on the cut, and all its ancestors, come from before the cut. */
  lemma LowEncloses(nodes: seq<Node>, cutIndex: int, seen: set<int>, name: string)
    requires Topological(nodes, Producers(nodes)) && SingleAssignment(nodes, {}) && 0 < cutIndex < |nodes|
    requires Positions(seen, cutIndex) && name in CutTensors(nodes, cutIndex)
    ensures Encloses(nodes, Producers(nodes), Range(0, cutIndex), seen, name) && name in Producers(nodes)
  {
    hide Reads, Writes, Producers;
    var producers := Producers(nodes);
    ProducersAre(nodes, name);
    forall k | k in Range(0, cutIndex) ensures InputsIn(nodes, producers, k, Range(0, cutIndex)) {
      forall other | other in Reads(nodes[k]) && other in producers ensures producers[other] in Range(0, cutIndex) {
        ProducersAre(nodes, other);
      }
    }
    var w :| 0 <= w < cutIndex && name in Writes(nodes[w]);
    OneProducer(nodes, {}, name, w);
  }

  lemma OneProducer(nodes: seq<Node>, names: set<string>, name: string, j: int)
    requires SingleAssignment(nodes, names) && 0 <= j < |nodes| && name in Writes(nodes[j])
    ensures name in Producers(nodes) && Producers(nodes)[name] == j && name !in names
  {
    hide Writes, Producers;
    ProducersAre(nodes, name);
    var k := Producers(nodes)[name];
    assert Writes(nodes[j]) !! names;
    assert Writes(nodes[j]) !! Writes(nodes[k]) || j == k;
  }

  lemma IndexSplit(nodes: seq<Node>, cutIndex: int, prefix: set<int>)
    requires 0 < cutIndex < |nodes| && Positions(prefix, cutIndex) && Closed(nodes, Producers(nodes), prefix)
    requires forall name | name in CutTensors(nodes, cutIndex) && name in Producers(nodes) ::
             Producers(nodes)[name] in prefix
    requires forall name | name in CutTensors(nodes, cutIndex) :: name in Producers(nodes)
    ensures IsSplit(nodes, Split(prefix, Range(cutIndex, |nodes|), CutTensors(nodes, cutIndex)))
  {
    hide Reads, Writes, Producers;
    var producers := Producers(nodes);
    var suffix := Range(cutIndex, |nodes|);
    forall name | name in producers ensures 0 <= producers[name] < |nodes| && name in Writes(nodes[producers[name]]) {
      ProducersAre(nodes, name);
    }
  }

  /** Tensors the first nodes write and the rest read. */
  function CutTensors(nodes: seq<Node>, cutIndex: int): set<string> {
    WrittenBy(nodes, Range(0, cutIndex)) * ReadBy(nodes, Range(cutIndex, |nodes|))
  }

  lemma VisitCloses(nodes: seq<Node>, producers: map<string, int>, seen: set<int>, r: set<int>)
    requires Closed(nodes, producers, seen) && seen <= r && forall k | k in r - seen :: InputsIn(nodes, producers, k, r)
    ensures Closed(nodes, producers, r)
  {
    forall k | k in r ensures InputsIn(nodes, producers, k, r) {
      if k in seen { Widen(nodes, producers, k, seen, r); }
    }
  }

  // ---- meaning ----

  function Restrict(env: Env, names: set<string>): Env {
    map name | name in env && name in names :: env[name]
  }

  /** What the suffix model starts from: all initializers, the graph inputs it reads, the boundary. */
  function SuffixEnv(nodes: seq<Node>, s: Split, initializers: Env, feed: Env, prefixRun: Env): Env
    requires s.Split?
  {
    initializers + Restrict(feed, ReadBy(nodes, s.suffix)) + Restrict(prefixRun, s.boundary)
  }

  lemma PrefixFed(kernel: Kernel, nodes: seq<Node>, s: Split, names: set<string>, all: Env)
    requires IsSplit(nodes, s) && SingleAssignment(nodes, names) && Runs(kernel, nodes, names, all)
    ensures Fed(nodes, s.prefix, names)
  {
    hide Reads, Writes, Producers, Runs, Solves;
    forall k | 0 <= k < |nodes| && k in s.prefix ensures Reads(nodes[k]) <= names + MadeBefore(nodes, s.prefix, k) {
      forall name | name in Reads(nodes[k]) && name !in names ensures name in MadeBefore(nodes, s.prefix, k) {
        RunsEach(kernel, nodes, names, all, k, name);
        var j :| 0 <= j < k && name in Writes(nodes[j]);
        OneProducer(nodes, names, name, j);
        assert InputsIn(nodes, Producers(nodes), k, s.prefix);
        MadeBeforeIs(nodes, s.prefix, k, name);
      }
    }
  }

  lemma SuffixFed(kernel: Kernel, nodes: seq<Node>, s: Split, names: set<string>, names': set<string>, all: Env)
    requires IsSplit(nodes, s) && SingleAssignment(nodes, names) && Runs(kernel, nodes, names, all)
    requires s.boundary <= names' && forall name | name in names && name in ReadBy(nodes, s.suffix) :: name in names'
    ensures Fed(nodes, s.suffix, names')
  {
    hide Reads, Writes, Producers, Runs, Solves;
    forall k | 0 <= k < |nodes| && k in s.suffix ensures Reads(nodes[k]) <= names' + MadeBefore(nodes, s.suffix, k) {
      forall name | name in Reads(nodes[k]) && name !in names' ensures name in MadeBefore(nodes, s.suffix, k) {
        assert name in ReadBy(nodes, s.suffix);
        RunsEach(kernel, nodes, names, all, k, name);
        var j :| 0 <= j < k && name in Writes(nodes[j]);
        OneProducer(nodes, names, name, j);
        MadeBeforeIs(nodes, s.suffix, k, name);
      }
    }
  }

  lemma AllAreSolved(kernel: Kernel, nodes: seq<Node>, names: set<string>, all: Env)
    requires Runs(kernel, nodes, names, all)
    ensures AllSolved(kernel, nodes, all)
  {
    forall k | 0 <= k < |nodes| ensures Solves(kernel, nodes[k], all) {
      RunsEach(kernel, nodes, names, all, k, "");
    }
  }

  lemma {:induction false} KeptReads(nodes: seq<Node>, keep: set<int>, i: nat, off: set<string>)
    requires forall k | 0 <= k < |nodes| && k in keep :: Reads(nodes[k]) !! off
    ensures NoneReads(Kept(nodes, keep, i), off)
    decreases |nodes| - i
  {
    hide Reads;
    if i < |nodes| { KeptReads(nodes, keep, i + 1, off); }
  }

  /** Any part of a graph that is fed runs, and gives its tensors the values of the whole graph's run. */
  lemma PartRuns(kernel: Kernel, nodes: seq<Node>, keep: set<int>, env: Env, all: Env, off: set<string>)
    requires AllSolved(kernel, nodes, all) && Fed(nodes, keep, env.Keys) && Within(env, all, off)
    requires (forall k | 0 <= k < |nodes| && k in keep :: Reads(nodes[k]) !! off)
    requires forall k | 0 <= k < |nodes| :: Writes(nodes[k]) !! off
    ensures var r := Exec(kernel, Kept(nodes, keep, 0), env);
            r.Some? && r.value.Keys == env.Keys + MadeBefore(nodes, keep, |nodes|) && Within(r.value, all, off)
  {
    hide Reads, Writes, Solves, Runs, Within, Exec, Fed;
    KeptRuns(kernel, nodes, keep, env.Keys, all, 0);
    assert env.Keys + MadeBefore(nodes, keep, 0) == env.Keys;
    KeptReads(nodes, keep, 0, off);
    KeptWritten(nodes, keep, 0);
    MadeOff(nodes, keep, |nodes|, off);
    ExecMatches(kernel, Kept(nodes, keep, 0), env, all, off);
  }

  lemma {:induction false} MadeOff(nodes: seq<Node>, keep: set<int>, i: nat, off: set<string>)
    requires i <= |nodes| && forall k | 0 <= k < |nodes| :: Writes(nodes[k]) !! off
    ensures MadeBefore(nodes, keep, i) !! off
  {
    hide Writes;
    if i > 0 { MadeOff(nodes, keep, i - 1, off); }
  }

  lemma MadeIsWritten(nodes: seq<Node>, keep: set<int>)
    ensures MadeBefore(nodes, keep, |nodes|) == WrittenBy(nodes, keep)
  {
    hide Writes;
    forall name ensures name in MadeBefore(nodes, keep, |nodes|) <==> name in WrittenBy(nodes, keep) {
      MadeBeforeIs(nodes, keep, |nodes|, name);
    }
  }

  /** Graph inputs that override an initializer and that the suffix never reads. */
  function Stale(nodes: seq<Node>, s: Split, initializers: Env, feed: Env): set<string>
    requires s.Split?
  {
    (initializers.Keys * feed.Keys) - ReadBy(nodes, s.suffix)
  }

  lemma StaleIs(nodes: seq<Node>, s: Split, initializers: Env, feed: Env)
    requires s.Split?
    ensures Stale(nodes, s, initializers, feed) == (initializers.Keys * feed.Keys) - ReadBy(nodes, s.suffix)
  {}

  lemma PrefixRuns(kernel: Kernel, nodes: seq<Node>, s: Split, env: Env)
    requires IsSplit(nodes, s) && SingleAssignment(nodes, env.Keys) && Exec(kernel, nodes, env).Some?
    ensures var all, p := Exec(kernel, nodes, env).value, Exec(kernel, Kept(nodes, s.prefix, 0), env);
            p.Some? && s.boundary <= p.value.Keys && Within(p.value, all, {})
  {
    hide Exec, Runs, Reads, Writes, Solves, SingleAssignment, Producers, Fed, AllSolved;
    ExecSolves(kernel, nodes, env);
    var all := Exec(kernel, nodes, env).value;
    PrefixFed(kernel, nodes, s, env.Keys, all);
    AllAreSolved(kernel, nodes, env.Keys, all);
    PartRuns(kernel, nodes, s.prefix, env, all, {});
    MadeIsWritten(nodes, s.prefix);
  }

  /** Prefix and suffix together give every tensor of the suffix its value in the original graph. */
  lemma SplitPreserves(kernel: Kernel, nodes: seq<Node>, s: Split, initializers: Env, feed: Env)
    requires IsSplit(nodes, s) && SingleAssignment(nodes, (initializers + feed).Keys)
    requires Exec(kernel, nodes, initializers + feed).Some?
    ensures var all := Exec(kernel, nodes, initializers + feed).value;
            var p := Exec(kernel, Kept(nodes, s.prefix, 0), initializers + feed);
            p.Some? &&
            var t := Exec(kernel, Kept(nodes, s.suffix, 0), SuffixEnv(nodes, s, initializers, feed, p.value));
            t.Some? && Within(t.value, all, (initializers.Keys * feed.Keys) - ReadBy(nodes, s.suffix)) &&
            t.value.Keys == initializers.Keys + (feed.Keys * ReadBy(nodes, s.suffix)) + s.boundary +
              WrittenBy(nodes, s.suffix)
  {
    hide Exec, Runs, Solves, SingleAssignment, Producers, Fed, AllSolved, ReadBy, WrittenBy, Reads, Writes, Within,
         SuffixEnv, Stale;
    var env := initializers + feed;
    ExecSolves(kernel, nodes, env);
    var all := Exec(kernel, nodes, env).value;
    PrefixRuns(kernel, nodes, s, env);
    var p := Exec(kernel, Kept(nodes, s.prefix, 0), env).value;
    var off, env' := Stale(nodes, s, initializers, feed), SuffixEnv(nodes, s, initializers, feed, p);
    SuffixEnvIs(nodes, s, initializers, feed, p, all);
    SuffixFed(kernel, nodes, s, env.Keys, env'.Keys, all);
    AllAreSolved(kernel, nodes, env.Keys, all);
    OffIsOff(nodes, s, initializers, feed);
    StaleIs(nodes, s, initializers, feed);
    PartRuns(kernel, nodes, s.suffix, env', all, off);
    MadeIsWritten(nodes, s.suffix);
  }

  lemma SuffixEnvIs(nodes: seq<Node>, s: Split, initializers: Env, feed: Env, p: Env, all: Env)
    requires s.Split? && Within(initializers + feed, all, {}) && Within(p, all, {}) && s.boundary <= p.Keys
    ensures var env := SuffixEnv(nodes, s, initializers, feed, p);
            && env.Keys == initializers.Keys + (feed.Keys * ReadBy(nodes, s.suffix)) + s.boundary
            && Within(env, all, Stale(nodes, s, initializers, feed))
            && forall name | name in (initializers + feed).Keys && name in ReadBy(nodes, s.suffix) :: name in env.Keys
  {
    hide ReadBy;
    var env := SuffixEnv(nodes, s, initializers, feed, p);
    forall name | name in env && name !in Stale(nodes, s, initializers, feed)
      ensures name in all && env[name] == all[name]
    {
      if name in s.boundary {
        assert name in p;
      } else {
        assert name in initializers + feed;
      }
    }
  }

  lemma OffIsOff(nodes: seq<Node>, s: Split, initializers: Env, feed: Env)
    requires s.Split? && SingleAssignment(nodes, (initializers + feed).Keys)
    ensures var off := Stale(nodes, s, initializers, feed);
            && (forall k | 0 <= k < |nodes| && k in s.suffix :: Reads(nodes[k]) !! off)
            && (forall k | 0 <= k < |nodes| :: Writes(nodes[k]) !! off)
  {
    hide Reads, Writes;
    forall k | 0 <= k < |nodes| ensures Writes(nodes[k]) !! Stale(nodes, s, initializers, feed) {
      assert Writes(nodes[k]) !! (initializers + feed).Keys;
    }
  }

  /**
   The original's outputs survive exactly when the suffix itself, or a boundary tensor, provides them:
   an output only the prefix computes and no suffix node reads is missing from the suffix model.
   */
  lemma OutputSurvives(kernel: Kernel, nodes: seq<Node>, s: Split, initializers: Env, feed: Env, j: int, name: string)
    requires IsSplit(nodes, s) && SingleAssignment(nodes, (initializers + feed).Keys)
    requires Exec(kernel, nodes, initializers + feed).Some? && 0 <= j < |nodes| && name in Writes(nodes[j])
    ensures var all := Exec(kernel, nodes, initializers + feed).value;
            var p := Exec(kernel, Kept(nodes, s.prefix, 0), initializers + feed);
            p.Some? &&
            var t := Exec(kernel, Kept(nodes, s.suffix, 0), SuffixEnv(nodes, s, initializers, feed, p.value));
            t.Some? && (name in t.value <==> j in s.suffix || name in s.boundary) &&
            (name in t.value ==> name in all && t.value[name] == all[name])
  {
    hide Exec, Producers, Reads, SuffixEnv, Kept, ReadBy, Closed, Positions;
    SplitPreserves(kernel, nodes, s, initializers, feed);
    OneProducer(nodes, (initializers + feed).Keys, name, j);
    assert name in WrittenBy(nodes, s.suffix) <==> j in s.suffix by {
      if name in WrittenBy(nodes, s.suffix) {
        var k :| k in s.suffix && 0 <= k < |nodes| && name in Writes(nodes[k]);
        OneProducer(nodes, (initializers + feed).Keys, name, k);
      }
    }
  }

  // ---- an output that is lost ----

  /** in -> a -> b -> c. */
  function Chain(): (r: seq<Node>)
    ensures |r| == 3
  {
    [Node(Other("f"), "first", ["in"], ["a"]), Node(Other("f"), "second", ["a"], ["b"]),
     Node(Other("f"), "third", ["b"], ["c"])]
  }

  lemma OneInOneOut(node: Node, x: string, y: string)
    requires node.inputs == [x] && node.outputs == [y] && x != "" && y != ""
    ensures Reads(node) == {x} && Writes(node) == {y}
  {
    assert node.inputs[0] in Reads(node) && node.outputs[0] in Writes(node);
  }

  lemma ChainReadsWrites()
    ensures Reads(Chain()[0]) == {"in"} && Reads(Chain()[1]) == {"a"} && Reads(Chain()[2]) == {"b"}
    ensures Writes(Chain()[0]) == {"a"} && Writes(Chain()[1]) == {"b"} && Writes(Chain()[2]) == {"c"}
    ensures SingleAssignment(Chain(), {"in"})
  {
    hide Reads, Writes;
    OneInOneOut(Chain()[0], "in", "a");
    OneInOneOut(Chain()[1], "a", "b");
    OneInOneOut(Chain()[2], "b", "c");
  }

  lemma ChainRuns(kernel: Kernel, v: Value)
    ensures Exec(kernel, Chain(), map["in" := v]).Some?
  {
    hide Exec, Reads, Writes, Chain, SingleAssignment;
    ChainReadsWrites();
    var chain := Chain();
    var env1 := ExecFirst(kernel, chain, map["in" := v]);
    var env2 := ExecFirst(kernel, chain[1..], env1);
    assert chain[1..][1..] == chain[2..];
    var env3 := ExecFirst(kernel, chain[2..], env2);
    ExecNothing(kernel, chain[2..][1..], env3);
  }

  /** Cut at b, the chain's first two nodes are the prefix and b alone is handed over. */
  lemma ChainAncestors(s: Split)
    requires IsSplit(Chain(), s) && s.prefix !! s.suffix && (forall k | 0 <= k < 3 :: k in s.prefix || k in s.suffix)
    requires forall t: set<int> | Encloses(Chain(), Producers(Chain()), t, {}, "b") :: s.prefix <= t
    requires s.boundary == WrittenBy(Chain(), s.prefix) * ReadBy(Chain(), s.suffix) + {"b"}
    ensures s.suffix == {2} && s.boundary == {"b"}
  {
    hide Reads, Writes, Producers, Chain;
    ChainReadsWrites();
    var chain, producers := Chain(), Producers(Chain());
    OneProducer(chain, {"in"}, "a", 0);
    OneProducer(chain, {"in"}, "b", 1);
    ProducersAre(chain, "in");
    assert Encloses(chain, producers, {0, 1}, {}, "b");
    assert 1 in s.prefix by { assert "b" in WrittenBy(chain, s.prefix); }
    assert InputsIn(chain, producers, 1, s.prefix);
    assert "a" in Reads(chain[1]);
    assert s.prefix == {0, 1};
    assert forall k | k in s.suffix :: k == 2;
    assert s.suffix == {2} by { assert 2 in s.suffix; }
    assert ReadBy(chain, {2}) == {"b"};
  }

  /**
   Cutting the chain in -> a -> b -> c at b loses output a: the whole chain computes it, the suffix
   model runs and does not hold it, whatever the operators compute.
   */
  method LoseOutput(kernel: Kernel, v: Value) returns (s: Split)
    ensures s.Split? && IsSplit(Chain(), s)
    ensures var feed: Env := map["in" := v];
            var all := Exec(kernel, Chain(), feed);
            var p := Exec(kernel, Kept(Chain(), s.prefix, 0), feed);
            && all.Some? && "a" in all.value && p.Some?
            && var t := Exec(kernel, Kept(Chain(), s.suffix, 0), SuffixEnv(Chain(), s, map[], feed, p.value));
               t.Some? && "a" !in t.value && "c" in t.value
  {
    hide Exec, Producers, Kept, SuffixEnv, IsSplit, Chain, ReadBy, WrittenBy, Encloses, Reads, Writes, SingleAssignment;
    ChainReadsWrites();
    var feed: Env := map["in" := v];
    assert map[] + feed == feed;
    assert feed.Keys == {"in"};
    s := SplitByOutput(Chain(), "b");
    assert "b" in Writes(Chain()[1]);
    ChainAncestors(s);
    ChainRuns(kernel, v);
    ExecSolves(kernel, Chain(), feed);
    assert "a" in Exec(kernel, Chain(), feed).value by { WrittenHas(Chain(), 0, "a"); }
    OutputSurvives(kernel, Chain(), s, map[], feed, 0, "a");
    OutputSurvives(kernel, Chain(), s, map[], feed, 2, "c");
  }

  lemma {:induction false} WrittenHas(nodes: seq<Node>, k: nat, name: string)
    requires k < |nodes| && name in Writes(nodes[k])
    ensures name in Written(nodes)
  {
    hide Writes;
    if k > 0 { WrittenHas(nodes[1..], k - 1, name); }
  }
}
