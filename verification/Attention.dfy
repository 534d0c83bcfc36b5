/**
 Causal sliding-window attention with a rolling key/value cache. Projections, rotary embedding and
 softmax are uninterpreted functions; `attend` receives exactly the unmasked entries, in position
 order, so two computations agree when they see the same entries.
 */
module Attention {
  import opened Signals

  datatype Entry = Entry(pos: int, k: real, v: real)

  datatype Attn = Attn(window: nat, query: (int, real) -> real, key: (int, real) -> real, value: real -> real,
                       attend: (real, seq<Entry>) -> real)

  /** Keys and values of a run of hidden states that starts at position off. */
  function Entries(a: Attn, x: Signal, off: int): (e: seq<Entry>)
    ensures |e| == |x| && forall i | 0 <= i < |e| :: e[i].pos == off + i
  {
    seq(|x|, i requires 0 <= i < |x| => Entry(off + i, a.key(off + i, x[i]), a.value(x[i])))
  }

  /** The sliding-window mask of position q. */
  predicate InWindow(e: Entry, q: int, window: nat) {
    q - window < e.pos <= q
  }

  /** The entries position q attends to. */
  function Visible(e: seq<Entry>, q: int, window: nat): seq<Entry> {
    if e == [] then []
    else (if InWindow(e[0], q, window) then [e[0]] else []) + Visible(e[1..], q, window)
  }

  lemma {:induction false} VisibleSplit(e: seq<Entry>, f: seq<Entry>, q: int, window: nat)
    ensures Visible(e + f, q, window) == Visible(e, q, window) + Visible(f, q, window)
  {
    if e == [] {
      assert e + f == f;
    } else {
      VisibleSplit(e[1..], f, q, window);
      assert (e + f)[1..] == e[1..] + f && (e + f)[0] == e[0];
      var head := if InWindow(e[0], q, window) then [e[0]] else [];
      var a, b := Visible(e[1..], q, window), Visible(f, q, window);
      assert head + (a + b) == (head + a) + b;
    }
  }

  lemma {:induction false} VisibleNone(e: seq<Entry>, q: int, window: nat)
    requires forall i | 0 <= i < |e| :: !InWindow(e[i], q, window)
    ensures Visible(e, q, window) == []
  {
    if e != [] {
      VisibleNone(e[1..], q, window);
    }
  }

  /** One output position. */
  function AttendAt(a: Attn, e: seq<Entry>, q: int, x: real): real {
    a.attend(a.query(q, x), Visible(e, q, a.window))
  }

  /** The layer on a whole signal: position t sees the window of all positions. */
  function FullAttn(a: Attn, x: Signal): (y: Signal)
    ensures |y| == |x|
  {
    seq(|x|, t requires 0 <= t < |x| => AttendAt(a, Entries(a, x, 0), t, x[t]))
  }

  function Keep(a: Attn): nat {
    if a.window >= 1 then a.window - 1 else 0
  }

  /** attention_step of the reference: the cache grows by the chunk, then keeps its last window - 1 entries. */
  function AttentionStep(a: Attn, x: Signal, cache: seq<Entry>, off: int): (Signal, seq<Entry>) {
    var all := cache + Entries(a, x, off);
    var y := seq(|x|, i requires 0 <= i < |x| => AttendAt(a, all, off + i, x[i]));
    (y, if Keep(a) > 0 then LastOf(all, Keep(a)) else [])
  }

  /** The cache after input h. */
  ghost function CacheAt(a: Attn, h: Signal): seq<Entry> {
    LastOf(Entries(a, h, 0), Keep(a))
  }

  lemma EntriesSplit(a: Attn, h: Signal, x: Signal, off: int)
    ensures Entries(a, h + x, off) == Entries(a, h, off) + Entries(a, x, off + |h|)
  {
    var both := Entries(a, h, off) + Entries(a, x, off + |h|);
    forall i | 0 <= i < |h + x| ensures Entries(a, h + x, off)[i] == both[i] {
    }
  }

  /** What the cache has let go is out of every later query's window. */
  lemma Dropped(a: Attn, h: Signal, q: int) returns (dropped: seq<Entry>)
    requires a.window >= 1 && q >= |h|
    ensures Entries(a, h, 0) == dropped + CacheAt(a, h)
    ensures forall j | 0 <= j < |dropped| :: !InWindow(dropped[j], q, a.window)
  {
    var past := Entries(a, h, 0);
    dropped := past[..if |past| >= Keep(a) then |past| - Keep(a) else 0];
  }

  /** What a cached query sees is what the full window sees. */
  lemma CachedWindow(a: Attn, h: Signal, x: Signal, i: nat)
    requires a.window >= 1 && i < |x|
    ensures Visible(CacheAt(a, h) + Entries(a, x, |h|), |h| + i, a.window)
         == Visible(Entries(a, h + x, 0), |h| + i, a.window)
  {
    var q := |h| + i;
    var past, now, cache := Entries(a, h, 0), Entries(a, x, |h|), CacheAt(a, h);
    hide Entries, CacheAt, Visible, InWindow;
    var dropped := Dropped(a, h, q);
    EntriesSplit(a, h, x, 0);
    VisibleNone(dropped, q, a.window);
    VisibleSplit(dropped, cache, q, a.window);
    VisibleSplit(past, now, q, a.window);
    VisibleSplit(cache, now, q, a.window);
    assert [] + Visible(cache, q, a.window) == Visible(cache, q, a.window);
  }

  /** Later positions do not change earlier outputs. */
  lemma CausalWindow(a: Attn, h: Signal, x: Signal, t: nat)
    requires t < |h|
    ensures Visible(Entries(a, h + x, 0), t, a.window) == Visible(Entries(a, h, 0), t, a.window)
  {
    EntriesSplit(a, h, x, 0);
    VisibleSplit(Entries(a, h, 0), Entries(a, x, |h|), t, a.window);
    VisibleNone(Entries(a, x, |h|), t, a.window);
  }

  lemma LastOfAppend<T>(e: seq<T>, f: seq<T>, n: nat)
    ensures LastOf(LastOf(e, n) + f, n) == LastOf(e + f, n)
  {
    var last := LastOf(e, n);
    assert e + f == e[..|e| - |last|] + (last + f);
    if |last + f| >= n {
      assert (last + f)[|last + f| - n..] == (e + f)[|e + f| - n..];
    }
  }

  /** One streaming step from the right cache: the new outputs, exactly, and the next cache. */
  lemma AttentionStepCorrect(a: Attn, h: Signal, x: Signal)
    requires a.window >= 1
    ensures var (y, next) := AttentionStep(a, x, CacheAt(a, h), |h|);
            FullAttn(a, h + x) == FullAttn(a, h) + y && next == CacheAt(a, h + x)
  {
    hide Visible, Entries;
    var (y, next) := AttentionStep(a, x, CacheAt(a, h), |h|);
    var full := FullAttn(a, h + x);
    forall t | 0 <= t < |h + x| ensures full[t] == (FullAttn(a, h) + y)[t] {
      if t < |h| {
        CausalWindow(a, h, x, t);
      } else {
        CachedWindow(a, h, x, t - |h|);
      }
    }
    EntriesSplit(a, h, x, 0);
    LastOfAppend(Entries(a, h, 0), Entries(a, x, |h|), Keep(a));
  }

  // ---- which positions a query sees ----

  /** Keys and values of the last `window` positions up to and including t, oldest first. */
  function LastWindow(a: Attn, x: Signal, t: nat): seq<Entry>
    requires t < |x|
  {
    var first := if t >= a.window then t - a.window + 1 else 0;
    seq(t + 1 - first, j requires 0 <= j < t + 1 - first =>
      Entry(first + j, a.key(first + j, x[first + j]), a.value(x[first + j])))
  }

  /** Too old, visible, too new: the visible entries are a slice. */
  lemma {:induction false} VisibleSlice(e: seq<Entry>, q: int, window: nat, lo: nat, hi: nat)
    requires lo <= hi <= |e| && (forall i | 0 <= i < lo :: e[i].pos <= q - window)
    requires (forall i | lo <= i < hi :: q - window < e[i].pos <= q) && (forall i | hi <= i < |e| :: e[i].pos > q)
    ensures Visible(e, q, window) == e[lo..hi]
  {
    hide Visible;
    assert e == e[..lo] + (e[lo..hi] + e[hi..]);
    VisibleSplit(e[..lo], e[lo..hi] + e[hi..], q, window);
    VisibleSplit(e[lo..hi], e[hi..], q, window);
    VisibleNone(e[..lo], q, window);
    VisibleNone(e[hi..], q, window);
    VisibleAll(e[lo..hi], q, window);
  }

  lemma {:induction false} VisibleAll(e: seq<Entry>, q: int, window: nat)
    requires forall i | 0 <= i < |e| :: q - window < e[i].pos <= q
    ensures Visible(e, q, window) == e
  {
    if e != [] { VisibleAll(e[1..], q, window); }
  }

  /** On a whole signal, position t attends to exactly the last `window` positions, its own included. */
  lemma FullAttnWindow(a: Attn, x: Signal, t: nat)
    requires t < |x|
    ensures FullAttn(a, x)[t] == a.attend(a.query(t, x[t]), LastWindow(a, x, t))
  {
    hide Visible;
    var first := if t >= a.window then t - a.window + 1 else 0;
    var e := Entries(a, x, 0);
    VisibleSlice(e, t, a.window, first, t + 1);
    assert e[first..t + 1] == LastWindow(a, x, t);
  }

  /** The streaming step gives the position after history h and i more samples the same window. */
  lemma StepWindow(a: Attn, h: Signal, x: Signal, i: nat)
    requires a.window >= 1 && i < |x|
    ensures AttentionStep(a, x, CacheAt(a, h), |h|).0[i]
         == a.attend(a.query(|h| + i, x[i]), LastWindow(a, h + x, |h| + i))
  {
    hide AttendAt, CacheAt, LastWindow, Entries;
    AttentionStepCorrect(a, h, x);
    FullAttnWindow(a, h + x, |h| + i);
    assert (FullAttn(a, h) + AttentionStep(a, x, CacheAt(a, h), |h|).0)[|h| + i]
        == AttentionStep(a, x, CacheAt(a, h), |h|).0[i];
  }
}
