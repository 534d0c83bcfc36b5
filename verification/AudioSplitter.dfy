/**
 Cutting long audio at quiet places. Samples and sums are reals; lengths are the settings' seconds
 times the sample rate, truncated toward zero.
 */
module AudioSplitter {

  datatype Settings = Settings(rate: int, maxChunkSec: real, searchExpandSec: real, minWindowMs: real,
                               minChunkSec: real)

  function Trunc(x: real): int {
    if x >= 0.0 then x.Floor else -((-x).Floor)
  }

  function MaxLen(s: Settings): int { Trunc(s.maxChunkSec * s.rate as real) }

  function Expand(s: Settings): int { Trunc(s.searchExpandSec * s.rate as real) }

  function Window(s: Settings): int {
    var win := Trunc(s.minWindowMs / 1000.0 * s.rate as real);
    if win < 4 then 4 else win
  }

  /** n is x without its fraction. */
  predicate Whole(n: int, x: real) {
    if x >= 0.0 then n as real <= x < (n + 1) as real else (n - 1) as real < x <= n as real
  }

  /** The lengths are the settings' seconds, or milliseconds, times the sample rate, without the fraction. */
  lemma SettingsInSamples(s: Settings)
    ensures Whole(MaxLen(s), s.maxChunkSec * s.rate as real)
    ensures Whole(Expand(s), s.searchExpandSec * s.rate as real)
    ensures Whole(MinLen(s), s.minChunkSec * s.rate as real)
    ensures var win := s.minWindowMs / 1000.0 * s.rate as real;
            if win >= 4.0 then Whole(Window(s), win) else Window(s) == 4
  {}

  function Abs(x: real): (r: real)
    ensures r >= 0.0 && (r == x || r == -x)
  {
    if x < 0.0 then -x else x
  }

  function Max(a: int, b: int): int { if a < b then b else a }

  function Min(a: int, b: int): int { if a < b then a else b }

  // ---- sliding sums ----

  /** |v[from]| + ... + |v[from + n - 1]|, term by term. */
  function NaiveSum(v: seq<real>, from: int, n: int): real
    requires 0 <= from && 0 <= n && from + n <= |v|
  {
    if n == 0 then 0.0 else NaiveSum(v, from, n - 1) + Abs(v[from + n - 1])
  }

  lemma {:induction false} NaiveSumShift(v: seq<real>, from: int, n: int)
    requires 0 <= from && 0 < n && from + n <= |v|
    ensures NaiveSum(v, from, n) == Abs(v[from]) + NaiveSum(v, from + 1, n - 1)
  {
    if n > 1 { NaiveSumShift(v, from, n - 1); }
  }

  lemma {:induction false} NaiveSumNonNegative(v: seq<real>, from: int, n: int)
    requires 0 <= from && 0 <= n && from + n <= |v|
    ensures NaiveSum(v, from, n) >= 0.0
  {
    if n > 0 { NaiveSumNonNegative(v, from, n - 1); }
  }

  /** The running sum gives every window's own sum. */
  method WindowSumsAbs(v: seq<real>, win: int) returns (out: seq<real>)
    requires win >= 1
    ensures |out| == if |v| < win then 0 else |v| - win + 1
    ensures forall k | 0 <= k < |out| :: out[k] == NaiveSum(v, k, win)
  {
    if |v| < win { return []; }
    var running := 0.0;
    for i := 0 to win
      invariant running == NaiveSum(v, 0, i)
    {
      running := running + Abs(v[i]);
    }
    out := [running];
    for i := win to |v|
      invariant |out| == i - win + 1 && running == NaiveSum(v, i - win, win)
      invariant forall k | 0 <= k < |out| :: out[k] == NaiveSum(v, k, win)
    {
      NaiveSumShift(v, i - win, win);
      NaiveSumNonNegative(v, i - win + 1, win);
      running := running + Abs(v[i]);
      running := running - Abs(v[i - win]);
      if running < 0.0 { running := 0.0; }
      out := out + [running];
    }
  }

  // ---- first minima ----

  /** k is the first place where v is smallest. */
  ghost predicate FirstMin(v: seq<real>, k: int) {
    && 0 <= k < |v| && (forall j | 0 <= j < |v| :: v[k] <= v[j]) && (forall j | 0 <= j < k :: v[k] < v[j])
  }

  method ArgminFirst(v: seq<real>) returns (best: int)
    requires v != []
    ensures FirstMin(v, best)
  {
    best := 0;
    var bestv := v[0];
    for i := 1 to |v|
      invariant 0 <= best < i && bestv == v[best]
      invariant (forall j | 0 <= j < i :: v[best] <= v[j]) && (forall j | 0 <= j < best :: v[best] < v[j])
    {
      if v[i] < bestv {
        bestv := v[i];
        best := i;
      }
    }
  }

  function Loudness(v: seq<real>): (r: seq<real>)
    ensures |r| == |v| && forall j | 0 <= j < |v| :: r[j] == Abs(v[j])
  {
    seq(|v|, j requires 0 <= j < |v| => Abs(v[j]))
  }

  method ArgminFirstAbs(v: seq<real>) returns (best: int)
    requires v != []
    ensures FirstMin(Loudness(v), best)
  {
    best := 0;
    var bestv := Abs(v[0]);
    for i := 1 to |v|
      invariant 0 <= best < i && bestv == Abs(v[best])
      invariant (forall j | 0 <= j < i :: Abs(v[best]) <= Abs(v[j]))
                && (forall j | 0 <= j < best :: Abs(v[best]) < Abs(v[j]))
    {
      var a := Abs(v[i]);
      if a < bestv {
        bestv := a;
        best := i;
      }
    }
  }

  // ---- one cut ----

  /** Window p of seg is the first with the smallest sum. */
  ghost predicate QuietWindow(seg: seq<real>, win: int, p: int) {
    && 0 <= p && 1 <= win && p + win <= |seg|
    && (forall j | 0 <= j <= |seg| - win :: NaiveSum(seg, p, win) <= NaiveSum(seg, j, win))
    && (forall j | 0 <= j < p :: NaiveSum(seg, p, win) < NaiveSum(seg, j, win))
  }

  /** c is the first quietest sample of the first quietest window of seg. */
  ghost predicate QuietCut(seg: seq<real>, win: int, c: int) {
    exists p, q :: QuietAt(seg, win, p, q) && c == p + q
  }

  ghost predicate QuietAt(seg: seq<real>, win: int, p: int, q: int) {
    QuietWindow(seg, win, p) && FirstMin(Loudness(seg[p..p + win]), q)
  }

  function Left(start: int, maxLen: int, expand: int): int { Max(start, start + maxLen - expand) }

  function Right(total: int, start: int, maxLen: int, expand: int): int { Min(total, start + maxLen + expand) }

  function Clamp(b: int, start: int, total: int): int { Min(Max(b, start + 1), total) }

  /** The cut after `start`: the nominal one when there is no room to search, else the quiet one. */
  ghost predicate IsCut(pcm: seq<real>, start: int, maxLen: int, expand: int, win: int, b: int) {
    var left, right := Left(start, maxLen, expand), Right(|pcm|, start, maxLen, expand);
    if right - left <= win then b == Clamp(start + maxLen, start, |pcm|)
    else 0 <= left <= right <= |pcm| &&
         exists c :: QuietCut(pcm[left..right], win, c) && b == Clamp(left + c, start, |pcm|)
  }

  method Quietest(seg: seq<real>, win: int) returns (c: int)
    requires 1 <= win <= |seg|
    ensures QuietCut(seg, win, c)
  {
    hide NaiveSum;
    var sums := WindowSumsAbs(seg, win);
    var minPos := ArgminFirst(sums);
    WindowOfSums(seg, win, sums, minPos);
    hide QuietWindow, FirstMin;
    var inner := ArgminFirstAbs(seg[minPos..minPos + win]);
    assert QuietAt(seg, win, minPos, inner);
    return minPos + inner;
  }

  lemma WindowOfSums(seg: seq<real>, win: int, sums: seq<real>, p: int)
    requires 1 <= win <= |seg| && |sums| == |seg| - win + 1 && FirstMin(sums, p)
    requires forall k | 0 <= k < |sums| :: sums[k] == NaiveSum(seg, k, win)
    ensures QuietWindow(seg, win, p)
  {
    hide NaiveSum;
    assert forall j | 0 <= j < |sums| :: sums[p] <= sums[j];
  }

  method NextCut(pcm: seq<real>, start: int, maxLen: int, expand: int, win: int) returns (boundary: int)
    requires 0 <= start && |pcm| - start > maxLen && win >= 4
    requires start <= |pcm|
    ensures IsCut(pcm, start, maxLen, expand, win, boundary)
  {
    hide QuietCut;
    var cut := start + maxLen;
    var left := if start < cut - expand then cut - expand else start;
    var right := if cut + expand < |pcm| then cut + expand else |pcm|;
    if right - left <= win {
      boundary := cut;
    } else {
      var seg := pcm[left..right];
      var c := Quietest(seg, win);
      boundary := left + c;
    }
    if boundary < start + 1 { boundary := start + 1; }
    if boundary > |pcm| { boundary := |pcm|; }
  }

  /** A cut moves on, and stays within the expansion of the nominal length. */
  lemma CutBounds(pcm: seq<real>, start: int, maxLen: int, expand: int, win: int, b: int)
    requires 0 <= start && |pcm| - start > maxLen >= 0 && win >= 4 && IsCut(pcm, start, maxLen, expand, win, b)
    ensures start < b <= |pcm|
    ensures maxLen >= 1 ==> b < |pcm|
    ensures maxLen >= 1 ==> Max(1, maxLen - Max(expand, 0)) <= b - start <= maxLen + Max(expand, 0)
  {
    hide QuietWindow, FirstMin;
    var left, right := Left(start, maxLen, expand), Right(|pcm|, start, maxLen, expand);
    if right - left > win {
      var c :| QuietCut(pcm[left..right], win, c) && b == Clamp(left + c, start, |pcm|);
      QuietInside(pcm[left..right], win, c);
    }
  }

  lemma {:induction false} SumInside(pcm: seq<real>, left: int, right: int, k: int, n: int)
    requires 0 <= left <= right <= |pcm| && 0 <= k && 0 <= n && k + n <= right - left
    ensures NaiveSum(pcm[left..right], k, n) == NaiveSum(pcm, left + k, n)
  {
    if n > 0 { SumInside(pcm, left, right, k, n - 1); }
  }

  /** Of the windows within lo..hi, the one at p is the first with the least sum; m is its first quietest sample. */
  ghost predicate QuietestIn(pcm: seq<real>, lo: int, hi: int, win: int, p: int, m: int) {
    && 0 <= lo <= p <= m < p + win <= hi <= |pcm|
    && (forall j | lo <= j <= hi - win :: NaiveSum(pcm, p, win) <= NaiveSum(pcm, j, win))
    && (forall j | lo <= j < p :: NaiveSum(pcm, p, win) < NaiveSum(pcm, j, win))
    && (forall j | p <= j < p + win :: Abs(pcm[m]) <= Abs(pcm[j]))
    && (forall j | p <= j < m :: Abs(pcm[m]) < Abs(pcm[j]))
  }

  /**
   Where a cut falls in the audio itself: the quietest place within `expand` of the nominal end, or the
   nominal end if less than a window is left to search there; moved at least one sample on and not
   past the end.
   */
  lemma CutIsQuietest(pcm: seq<real>, start: int, maxLen: int, expand: int, win: int, b: int) returns (p: int, m: int)
    requires 0 <= start <= |pcm| && win >= 1 && IsCut(pcm, start, maxLen, expand, win, b)
    ensures var lo := if expand > maxLen then start else start + maxLen - expand;
            var hi := if start + maxLen + expand > |pcm| then |pcm| else start + maxLen + expand;
            && (hi - lo > win ==> QuietestIn(pcm, lo, hi, win, p, m))
            && var wanted := if hi - lo > win then m else start + maxLen;
               b == if start == |pcm| || wanted > |pcm| then |pcm| else if wanted <= start then start + 1 else wanted
  {
    hide QuietCut, QuietAt, QuietestIn;
    p, m := 0, 0;
    var left, right := Left(start, maxLen, expand), Right(|pcm|, start, maxLen, expand);
    if right - left > win {
      var c :| QuietCut(pcm[left..right], win, c) && b == Clamp(left + c, start, |pcm|);
      var i, q := QuietPlace(pcm[left..right], win, c);
      p, m := left + i, left + i + q;
      QuietMoved(pcm, left, right, win, i, q);
    }
  }

  lemma QuietPlace(seg: seq<real>, win: int, c: int) returns (i: int, q: int)
    requires QuietCut(seg, win, c)
    ensures QuietAt(seg, win, i, q) && c == i + q
  {
    hide QuietAt;
    i, q :| QuietAt(seg, win, i, q) && c == i + q;
  }

  lemma QuietMoved(pcm: seq<real>, left: int, right: int, win: int, i: int, q: int)
    requires 0 <= left <= right <= |pcm| && QuietAt(pcm[left..right], win, i, q)
    ensures QuietestIn(pcm, left, right, win, left + i, left + i + q)
  {
    hide NaiveSum, Abs;
    var seg := pcm[left..right];
    var loud := Loudness(seg[i..i + win]);
    forall j | left <= j <= right - win ensures NaiveSum(pcm, j, win) == NaiveSum(seg, j - left, win) {
      SumInside(pcm, left, right, j - left, win);
    }
    forall j | left + i <= j < left + i + win ensures Abs(pcm[j]) == loud[j - left - i] {
      var k := j - left - i;
      assert seg[i..i + win][k] == seg[i + k] == pcm[left + (i + k)];
    }
  }

  lemma QuietInside(seg: seq<real>, win: int, c: int)
    requires QuietCut(seg, win, c)
    ensures 0 <= c < |seg|
  {}

  // ---- all cuts ----

  /** Cut k - 1, or 0 before the first. */
  function StartOf(cuts: seq<int>, k: int): int {
    if 0 < k <= |cuts| then cuts[k - 1] else 0
  }

  /** Every cut but the last was placed by the rule, from the cut before it, with too much audio left. */
  ghost predicate Placed(pcm: seq<real>, maxLen: int, expand: int, win: int, cuts: seq<int>) {
    forall k | 0 <= k < |cuts| ::
      && 0 <= StartOf(cuts, k) <= |pcm| && |pcm| - StartOf(cuts, k) > maxLen
      && IsCut(pcm, StartOf(cuts, k), maxLen, expand, win, cuts[k])
  }

  method Boundaries(s: Settings, pcm: seq<real>) returns (out: seq<int>)
    requires s.rate > 0 && (MaxLen(s) >= 0 || |pcm| as real / s.rate as real <= s.maxChunkSec)
    ensures out != [] && out[|out| - 1] == |pcm|
    ensures Placed(pcm, MaxLen(s), Expand(s), Window(s), out[..|out| - 1])
    ensures MaxLen(s) >= 0 ==> |pcm| - StartOf(out, |out| - 1) <= MaxLen(s) && StartOf(out, |out| - 1) <= |pcm|
    ensures |pcm| as real / s.rate as real <= s.maxChunkSec ==> out == [|pcm|]
    ensures MaxLen(s) >= 1 ==> ChunkLengths(out, MaxLen(s), Max(Expand(s), 0)) && Rising(out)
    ensures Rising(out) <==> MaxLen(s) >= 1 || |pcm| as real / s.rate as real <= s.maxChunkSec || pcm == []
  {
    hide IsCut, MaxLen, Expand, Window;
    assert Window(s) >= 4 by { WindowAtLeast4(s); }
    var totalLen := |pcm|;
    var totalSec := totalLen as real / s.rate as real;
    if totalSec <= s.maxChunkSec {
      ShortEnough(s, totalLen);
      out := [totalLen];
      if MaxLen(s) >= 1 { CutsAreGood(pcm, MaxLen(s), Expand(s), Window(s), out); }
      return;
    }
    var maxLen, expand, win := MaxLen(s), Expand(s), Window(s);
    var start := 0;
    out := [];
    while totalLen - start > maxLen
      invariant 0 <= start <= totalLen && start == StartOf(out, |out|)
      invariant Placed(pcm, maxLen, expand, win, out)
      decreases totalLen - start
    {
      var boundary := NextCut(pcm, start, maxLen, expand, win);
      CutBounds(pcm, start, maxLen, expand, win, boundary);
      PlacedOneMore(pcm, maxLen, expand, win, out, boundary);
      out := out + [boundary];
      start := boundary;
    }
    assert (out + [totalLen])[..|out|] == out;
    out := out + [totalLen];
    if maxLen >= 1 {
      CutsAreGood(pcm, maxLen, expand, win, out);
    } else if pcm != [] {
      LastCutTwice(out, totalLen);
    }
  }

  lemma ShortEnough(s: Settings, n: int)
    requires n >= 0 && s.rate > 0 && n as real / s.rate as real <= s.maxChunkSec
    ensures n <= MaxLen(s)
  {
    var q, r, sec := n as real / s.rate as real, s.rate as real, s.maxChunkSec;
    assert q * r == n as real;
    RealScale(q, sec, r);
    var x := sec * r;
    assert n as real <= x < (x.Floor + 1) as real;
  }

  lemma RealScale(a: real, b: real, c: real)
    requires a <= b && c > 0.0
    ensures a * c <= b * c
  {}

  lemma PlacedOneMore(pcm: seq<real>, maxLen: int, expand: int, win: int, cuts: seq<int>, b: int)
    requires Placed(pcm, maxLen, expand, win, cuts)
    requires var start := StartOf(cuts, |cuts|);
             0 <= start <= |pcm| && |pcm| - start > maxLen && IsCut(pcm, start, maxLen, expand, win, b)
    ensures Placed(pcm, maxLen, expand, win, cuts + [b])
  {
    hide IsCut;
    var cuts' := cuts + [b];
    forall k | 0 <= k < |cuts'|
      ensures 0 <= StartOf(cuts', k) <= |pcm| && |pcm| - StartOf(cuts', k) > maxLen
      ensures IsCut(pcm, StartOf(cuts', k), maxLen, expand, win, cuts'[k])
    {
      assert StartOf(cuts', k) == StartOf(cuts, k);
    }
  }

  /** Chunk k is longer than nothing; its length is near the nominal one, except that the last may be short. */
  ghost predicate ChunkLengths(out: seq<int>, maxLen: int, slack: int) {
    && out != []
    && (forall k | 0 <= k < |out| - 1 :: Max(1, maxLen - slack) <= out[k] - StartOf(out, k) <= maxLen + slack)
    && out[|out| - 1] - StartOf(out, |out| - 1) <= maxLen
  }

  predicate Rising(out: seq<int>) {
    forall k | 0 < k < |out| :: out[k - 1] < out[k]
  }

  /** What the cuts of Boundaries look like for a positive chunk length. */
  lemma CutsAreGood(pcm: seq<real>, maxLen: int, expand: int, win: int, out: seq<int>)
    requires maxLen >= 1 && win >= 4 && out != [] && out[|out| - 1] == |pcm|
    requires Placed(pcm, maxLen, expand, win, out[..|out| - 1]) && |pcm| - StartOf(out, |out| - 1) <= maxLen
    ensures ChunkLengths(out, maxLen, Max(expand, 0)) && Rising(out)
    ensures forall k | 0 <= k < |out| - 1 :: 0 < out[k] < |pcm|
  {
    hide IsCut;
    var n := |out| - 1;
    var cuts := out[..n];
    forall k | 0 <= k < n
      ensures Max(1, maxLen - Max(expand, 0)) <= out[k] - StartOf(out, k) <= maxLen + Max(expand, 0)
      ensures 0 <= StartOf(out, k) < out[k] < |pcm|
    {
      assert cuts[k] == out[k] && StartOf(cuts, k) == StartOf(out, k);
      CutBounds(pcm, StartOf(cuts, k), maxLen, expand, win, cuts[k]);
    }
  }

  lemma WindowAtLeast4(s: Settings)
    ensures Window(s) >= 4
  {}

  /** A loop that only stops at the very end leaves the final cut there twice. */
  lemma LastCutTwice(out: seq<int>, total: int)
    requires out != [] && out[|out| - 1] == total && StartOf(out, |out| - 1) == total > 0
    ensures !Rising(out)
  {
    assert |out| > 1 && out[|out| - 2] == total;
  }

  /** Cuts need not rise: one sample, and a chunk length of half a sample. */
  method RepeatedCut() returns (s: Settings, pcm: seq<real>, out: seq<int>)
    ensures s == Settings(1, 0.5, 0.0, 0.0, 0.0) && pcm == [0.0] && !Rising(out)
  {
    s, pcm := Settings(1, 0.5, 0.0, 0.0, 0.0), [0.0];
    assert MaxLen(s) == 0;
    assert |pcm| as real / s.rate as real == 1.0;
    out := Boundaries(s, pcm);
  }

  /**
   With a negative chunk length the loop cannot end: wherever it stands, the next cut lies within the
   audio, so the loop's guard holds again.
   */
  lemma NegativeLengthStalls(pcm: seq<real>, maxLen: int, expand: int, win: int, start: int, b: int)
    requires maxLen < 0 && win >= 4 && 0 <= start <= |pcm| && IsCut(pcm, start, maxLen, expand, win, b)
    ensures start <= b <= |pcm| && |pcm| - b > maxLen
  {
    hide QuietCut;
  }

  /** So after any number of turns, each with a cut placed by the rule, the loop is still going. */
  method StillCutting(pcm: seq<real>, maxLen: int, expand: int, win: int, turns: nat) returns (cuts: seq<int>)
    requires maxLen < 0 && win >= 4
    ensures |cuts| == turns && Placed(pcm, maxLen, expand, win, cuts)
    ensures 0 <= StartOf(cuts, turns) <= |pcm| && |pcm| - StartOf(cuts, turns) > maxLen
  {
    hide IsCut;
    cuts := [];
    for i := 0 to turns
      invariant |cuts| == i && Placed(pcm, maxLen, expand, win, cuts) && 0 <= StartOf(cuts, i) <= |pcm|
    {
      var boundary := NextCut(pcm, StartOf(cuts, i), maxLen, expand, win);
      NegativeLengthStalls(pcm, maxLen, expand, win, StartOf(cuts, i), boundary);
      PlacedOneMore(pcm, maxLen, expand, win, cuts, boundary);
      cuts := cuts + [boundary];
    }
  }

  // ---- chunks ----

  datatype Chunk = Chunk(offsetSec: real, samples: seq<real>)

  function Zeros(n: int): (z: seq<real>)
    ensures |z| == Max(n, 0) && forall k | 0 <= k < |z| :: z[k] == 0.0
  {
    if n <= 0 then [] else seq(n, i => 0.0)
  }

  function Joined(parts: seq<seq<real>>): seq<real> {
    if parts == [] then [] else Joined(parts[..|parts| - 1]) + parts[|parts| - 1]
  }

  /** The stretch of audio that ends at cut k. */
  function Piece(pcm: seq<real>, cuts: seq<int>, k: int): seq<real> {
    if 0 <= k < |cuts| && 0 <= StartOf(cuts, k) <= cuts[k] <= |pcm| then pcm[StartOf(cuts, k)..cuts[k]] else []
  }

  ghost predicate Cover(cuts: seq<int>, total: int) {
    forall k | 0 <= k < |cuts| :: 0 <= StartOf(cuts, k) <= cuts[k] <= total
  }

  /** The pieces up to cut k are the audio up to cut k. */
  lemma {:induction false} PiecesJoin(pcm: seq<real>, cuts: seq<int>, n: int)
    requires 0 <= n <= |cuts| && Cover(cuts, |pcm|)
    ensures 0 <= StartOf(cuts, n) <= |pcm|
    ensures Joined(seq(n, k => Piece(pcm, cuts, k))) == pcm[..StartOf(cuts, n)]
  {
    var parts := seq(n, k => Piece(pcm, cuts, k));
    if n > 0 {
      PiecesJoin(pcm, cuts, n - 1);
      assert parts[..n - 1] == seq(n - 1, k => Piece(pcm, cuts, k));
      assert StartOf(cuts, n) == cuts[n - 1];
    }
  }

  function MinLen(s: Settings): int { Trunc(s.minChunkSec * s.rate as real) }

  /** The offset in seconds is exactly the start sample's time. */
  ghost predicate StartsAt(offsetSec: real, rate: int, start: int) {
    offsetSec * rate as real == start as real
  }

  lemma StartsAtZero(rate: int)
    ensures StartsAt(0.0, rate, 0)
  {}

  lemma StartsLater(offset: real, start: int, b: int, rate: int)
    requires rate > 0 && StartsAt(offset, rate, start)
    ensures StartsAt(offset + (b - start) as real / rate as real, rate, b)
  {
    var r := rate as real;
    var d := (b - start) as real / r;
    assert d * r == (b - start) as real;
    assert (offset + d) * r == offset * r + d * r;
  }

  /** Chunk k before padding, and where it starts in time. */
  ghost predicate IsChunk(c: Chunk, rate: int, pcm: seq<real>, cuts: seq<int>, k: int) {
    c.samples == Piece(pcm, cuts, k) && StartsAt(c.offsetSec, rate, StartOf(cuts, k))
  }

  /** Chunk k as handed out: zeros fill it up to the minimum length. */
  ghost predicate IsPadded(c: Chunk, rate: int, minLen: int, pcm: seq<real>, cuts: seq<int>, k: int) {
    var piece := Piece(pcm, cuts, k);
    c.samples == piece + Zeros(minLen - |piece|) && StartsAt(c.offsetSec, rate, StartOf(cuts, k))
  }

  method Split(s: Settings, pcm: seq<real>) returns (chunks: seq<Chunk>, cuts: seq<int>)
    requires s.rate > 0 && (MaxLen(s) >= 0 || |pcm| as real / s.rate as real <= s.maxChunkSec) && s.minChunkSec >= 0.0
    ensures |chunks| == |cuts| && Cover(cuts, |pcm|) && StartOf(cuts, |cuts|) == |pcm|
    ensures forall k | 0 <= k < |chunks| :: IsPadded(chunks[k], s.rate, MinLen(s), pcm, cuts, k)
    ensures Joined(seq(|cuts|, k => Piece(pcm, cuts, k))) == pcm
  {
    hide MaxLen, IsCut, Expand, Window, MinLen, StartsAt, IsPadded, IsChunk, Piece;
    cuts := Boundaries(s, pcm);
    BoundariesCover(s, pcm, cuts);
    chunks := Slices(s.rate, pcm, cuts);
    chunks := Pad(s.rate, MinLen(s), pcm, cuts, chunks);
    PiecesJoin(pcm, cuts, |cuts|);
    assert pcm[..|pcm|] == pcm;
  }

  method Slices(rate: int, pcm: seq<real>, cuts: seq<int>) returns (chunks: seq<Chunk>)
    requires rate > 0 && Cover(cuts, |pcm|)
    ensures |chunks| == |cuts| && forall k | 0 <= k < |chunks| :: IsChunk(chunks[k], rate, pcm, cuts, k)
  {
    hide StartsAt;
    chunks := [];
    var start, offsetSec := 0, 0.0;
    StartsAtZero(rate);
    for i := 0 to |cuts|
      invariant |chunks| == i && start == StartOf(cuts, i) && StartsAt(offsetSec, rate, start)
      invariant forall k | 0 <= k < i :: IsChunk(chunks[k], rate, pcm, cuts, k)
    {
      var b := cuts[i];
      if b < start { b := start; }
      if b > |pcm| { b := |pcm|; }
      chunks := chunks + [Chunk(offsetSec, pcm[start..b])];
      StartsLater(offsetSec, start, b, rate);
      offsetSec := offsetSec + (b - start) as real / rate as real;
      start := b;
    }
  }

  /** Short chunks are filled up with silence. */
  method Pad(rate: int, minLen: int, pcm: seq<real>, cuts: seq<int>, parts: seq<Chunk>) returns (chunks: seq<Chunk>)
    requires |parts| == |cuts| && forall k | 0 <= k < |parts| :: IsChunk(parts[k], rate, pcm, cuts, k)
    ensures |chunks| == |cuts| && forall k | 0 <= k < |chunks| :: IsPadded(chunks[k], rate, minLen, pcm, cuts, k)
  {
    hide StartsAt, Piece;
    chunks := parts;
    for i := 0 to |chunks|
      invariant |chunks| == |parts|
      invariant forall k | i <= k < |chunks| :: chunks[k] == parts[k]
      invariant forall k | 0 <= k < i :: IsPadded(chunks[k], rate, minLen, pcm, cuts, k)
    {
      assert IsChunk(parts[i], rate, pcm, cuts, i);
      if |chunks[i].samples| < minLen {
        chunks := chunks[i := chunks[i].(samples := chunks[i].samples + Zeros(minLen - |chunks[i].samples|))];
      }
    }
  }

  lemma BoundariesCover(s: Settings, pcm: seq<real>, out: seq<int>)
    requires s.rate > 0 && out != [] && out[|out| - 1] == |pcm|
    requires Placed(pcm, MaxLen(s), Expand(s), Window(s), out[..|out| - 1])
    requires MaxLen(s) >= 0 || out == [|pcm|]
    requires StartOf(out, |out| - 1) <= |pcm|
    ensures Cover(out, |pcm|)
  {
    hide IsCut, MaxLen, Expand, Window;
    WindowAtLeast4(s);
    var n := |out| - 1;
    forall k | 0 <= k < |out| ensures 0 <= StartOf(out, k) <= out[k] <= |pcm| {
      if k < n {
        assert out[..n][k] == out[k] && StartOf(out[..n], k) == StartOf(out, k);
        CutBounds(pcm, StartOf(out, k), MaxLen(s), Expand(s), Window(s), out[k]);
      } else if n > 0 {
        assert out[..n][n - 1] == out[n - 1] && StartOf(out[..n], n - 1) == StartOf(out, n - 1);
        CutBounds(pcm, StartOf(out, n - 1), MaxLen(s), Expand(s), Window(s), out[n - 1]);
      }
    }
  }
}
