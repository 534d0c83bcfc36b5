/** The prefix rollback of the streaming ASR worker: which part of the transcript a hop keeps. */
module AsrPrefix {

  /** The worker's tokenizer; `loaded` is false when the handle is null. */
  datatype Tokenizer = Tokenizer(loaded: bool, encode: string -> seq<int>, decode: seq<int> -> string)

  /** No multibyte character was cut in two. */
  predicate Clean(text: string) {
    '\U{FFFD}' !in text
  }

  function Text(tok: Tokenizer, tokens: seq<int>, end: int): string {
    if 0 < end <= |tokens| then tok.decode(tokens[..end]) else ""
  }

  /** Where a rollback by k tokens starts: at least one token stays when finishing. */
  function StartAt(total: int, k: int, floor: int): int {
    if total - k < floor then floor else total - k
  }

  /** The longest clean text of at most `end` tokens, or that of `floor` tokens. */
  function Rollback(tok: Tokenizer, tokens: seq<int>, end: int, floor: int): string
    decreases end - floor
  {
    if Clean(Text(tok, tokens, end)) || end <= floor then Text(tok, tokens, end)
    else Rollback(tok, tokens, end - 1, floor)
  }

  /** The confirmed transcript; nothing during the first `warmup` hops. */
  function Confirmed(tok: Tokenizer, raw: string, hops: int, warmup: int, unfixed: int, finish: bool): string {
    var tokens := tok.encode(raw);
    var floor := if finish then 1 else 0;
    if !tok.loaded || raw == "" || hops < warmup || tokens == [] then ""
    else Rollback(tok, tokens, StartAt(|tokens|, unfixed, floor), floor)
  }

  /** e is where the rollback stops: everything longer is unclean, and e is clean or cannot shrink. */
  ghost predicate StopsAt(tok: Tokenizer, tokens: seq<int>, start: int, floor: int, e: int) {
    && floor <= e <= start
    && (e == floor || Clean(Text(tok, tokens, e)))
    && forall j | e < j <= start :: !Clean(Text(tok, tokens, j))
  }

  lemma {:induction false} RollbackStops(tok: Tokenizer, tokens: seq<int>, start: int, floor: int) returns (e: int)
    requires floor <= start
    ensures StopsAt(tok, tokens, start, floor, e) && Rollback(tok, tokens, start, floor) == Text(tok, tokens, e)
    decreases start - floor
  {
    if Clean(Text(tok, tokens, start)) || start <= floor {
      e := start;
    } else {
      e := RollbackStops(tok, tokens, start - 1, floor);
    }
  }

  /**
   What is confirmed drops at least `unfixed` tokens, is clean unless a finish forces its one token,
   and is longest.
   */
  lemma ConfirmedIsLongestClean(tok: Tokenizer, raw: string, hops: int, warmup: int, unfixed: int, finish: bool)
    returns (e: int)
    requires tok.loaded && raw != "" && hops >= warmup && tok.encode(raw) != [] && unfixed >= 1
    ensures var tokens := tok.encode(raw); var floor := if finish then 1 else 0;
            && Confirmed(tok, raw, hops, warmup, unfixed, finish) == Text(tok, tokens, e)
            && StopsAt(tok, tokens, StartAt(|tokens|, unfixed, floor), floor, e)
            && (e <= |tokens| - unfixed || e == floor)
    ensures !finish ==> Clean(Confirmed(tok, raw, hops, warmup, unfixed, finish))
  {
    var tokens, floor := tok.encode(raw), if finish then 1 else 0;
    e := RollbackStops(tok, tokens, StartAt(|tokens|, unfixed, floor), floor);
  }

  /** computePrefix: its loop gives back one more token until no character is cut. */
  method ComputePrefix(tok: Tokenizer, raw: string, hops: int, warmup: int, unfixed: int, finish: bool)
    returns (prefix: string)
    requires unfixed >= 1
    ensures prefix == Confirmed(tok, raw, hops, warmup, unfixed, finish)
  {
    if !tok.loaded || raw == "" { return ""; }
    if hops < warmup { return ""; }
    var tokens := tok.encode(raw);
    if tokens == [] { return ""; }
    var k, total := unfixed, |tokens|;
    ghost var floor := if finish then 1 else 0;
    while true
      invariant k >= unfixed
      invariant Rollback(tok, tokens, StartAt(total, k, floor), floor) ==
                Rollback(tok, tokens, StartAt(total, unfixed, floor), floor)
      decreases StartAt(total, k, floor)
    {
      var end := total - k;
      if finish { end := if 1 > end then 1 else end; } else { end := if 0 > end then 0 else end; }
      prefix := "";
      if end > 0 { prefix := tok.decode(tokens[..end]); }
      if '\U{FFFD}' !in prefix { return prefix; }
      if !finish && end == 0 { return ""; }
      if finish && end == 1 { return prefix; }
      k := k + 1;
    }
  }
}
