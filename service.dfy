/**
 * The generator service of backend/internal/service/generator.go: a random
 * integer in a caller-given range, and a random quote from a preset list.
 *
 * The service's `*rand.Rand` is modelled as an oracle stream: `source(k)`
 * is the raw value behind the k-th draw and `drawn` counts the draws made
 * so far. No claim is made about the distribution of the draws; a draw
 * below n is the raw value reduced modulo n, which reaches every value of
 * [0, n) as the stream varies.
 */
module Service {
  import opened Wrappers
  import opened GoInt

  datatype Rng = Rng(source: nat -> nat, drawn: nat) {
    /** The stream after one more draw. */
    function Advance(): Rng {
      this.(drawn := drawn + 1)
    }
  }

  /** `ErrInvalidArgument`, the only error the service returns. */
  datatype ServiceError = ErrInvalidArgument

  /** The text of the error, as `err.Error()` gives it. */
  function ErrorText(e: ServiceError): (t: string)
    ensures t == "invalid argument"
  {
    "invalid argument"
  }

  /** The `GeneratorService` struct: its random source and its quotes. */
  datatype GeneratorService = GeneratorService(rng: Rng, quotes: seq<string>)

  /** One draw from [0, n), with the stream it leaves behind. */
  function Below(rng: Rng, n: nat): (r: (nat, Rng))
    requires n > 0
    ensures r.0 < n
    ensures r.1 == rng.Advance()
  {
    (rng.source(rng.drawn) % n, rng.Advance())
  }

  /** What `rand.(*Rand).Int63n(n)` does: panic unless n > 0, else draw from [0, n). */
  datatype Draw = Drawn(value: int64, rng: Rng) | Panicked

  function Int63n(rng: Rng, n: int64): (d: Draw)
    ensures d.Panicked? <==> n <= 0
    ensures d.Drawn? ==> 0 <= d.value < n && d.rng == rng.Advance()
  {
    if n <= 0 then Panicked
    else
      var (x, rng') := Below(rng, n as int);
      Drawn(x as int64, rng')
  }

  /**
   * What `GenerateNumber` hands back: Go's `(int64, error)` pair, or the
   * panic raised inside `Int63n`.
   */
  datatype Generated = Returned(value: int64, err: Option<ServiceError>) | Panic

  /**
   * The draw bound `max-min+1` exactly as Go computes it on int64: for
   * min <= max, the true span when it is below 2^63, else the span less 2^64.
   */
  function DrawBound(min: int64, max: int64): (r: int64)
    ensures min <= max && max as int - min as int + 1 < Two63 ==> r as int == max as int - min as int + 1
    ensures min <= max && max as int - min as int + 1 >= Two63 ==> r as int == max as int - min as int + 1 - Two64
  {
    Add(Sub(max, min), 1)
  }

  /**
   * For min < max the wrapped bound is positive exactly when the true span
   * max - min + 1 is below 2^63, and then it equals the true span.
   */
  lemma DrawBoundExact(min: int64, max: int64)
    requires min < max
    ensures DrawBound(min, max) > 0 <==> max as int - min as int + 1 < Two63
    ensures DrawBound(min, max) > 0 ==> DrawBound(min, max) as int == max as int - min as int + 1
  {
    var d := max as int - min as int;
    var s := Sub(max, min);
    if d < Two63 {
      assert s as int == d;
    } else {
      assert s as int == d - Two64;
      assert DrawBound(min, max) as int == d - Two64 + 1;
    }
  }

  /** `GenerateNumber` as written: validation, the `min == max` shortcut, then `Int63n(max-min+1) + min`. */
  function GenerateNumber(s: GeneratorService, min: int64, max: int64): (r: (Generated, GeneratorService))
    ensures r.1.quotes == s.quotes
    ensures min > max ==> r == (Returned(0, Some(ErrInvalidArgument)), s)
    ensures min == max ==> r == (Returned(min, None), s)
    ensures min < max && r.0.Returned? ==>
              r.0.err == None && min <= r.0.value <= max && r.1.rng == s.rng.Advance()
    ensures r.0.Panic? ==> r.1 == s
  {
    if min > max then (Returned(0, Some(ErrInvalidArgument)), s)
    else if min == max then (Returned(min, None), s)
    else
      DrawBoundExact(min, max);
      match Int63n(s.rng, DrawBound(min, max))
      case Panicked => (Panic, s)
      case Drawn(x, rng') => (Returned(Add(x, min), None), s.(rng := rng'))
  }

  /** The as-written operation panics exactly when the span max - min + 1 reaches 2^63. */
  lemma {:induction false} GenerateNumberPanicsIff(s: GeneratorService, min: int64, max: int64)
    ensures GenerateNumber(s, min, max).0.Panic? <==> max as int - min as int + 1 >= Two63
  {
    if min < max {
      DrawBoundExact(min, max);
    }
  }

  /** The full int64 range is one input that panics although min <= max. */
  lemma FullRangePanics(s: GeneratorService)
    ensures GenerateNumber(s, MinInt64, MaxInt64).0 == Panic
  {
    GenerateNumberPanicsIff(s, MinInt64, MaxInt64);
  }

  /**
   * `GenerateNumber` as its doc comment promises it: the draw bound is the
   * true span, computed without wrap-around (up to 2^64), so no panic.
   */
  function GenerateNumberCorrected(s: GeneratorService, min: int64, max: int64): (r: (Generated, GeneratorService))
    ensures r.0.Returned?
    ensures r.1.quotes == s.quotes
    ensures min > max ==> r == (Returned(0, Some(ErrInvalidArgument)), s)
    ensures min == max ==> r == (Returned(min, None), s)
    ensures min < max ==> r.0.err == None && min <= r.0.value <= max && r.1.rng == s.rng.Advance()
  {
    if min > max then (Returned(0, Some(ErrInvalidArgument)), s)
    else if min == max then (Returned(min, None), s)
    else
      var (x, rng') := Below(s.rng, max as int - min as int + 1);
      (Returned((min as int + x) as int64, None), s.(rng := rng'))
  }

  /** Wherever the as-written operation does not panic, the corrected one agrees with it. */
  lemma {:induction false} CorrectedAgreesWhenNoPanic(s: GeneratorService, min: int64, max: int64)
    requires !GenerateNumber(s, min, max).0.Panic?
    ensures GenerateNumberCorrected(s, min, max) == GenerateNumber(s, min, max)
  {
    if min < max {
      DrawBoundExact(min, max);
    }
  }

  /** A stream whose every raw value is k. */
  function ConstantRng(k: nat): (rng: Rng)
    ensures rng.source(rng.drawn) == k
  {
    Rng(_ => k, 0)
  }

  /** A value already below the modulus is its own remainder. */
  lemma ModBelow(k: int, n: int)
    requires 0 <= k < n
    ensures k % n == k
  {
  }

  /** Every value of [min, max] is the outcome of some draw. */
  lemma CorrectedReachesEveryValue(quotes: seq<string>, min: int64, max: int64, v: int64)
    requires min <= v <= max
    ensures GenerateNumberCorrected(GeneratorService(ConstantRng(v as int - min as int), quotes), min, max).0
            == Returned(v, None)
  {
    var k := v as int - min as int;
    var svc := GeneratorService(ConstantRng(k), quotes);
    if min < max {
      var span := max as int - min as int + 1;
      assert 0 <= k < span;
      assert svc.rng.source(svc.rng.drawn) == k;
      ModBelow(k, span);
      var (x, _) := Below(svc.rng, span);
      assert x == k;
      assert min as int + x == v as int;
    }
  }

  /** `RandomQuote`: "" for an empty list, otherwise the quote at a drawn index. */
  function RandomQuote(s: GeneratorService): (r: (string, GeneratorService))
    ensures r.1.quotes == s.quotes
    ensures |s.quotes| == 0 ==> r == ("", s)
    ensures |s.quotes| > 0 ==> r.0 in s.quotes && r.1.rng == s.rng.Advance()
  {
    if |s.quotes| == 0 then ("", s)
    else
      var (idx, rng') := Below(s.rng, |s.quotes|);
      (s.quotes[idx], s.(rng := rng'))
  }

  /** Every quote of a non-empty list is the outcome of some draw. */
  lemma RandomQuoteReachesEveryQuote(quotes: seq<string>, i: nat)
    requires i < |quotes|
    ensures RandomQuote(GeneratorService(ConstantRng(i), quotes)).0 == quotes[i]
  {
  }
}
