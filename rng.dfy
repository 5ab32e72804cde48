/** The simulator's pseudo-random generator: a xorshift128+ step over two
    64-bit words, whose outputs are converted to `f64` bit patterns, produced
    64 at a time into a cache and handed out last-generated-first. */
module Rng {

  /** How many draws one refill produces. */
  const CacheSize: nat := 64

  /** The mask applied to `raw >> 12` when a raw word becomes a draw. */
  const ExponentMask: bv64 := 0x3FF0_0000_0000_0000

  /** The 52 fraction bits of an `f64` bit pattern. */
  const FractionMask: bv64 := 0x000F_FFFF_FFFF_FFFF

  /** 2^52, the denominator of a 52-bit fraction. */
  const FractionScale: real := 4503599627370496.0

  /** The three xor-shift updates of one step, applied to `t` in turn. */
  function XorShl23(t: bv64): bv64 {
    t ^ (t << 23)
  }

  function XorShr18(t: bv64): bv64 {
    t ^ (t >> 18)
  }

  function XorS1(t: bv64, s1: bv64): bv64 {
    t ^ (s1 ^ (s1 >> 5))
  }

  /** The new second state word computed from the two old words, with `t`
      starting as the old `s0`. */
  function Scramble(s0: bv64, s1: bv64): bv64 {
    XorS1(XorShr18(XorShl23(s0)), s1)
  }

  /** The two state words of the generator. */
  datatype Words = Words(s0: bv64, s1: bv64)

  /** One raw step: the old second word becomes the first. */
  function StepWords(w: Words): Words {
    Words(w.s1, Scramble(w.s0, w.s1))
  }

  /** Addition modulo 2^64 (`u64::wrapping_add`). */
  function WrappingAdd(a: bv64, b: bv64): bv64 {
    a + b
  }

  /** The raw word one step returns: new `s1` plus old `s1`, wrapping at 2^64. */
  function RawOutput(w: Words): bv64 {
    WrappingAdd(StepWords(w).s1, w.s1)
  }

  /** `n` raw steps in a row. */
  function StepN(w: Words, n: nat): Words
    decreases n
  {
    if n == 0 then w else StepN(StepWords(w), n - 1)
  }

  /** The draw's bit pattern as the code computes it: `raw >> 12` masked with
      the exponent bits of 1.0. `raw >> 12` has its top twelve bits clear and
      the mask keeps only bits 52 to 61, so nothing is left (FloatBitsZero). */
  function FloatBits(raw: bv64): bv64 {
    (raw >> 12) & ExponentMask
  }

  /** The number a draw stands for, read as a 52-bit binary fraction. For the
      zero pattern the generator produces this is 0.0, the value of
      `f64::from_bits(0)`. */
  function DrawValue(bits: bv64): (v: real)
    ensures 0.0 <= v < 1.0
  {
    var fraction := bits & FractionMask;
    assert fraction <= FractionMask;
    (fraction as int) as real / FractionScale
  }

  /** As written, the conversion clears every bit, so every draw the
      generator hands out is +0.0. */
  lemma FloatBitsZero(raw: bv64)
    ensures FloatBits(raw) == 0
    ensures DrawValue(FloatBits(raw)) == 0.0
  {
  }

  lemma {:induction false} StepNSnoc(w: Words, n: nat)
    ensures StepN(w, n + 1) == StepWords(StepN(w, n))
    decreases n
  {
    if n > 0 {
      StepNSnoc(StepWords(w), n - 1);
    }
  }

  lemma {:induction false} StepNAdd(w: Words, a: nat, b: nat)
    ensures StepN(StepN(w, a), b) == StepN(w, a + b)
    decreases a
  {
    if a > 0 {
      StepNAdd(StepWords(w), a - 1, b);
    }
  }

  /** The words after `n` raw steps and the `n` draws those steps produce, in
      generation order (the loop of `refill_cache`). */
  function Generate(w: Words, n: nat): (r: (Words, seq<bv64>))
    ensures |r.1| == n
    decreases n
  {
    if n == 0 then (w, [])
    else
      var prev := Generate(w, n - 1);
      (StepWords(prev.0), prev.1 + [FloatBits(RawOutput(prev.0))])
  }

  lemma GenerateNext(w: Words, n: nat)
    ensures Generate(w, n + 1).0 == StepWords(Generate(w, n).0)
    ensures Generate(w, n + 1).1 == Generate(w, n).1 + [FloatBits(RawOutput(Generate(w, n).0))]
  {
  }

  /** Generating `n` draws runs exactly `n` raw steps, and draw `i` comes from
      the `i`-th raw word. */
  lemma {:induction false} GenerateSteps(w: Words, n: nat)
    ensures Generate(w, n).0 == StepN(w, n)
    ensures forall i :: 0 <= i < n ==> Generate(w, n).1[i] == FloatBits(RawOutput(StepN(w, i)))
    decreases n
  {
    if n > 0 {
      GenerateSteps(w, n - 1);
      StepNSnoc(w, n - 1);
    }
  }

  /** Every generated entry is the zero pattern. */
  lemma {:induction false} GenerateZero(w: Words, n: nat)
    ensures forall i :: 0 <= i < n ==> Generate(w, n).1[i] == 0
    decreases n
  {
    if n > 0 {
      GenerateZero(w, n - 1);
      GenerateNext(w, n - 1);
      FloatBitsZero(RawOutput(Generate(w, n - 1).0));
    }
  }

  /** The whole generator state, as a value. */
  datatype RngState = RngState(s0: bv64, s1: bv64, cache: seq<bv64>) {
    function WordsOf(): Words {
      Words(s0, s1)
    }
  }

  /** The generator's invariant: the cache never holds more than one refill. */
  ghost predicate Bounded(st: RngState) {
    |st.cache| <= CacheSize
  }

  /** Every cache entry is the zero pattern, as every entry the code pushes is. */
  ghost predicate Zeroed(st: RngState) {
    forall i :: 0 <= i < |st.cache| ==> st.cache[i] == 0
  }

  /** The state after the cache is topped up to 64 entries, one raw step per
      missing entry, the new draws appended in generation order. */
  function Refill(st: RngState): (r: RngState)
    ensures |st.cache| <= CacheSize ==> |r.cache| == CacheSize
  {
    var missing := if |st.cache| < CacheSize then CacheSize - |st.cache| else 0;
    var g := Generate(st.WordsOf(), missing);
    RngState(g.0.s0, g.0.s1, st.cache + g.1)
  }

  /** A refill of a bounded cache runs exactly one raw step per missing entry,
      and the `i`-th new entry comes from the `i`-th of those raw words. */
  lemma RefillSteps(st: RngState)
    requires Bounded(st)
    ensures Refill(st).WordsOf() == StepN(st.WordsOf(), CacheSize - |st.cache|)
    ensures forall i :: |st.cache| <= i < CacheSize ==>
      Refill(st).cache[i] == FloatBits(RawOutput(StepN(st.WordsOf(), i - |st.cache|)))
  {
    GenerateSteps(st.WordsOf(), CacheSize - |st.cache|);
  }

  /** One draw: the last cache entry, after a refill when the cache is empty.
      Popping is the inverse of the push that put the entry there, and a draw
      from a non-empty cache leaves the state words alone. */
  function Draw(st: RngState): (r: (RngState, bv64))
    ensures st.cache != [] ==> r.0.WordsOf() == st.WordsOf() && r.0.cache + [r.1] == st.cache
    ensures st.cache == [] ==> r.0.WordsOf() == Refill(st).WordsOf() && r.0.cache + [r.1] == Refill(st).cache
  {
    var full := if st.cache == [] then Refill(st) else st;
    var k := |full.cache| - 1;
    assert full.cache[..k] + [full.cache[k]] == full.cache;
    (full.(cache := full.cache[..k]), full.cache[k])
  }

  /** From a non-empty cache a draw is a pop. */
  lemma DrawPops(st: RngState)
    requires st.cache != []
    ensures Draw(st) == (st.(cache := st.cache[..|st.cache| - 1]), st.cache[|st.cache| - 1])
  {
  }

  /** The cache of a bounded generator stays bounded across a draw. */
  lemma DrawBounded(st: RngState)
    ensures Bounded(st) ==> Bounded(Draw(st).0)
  {
  }

  /** A draw from a cache of zero patterns hands out the zero pattern, which
      reads as 0.0, and leaves only zero patterns behind. */
  lemma DrawZeroed(st: RngState)
    requires Zeroed(st)
    ensures Draw(st).1 == 0 && DrawValue(Draw(st).1) == 0.0
    ensures Zeroed(Draw(st).0)
  {
    var missing := if |st.cache| < CacheSize then CacheSize - |st.cache| else 0;
    GenerateZero(st.WordsOf(), missing);
    assert Zeroed(Refill(st));
    var r := Draw(st);
    var full := if st.cache == [] then Refill(st) else st;
    assert r.0.cache + [r.1] == full.cache;
    assert r.1 == full.cache[|full.cache| - 1];
    forall i | 0 <= i < |r.0.cache|
      ensures r.0.cache[i] == 0
    {
      assert r.0.cache[i] == full.cache[i];
    }
  }

  /** `n` applications of a step function, threading the state and collecting
      the outputs in order. */
  function Iterate<S, E>(f: S -> (S, E), s: S, n: nat): (S, seq<E>)
    decreases n
  {
    if n == 0 then (s, [])
    else
      var first := f(s);
      var rest := Iterate(f, first.0, n - 1);
      (rest.0, [first.1] + rest.1)
  }

  /** The last of `n + 1` steps runs on the state the first `n` left. */
  lemma {:induction false} IterateSnoc<S, E>(f: S -> (S, E), s: S, n: nat)
    ensures Iterate(f, s, n + 1).0 == f(Iterate(f, s, n).0).0
    ensures Iterate(f, s, n + 1).1 == Iterate(f, s, n).1 + [f(Iterate(f, s, n).0).1]
    decreases n
  {
    if n > 0 {
      IterateSnoc(f, f(s).0, n - 1);
      var tail := Iterate(f, f(s).0, n - 1).1;
      assert [f(s).1] + (tail + [f(Iterate(f, f(s).0, n - 1).0).1])
          == [f(s).1] + tail + [f(Iterate(f, f(s).0, n - 1).0).1];
    }
  }

  /** `n` draws in a row, in the order they are returned. */
  function Draws(st: RngState, n: nat): (RngState, seq<bv64>) {
    Iterate(Draw, st, n)
  }

  /** A sequence read back to front. */
  function Reverse(s: seq<bv64>): (r: seq<bv64>)
    ensures |r| == |s|
    ensures forall i :: 0 <= i < |s| ==> r[i] == s[|s| - 1 - i]
  {
    if s == [] then [] else [s[|s| - 1]] + Reverse(s[..|s| - 1])
  }

  /** Reading back to front, the first element comes last. */
  lemma ReverseSnoc(s: seq<bv64>)
    requires s != []
    ensures Reverse(s[1..]) + [s[0]] == Reverse(s)
  {
    assert forall i :: 0 <= i < |s| - 1 ==> (Reverse(s[1..]) + [s[0]])[i] == s[1..][|s| - 2 - i];
  }

  /** Taking `k` draws from a cache that holds at least `k` entries returns its
      last `k` entries back to front and touches nothing else. */
  lemma {:induction false} DrawsPop(st: RngState, k: nat)
    requires k <= |st.cache|
    ensures Draws(st, k).0 == st.(cache := st.cache[..|st.cache| - k])
    ensures Draws(st, k).1 == Reverse(st.cache[|st.cache| - k..])
    decreases k
  {
    if k > 0 {
      var c := st.cache;
      DrawsPop(st, k - 1);
      IterateSnoc(Draw, st, k - 1);
      var prev := Draws(st, k - 1);
      assert prev.0.cache == c[..|c| - (k - 1)];
      DrawPops(prev.0);
      assert prev.0.cache[..|prev.0.cache| - 1] == c[..|c| - k];
      var s := c[|c| - k..];
      assert s[1..] == c[|c| - (k - 1)..];
      ReverseSnoc(s);
    }
  }

  /** From an empty cache, 64 draws return one refill's values in reverse
      generation order and empty the cache again; the 65th draw refills from
      the words the first refill left. */
  lemma DrawsFromEmpty(st: RngState)
    requires st.cache == []
    ensures Draws(st, CacheSize).0 == RngState(Refill(st).s0, Refill(st).s1, [])
    ensures Draws(st, CacheSize).1 == Reverse(Refill(st).cache)
    ensures Draws(st, CacheSize + 1).0.WordsOf() == Refill(Draws(st, CacheSize).0).WordsOf()
    ensures Draws(st, CacheSize + 1).0.cache == Refill(Draws(st, CacheSize).0).cache[..CacheSize - 1]
  {
    var full := Refill(st);
    var first := Draw(st);
    assert first.0.cache == full.cache[..CacheSize - 1] && first.1 == full.cache[CacheSize - 1] by {
      assert first.0.cache + [first.1] == full.cache;
    }
    DrawsPop(first.0, CacheSize - 1);
    assert first.0.cache[CacheSize - 1 - (CacheSize - 1)..] == full.cache[..CacheSize - 1];
    assert Reverse(full.cache) == [first.1] + Reverse(full.cache[..CacheSize - 1]);
    var after := Draws(st, CacheSize);
    IterateSnoc(Draw, st, CacheSize);
    var second := Draw(after.0);
    assert second.0.cache + [second.1] == Refill(after.0).cache;
  }

  /** The refill that the 65th draw from an empty cache triggers starts where
      the first refill's 64 raw steps ended: 128 raw steps after the start. */
  lemma SecondRefillWords(st: RngState)
    requires st.cache == []
    ensures Draws(st, CacheSize + 1).0.WordsOf() == StepN(st.WordsOf(), 2 * CacheSize)
  {
    DrawsFromEmpty(st);
    var after := Draws(st, CacheSize).0;
    RefillSteps(st);
    RefillSteps(after);
    assert after.WordsOf() == Refill(st).WordsOf();
    StepNAdd(st.WordsOf(), CacheSize, CacheSize);
  }

  /** The generator, whose three fields the draws overwrite in place. */
  class Rng {
    var s0: bv64
    var s1: bv64
    var cache: seq<bv64>

    function State(): RngState
      reads this
    {
      RngState(s0, s1, cache)
    }

    ghost predicate Valid()
      reads this
    {
      Bounded(State()) && Zeroed(State())
    }

    /** A generator seeded with the two words, its cache empty. */
    constructor (s0: bv64, s1: bv64)
      ensures State() == RngState(s0, s1, [])
      ensures Valid()
    {
      this.s0 := s0;
      this.s1 := s1;
      this.cache := [];
    }

    /** One xorshift128+ step. */
    method NextRaw() returns (raw: bv64)
      modifies this
      ensures State().WordsOf() == StepWords(old(State().WordsOf()))
      ensures raw == RawOutput(old(State().WordsOf()))
      ensures cache == old(cache)
    {
      var t := s0;
      var s := s1;
      s0 := s;
      t := XorShl23(t);
      t := XorShr18(t);
      t := XorS1(t, s);
      s1 := t;
      raw := WrappingAdd(t, s);
    }

    /** Tops the cache up to 64 entries. */
    method RefillCache()
      modifies this
      ensures State() == Refill(old(State()))
    {
      ghost var w0 := State().WordsOf();
      ghost var c0 := cache;
      ghost var done: nat := 0;
      while |cache| < CacheSize
        invariant |cache| == |c0| + done
        invariant |c0| < CacheSize ==> |cache| <= CacheSize
        invariant |c0| >= CacheSize ==> done == 0
        invariant State().WordsOf() == Generate(w0, done).0
        invariant cache == c0 + Generate(w0, done).1
        decreases CacheSize - |cache|
      {
        var raw := NextRaw();
        cache := cache + [FloatBits(raw)];
        GenerateNext(w0, done);
        done := done + 1;
      }
    }

    /** One draw. The pop cannot find the cache empty: an empty cache has just
        been refilled to 64 entries. */
    method Next() returns (bits: bv64)
      modifies this
      ensures (State(), bits) == Draw(old(State()))
      ensures old(Valid()) ==> Valid() && DrawValue(bits) == 0.0
    {
      DrawBounded(State());
      if Zeroed(State()) {
        DrawZeroed(State());
      }
      if |cache| == 0 {
        RefillCache();
      }
      bits := cache[|cache| - 1];
      cache := cache[..|cache| - 1];
    }
  }
}
