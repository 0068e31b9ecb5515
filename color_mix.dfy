/**
 * Puzzle 1, mixing: colour samples dropped into a bowl, whose colour is the
 * rounded per-channel mean of every sample dropped since the last reset.
 * The puzzle is solved when that mean is the target pink.
 */
module ColorMix {
  import opened Wrappers
  import Progression

  type Channel = x: int | 0 <= x <= 255

  /** One `rgb(r,g,b)` colour; the samples and the bowl colour alike. */
  datatype Color = Color(r: Channel, g: Channel, b: Channel)

  datatype Component = Red | Green | Blue

  function Value(c: Color, k: Component): Channel
  {
    match k
    case Red => c.r
    case Green => c.g
    case Blue => c.b
  }

  /** The sum of one channel over the mix, accumulated front to back as `forEach` does. */
  function Total(mix: seq<Color>, k: Component): (t: nat)
    ensures t <= 255 * |mix|
  {
    if mix == [] then 0 else Total(mix[..|mix| - 1], k) + Value(mix[|mix| - 1], k)
  }

  /**
   * `Math.round(s / n)` for a non-negative sum: the integer nearest to s/n,
   * a half rounding up. The source rounds the double nearest to s/n, which is
   * not always s/n itself (350/3 is not a double), but rounds the same way:
   * the error of that double is far below the gap of at least 1/(2n) between
   * s/n and any half-integer other than s/n.
   */
  function RoundedQuotient(s: nat, n: nat): (q: nat)
    requires n > 0
    ensures n * (2 * q - 1) <= 2 * s < n * (2 * q + 1)
  {
    var q := (2 * s + n) / (2 * n);
    assert 2 * s + n == 2 * n * q + (2 * s + n) % (2 * n);
    q
  }

  /** A positive common factor can be cancelled from a strict inequality. */
  lemma {:induction false} CancelFactor(n: int, x: int, y: int)
    requires n > 0 && n * x < n * y
    ensures x < y
  {
  }

  /** Only one integer is within a half of s/n (halves going up): `RoundedQuotient` is that integer. */
  lemma {:induction false} RoundingIsUnique(s: nat, n: nat, q: int)
    requires n > 0
    requires n * (2 * q - 1) <= 2 * s < n * (2 * q + 1)
    ensures q == RoundedQuotient(s, n)
  {
    var p: int := RoundedQuotient(s, n);
    CancelFactor(n, 2 * q - 1, 2 * p + 1);
    CancelFactor(n, 2 * p - 1, 2 * q + 1);
  }

  /** The rounded mean of values in [0, 255] is again in [0, 255]. */
  lemma {:induction false} RoundedMeanIsChannel(s: nat, n: nat)
    requires n > 0 && s <= 255 * n
    ensures RoundedQuotient(s, n) <= 255
  {
    var q: int := RoundedQuotient(s, n);
    CancelFactor(n, 2 * q - 1, 511);
  }

  /** `v` is the rounded mean of channel `k` over a non-empty mix: within a half of the exact mean, halves going up. */
  predicate IsRoundedMean(mix: seq<Color>, k: Component, v: int)
  {
    |mix| * (2 * v - 1) <= 2 * Total(mix, k) < |mix| * (2 * v + 1)
  }

  function MeanChannel(mix: seq<Color>, k: Component): (c: Channel)
    requires mix != []
    ensures IsRoundedMean(mix, k, c)
  {
    RoundedMeanIsChannel(Total(mix, k), |mix|);
    RoundedQuotient(Total(mix, k), |mix|)
  }

  /**
   * The bowl colour computed by `calcMix`: nothing for an empty mix, else
   * each channel's sum over the mix divided by its length and rounded.
   */
  function Mean(mix: seq<Color>): (m: Option<Color>)
    ensures m.None? <==> mix == []
    ensures m.Some? ==> IsRoundedMean(mix, Red, m.value.r) && IsRoundedMean(mix, Green, m.value.g)
                        && IsRoundedMean(mix, Blue, m.value.b)
  {
    if mix == [] then None
    else Some(Color(MeanChannel(mix, Red), MeanChannel(mix, Green), MeanChannel(mix, Blue)))
  }

  /**
   * The target pink: strong red, moderate green and blue close to each other.
   * Red is then strictly the strongest channel.
   */
  predicate IsPink(c: Color): (p: bool)
    ensures p ==> c.g < c.r && c.b < c.r
  {
    c.r > 200 && 100 < c.g < 180 && 100 < c.b < 180 && -30 < c.g - c.b < 30
  }

  /** The mix is non-empty and its bowl colour is the target pink. */
  predicate Solves(mix: seq<Color>)
  {
    Mean(mix).Some? && IsPink(Mean(mix).value)
  }

  /** The loop of `calcMix`: the three channel sums of the mix. */
  method SumChannels(mix: seq<Color>) returns (r: nat, g: nat, b: nat)
    ensures r == Total(mix, Red) && g == Total(mix, Green) && b == Total(mix, Blue)
  {
    r, g, b := 0, 0, 0;
    var i := 0;
    while i < |mix|
      invariant 0 <= i <= |mix|
      invariant r == Total(mix[..i], Red) && g == Total(mix[..i], Green) && b == Total(mix[..i], Blue)
    {
      assert mix[..i + 1][..i] == mix[..i];
      r, g, b := r + mix[i].r, g + mix[i].g, b + mix[i].b;
      i := i + 1;
    }
    assert mix[..i] == mix;
  }

  lemma {:induction false} TotalAppend(a: seq<Color>, b: seq<Color>, k: Component)
    ensures Total(a + b, k) == Total(a, k) + Total(b, k)
    decreases |b|
  {
    if b == [] {
      assert a + b == a;
    } else {
      assert (a + b)[..|a + b| - 1] == a + b[..|b| - 1];
      TotalAppend(a, b[..|b| - 1], k);
    }
  }

  /** Taking one sample out of the mix takes its value out of the sum. */
  lemma {:induction false} TotalWithout(b: seq<Color>, i: nat, k: Component)
    requires i < |b|
    ensures Total(b, k) == Total(b[..i] + b[i + 1..], k) + Value(b[i], k)
  {
    assert b == b[..i] + [b[i]] + b[i + 1..];
    TotalAppend(b[..i] + [b[i]], b[i + 1..], k);
    TotalAppend(b[..i], [b[i]], k);
    TotalAppend(b[..i], b[i + 1..], k);
    assert [b[i]][..0] == [];
  }

  lemma {:induction false} MultisetWithout<T>(b: seq<T>, i: nat)
    requires i < |b|
    ensures multiset(b[..i] + b[i + 1..]) == multiset(b) - multiset{b[i]}
  {
    assert b == b[..i] + [b[i]] + b[i + 1..];
  }

  /** The last sample of `a` is somewhere in its rearrangement `b`; what remains of both still matches. */
  lemma {:induction false} MatchLast<T>(a: seq<T>, b: seq<T>) returns (i: nat)
    requires multiset(a) == multiset(b) && a != []
    ensures i < |b| && b[i] == a[|a| - 1]
    ensures multiset(a[..|a| - 1]) == multiset(b[..i] + b[i + 1..])
  {
    var j := |a| - 1;
    assert a[j] in multiset(b);
    i :| 0 <= i < |b| && b[i] == a[j];
    MultisetWithout(a, j);
    MultisetWithout(b, i);
    assert a[..j] + a[j + 1..] == a[..j];
  }

  /** The sum of a channel depends on which samples are in the mix, not on their order. */
  lemma {:induction false} TotalIgnoresOrder(a: seq<Color>, b: seq<Color>, k: Component)
    requires multiset(a) == multiset(b)
    ensures Total(a, k) == Total(b, k)
    decreases |a|
  {
    if a == [] {
      assert |b| == |multiset(b)| == 0;
    } else {
      var i := MatchLast(a, b);
      TotalIgnoresOrder(a[..|a| - 1], b[..i] + b[i + 1..], k);
      TotalWithout(b, i, k);
    }
  }

  /** Recomputing from the whole mix makes the bowl colour independent of drop order. */
  lemma {:induction false} MeanIgnoresOrder(a: seq<Color>, b: seq<Color>)
    requires multiset(a) == multiset(b)
    ensures Mean(a) == Mean(b)
  {
    assert |a| == |multiset(a)| == |multiset(b)| == |b|;
    TotalIgnoresOrder(a, b, Red);
    TotalIgnoresOrder(a, b, Green);
    TotalIgnoresOrder(a, b, Blue);
  }

  lemma {:induction false} TotalOfRepeated(c: Color, n: nat, k: Component)
    ensures Total(seq(n, _ => c), k) == n * Value(c, k)
  {
    if n > 0 {
      assert seq(n, _ => c)[..n - 1] == seq(n - 1, _ => c);
      TotalOfRepeated(c, n - 1, k);
    }
  }

  /** Dropping the same colour any number of times gives exactly that colour. */
  lemma {:induction false} MeanOfRepeated(c: Color, n: nat)
    requires n > 0
    ensures Mean(seq(n, _ => c)) == Some(c)
  {
    MeanChannelOfRepeated(c, n, Red);
    MeanChannelOfRepeated(c, n, Green);
    MeanChannelOfRepeated(c, n, Blue);
  }

  lemma {:induction false} MeanChannelOfRepeated(c: Color, n: nat, k: Component)
    requires n > 0
    ensures MeanChannel(seq(n, _ => c), k) == Value(c, k)
  {
    TotalOfRepeated(c, n, k);
    RoundingIsUnique(Total(seq(n, _ => c), k), n, Value(c, k));
  }

  /** Pure red with two pale pinks averages to (255, 117, 100): blue is not above 100, so no win. */
  lemma {:induction false} NearMissExample()
    ensures Mean([Color(255, 0, 0), Color(255, 200, 150), Color(255, 150, 150)]) == Some(Color(255, 117, 100))
    ensures !Solves([Color(255, 0, 0), Color(255, 200, 150), Color(255, 150, 150)])
  {
    var mix := [Color(255, 0, 0), Color(255, 200, 150), Color(255, 150, 150)];
    assert Total(mix, Red) == 765 && Total(mix, Green) == 350 && Total(mix, Blue) == 300;
    RoundingIsUnique(765, 3, 255);
    RoundingIsUnique(350, 3, 117);
    RoundingIsUnique(300, 3, 100);
  }

  /** Two samples averaging to (220, 140, 145) solve the puzzle. */
  lemma {:induction false} WinningExample()
    ensures Mean([Color(255, 130, 140), Color(185, 150, 150)]) == Some(Color(220, 140, 145))
    ensures Solves([Color(255, 130, 140), Color(185, 150, 150)])
  {
    var mix := [Color(255, 130, 140), Color(185, 150, 150)];
    assert Total(mix, Red) == 440 && Total(mix, Green) == 280 && Total(mix, Blue) == 290;
    RoundingIsUnique(440, 2, 220);
    RoundingIsUnique(280, 2, 140);
    RoundingIsUnique(290, 2, 145);
  }

  /** The mixing bowl of `setupPuzzle1` with the shared mix `state.p1Mix`. */
  class MixPuzzle {
    const stage: Progression.Stage
    /** `state.p1Mix`: the samples dropped since the last reset, oldest first. */
    var mix: seq<Color>
    /** The bowl's background colour; `None` is transparent with the hint shown. */
    var shown: Option<Color>
    /** False once the puzzle area no longer takes pointer events. */
    var enabled: bool

    /** The bowl shows the mean of the mix, and the puzzle is switched off only by a win. */
    ghost predicate Valid()
      reads this
    {
      shown == Mean(mix) && (!enabled ==> Solves(mix))
    }

    constructor (stage: Progression.Stage)
      ensures Valid() && this.stage == stage
      ensures mix == [] && shown == None && enabled
    {
      this.stage := stage;
      mix := [];
      shown := None;
      enabled := true;
    }

    /**
     * The bowl's drop handler: a non-empty payload is appended to the mix and
     * `calcMix` runs. A pink mean switches the puzzle off and unlocks ring 1,
     * leading to panel "p2-text".
     */
    method Drop(sample: Option<Color>)
      requires Valid() && stage.Valid()
      modifies this, stage
      ensures Valid() && stage.Valid()
      ensures mix == if old(enabled) && sample.Some? then old(mix) + [sample.value] else old(mix)
      ensures enabled == (old(enabled) && !(sample.Some? && Solves(mix)))
      ensures var won := old(enabled) && sample.Some? && Solves(mix);
              && stage.unlocked == old(stage.unlocked) + (if won then {1} else {})
              && stage.scheduled == old(stage.scheduled) + (if won then ["p2-text"] else [])
      ensures stage.active == old(stage.active) && stage.showing == old(stage.showing)
    {
      if enabled && sample.Some? {
        mix := mix + [sample.value];
        CalcMix();
      }
    }

    /** `calcMix`: recolours the bowl from the whole mix and checks for the target pink. */
    method CalcMix()
      requires stage.Valid() && enabled
      modifies this, stage
      ensures stage.Valid()
      ensures mix == old(mix)
      ensures mix == [] ==> shown == old(shown) && enabled
      ensures mix != [] ==> shown == Mean(mix) && enabled == !Solves(mix)
      ensures stage.unlocked == old(stage.unlocked) + (if Solves(mix) then {1} else {})
      ensures stage.scheduled == old(stage.scheduled) + (if Solves(mix) then ["p2-text"] else [])
      ensures stage.active == old(stage.active) && stage.showing == old(stage.showing)
    {
      if mix == [] {
        return;
      }
      var r, g, b := SumChannels(mix);
      var n := |mix|;
      RoundedMeanIsChannel(r, n);
      RoundedMeanIsChannel(g, n);
      RoundedMeanIsChannel(b, n);
      var c := Color(RoundedQuotient(r, n), RoundedQuotient(g, n), RoundedQuotient(b, n));
      shown := Some(c);
      if IsPink(c) {
        enabled := false;
        stage.UnlockRing(1, "p2-text");
      }
    }

    /** The reset button: the mix is emptied and the bowl shows no colour. */
    method Reset()
      requires Valid()
      modifies this
      ensures Valid()
      ensures mix == (if old(enabled) then [] else old(mix))
      ensures enabled == old(enabled)
    {
      if enabled {
        mix := [];
        shown := None;
      }
    }
  }
}
