/** The multi-stream generator of lib/rngs.c: 256 seeds stepped by Schrage's
    overflow-free multiplication.  The clock reading and the numbers typed at the
    prompt are parameters. */
module Rngs {
  import opened Lehmer

  const DEFAULT := 123456789
  const CHECK := 399268537

  predicate InRange(x: int) {
    0 < x < MODULUS
  }

  /** A generator state the library may draw from. */
  predicate Drawable(seed: seq<int>, stream: int, initialized: bool) {
    && |seed| == STREAMS && 0 <= stream < STREAMS
    && (initialized ==> forall j :: 0 <= j < STREAMS ==> InRange(seed[j]))
    && (!initialized ==> stream == 0 && InRange(seed[0]))
  }

  /** Schrage's split of a * x with quotient MODULUS / a and remainder MODULUS % a. */
  function Split(a: nat, x: nat): int
    requires a > 0 && MODULUS / a > 0
  {
    a * (x % (MODULUS / a)) - MODULUS % a * (x / (MODULUS / a))
  }

  /** For both multipliers the split fits in (-MODULUS, MODULUS), is never 0, and
      corrected by MODULUS when it is not positive equals a * x mod MODULUS. */
  lemma Schrage(a: nat, x: int)
    requires a == MULTIPLIER || a == JUMP_MULTIPLIER
    requires InRange(x)
    ensures -MODULUS < Split(a, x) < MODULUS && Split(a, x) != 0
    ensures (if Split(a, x) > 0 then Split(a, x) else Split(a, x) + MODULUS) == Mul(a, x)
    ensures InRange(Mul(a, x))
  {
    hide Draws, Power;
    if a == MULTIPLIER {
      NonzeroProduct(a, x);
    } else {
      JumpIsDraws(x, 16735564 / 2);
      DrawsInRange(x, 16735564 / 2);
    }
    SplitProduct(a, x);
    SplitIsRemainder(a * x, x / (MODULUS / a), Split(a, x));
  }

  lemma SplitProduct(a: nat, x: int)
    requires a == MULTIPLIER || a == JUMP_MULTIPLIER
    requires InRange(x)
    ensures -MODULUS < Split(a, x) < MODULUS
    ensures a * x == MODULUS * (x / (MODULUS / a)) + Split(a, x)
  {
    if a == MULTIPLIER {
      var k, m := x / 44488, x % 44488;
      assert 48271 * x == 2147483647 * k + (48271 * m - 3399 * k);
    } else {
      var k, m := x / 93674, x % 93674;
      assert 22925 * x == 2147483647 * k + (22925 * m - 7197 * k);
    }
  }

  lemma SplitIsRemainder(p: int, k: int, t: int)
    requires p == MODULUS * k + t && -MODULUS < t < MODULUS && p % MODULUS > 0
    ensures t != 0 && (if t > 0 then t else t + MODULUS) == p % MODULUS
  {
  }

  predicate AnyValid(typed: seq<int>) {
    exists i :: 0 <= i < |typed| && InRange(typed[i])
  }

  /** The first acceptable number typed at the prompt. */
  function FirstValid(typed: seq<int>): (x: int)
    requires AnyValid(typed)
    ensures InRange(x) && x in typed
  {
    if InRange(typed[0]) then typed[0] else FirstValid(typed[1..])
  }

  /** Whether PutSeed falls through to the prompt. */
  predicate Prompts(x: int, clock: nat) {
    if x > 0 then x % MODULUS == 0 else x == 0 || clock % MODULUS == 0
  }

  /** The seed PutSeed installs: x itself when positive (reduced when too large),
      the clock when negative, and the prompt's answer for every 0. */
  function Supplied(x: int, clock: nat, typed: seq<int>): (s: int)
    requires Prompts(x, clock) ==> AnyValid(typed)
    ensures InRange(s)
    ensures InRange(x) ==> s == x
  {
    if Prompts(x, clock) then FirstValid(typed)
    else if x > 0 then x % MODULUS
    else clock % MODULUS
  }

  /** The seeds PlantSeeds leaves: stream j is j * JUMP draws after stream 0. */
  predicate Planted(seed: seq<int>, first: int) {
    && InRange(first) && |seed| == STREAMS
    && forall j :: 0 <= j < STREAMS ==> seed[j] == Draws(first, j * JUMP)
  }

  lemma PlantedIsDrawable(seed: seq<int>, first: int, stream: int)
    requires Planted(seed, first) && 0 <= stream < STREAMS
    ensures Drawable(seed, stream, true)
  {
    forall j | 0 <= j < STREAMS
      ensures InRange(seed[j])
    {
      DrawsInRange(first, j * JUMP);
    }
  }

  /** Planted streams: two draws, at most JUMP each into their streams, see the same
      state only if they are the same draw of the same stream. */
  lemma PlantedStreamsDisjoint(seed: seq<int>, first: int, s1: nat, i1: nat, s2: nat, i2: nat)
    requires Planted(seed, first)
    requires s1 < STREAMS && s2 < STREAMS && i1 < JUMP && i2 < JUMP
    ensures seed[s1] >= 0 && seed[s2] >= 0
    ensures Draws(seed[s1], i1) == Draws(seed[s2], i2) <==> s1 == s2 && i1 == i2
  {
    if s1 != s2 || i1 != i2 {
      StreamsDisjoint(first, s1, i1, s2, i2);
    }
  }

  lemma NextStream(first: int, j: nat)
    requires InRange(first)
    ensures InRange(Draws(first, j * JUMP))
    ensures Draws(first, (j + 1) * JUMP) == Mul(JUMP_MULTIPLIER, Draws(first, j * JUMP))
  {
    var e := 16735564 / 2;
    assert (j + 1) * JUMP == j * JUMP + e;
    DrawsInRange(first, j * JUMP);
    DrawsAdd(first, j * JUMP, e);
    JumpIsDraws(Draws(first, j * JUMP), e);
  }

  lemma NextDraw(x: nat, k: nat)
    ensures Draws(x, k + 1) == Mul(MULTIPLIER, Draws(x, k))
  {
  }

  class Generator {
    const seed: array<int>
    var stream: int
    var initialized: bool

    ghost predicate Valid()
      reads this, seed
    {
      Drawable(seed[..], stream, initialized)
    }

    constructor ()
      ensures Valid() && fresh(seed)
      ensures stream == 0 && !initialized && seed[0] == DEFAULT
    {
      seed := new int[STREAMS](i => if i == 0 then DEFAULT else 0);
      stream := 0;
      initialized := false;
    }

    method Random() returns (u: real)
      requires Valid()
      modifies seed
      ensures Valid()
      ensures seed[..] == old(seed[..])[stream := Mul(MULTIPLIER, old(seed[stream]))]
      ensures u == seed[stream] as real / MODULUS as real && 0.0 < u < 1.0
    {
      var q := MODULUS / MULTIPLIER;
      var r := MODULUS % MULTIPLIER;
      Schrage(MULTIPLIER, seed[stream]);
      var t := MULTIPLIER * (seed[stream] % q) - r * (seed[stream] / q);
      if t > 0 {
        seed[stream] := t;
      } else {
        seed[stream] := t + MODULUS;
      }
      u := seed[stream] as real / MODULUS as real;
    }

    method PutSeed(x: int, clock: nat, typed: seq<int>)
      requires seed.Length == STREAMS && 0 <= stream < STREAMS
      requires Prompts(x, clock) ==> AnyValid(typed)
      modifies seed
      ensures seed[..] == old(seed[..])[stream := Supplied(x, clock, typed)]
      ensures old(Valid()) ==> Valid()
    {
      var y := x;
      if y > 0 {
        y := y % MODULUS;
      }
      if y < 0 {
        y := clock % MODULUS;
      }
      if y == 0 {
        var ok := false;
        var entries := typed;
        while !ok
          invariant ok ==> y == FirstValid(typed)
          invariant !ok ==> AnyValid(entries) && FirstValid(entries) == FirstValid(typed)
          decreases !ok, |entries|
        {
          y := entries[0];
          ok := 0 < y < MODULUS;
          if !ok {
            assert AnyValid(entries[1..]) by {
              var i :| 0 <= i < |entries| && InRange(entries[i]);
              assert entries[1..][i - 1] == entries[i];
            }
          }
          entries := entries[1..];
        }
      }
      seed[stream] := y;
    }

    method GetSeed() returns (x: int)
      requires Valid()
      ensures x == seed[stream] && InRange(x)
    {
      x := seed[stream];
    }

    method SelectStream(index: int)
      requires seed.Length == STREAMS
      requires !initialized ==> InRange(seed[0])
      modifies this, seed
      ensures stream == index % 0x1_0000_0000 % STREAMS
      ensures old(initialized) || stream == 0 ==>
                seed[..] == old(seed[..]) && initialized == old(initialized)
      ensures !(old(initialized) || stream == 0) ==> initialized && Planted(seed[..], DEFAULT)
      ensures old(Valid()) ==> Valid()
      decreases if initialized then 0 else 2
    {
      stream := index % 0x1_0000_0000 % STREAMS;
      if !initialized && stream != 0 {
        PlantSeeds(DEFAULT, 0, []);
      }
    }

    method PlantSeeds(x: int, clock: nat, typed: seq<int>)
      requires seed.Length == STREAMS && 0 <= stream < STREAMS
      requires Prompts(x, clock) ==> AnyValid(typed)
      modifies this, seed
      ensures stream == old(stream) && initialized
      ensures Planted(seed[..], Supplied(x, clock, typed))
      ensures Valid()
      decreases 1
    {
      hide Draws;
      initialized := true;
      var q := MODULUS / JUMP_MULTIPLIER;
      var r := MODULUS % JUMP_MULTIPLIER;
      var s := stream;
      SelectStream(0);
      PutSeed(x, clock, typed);
      stream := s;
      ghost var first := Supplied(x, clock, typed);
      NoDraw(first);
      assert seed[..][0] == first;
      var j := 1;
      while j < STREAMS
        invariant 1 <= j <= STREAMS && stream == s && initialized
        invariant forall i :: 0 <= i < j ==> seed[i] == Draws(first, i * JUMP)
      {
        NextStream(first, j - 1);
        Schrage(JUMP_MULTIPLIER, seed[j - 1]);
        assert seed[j - 1] == Draws(first, (j - 1) * JUMP);
        var y := JUMP_MULTIPLIER * (seed[j - 1] % q) - r * (seed[j - 1] / q);
        if y > 0 {
          seed[j] := y;
        } else {
          seed[j] := y + MODULUS;
        }
        j := j + 1;
      }
      PlantedIsDrawable(seed[..], first, stream);
    }

    /** The library's self-test succeeds from every valid state. */
    method TestRandom() returns (ok: bool)
      requires Valid()
      modifies this, seed
      ensures ok && Valid()
    {
      hide Draws;
      SelectStream(0);
      PutSeed(1, 0, []);
      var i := 0;
      ghost var one := seed[0];
      NoDraw(one);
      while i < 10000
        invariant 0 <= i <= 10000
        invariant Valid() && stream == 0 && seed[0] == Draws(one, i)
      {
        var u := Random();
        NextDraw(one, i);
        i := i + 1;
      }
      CheckDraws(one, i);
      var x := GetSeed();
      ok := x == CHECK;
      SelectStream(1);
      PlantSeeds(1, 0, []);
      x := GetSeed();
      FirstJump(1);
      ok := ok && x == JUMP_MULTIPLIER;
    }
  }

  lemma NoDraw(x: nat)
    ensures Draws(x, 0) == x
  {
  }

  lemma CheckDraws(one: nat, k: nat)
    requires one == 1 && 2 * k == 20000
    ensures Draws(one, k) == CHECK
  {
    hide Draws, Power;
    DrawsAsPower(one, k);
    CheckPower(k);
  }

  lemma FirstJump(j: nat)
    requires j == 1
    ensures Draws(1, j * JUMP) == JUMP_MULTIPLIER
  {
    hide Draws;
    NextStream(1, 0);
    NoDraw(1);
  }
}
