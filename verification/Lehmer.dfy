/** The Lehmer generator x -> MULTIPLIER * x mod MODULUS as number theory:
    powers modulo MODULUS, the order of the multiplier, the full period, and
    the distance between planted streams.  Everything is exact integers.

    Large exponents are parameters pinned by a linear equation: n with n + 1 == MODULUS is
    MODULUS - 1, and e with 2 * e == 16735564 is JUMP.  Written as literals they would let
    the verifier unfold Power and Draws that many times. */
module Lehmer {

  const MODULUS := 2147483647
  const MULTIPLIER := 48271
  const JUMP_MULTIPLIER := 22925
  const JUMP := 8367782
  const STREAMS := 256

  /** Multiplication modulo MODULUS. */
  function Mul(a: nat, b: nat): (r: nat)
    ensures r < MODULUS
  {
    a * b % MODULUS
  }

  /** b to the e-th, modulo MODULUS. */
  function Power(b: nat, e: nat): (r: nat)
    ensures r < MODULUS
    decreases e, b
  {
    if e == 0 then 1 else Mul(b, Power(b, e - 1))
  }

  /** The state after k draws from state x. */
  function Draws(x: nat, k: nat): nat
    decreases k, x
  {
    if k == 0 then x else Mul(MULTIPLIER, Draws(x, k - 1))
  }

  // ------------------------------------------------ modular arithmetic

  lemma ModulusMultiple(x: int, k: int)
    ensures (x + MODULUS * k) % MODULUS == x % MODULUS
  {
  }

  lemma MulReduces(a: nat, b: nat, c: nat)
    ensures Mul(Mul(a, b), c) == a * b * c % MODULUS
  {
    var k := a * b / MODULUS;
    var r := a * b % MODULUS;
    assert a * b == r + MODULUS * k;
    assert a * b * c == r * c + MODULUS * (k * c) by {
      assert a * b * c == (r + MODULUS * k) * c;
    }
    ModulusMultiple(r * c, k * c);
  }

  lemma MulAssociates(a: nat, b: nat, c: nat)
    ensures Mul(Mul(a, b), c) == Mul(a, Mul(b, c))
  {
    MulReduces(a, b, c);
    MulReduces(b, c, a);
    assert b * c * a == a * b * c;
    assert Mul(Mul(b, c), a) == Mul(a, Mul(b, c)) by {
      assert Mul(b, c) * a == a * Mul(b, c);
    }
  }

  lemma MulCommutes(a: nat, b: nat)
    ensures Mul(a, b) == Mul(b, a)
  {
    assert a * b == b * a;
  }

  lemma {:induction false} PowerAdd(b: nat, e: nat, f: nat)
    ensures Power(b, e + f) == Mul(Power(b, e), Power(b, f))
  {
    if e > 0 {
      PowerAdd(b, e - 1, f);
      MulAssociates(b, Power(b, e - 1), Power(b, f));
    }
  }

  lemma {:induction false} PowerOfOne(b: nat, e: nat, k: nat)
    requires Power(b, e) == 1
    ensures Power(b, e * k) == 1
  {
    hide Power, Mul;
    if k == 0 {
      PowerToZero(b, e * k);
    } else {
      PowerOfOne(b, e, k - 1);
      OneMore(e, k);
      OnceMore(b, e, e * (k - 1));
    }
  }

  lemma PowerToZero(b: nat, e: nat)
    requires e == 0
    ensures Power(b, e) == 1
  {
  }

  lemma OnceMore(b: nat, e: nat, f: nat)
    requires Power(b, e) == 1 && Power(b, f) == 1
    ensures Power(b, e + f) == 1
  {
    hide Power;
    PowerAdd(b, e, f);
  }

  lemma OneMore(e: nat, k: nat)
    requires k > 0
    ensures e * k == e + e * (k - 1) && e * (k - 1) >= 0
  {
  }

  /** k draws multiply the state by the k-th power of the multiplier. */
  lemma {:induction false} DrawsAsPower(x: nat, k: nat)
    requires x < MODULUS
    ensures Draws(x, k) == Mul(Power(MULTIPLIER, k), x)
  {
    if k > 0 {
      DrawsAsPower(x, k - 1);
      MulAssociates(MULTIPLIER, Power(MULTIPLIER, k - 1), x);
    }
  }

  lemma {:induction false} DrawsAdd(x: nat, i: nat, j: nat)
    ensures Draws(Draws(x, i), j) == Draws(x, i + j)
  {
    if j > 0 {
      DrawsAdd(x, i, j - 1);
    }
  }

  // ------------------------------- certificates: one hexadecimal digit a step

  /** r is the e-th power of the multiplier. */
  ghost predicate IsPower(e: nat, r: nat) {
    Power(MULTIPLIER, e) == r
  }

  lemma NextPower(e: nat, r: nat, s: nat)
    requires IsPower(e, r) && 48271 * r % MODULUS == s
    ensures IsPower(e + 1, s)
  {
  }

  lemma PowerZero()
    ensures IsPower(0, 1)
  {
  }

  lemma {:induction false} DigitsTo5()
    ensures IsPower(0, 1)
    ensures IsPower(1, 48271)
    ensures IsPower(2, 182605794)
    ensures IsPower(3, 1291394886)
    ensures IsPower(4, 1914720637)
    ensures IsPower(5, 2078669041)
  {
    hide Power;
    PowerZero();
    NextPower(0, 1, 48271);
    NextPower(1, 48271, 182605794);
    NextPower(2, 182605794, 1291394886);
    NextPower(3, 1291394886, 1914720637);
    NextPower(4, 1914720637, 2078669041);
  }

  lemma {:induction false} DigitsTo10()
    ensures IsPower(6, 407355683)
    ensures IsPower(7, 1105902161)
    ensures IsPower(8, 854716505)
    ensures IsPower(9, 564586691)
    ensures IsPower(10, 1596680831)
  {
    hide Power;
    DigitsTo5();
    NextPower(5, 2078669041, 407355683);
    NextPower(6, 407355683, 1105902161);
    NextPower(7, 1105902161, 854716505);
    NextPower(8, 854716505, 564586691);
    NextPower(9, 564586691, 1596680831);
  }

  lemma {:induction false} DigitsTo15()
    ensures IsPower(11, 192302371)
    ensures IsPower(12, 1203428207)
    ensures IsPower(13, 1250328747)
    ensures IsPower(14, 1738531149)
    ensures IsPower(15, 1271135913)
  {
    hide Power;
    DigitsTo10();
    NextPower(10, 1596680831, 192302371);
    NextPower(11, 192302371, 1203428207);
    NextPower(12, 1203428207, 1250328747);
    NextPower(13, 1250328747, 1738531149);
    NextPower(14, 1738531149, 1271135913);
  }

  lemma Digits()
    ensures IsPower(0, 1)
    ensures IsPower(1, 48271)
    ensures IsPower(2, 182605794)
    ensures IsPower(3, 1291394886)
    ensures IsPower(4, 1914720637)
    ensures IsPower(5, 2078669041)
    ensures IsPower(6, 407355683)
    ensures IsPower(7, 1105902161)
    ensures IsPower(8, 854716505)
    ensures IsPower(9, 564586691)
    ensures IsPower(10, 1596680831)
    ensures IsPower(11, 192302371)
    ensures IsPower(12, 1203428207)
    ensures IsPower(13, 1250328747)
    ensures IsPower(14, 1738531149)
    ensures IsPower(15, 1271135913)
  {
    hide Power;
    DigitsTo5();
    DigitsTo10();
    DigitsTo15();
  }

  /** One hexadecimal digit of an exponent: four squarings and a product. */
  lemma HexStep(h: nat, r: nat, r2: nat, r4: nat, r8: nat, r16: nat, d: nat, c: nat, s: nat)
    requires IsPower(h, r) && IsPower(d, c)
    requires r * r % MODULUS == r2 && r2 * r2 % MODULUS == r4
    requires r4 * r4 % MODULUS == r8 && r8 * r8 % MODULUS == r16 && r16 * c % MODULUS == s
    ensures IsPower(16 * h + d, s)
  {
    PowerAdd(MULTIPLIER, h, h);
    PowerAdd(MULTIPLIER, 2 * h, 2 * h);
    PowerAdd(MULTIPLIER, 4 * h, 4 * h);
    PowerAdd(MULTIPLIER, 8 * h, 8 * h);
    PowerAdd(MULTIPLIER, 16 * h, d);
  }

  lemma {:induction false} Cofactor2(e: nat)
    requires 2 * e + 1 == MODULUS
    ensures Power(MULTIPLIER, e) == MODULUS - 1
  {
    hide Power;
    Digits();
    assert IsPower(63, 1500063655) by { HexStep(3, 1291394886, 407355683, 1203428207, 1402304087, 412013968, 15, 1271135913, 1500063655); }
    assert IsPower(1023, 170153285) by { HexStep(63, 1500063655, 1771495544, 411857501, 1032075974, 591323586, 15, 1271135913, 170153285); }
    assert IsPower(16383, 1568284333) by { HexStep(1023, 170153285, 2090638395, 1754276841, 278161085, 367586630, 15, 1271135913, 1568284333); }
    assert IsPower(262143, 988416090) by { HexStep(16383, 1568284333, 919923199, 263664537, 1058162622, 1306980927, 15, 1271135913, 988416090); }
    assert IsPower(4194303, 456219904) by { HexStep(262143, 988416090, 669745948, 218161225, 802292321, 386349840, 15, 1271135913, 456219904); }
    assert IsPower(67108863, 894510697) by { HexStep(4194303, 456219904, 1099949637, 1003148861, 92031351, 1721320380, 15, 1271135913, 894510697); }
    assert IsPower(1073741823, 2147483646) by { HexStep(67108863, 894510697, 1684717138, 137163945, 342902256, 1214167381, 15, 1271135913, 2147483646); }
  }

  lemma {:induction false} Cofactor3(e: nat)
    requires 3 * e + 1 == MODULUS
    ensures Power(MULTIPLIER, e) != 1
  {
    hide Power;
    Digits();
    assert IsPower(42, 928270262) by { HexStep(2, 182605794, 1914720637, 854716505, 1098894339, 890442452, 10, 1596680831, 928270262); }
    assert IsPower(682, 1305230128) by { HexStep(42, 928270262, 1869683330, 109656047, 509346169, 1915588099, 10, 1596680831, 1305230128); }
    assert IsPower(10922, 1544071328) by { HexStep(682, 1305230128, 1903699474, 2132798787, 1247838801, 2119056658, 10, 1596680831, 1544071328); }
    assert IsPower(174762, 655141825) by { HexStep(10922, 1544071328, 993974012, 436622618, 1724701062, 16004265, 10, 1596680831, 655141825); }
    assert IsPower(2796202, 606617483) by { HexStep(174762, 655141825, 1732059499, 1587495347, 1730744781, 2114651132, 10, 1596680831, 606617483); }
    assert IsPower(44739242, 1863286692) by { HexStep(2796202, 606617483, 225207775, 1142560958, 490204320, 1310905255, 10, 1596680831, 1863286692); }
    assert IsPower(715827882, 634005911) by { HexStep(44739242, 1863286692, 1295582289, 1421562936, 496745714, 861512670, 10, 1596680831, 634005911); }
  }

  lemma {:induction false} Cofactor7(e: nat)
    requires 7 * e + 1 == MODULUS
    ensures Power(MULTIPLIER, e) != 1
  {
    hide Power;
    Digits();
    assert IsPower(18, 2136927794) by { HexStep(1, 48271, 182605794, 1914720637, 854716505, 1098894339, 2, 182605794, 2136927794); }
    assert IsPower(292, 1280452098) by { HexStep(18, 2136927794, 1696049367, 1003765604, 1095330162, 1405054966, 4, 1914720637, 1280452098); }
    assert IsPower(4681, 301988972) by { HexStep(292, 1280452098, 1013864927, 2142806948, 1540075553, 89671378, 9, 564586691, 301988972); }
    assert IsPower(74898, 859144287) by { HexStep(4681, 301988972, 848612494, 866093965, 1745507770, 1137563464, 2, 182605794, 859144287); }
    assert IsPower(1198372, 1542651712) by { HexStep(74898, 859144287, 1446108137, 841321726, 1522019630, 308624591, 4, 1914720637, 1542651712); }
    assert IsPower(19173961, 1483188779) by { HexStep(1198372, 1542651712, 1435361342, 770152984, 1955028391, 712682456, 9, 564586691, 1483188779); }
    assert IsPower(306783378, 1752599774) by { HexStep(19173961, 1483188779, 751173929, 1930865576, 1265934006, 131087778, 2, 182605794, 1752599774); }
  }

  lemma {:induction false} Cofactor11(e: nat)
    requires 11 * e + 1 == MODULUS
    ensures Power(MULTIPLIER, e) != 1
  {
    hide Power;
    Digits();
    assert IsPower(186, 2047876379) by { HexStep(11, 192302371, 914937185, 1814467857, 1262088783, 1119712913, 10, 1596680831, 2047876379); }
    assert IsPower(2978, 725067885) by { HexStep(186, 2047876379, 1461049948, 1352173984, 1790707151, 1294613297, 2, 182605794, 725067885); }
    assert IsPower(47662, 1306343060) by { HexStep(2978, 725067885, 2050800581, 1187858522, 1405128704, 130866289, 14, 1738531149, 1306343060); }
    assert IsPower(762600, 703036765) by { HexStep(47662, 1306343060, 2122869128, 689305957, 1152891235, 1320057079, 8, 854716505, 703036765); }
    assert IsPower(12201611, 561296188) by { HexStep(762600, 703036765, 1391583935, 1177779743, 419229290, 597299480, 11, 192302371, 561296188); }
    assert IsPower(195225786, 219454379) by { HexStep(12201611, 561296188, 1822133472, 1089273538, 1411661971, 1760654190, 10, 1596680831, 219454379); }
  }

  lemma {:induction false} Cofactor31(e: nat)
    requires 31 * e + 1 == MODULUS
    ensures Power(MULTIPLIER, e) != 1
  {
    hide Power;
    Digits();
    assert IsPower(66, 163677341) by { HexStep(4, 1914720637, 854716505, 1098894339, 890442452, 719080959, 2, 182605794, 163677341); }
    assert IsPower(1057, 543336597) by { HexStep(66, 163677341, 1143645057, 990831342, 1785778226, 362055173, 1, 48271, 543336597); }
    assert IsPower(16912, 1799454162) by { HexStep(1057, 543336597, 1229555470, 1932643596, 1384106082, 1799454162, 0, 1, 1799454162); }
    assert IsPower(270600, 1179955738) by { HexStep(16912, 1799454162, 140140578, 1552748631, 1271685252, 2074479486, 8, 854716505, 1179955738); }
    assert IsPower(4329604, 1088033789) by { HexStep(270600, 1179955738, 1000146299, 113216198, 654910663, 1227761089, 4, 1914720637, 1088033789); }
    assert IsPower(69273666, 64) by { HexStep(4329604, 1088033789, 760156050, 18364172, 1981320704, 1538869894, 2, 182605794, 64); }
  }

  lemma {:induction false} Cofactor151(e: nat)
    requires 151 * e + 1 == MODULUS
    ensures Power(MULTIPLIER, e) != 1
  {
    hide Power;
    Digits();
    assert IsPower(217, 374559665) by { HexStep(13, 1250328747, 2064876628, 389431516, 2037666653, 78366493, 9, 564586691, 374559665); }
    assert IsPower(3472, 700487619) by { HexStep(217, 374559665, 1342643044, 879698354, 575015841, 700487619, 0, 1, 700487619); }
    assert IsPower(55553, 1488473090) by { HexStep(3472, 700487619, 35004810, 1881510723, 1750454342, 754548510, 1, 48271, 1488473090); }
    assert IsPower(888859, 152565537) by { HexStep(55553, 1488473090, 1995416033, 50223832, 1156481671, 1387301454, 11, 192302371, 152565537); }
    assert IsPower(14221746, 556613938) by { HexStep(888859, 152565537, 690230654, 1987514868, 264128622, 2109063964, 2, 182605794, 556613938); }
  }

  lemma {:induction false} Cofactor331(e: nat)
    requires 331 * e + 1 == MODULUS
    ensures Power(MULTIPLIER, e) != 1
  {
    hide Power;
    Digits();
    assert IsPower(98, 206008598) by { HexStep(6, 407355683, 1203428207, 1402304087, 412013968, 580853881, 2, 182605794, 206008598); }
    assert IsPower(1583, 467005884) by { HexStep(98, 206008598, 2102786807, 1321697853, 429154363, 1937829678, 15, 1271135913, 467005884); }
    assert IsPower(25343, 1939257681) by { HexStep(1583, 467005884, 1428760995, 1403278930, 416490804, 502308048, 15, 1271135913, 1939257681); }
    assert IsPower(405491, 1151617717) by { HexStep(25343, 1939257681, 1601417754, 309481366, 352221276, 1922556050, 3, 1291394886, 1151617717); }
    assert IsPower(6487866, 1627574666) by { HexStep(405491, 1151617717, 444892729, 1252399213, 1597604398, 629552983, 10, 1596680831, 1627574666); }
  }

  lemma {:induction false} JumpPower(e: nat)
    requires 2 * e == 16735564
    ensures Power(MULTIPLIER, e) == 22925
  {
    hide Power;
    Digits();
    assert IsPower(127, 1210064531) by { HexStep(7, 1105902161, 1738531149, 1842513780, 674592135, 477900025, 15, 1271135913, 1210064531); }
    assert IsPower(2042, 1371184843) by { HexStep(127, 1210064531, 17494750, 465741119, 774605621, 740815831, 10, 1596680831, 1371184843); }
    assert IsPower(32686, 1039366565) by { HexStep(2042, 1371184843, 1269462536, 1439040915, 1996309545, 97302877, 14, 1738531149, 1039366565); }
    assert IsPower(522986, 1158799956) by { HexStep(32686, 1039366565, 1762083690, 196776680, 1048613747, 443700648, 10, 1596680831, 1158799956); }
    assert IsPower(8367782, 22925) by { HexStep(522986, 1158799956, 1149613586, 1692415588, 705574091, 2062052657, 6, 407355683, 22925); }
  }

  lemma {:induction false} CheckPower(e: nat)
    requires 2 * e == 20000
    ensures Power(MULTIPLIER, e) == 399268537
  {
    hide Power;
    Digits();
    assert IsPower(39, 1272185027) by { HexStep(2, 182605794, 1914720637, 854716505, 1098894339, 890442452, 7, 1105902161, 1272185027); }
    assert IsPower(625, 605889173) by { HexStep(39, 1272185027, 837051536, 2071152004, 1451777401, 2033250834, 1, 48271, 605889173); }
    assert IsPower(10000, 399268537) by { HexStep(625, 605889173, 1285444814, 1211932242, 1629331733, 399268537, 0, 1, 399268537); }
  }

  // ------------------------------------------------ divisibility

  /** Bezout's identity by Euclid's algorithm. */
  lemma {:induction false} Bezout(a: nat, b: nat) returns (g: nat, u: int, v: int)
    requires a > 0
    ensures g > 0 && u * a + v * b == g && Divides(g, a) && Divides(g, b)
    decreases b
  {
    if b == 0 {
      g, u, v := a, 1, 0;
      assert a == g * 1 && b == g * 0;
    } else {
      var u', v';
      g, u', v' := Bezout(b, a % b);
      var q := a / b;
      assert a == q * b + a % b;
      u, v := v', u' - q * v';
      BezoutStep(a, b, q, a % b, u', v');
      DividesSum(g, b, a % b, q);
    }
  }

  lemma DividesSum(g: nat, b: nat, r: nat, q: nat)
    requires Divides(g, b) && Divides(g, r)
    ensures Divides(g, q * b + r)
  {
    var k: nat :| b == g * k;
    var l: nat :| r == g * l;
    CommonFactor(g, q, k, l);
  }

  lemma BezoutStep(a: int, b: int, q: int, r: int, u: int, v: int)
    requires a == q * b + r
    ensures v * a + (u - q * v) * b == u * b + v * r
  {
    assert v * (q * b + r) == v * (q * b) + v * r;
    assert v * (q * b) == (q * v) * b;
    assert (u - q * v) * b == u * b - (q * v) * b;
  }

  lemma CommonFactor(g: nat, q: nat, k: nat, l: nat)
    ensures q * (g * k) + g * l == g * (q * k + l)
    ensures Divides(g, q * (g * k) + g * l)
  {
    assert q * (g * k) == g * (q * k);
    assert g * (q * k + l) == g * (q * k) + g * l;
  }

  ghost predicate Divides(g: nat, n: nat) {
    exists k: nat :: n == g * k
  }

  ghost predicate Prime(q: nat) {
    q > 1 && forall d: nat :: Divides(d, q) ==> d == 1 || d == q
  }

  /** A prime that does not divide e can be cancelled from q * n when e divides it. */
  lemma CancelPrime(q: nat, e: nat, n: nat)
    requires Prime(q) && Divides(e, q * n) && !Divides(q, e)
    ensures Divides(e, n)
  {
    var g, u, v := Bezout(q, e);
    assert g == 1;
    var k: nat :| q * n == e * k;
    var w := u * k + v * n;
    assert n == e * w by {
      Regroup(u, q, v, e, n, k);
    }
    assert 0 == q * 0;
    if w < 0 {
      Negative(e, w);
    }
  }

  lemma Regroup(u: int, q: int, v: int, e: int, n: int, k: int)
    requires q * n == e * k && u * q + v * e == 1
    ensures n == e * (u * k + v * n)
  {
    assert n == (u * q + v * e) * n == u * (q * n) + v * (e * n);
    assert u * (e * k) == e * (u * k);
    assert v * (e * n) == e * (v * n);
  }

  /** Trial division up to 18 decides every number below 361. */
  lemma TrialDivision(q: nat)
    requires 1 < q < 361
    requires forall d :: 2 <= d <= 18 && d < q ==> q % d != 0
    ensures Prime(q)
  {
    forall d: nat | Divides(d, q)
      ensures d == 1 || d == q
    {
      var k: nat :| q == d * k;
      FactorBounds(d, k);
      if 2 <= d <= 18 && d < q {
        ExactDivision(d, k);
      } else if 2 <= k <= 18 && k < q {
        ExactDivision(k, d);
      }
    }
  }

  /** Of two factors of a number below 361, one is at most 18. */
  lemma FactorBounds(d: nat, k: nat)
    requires 0 < d * k < 361
    ensures d > 0 && k > 0 && d <= d * k && k <= d * k && (d <= 18 || k <= 18)
    ensures d == d * k <==> k == 1
  {
  }

  lemma ExactDivision(d: nat, k: nat)
    requires d > 0
    ensures d * k % d == 0
  {
    var q := d * k / d;
    Distribute(d, k, q);
    SmallMultiple(d, k - q);
  }

  lemma Distribute(d: int, k: int, q: int)
    ensures d * (k - q) == d * k - d * q
  {
  }

  lemma SmallMultiple(d: int, z: int)
    requires 0 <= d * z < d
    ensures z == 0
  {
    if z < 0 {
      Negative(d, z);
    } else if z > 0 {
      AtLeast(d, z);
    }
  }

  lemma FactorsArePrime()
    ensures Prime(2) && Prime(3) && Prime(7) && Prime(11) && Prime(31) && Prime(151) && Prime(331)
  {
    TrialDivision(2);
    TrialDivision(3);
    TrialDivision(7);
    TrialDivision(11);
    TrialDivision(31);
    TrialDivision(151);
    TrialDivision(331);
  }

  /** MODULUS - 1 == 2 * 3 * 3 * 7 * 11 * 31 * 151 * 331, so any divisor above 1
      is divisible by one of the seven primes. */
  lemma PrimeFactor(e: nat, n: nat)
    requires e > 1 && n + 1 == MODULUS && Divides(e, n)
    ensures Divides(2, e) || Divides(3, e) || Divides(7, e) || Divides(11, e)
         || Divides(31, e) || Divides(151, e) || Divides(331, e)
  {
    FactorsArePrime();
    if !Divides(2, e) && !Divides(3, e) && !Divides(7, e) && !Divides(11, e)
       && !Divides(31, e) && !Divides(151, e) && !Divides(331, e) {
      CancelPrime(2, e, n / 2);
      CancelPrime(3, e, n / 6);
      CancelPrime(3, e, n / 18);
      CancelPrime(7, e, n / 126);
      CancelPrime(11, e, n / 1386);
      CancelPrime(31, e, n / 42966);
      CancelPrime(151, e, n / 6487866);
      CancelPrime(331, e, 1);
      assert false;
    }
  }

  // ------------------------------------------------ order and period

  /** If two powers of the multiplier are 1, so is their gcd's. */
  lemma {:induction false} GcdPower(a: nat, b: nat) returns (g: nat)
    requires a > 0 && Power(MULTIPLIER, a) == 1 && Power(MULTIPLIER, b) == 1
    ensures g > 0 && Divides(g, a) && Divides(g, b) && Power(MULTIPLIER, g) == 1
    decreases b
  {
    hide Power;
    if b == 0 {
      g := a;
      assert a == g * 1 && b == g * 0;
    } else {
      var q := a / b;
      assert a == q * b + a % b;
      RemainderPower(b, q, a % b);
      g := GcdPower(b, a % b);
      DividesSum(g, b, a % b, q);
    }
  }

  lemma RemainderPower(b: nat, q: nat, r: nat)
    requires Power(MULTIPLIER, b) == 1 && q * b + r >= 0 && Power(MULTIPLIER, q * b + r) == 1
    ensures Power(MULTIPLIER, r) == 1
  {
    hide Power;
    PowerOfOne(MULTIPLIER, b, q);
    assert q * b == b * q;
    PowerAdd(MULTIPLIER, b * q, r);
    Unit(Power(MULTIPLIER, r));
  }

  /** If a power of the multiplier at a divisor of n / q is 1, so is the one at n / q. */
  lemma CofactorPower(g: nat, e: nat, q: nat, c: nat)
    requires Power(MULTIPLIER, g) == 1 && Divides(q, e) && q > 0 && g * e == q * c
    ensures Power(MULTIPLIER, c) == 1
  {
    hide Power;
    var k: nat :| e == q * k;
    SwapFactors(g, q, k);
    CancelFactor(q, c, g * k);
    PowerOfOne(MULTIPLIER, g, k);
  }

  lemma SwapFactors(g: nat, q: nat, k: nat)
    ensures g * (q * k) == q * (g * k)
  {
  }

  lemma CancelFactor(q: int, a: int, b: int)
    requires q > 0 && q * a == q * b
    ensures a == b
  {
    if a < b {
      Positive(q, b - a);
    } else if b < a {
      Positive(q, a - b);
    }
  }

  lemma Positive(q: int, d: int)
    requires q > 0 && d > 0
    ensures q * d > 0
  {
  }

  lemma Negative(q: int, d: int)
    requires q > 0 && d < 0
    ensures q * d < 0
  {
  }

  lemma AtLeast(q: int, d: int)
    requires q > 0 && d > 0
    ensures q * d >= q
  {
  }

  /** Fermat for the multiplier; n is MODULUS - 1 here and below. */
  lemma FullPower(n: nat)
    requires n + 1 == MODULUS
    ensures Power(MULTIPLIER, n) == 1
  {
    hide Power;
    var h := n / 2;
    Cofactor2(h);
    PowerAdd(MULTIPLIER, h, h);
    assert 2147483646 * 2147483646 % 2147483647 == 1;
  }

  lemma NoCofactorPower(n: nat)
    requires n + 1 == MODULUS
    ensures Power(MULTIPLIER, n / 2) != 1 && Power(MULTIPLIER, n / 3) != 1
    ensures Power(MULTIPLIER, n / 7) != 1 && Power(MULTIPLIER, n / 11) != 1
    ensures Power(MULTIPLIER, n / 31) != 1 && Power(MULTIPLIER, n / 151) != 1
    ensures Power(MULTIPLIER, n / 331) != 1
  {
    hide Power;
    Cofactor2(n / 2);
    Cofactor3(n / 3);
    Cofactor7(n / 7);
    Cofactor11(n / 11);
    Cofactor31(n / 31);
    Cofactor151(n / 151);
    Cofactor331(n / 331);
  }

  /** The order of the multiplier is exactly MODULUS - 1: it is a primitive root. */
  lemma PrimitiveRoot(k: nat, n: nat)
    requires n + 1 == MODULUS && 0 < k < n
    ensures Power(MULTIPLIER, k) != 1
  {
    hide Power;
    if Power(MULTIPLIER, k) == 1 {
      FullPower(n);
      var g := GcdPower(k, n);
      var e: nat :| n == g * e;
      var j: nat :| k == g * j;
      assert j > 0;
      assert g * j >= g;
      assert e > 1 by {
        assert g * 0 == 0 && g * 1 == g;
      }
      assert Divides(e, n) by { assert n == e * g; }
      PrimeFactor(e, n);
      NoCofactorPower(n);
      if Divides(2, e) { CofactorPower(g, e, 2, n / 2); }
      else if Divides(3, e) { CofactorPower(g, e, 3, n / 3); }
      else if Divides(7, e) { CofactorPower(g, e, 7, n / 7); }
      else if Divides(11, e) { CofactorPower(g, e, 11, n / 11); }
      else if Divides(31, e) { CofactorPower(g, e, 31, n / 31); }
      else if Divides(151, e) { CofactorPower(g, e, 151, n / 151); }
      else { CofactorPower(g, e, 331, n / 331); }
    }
  }

  /** Every power of the multiplier has an inverse, so none is 0. */
  lemma PowerNonzero(k: nat, n: nat)
    requires n + 1 == MODULUS && k <= n
    ensures Power(MULTIPLIER, k) > 0
  {
    FullPower(n);
    PowerAdd(MULTIPLIER, k, n - k);
  }

  lemma PowersDiffer(i: nat, j: nat, n: nat)
    requires n + 1 == MODULUS && i < j < n
    ensures Power(MULTIPLIER, i) != Power(MULTIPLIER, j)
  {
    hide Power;
    if Power(MULTIPLIER, i) == Power(MULTIPLIER, j) {
      FullPower(n);
      PowerAdd(MULTIPLIER, i, n - i);
      PowerAdd(MULTIPLIER, j, n - i);
      assert j + (n - i) == n + (j - i);
      PowerAdd(MULTIPLIER, n, j - i);
      PrimitiveRoot(j - i, n);
    }
  }

  lemma {:induction false} RangeSize(n: nat) returns (s: set<nat>)
    ensures (forall x :: x in s <==> 1 <= x <= n) && |s| == n
  {
    if n == 0 {
      s := {};
    } else {
      var s' := RangeSize(n - 1);
      s := s' + {n};
    }
  }

  /** The first k powers are k different values. */
  lemma {:induction false} PowerSetSize(k: nat, n: nat) returns (s: set<nat>)
    requires n + 1 == MODULUS && k <= n
    ensures s == (set i: nat | i < k :: Power(MULTIPLIER, i)) && |s| == k
  {
    if k == 0 {
      s := {};
    } else {
      var s' := PowerSetSize(k - 1, n);
      forall i: nat | i < k - 1
        ensures Power(MULTIPLIER, i) != Power(MULTIPLIER, k - 1)
      {
        PowersDiffer(i, k - 1, n);
      }
      assert Power(MULTIPLIER, k - 1) !in s';
      s := s' + {Power(MULTIPLIER, k - 1)};
      forall x | x in s
        ensures exists i: nat :: i < k && x == Power(MULTIPLIER, i)
      {
        if x in s' {
          var i: nat :| i < k - 1 && x == Power(MULTIPLIER, i);
          assert i < k;
        } else {
          assert k - 1 < k && x == Power(MULTIPLIER, k - 1);
        }
      }
    }
  }

  lemma SameSizeSubset<T>(a: set<T>, b: set<T>)
    requires a <= b && |a| == |b|
    ensures a == b
  {
    assert b == a + (b - a);
    assert |b| == |a| + |b - a|;
  }

  /** Every state 1 .. MODULUS - 1 is a power of the multiplier. */
  lemma EveryStateIsAPower(x: nat, n: nat) returns (j: nat)
    requires n + 1 == MODULUS && 1 <= x <= n
    ensures j < n && x == Power(MULTIPLIER, j)
  {
    var all := RangeSize(n);
    var powers := PowerSetSize(n, n);
    forall i: nat | i < n
      ensures 1 <= Power(MULTIPLIER, i) <= n
    {
      PowerNonzero(i, n);
    }
    assert powers <= all;
    SameSizeSubset(powers, all);
    assert x in powers;
    j :| j < n && x == Power(MULTIPLIER, j);
  }

  lemma OrbitDistinctUpTo(x: nat, i: nat, j: nat, n: nat)
    requires n + 1 == MODULUS && 1 <= x <= n && i < j <= n
    ensures Draws(x, i) == Draws(x, j) <==> (i == 0 && j == n)
  {
    hide Power;
    DrawsAsPower(x, i);
    DrawsAsPower(x, j);
    FullPower(n);
    var l := EveryStateIsAPower(x, n);
    if j == n {
      Unit(x);
      if i > 0 {
        PrimitiveRoot(i, n);
        Unscale(x, Power(MULTIPLIER, i), 1, l, n);
      }
    } else {
      PowersDiffer(i, j, n);
      Unscale(x, Power(MULTIPLIER, i), Power(MULTIPLIER, j), l, n);
    }
  }

  /** Multiplication by a state can be undone. */
  lemma Unscale(x: nat, a: nat, b: nat, l: nat, n: nat)
    requires n + 1 == MODULUS && l < n && x == Power(MULTIPLIER, l)
    requires a < MODULUS && b < MODULUS && a != b
    ensures Mul(a, x) != Mul(b, x)
  {
    hide Power;
    var y := Power(MULTIPLIER, n - l);
    PowerAdd(MULTIPLIER, l, n - l);
    FullPower(n);
    MulAssociates(a, x, y);
    MulAssociates(b, x, y);
    Unit(a);
    Unit(b);
    MulCommutes(a, 1);
    MulCommutes(b, 1);
  }

  lemma Unit(x: nat)
    requires x < MODULUS
    ensures Mul(1, x) == x
  {
  }

  /** Full period: from any seed, the draws first return to it after exactly
      MODULUS - 1 calls, and no state repeats before. */
  lemma FullPeriod(x: nat, i: nat, j: nat)
    requires 1 <= x < MODULUS && i < j <= MODULUS - 1
    ensures Draws(x, i) == Draws(x, j) <==> (i == 0 && j == MODULUS - 1)
  {
    OrbitDistinctUpTo(x, i, j, MODULUS - 1);
  }

  /** Every draw from a state in range is a state in range. */
  lemma {:induction false} DrawsInRange(x: nat, k: nat)
    requires 1 <= x < MODULUS
    ensures 1 <= Draws(x, k) < MODULUS
  {
    if k > 0 {
      DrawsInRange(x, k - 1);
      NonzeroProduct(MULTIPLIER, Draws(x, k - 1));
    }
  }

  /** MODULUS divides no product of the multiplier and a state. */
  lemma NonzeroProduct(a: nat, x: nat)
    requires a == MULTIPLIER && 1 <= x < MODULUS
    ensures Mul(a, x) > 0
  {
    var n := MODULUS - 1;
    var j := EveryStateIsAPower(x, n);
    PowerNonzero(j + 1, n);
  }

  /** One jump multiplication is JUMP draws; e is JUMP. */
  lemma JumpIsDraws(x: nat, e: nat)
    requires x < MODULUS && 2 * e == 16735564
    ensures Draws(x, e) == Mul(JUMP_MULTIPLIER, x)
  {
    DrawsAsPower(x, e);
    JumpPower(e);
  }

  /** Streams planted JUMP draws apart never share a state within JUMP draws. */
  lemma StreamsDisjoint(x: nat, s1: nat, i1: nat, s2: nat, i2: nat)
    requires 1 <= x < MODULUS
    requires s1 < STREAMS && s2 < STREAMS && i1 < JUMP && i2 < JUMP
    requires s1 != s2 || i1 != i2
    ensures Draws(Draws(x, s1 * JUMP), i1) != Draws(Draws(x, s2 * JUMP), i2)
  {
    DrawsAdd(x, s1 * JUMP, i1);
    DrawsAdd(x, s2 * JUMP, i2);
    var k1, k2 := s1 * JUMP + i1, s2 * JUMP + i2;
    if k1 < k2 {
      FullPeriod(x, k1, k2);
    } else {
      FullPeriod(x, k2, k1);
    }
  }
}
