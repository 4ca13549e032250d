/**
 Which numbers the constants of SHA-256 are. Section 4.2.2 of FIPS 180-4 takes the round constants from
 the cube roots of the first sixty-four primes, section 5.3.3 the initial hash value from the square
 roots of the first eight: in each case the first thirty-two bits of the fractional part.
 */
module Sha256Constants {
  import opened Sha256

  // ----- Primes -----

  function Product(d: nat, k: nat): nat { d * k }

  ghost predicate Divides(d: nat, n: nat) { exists k :: Product(d, k) == n }

  ghost predicate IsPrime(n: nat) { n >= 2 && forall d :: 2 <= d < n ==> !Divides(d, n) }

  /** Primes in increasing order with none left out below any of them. */
  ghost predicate FirstPrimes(ps: seq<nat>)
  {
    && (forall i :: 0 <= i < |ps| ==> IsPrime(ps[i]))
    && (forall i, j :: 0 <= i < j < |ps| ==> ps[i] < ps[j])
    && forall q, i :: 0 <= i < |ps| && IsPrime(q) && q < ps[i] ==> q in ps
  }

  /** Not a multiple of the prime p, unless it is p. */
  predicate Misses(n: nat, p: nat)
    requires p > 0
  {
    n == p || n % p != 0
  }

  predicate Sieved(n: nat)
  {
    && Misses(n, 2) && Misses(n, 3) && Misses(n, 5) && Misses(n, 7)
    && Misses(n, 11) && Misses(n, 13) && Misses(n, 17)
  }

  /** Of two factors of a number below 18 * 18 one is below 18. */
  lemma SmallFactor(n: nat, d: nat, k: nat) returns (m: nat, j: nat)
    requires n < 324 && 2 <= d < n && Product(d, k) == n
    ensures 2 <= m <= 17 && m < n && m * j == n
  {
    assert k != 0 && k != 1;
    if d <= 17 {
      m, j := d, k;
    } else {
      m, j := k, d;
      assert k >= 18 ==> d * k >= 18 * 18;
      assert d * k >= 2 * k;
    }
  }

  lemma MultipleOf2(n: nat, j: nat)
    requires n == 2 * j && n > 2
    ensures !Misses(n, 2)
  {
  }

  lemma MultipleOf3(n: nat, j: nat)
    requires n == 3 * j && n > 3
    ensures !Misses(n, 3)
  {
  }

  lemma MultipleOf5(n: nat, j: nat)
    requires n == 5 * j && n > 5
    ensures !Misses(n, 5)
  {
  }

  lemma MultipleOf7(n: nat, j: nat)
    requires n == 7 * j && n > 7
    ensures !Misses(n, 7)
  {
  }

  lemma MultipleOf11(n: nat, j: nat)
    requires n == 11 * j && n > 11
    ensures !Misses(n, 11)
  {
  }

  lemma MultipleOf13(n: nat, j: nat)
    requires n == 13 * j && n > 13
    ensures !Misses(n, 13)
  {
  }

  lemma MultipleOf17(n: nat, j: nat)
    requires n == 17 * j && n > 17
    ensures !Misses(n, 17)
  {
  }

  lemma MultipleIsNotSieved(n: nat, m: nat, j: nat)
    requires 2 <= m <= 17 && m < n && m * j == n
    ensures !Sieved(n)
  {
    hide Misses;
    if m % 2 == 0 {
      HalfFirst(m, j);
      MultipleOf2(n, m / 2 * j);
    } else if m == 3 || m == 9 || m == 15 {
      ThirdFirst(m, j);
      MultipleOf3(n, m / 3 * j);
    } else if m == 5 {
      MultipleOf5(n, j);
    } else if m == 7 {
      MultipleOf7(n, j);
    } else if m == 11 {
      MultipleOf11(n, j);
    } else if m == 13 {
      MultipleOf13(n, j);
    } else {
      MultipleOf17(n, j);
    }
  }

  lemma HalfFirst(m: nat, j: nat)
    requires m % 2 == 0
    ensures m * j == 2 * (m / 2 * j)
  {
    var h := m / 2;
    assert m == 2 * h && 2 * h * j == 2 * (h * j);
  }

  lemma ThirdFirst(m: nat, j: nat)
    requires m % 3 == 0
    ensures m * j == 3 * (m / 3 * j)
  {
    var h := m / 3;
    assert m == 3 * h && 3 * h * j == 3 * (h * j);
  }

  lemma SieveTellsPrimes(n: nat)
    requires 2 <= n < 324
    ensures IsPrime(n) <==> Sieved(n)
  {
    if !IsPrime(n) {
      var d :| 2 <= d < n && Divides(d, n);
      var k :| Product(d, k) == n;
      var m, j := SmallFactor(n, d, k);
      MultipleIsNotSieved(n, m, j);
    }
    if !Sieved(n) {
      var p := if n % 2 == 0 && n != 2 then 2 else if n % 3 == 0 && n != 3 then 3 else if n % 5 == 0 && n != 5 then 5
               else if n % 7 == 0 && n != 7 then 7 else if n % 11 == 0 && n != 11 then 11
               else if n % 13 == 0 && n != 13 then 13 else 17;
      assert Product(p, n / p) == n;
      assert Divides(p, n) && 2 <= p < n;
    }
  }

  // ----- The first sixty-four -----

  const PRIMES: seq<nat> :=
    [2, 3, 5, 7, 11, 13, 17, 19]
    + [23, 29, 31, 37, 41, 43, 47, 53]
    + [59, 61, 67, 71, 73, 79, 83, 89]
    + [97, 101, 103, 107, 109, 113, 127, 131]
    + [137, 139, 149, 151, 157, 163, 167, 173]
    + [179, 181, 191, 193, 197, 199, 211, 223]
    + [227, 229, 233, 239, 241, 251, 257, 263]
    + [269, 271, 277, 281, 283, 293, 307, 311]

  lemma Gap0(q: nat)
    requires 1 < q <= 7 && Sieved(q)
    ensures q == 2 || q == 3 || q == 5 || q == 7
  {
    assert q == 2 || q % 2 == 1;
    hide Sieved, Misses;
    assert q == 2 || q == 3 || q == 5 || q == 7;
  }

  lemma Gap1(q: nat)
    requires 7 < q <= 19 && Sieved(q)
    ensures q == 11 || q == 13 || q == 17 || q == 19
  {
    assert !Sieved(9) && !Sieved(15);
    assert q == 2 || q % 2 == 1;
    hide Sieved, Misses;
    assert q == 9 || q == 11 || q == 13 || q == 15 || q == 17 || q == 19;
  }

  lemma Gap2(q: nat)
    requires 19 < q <= 37 && Sieved(q)
    ensures q == 23 || q == 29 || q == 31 || q == 37
  {
    assert !Sieved(21) && !Sieved(25) && !Sieved(27) && !Sieved(33) && !Sieved(35);
    assert q == 2 || q % 2 == 1;
    hide Sieved, Misses;
    assert q == 21 || q == 23 || q == 25 || q == 27 || q == 29 || q == 31 || q == 33 || q == 35 || q == 37;
  }

  lemma Gap3(q: nat)
    requires 37 < q <= 53 && Sieved(q)
    ensures q == 41 || q == 43 || q == 47 || q == 53
  {
    assert !Sieved(39) && !Sieved(45) && !Sieved(49) && !Sieved(51);
    assert q == 2 || q % 2 == 1;
    hide Sieved, Misses;
    assert q == 39 || q == 41 || q == 43 || q == 45 || q == 47 || q == 49 || q == 51 || q == 53;
  }

  lemma Gap4(q: nat)
    requires 53 < q <= 71 && Sieved(q)
    ensures q == 59 || q == 61 || q == 67 || q == 71
  {
    assert !Sieved(55) && !Sieved(57) && !Sieved(63) && !Sieved(65) && !Sieved(69);
    assert q == 2 || q % 2 == 1;
    hide Sieved, Misses;
    assert q == 55 || q == 57 || q == 59 || q == 61 || q == 63 || q == 65 || q == 67 || q == 69 || q == 71;
  }

  lemma Gap5(q: nat)
    requires 71 < q <= 89 && Sieved(q)
    ensures q == 73 || q == 79 || q == 83 || q == 89
  {
    assert !Sieved(75) && !Sieved(77) && !Sieved(81) && !Sieved(85) && !Sieved(87);
    assert q == 2 || q % 2 == 1;
    hide Sieved, Misses;
    assert q == 73 || q == 75 || q == 77 || q == 79 || q == 81 || q == 83 || q == 85 || q == 87 || q == 89;
  }

  lemma Gap6(q: nat)
    requires 89 < q <= 107 && Sieved(q)
    ensures q == 97 || q == 101 || q == 103 || q == 107
  {
    assert !Sieved(91) && !Sieved(93) && !Sieved(95) && !Sieved(99) && !Sieved(105);
    assert q == 2 || q % 2 == 1;
    hide Sieved, Misses;
    assert q == 91 || q == 93 || q == 95 || q == 97 || q == 99 || q == 101 || q == 103 || q == 105 || q == 107;
  }

  lemma Gap7(q: nat)
    requires 107 < q <= 131 && Sieved(q)
    ensures q == 109 || q == 113 || q == 127 || q == 131
  {
    assert !Sieved(111) && !Sieved(115) && !Sieved(117) && !Sieved(119) && !Sieved(121) && !Sieved(123)
           && !Sieved(125) && !Sieved(129);
    assert q == 2 || q % 2 == 1;
    hide Sieved, Misses;
    assert q == 109 || q == 111 || q == 113 || q == 115 || q == 117 || q == 119 || q == 121 || q == 123 || q == 125
           || q == 127 || q == 129 || q == 131;
  }

  lemma Gap8(q: nat)
    requires 131 < q <= 151 && Sieved(q)
    ensures q == 137 || q == 139 || q == 149 || q == 151
  {
    assert !Sieved(133) && !Sieved(135) && !Sieved(141) && !Sieved(143) && !Sieved(145) && !Sieved(147);
    assert q == 2 || q % 2 == 1;
    hide Sieved, Misses;
    assert q == 133 || q == 135 || q == 137 || q == 139 || q == 141 || q == 143 || q == 145 || q == 147 || q == 149
           || q == 151;
  }

  lemma Gap9(q: nat)
    requires 151 < q <= 173 && Sieved(q)
    ensures q == 157 || q == 163 || q == 167 || q == 173
  {
    assert !Sieved(153) && !Sieved(155) && !Sieved(159) && !Sieved(161) && !Sieved(165) && !Sieved(169)
           && !Sieved(171);
    assert q == 2 || q % 2 == 1;
    hide Sieved, Misses;
    assert q == 153 || q == 155 || q == 157 || q == 159 || q == 161 || q == 163 || q == 165 || q == 167 || q == 169
           || q == 171 || q == 173;
  }

  lemma Gap10(q: nat)
    requires 173 < q <= 193 && Sieved(q)
    ensures q == 179 || q == 181 || q == 191 || q == 193
  {
    assert !Sieved(175) && !Sieved(177) && !Sieved(183) && !Sieved(185) && !Sieved(187) && !Sieved(189);
    assert q == 2 || q % 2 == 1;
    hide Sieved, Misses;
    assert q == 175 || q == 177 || q == 179 || q == 181 || q == 183 || q == 185 || q == 187 || q == 189 || q == 191
           || q == 193;
  }

  lemma Gap11(q: nat)
    requires 193 < q <= 223 && Sieved(q)
    ensures q == 197 || q == 199 || q == 211 || q == 223
  {
    assert !Sieved(195) && !Sieved(201) && !Sieved(203) && !Sieved(205) && !Sieved(207) && !Sieved(209)
           && !Sieved(213) && !Sieved(215) && !Sieved(217) && !Sieved(219) && !Sieved(221);
    assert q == 2 || q % 2 == 1;
    hide Sieved, Misses;
    assert q == 195 || q == 197 || q == 199 || q == 201 || q == 203 || q == 205 || q == 207 || q == 209 || q == 211
           || q == 213 || q == 215 || q == 217 || q == 219 || q == 221 || q == 223;
  }

  lemma Gap12(q: nat)
    requires 223 < q <= 239 && Sieved(q)
    ensures q == 227 || q == 229 || q == 233 || q == 239
  {
    assert !Sieved(225) && !Sieved(231) && !Sieved(235) && !Sieved(237);
    assert q == 2 || q % 2 == 1;
    hide Sieved, Misses;
    assert q == 225 || q == 227 || q == 229 || q == 231 || q == 233 || q == 235 || q == 237 || q == 239;
  }

  lemma Gap13(q: nat)
    requires 239 < q <= 263 && Sieved(q)
    ensures q == 241 || q == 251 || q == 257 || q == 263
  {
    assert !Sieved(243) && !Sieved(245) && !Sieved(247) && !Sieved(249) && !Sieved(253) && !Sieved(255)
           && !Sieved(259) && !Sieved(261);
    assert q == 2 || q % 2 == 1;
    hide Sieved, Misses;
    assert q == 241 || q == 243 || q == 245 || q == 247 || q == 249 || q == 251 || q == 253 || q == 255 || q == 257
           || q == 259 || q == 261 || q == 263;
  }

  lemma Gap14(q: nat)
    requires 263 < q <= 281 && Sieved(q)
    ensures q == 269 || q == 271 || q == 277 || q == 281
  {
    assert !Sieved(265) && !Sieved(267) && !Sieved(273) && !Sieved(275) && !Sieved(279);
    assert q == 2 || q % 2 == 1;
    hide Sieved, Misses;
    assert q == 265 || q == 267 || q == 269 || q == 271 || q == 273 || q == 275 || q == 277 || q == 279 || q == 281;
  }

  lemma Gap15(q: nat)
    requires 281 < q <= 311 && Sieved(q)
    ensures q == 283 || q == 293 || q == 307 || q == 311
  {
    assert !Sieved(285) && !Sieved(287) && !Sieved(289) && !Sieved(291) && !Sieved(295) && !Sieved(297)
           && !Sieved(299) && !Sieved(301) && !Sieved(303) && !Sieved(305) && !Sieved(309);
    assert q == 2 || q % 2 == 1;
    hide Sieved, Misses;
    assert q == 283 || q == 285 || q == 287 || q == 289 || q == 291 || q == 293 || q == 295 || q == 297 || q == 299
           || q == 301 || q == 303 || q == 305 || q == 307 || q == 309 || q == 311;
  }

  lemma PrimeRow0()
    ensures |PRIMES| == 64
    ensures PRIMES[0] == 2 && PRIMES[1] == 3 && PRIMES[2] == 5 && PRIMES[3] == 7
    ensures PRIMES[4] == 11 && PRIMES[5] == 13 && PRIMES[6] == 17 && PRIMES[7] == 19
  {
  }

  lemma SievedRow0()
    ensures |PRIMES| == 64 && forall i :: 0 <= i < 8 ==> 2 <= PRIMES[i] < 324 && Sieved(PRIMES[i])
    ensures forall i :: 0 <= i < 8 ==> PRIMES[i] < PRIMES[i + 1]
    ensures forall q :: 1 < q <= 19 && Sieved(q) ==> q in PRIMES
  {
    hide PRIMES;
    PrimeRow0();
    PrimeRow1();
    assert Sieved(2) && Sieved(3) && Sieved(5) && Sieved(7) && Sieved(11) && Sieved(13) && Sieved(17) && Sieved(19);
    hide Sieved;
    forall q | 1 < q <= 19 && Sieved(q) ensures q in PRIMES {
      if q <= 7 { Gap0(q); } else { Gap1(q); }
    }
  }

  lemma PrimeRow1()
    ensures |PRIMES| == 64
    ensures PRIMES[8] == 23 && PRIMES[9] == 29 && PRIMES[10] == 31 && PRIMES[11] == 37
    ensures PRIMES[12] == 41 && PRIMES[13] == 43 && PRIMES[14] == 47 && PRIMES[15] == 53
  {
  }

  lemma SievedRow1()
    ensures |PRIMES| == 64 && forall i :: 8 <= i < 16 ==> 2 <= PRIMES[i] < 324 && Sieved(PRIMES[i])
    ensures forall i :: 8 <= i < 16 ==> PRIMES[i] < PRIMES[i + 1]
    ensures forall q :: 19 < q <= 53 && Sieved(q) ==> q in PRIMES
  {
    hide PRIMES;
    PrimeRow1();
    PrimeRow2();
    assert Sieved(23) && Sieved(29) && Sieved(31) && Sieved(37) && Sieved(41) && Sieved(43) && Sieved(47) && Sieved(53);
    hide Sieved;
    forall q | 19 < q <= 53 && Sieved(q) ensures q in PRIMES {
      if q <= 37 { Gap2(q); } else { Gap3(q); }
    }
  }

  lemma PrimeRow2()
    ensures |PRIMES| == 64
    ensures PRIMES[16] == 59 && PRIMES[17] == 61 && PRIMES[18] == 67 && PRIMES[19] == 71
    ensures PRIMES[20] == 73 && PRIMES[21] == 79 && PRIMES[22] == 83 && PRIMES[23] == 89
  {
  }

  lemma SievedRow2()
    ensures |PRIMES| == 64 && forall i :: 16 <= i < 24 ==> 2 <= PRIMES[i] < 324 && Sieved(PRIMES[i])
    ensures forall i :: 16 <= i < 24 ==> PRIMES[i] < PRIMES[i + 1]
    ensures forall q :: 53 < q <= 89 && Sieved(q) ==> q in PRIMES
  {
    hide PRIMES;
    PrimeRow2();
    PrimeRow3();
    assert Sieved(59) && Sieved(61) && Sieved(67) && Sieved(71) && Sieved(73) && Sieved(79) && Sieved(83) && Sieved(89);
    hide Sieved;
    forall q | 53 < q <= 89 && Sieved(q) ensures q in PRIMES {
      if q <= 71 { Gap4(q); } else { Gap5(q); }
    }
  }

  lemma PrimeRow3()
    ensures |PRIMES| == 64
    ensures PRIMES[24] == 97 && PRIMES[25] == 101 && PRIMES[26] == 103 && PRIMES[27] == 107
    ensures PRIMES[28] == 109 && PRIMES[29] == 113 && PRIMES[30] == 127 && PRIMES[31] == 131
  {
  }

  lemma SievedRow3()
    ensures |PRIMES| == 64 && forall i :: 24 <= i < 32 ==> 2 <= PRIMES[i] < 324 && Sieved(PRIMES[i])
    ensures forall i :: 24 <= i < 32 ==> PRIMES[i] < PRIMES[i + 1]
    ensures forall q :: 89 < q <= 131 && Sieved(q) ==> q in PRIMES
  {
    hide PRIMES;
    PrimeRow3();
    PrimeRow4();
    assert Sieved(97) && Sieved(101) && Sieved(103) && Sieved(107) && Sieved(109) && Sieved(113) && Sieved(127)
           && Sieved(131);
    hide Sieved;
    forall q | 89 < q <= 131 && Sieved(q) ensures q in PRIMES {
      if q <= 107 { Gap6(q); } else { Gap7(q); }
    }
  }

  lemma PrimeRow4()
    ensures |PRIMES| == 64
    ensures PRIMES[32] == 137 && PRIMES[33] == 139 && PRIMES[34] == 149 && PRIMES[35] == 151
    ensures PRIMES[36] == 157 && PRIMES[37] == 163 && PRIMES[38] == 167 && PRIMES[39] == 173
  {
  }

  lemma SievedRow4()
    ensures |PRIMES| == 64 && forall i :: 32 <= i < 40 ==> 2 <= PRIMES[i] < 324 && Sieved(PRIMES[i])
    ensures forall i :: 32 <= i < 40 ==> PRIMES[i] < PRIMES[i + 1]
    ensures forall q :: 131 < q <= 173 && Sieved(q) ==> q in PRIMES
  {
    hide PRIMES;
    PrimeRow4();
    PrimeRow5();
    assert Sieved(137) && Sieved(139) && Sieved(149) && Sieved(151) && Sieved(157) && Sieved(163) && Sieved(167)
           && Sieved(173);
    hide Sieved;
    forall q | 131 < q <= 173 && Sieved(q) ensures q in PRIMES {
      if q <= 151 { Gap8(q); } else { Gap9(q); }
    }
  }

  lemma PrimeRow5()
    ensures |PRIMES| == 64
    ensures PRIMES[40] == 179 && PRIMES[41] == 181 && PRIMES[42] == 191 && PRIMES[43] == 193
    ensures PRIMES[44] == 197 && PRIMES[45] == 199 && PRIMES[46] == 211 && PRIMES[47] == 223
  {
  }

  lemma SievedRow5()
    ensures |PRIMES| == 64 && forall i :: 40 <= i < 48 ==> 2 <= PRIMES[i] < 324 && Sieved(PRIMES[i])
    ensures forall i :: 40 <= i < 48 ==> PRIMES[i] < PRIMES[i + 1]
    ensures forall q :: 173 < q <= 223 && Sieved(q) ==> q in PRIMES
  {
    hide PRIMES;
    PrimeRow5();
    PrimeRow6();
    assert Sieved(179) && Sieved(181) && Sieved(191) && Sieved(193) && Sieved(197) && Sieved(199) && Sieved(211)
           && Sieved(223);
    hide Sieved;
    forall q | 173 < q <= 223 && Sieved(q) ensures q in PRIMES {
      if q <= 193 { Gap10(q); } else { Gap11(q); }
    }
  }

  lemma PrimeRow6()
    ensures |PRIMES| == 64
    ensures PRIMES[48] == 227 && PRIMES[49] == 229 && PRIMES[50] == 233 && PRIMES[51] == 239
    ensures PRIMES[52] == 241 && PRIMES[53] == 251 && PRIMES[54] == 257 && PRIMES[55] == 263
  {
  }

  lemma SievedRow6()
    ensures |PRIMES| == 64 && forall i :: 48 <= i < 56 ==> 2 <= PRIMES[i] < 324 && Sieved(PRIMES[i])
    ensures forall i :: 48 <= i < 56 ==> PRIMES[i] < PRIMES[i + 1]
    ensures forall q :: 223 < q <= 263 && Sieved(q) ==> q in PRIMES
  {
    hide PRIMES;
    PrimeRow6();
    PrimeRow7();
    assert Sieved(227) && Sieved(229) && Sieved(233) && Sieved(239) && Sieved(241) && Sieved(251) && Sieved(257)
           && Sieved(263);
    hide Sieved;
    forall q | 223 < q <= 263 && Sieved(q) ensures q in PRIMES {
      if q <= 239 { Gap12(q); } else { Gap13(q); }
    }
  }

  lemma PrimeRow7()
    ensures |PRIMES| == 64
    ensures PRIMES[56] == 269 && PRIMES[57] == 271 && PRIMES[58] == 277 && PRIMES[59] == 281
    ensures PRIMES[60] == 283 && PRIMES[61] == 293 && PRIMES[62] == 307 && PRIMES[63] == 311
  {
  }

  lemma SievedRow7()
    ensures |PRIMES| == 64 && forall i :: 56 <= i < 64 ==> 2 <= PRIMES[i] < 324 && Sieved(PRIMES[i])
    ensures forall i :: 56 <= i < 63 ==> PRIMES[i] < PRIMES[i + 1]
    ensures forall q :: 263 < q <= 311 && Sieved(q) ==> q in PRIMES
  {
    hide PRIMES;
    PrimeRow7();
    assert Sieved(269) && Sieved(271) && Sieved(277) && Sieved(281) && Sieved(283) && Sieved(293) && Sieved(307)
           && Sieved(311);
    hide Sieved;
    forall q | 263 < q <= 311 && Sieved(q) ensures q in PRIMES {
      if q <= 281 { Gap14(q); } else { Gap15(q); }
    }
  }

  lemma AllRows()
    ensures |PRIMES| == 64 && PRIMES[63] == 311
    ensures forall i :: 0 <= i < 64 ==> 2 <= PRIMES[i] < 324 && Sieved(PRIMES[i])
    ensures forall i :: 0 <= i < 63 ==> PRIMES[i] < PRIMES[i + 1]
    ensures forall q :: 1 < q <= 311 && Sieved(q) ==> q in PRIMES
  {
    hide Sieved, PRIMES;
    SievedRow0();
    SievedRow1();
    SievedRow2();
    SievedRow3();
    SievedRow4();
    SievedRow5();
    SievedRow6();
    SievedRow7();
    PrimeRow7();
  }

  lemma PrimesAreFirst()
    ensures FirstPrimes(PRIMES)
  {
    hide IsPrime, Sieved, PRIMES;
    AllRows();
    forall i | 0 <= i < 64 ensures IsPrime(PRIMES[i]) {
      SieveTellsPrimes(PRIMES[i]);
    }
    forall i, j | 0 <= i < j < 64 ensures PRIMES[i] < PRIMES[j] {
      PrimesIncrease(i, j);
    }
    forall q, i | 0 <= i < 64 && IsPrime(q) && q < PRIMES[i] ensures q in PRIMES {
      PrimesIncrease(i, 63);
      AtLeastTwo(q);
      SieveTellsPrimes(q);
    }
  }

  lemma AtLeastTwo(q: nat)
    requires IsPrime(q)
    ensures q >= 2
  {
  }

  lemma {:induction false} PrimesIncrease(i: nat, j: nat)
    requires i <= j < 64
    ensures |PRIMES| == 64 && PRIMES[i] <= PRIMES[j] && (i < j ==> PRIMES[i] < PRIMES[j])
    decreases j - i
  {
    hide PRIMES, Sieved;
    AllRows();
    if i < j {
      PrimesIncrease(i, j - 1);
      assert PRIMES[j - 1] < PRIMES[j - 1 + 1];
    }
  }

  // ----- The words -----

  predicate CubeRoot(c: nat, n: nat) { c * c * c <= n < (c + 1) * (c + 1) * (c + 1) }

  predicate SquareRoot(c: nat, n: nat) { c * c <= n < (c + 1) * (c + 1) }

  /** The first 32 bits of the fractional part of the cube root: the root of p * 2^96, modulo 2^32. */
  ghost predicate CubeWord(w: Word, p: nat)
  {
    exists c: nat :: CubeRoot(c, p * 0x1_0000_0000_0000_0000_0000_0000) && w as int == c % 0x1_0000_0000
  }

  ghost predicate SquareWord(w: Word, p: nat)
  {
    exists c: nat :: SquareRoot(c, p * 0x1_0000_0000_0000_0000) && w as int == c % 0x1_0000_0000
  }

  lemma CubeWordIs(w: Word, p: nat, c: nat)
    requires CubeRoot(c, p * 0x1_0000_0000_0000_0000_0000_0000) && w as int == c % 0x1_0000_0000
    ensures CubeWord(w, p)
  {
  }

  lemma SquareWordIs(w: Word, p: nat, c: nat)
    requires SquareRoot(c, p * 0x1_0000_0000_0000_0000) && w as int == c % 0x1_0000_0000
    ensures SquareWord(w, p)
  {
  }

  lemma WordRow0()
    ensures |K| == |PRIMES| == 64 && forall t :: 0 <= t < 8 ==> CubeWord(K[t], PRIMES[t])
  {
    hide PRIMES, CubeWord;
    PrimeRow0();
    CubeWordIs(K[0], PRIMES[0], 0x1428a2f98);
    CubeWordIs(K[1], PRIMES[1], 0x171374491);
    CubeWordIs(K[2], PRIMES[2], 0x1b5c0fbcf);
    CubeWordIs(K[3], PRIMES[3], 0x1e9b5dba5);
    CubeWordIs(K[4], PRIMES[4], 0x23956c25b);
    CubeWordIs(K[5], PRIMES[5], 0x259f111f1);
    CubeWordIs(K[6], PRIMES[6], 0x2923f82a4);
    CubeWordIs(K[7], PRIMES[7], 0x2ab1c5ed5);
  }

  lemma WordRow1()
    ensures |K| == |PRIMES| == 64 && forall t :: 8 <= t < 16 ==> CubeWord(K[t], PRIMES[t])
  {
    hide PRIMES, CubeWord;
    PrimeRow1();
    CubeWordIs(K[8], PRIMES[8], 0x2d807aa98);
    CubeWordIs(K[9], PRIMES[9], 0x312835b01);
    CubeWordIs(K[10], PRIMES[10], 0x3243185be);
    CubeWordIs(K[11], PRIMES[11], 0x3550c7dc3);
    CubeWordIs(K[12], PRIMES[12], 0x372be5d74);
    CubeWordIs(K[13], PRIMES[13], 0x380deb1fe);
    CubeWordIs(K[14], PRIMES[14], 0x39bdc06a7);
    CubeWordIs(K[15], PRIMES[15], 0x3c19bf174);
  }

  lemma WordRow2()
    ensures |K| == |PRIMES| == 64 && forall t :: 16 <= t < 24 ==> CubeWord(K[t], PRIMES[t])
  {
    hide PRIMES, CubeWord;
    PrimeRow2();
    CubeWordIs(K[16], PRIMES[16], 0x3e49b69c1);
    CubeWordIs(K[17], PRIMES[17], 0x3efbe4786);
    CubeWordIs(K[18], PRIMES[18], 0x40fc19dc6);
    CubeWordIs(K[19], PRIMES[19], 0x4240ca1cc);
    CubeWordIs(K[20], PRIMES[20], 0x42de92c6f);
    CubeWordIs(K[21], PRIMES[21], 0x44a7484aa);
    CubeWordIs(K[22], PRIMES[22], 0x45cb0a9dc);
    CubeWordIs(K[23], PRIMES[23], 0x476f988da);
  }

  lemma WordRow3()
    ensures |K| == |PRIMES| == 64 && forall t :: 24 <= t < 32 ==> CubeWord(K[t], PRIMES[t])
  {
    hide PRIMES, CubeWord;
    PrimeRow3();
    CubeWordIs(K[24], PRIMES[24], 0x4983e5152);
    CubeWordIs(K[25], PRIMES[25], 0x4a831c66d);
    CubeWordIs(K[26], PRIMES[26], 0x4b00327c8);
    CubeWordIs(K[27], PRIMES[27], 0x4bf597fc7);
    CubeWordIs(K[28], PRIMES[28], 0x4c6e00bf3);
    CubeWordIs(K[29], PRIMES[29], 0x4d5a79147);
    CubeWordIs(K[30], PRIMES[30], 0x506ca6351);
    CubeWordIs(K[31], PRIMES[31], 0x514292967);
  }

  lemma WordRow4()
    ensures |K| == |PRIMES| == 64 && forall t :: 32 <= t < 40 ==> CubeWord(K[t], PRIMES[t])
  {
    hide PRIMES, CubeWord;
    PrimeRow4();
    CubeWordIs(K[32], PRIMES[32], 0x527b70a85);
    CubeWordIs(K[33], PRIMES[33], 0x52e1b2138);
    CubeWordIs(K[34], PRIMES[34], 0x54d2c6dfc);
    CubeWordIs(K[35], PRIMES[35], 0x553380d13);
    CubeWordIs(K[36], PRIMES[36], 0x5650a7354);
    CubeWordIs(K[37], PRIMES[37], 0x5766a0abb);
    CubeWordIs(K[38], PRIMES[38], 0x581c2c92e);
    CubeWordIs(K[39], PRIMES[39], 0x592722c85);
  }

  lemma WordRow5()
    ensures |K| == |PRIMES| == 64 && forall t :: 40 <= t < 48 ==> CubeWord(K[t], PRIMES[t])
  {
    hide PRIMES, CubeWord;
    PrimeRow5();
    CubeWordIs(K[40], PRIMES[40], 0x5a2bfe8a1);
    CubeWordIs(K[41], PRIMES[41], 0x5a81a664b);
    CubeWordIs(K[42], PRIMES[42], 0x5c24b8b70);
    CubeWordIs(K[43], PRIMES[43], 0x5c76c51a3);
    CubeWordIs(K[44], PRIMES[44], 0x5d192e819);
    CubeWordIs(K[45], PRIMES[45], 0x5d6990624);
    CubeWordIs(K[46], PRIMES[46], 0x5f40e3585);
    CubeWordIs(K[47], PRIMES[47], 0x6106aa070);
  }

  lemma WordRow6()
    ensures |K| == |PRIMES| == 64 && forall t :: 48 <= t < 56 ==> CubeWord(K[t], PRIMES[t])
  {
    hide PRIMES, CubeWord;
    PrimeRow6();
    CubeWordIs(K[48], PRIMES[48], 0x619a4c116);
    CubeWordIs(K[49], PRIMES[49], 0x61e376c08);
    CubeWordIs(K[50], PRIMES[50], 0x62748774c);
    CubeWordIs(K[51], PRIMES[51], 0x634b0bcb5);
    CubeWordIs(K[52], PRIMES[52], 0x6391c0cb3);
    CubeWordIs(K[53], PRIMES[53], 0x64ed8aa4a);
    CubeWordIs(K[54], PRIMES[54], 0x65b9cca4f);
    CubeWordIs(K[55], PRIMES[55], 0x6682e6ff3);
  }

  lemma WordRow7()
    ensures |K| == |PRIMES| == 64 && forall t :: 56 <= t < 64 ==> CubeWord(K[t], PRIMES[t])
  {
    hide PRIMES, CubeWord;
    PrimeRow7();
    CubeWordIs(K[56], PRIMES[56], 0x6748f82ee);
    CubeWordIs(K[57], PRIMES[57], 0x678a5636f);
    CubeWordIs(K[58], PRIMES[58], 0x684c87814);
    CubeWordIs(K[59], PRIMES[59], 0x68cc70208);
    CubeWordIs(K[60], PRIMES[60], 0x690befffa);
    CubeWordIs(K[61], PRIMES[61], 0x6a4506ceb);
    CubeWordIs(K[62], PRIMES[62], 0x6bef9a3f7);
    CubeWordIs(K[63], PRIMES[63], 0x6c67178f2);
  }

  /** Section 4.2.2: the round constants come from the cube roots of the first sixty-four primes. */
  lemma RoundConstants()
    ensures FirstPrimes(PRIMES) && |PRIMES| == |K| == 64
    ensures forall t :: 0 <= t < 64 ==> CubeWord(K[t], PRIMES[t])
  {
    hide CubeWord, FirstPrimes, PRIMES;
    PrimesAreFirst();
    WordRow0();
    WordRow1();
    WordRow2();
    WordRow3();
    WordRow4();
    WordRow5();
    WordRow6();
    WordRow7();
  }

  /** Section 5.3.3: the initial hash value comes from the square roots of the first eight primes. */
  lemma InitialHashValue()
    ensures FirstPrimes(PRIMES) && |PRIMES| == 64
    ensures SquareWord(IV.a, PRIMES[0]) && SquareWord(IV.b, PRIMES[1]) && SquareWord(IV.c, PRIMES[2])
    ensures SquareWord(IV.d, PRIMES[3]) && SquareWord(IV.e, PRIMES[4]) && SquareWord(IV.f, PRIMES[5])
    ensures SquareWord(IV.g, PRIMES[6]) && SquareWord(IV.h, PRIMES[7])
  {
    hide FirstPrimes, SquareWord, Sieved;
    PrimesAreFirst();
    PrimeRow0();
    SquareWordIs(IV.a, PRIMES[0], 0x16a09e667);
    SquareWordIs(IV.b, PRIMES[1], 0x1bb67ae85);
    SquareWordIs(IV.c, PRIMES[2], 0x23c6ef372);
    SquareWordIs(IV.d, PRIMES[3], 0x2a54ff53a);
    SquareWordIs(IV.e, PRIMES[4], 0x3510e527f);
    SquareWordIs(IV.f, PRIMES[5], 0x39b05688c);
    SquareWordIs(IV.g, PRIMES[6], 0x41f83d9ab);
    SquareWordIs(IV.h, PRIMES[7], 0x45be0cd19);
  }
}
