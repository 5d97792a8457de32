/** Bit reversal, which turns the 32 interrupt slots into the leaves of a binary tree that can be
    walked from left to right.

    An aligned block of leaves is a residue class of slots.  Everything the interrupt tree does with
    strides rests on that fact. */
module BitReverse {

  // ---------- shifts and masks on non-negative words

  function Shl(w: nat, k: nat): (r: nat)
    ensures r >= w
  {
    if k == 0 then w else 2 * Shl(w, k - 1)
  }

  function Shr(w: nat, k: nat): nat {
    if k == 0 then w else Shr(w / 2, k - 1)
  }

  /** The low k bits of w. */
  function Low(w: nat, k: nat): nat {
    if k == 0 then 0 else 2 * Low(w / 2, k - 1) + w % 2
  }

  function Pow2(k: nat): nat {
    Shl(1, k)
  }

  function Bit(w: nat, k: nat): nat {
    Shr(w, k) % 2
  }

  /** The low n bits of w in mirrored order. */
  function Rev(n: nat, w: nat): nat {
    if n == 0 then 0 else Shl(w % 2, n - 1) + Rev(n - 1, w / 2)
  }

  // ---------- facts about shifts

  lemma {:induction false} ShlSum(v: nat, w: nat, k: nat)
    ensures Shl(v + w, k) == Shl(v, k) + Shl(w, k)
  {
    if k > 0 {
      ShlSum(v, w, k - 1);
    }
  }

  lemma {:induction false} ShlZero(k: nat)
    ensures Shl(0, k) == 0
  {
    if k > 0 {
      ShlZero(k - 1);
    }
  }

  lemma {:induction false} ShlShl(w: nat, a: nat, b: nat)
    ensures Shl(Shl(w, a), b) == Shl(w, a + b)
  {
    if b > 0 {
      ShlShl(w, a, b - 1);
    }
  }

  lemma {:induction false} Pow2Mono(a: nat, b: nat)
    requires a <= b
    ensures Pow2(a) <= Pow2(b)
    ensures a < b ==> Pow2(a) < Pow2(b)
  {
    if a < b {
      Pow2Mono(a, b - 1);
    }
  }

  /** A word is its high part over its low part, and in only one way. */
  lemma {:induction false} JoinParts(q: nat, r: nat, k: nat)
    requires r < Pow2(k)
    ensures Low(Shl(q, k) + r, k) == r
    ensures Shr(Shl(q, k) + r, k) == q
  {
    if k > 0 {
      var w := Shl(q, k) + r;
      assert w / 2 == Shl(q, k - 1) + r / 2;
      JoinParts(q, r / 2, k - 1);
    }
  }

  lemma {:induction false} Parts(w: nat, k: nat)
    ensures w == Shl(Shr(w, k), k) + Low(w, k)
    ensures Low(w, k) < Pow2(k)
  {
    if k > 0 {
      Parts(w / 2, k - 1);
    }
  }

  lemma {:induction false} ShrBelow(w: nat, a: nat, b: nat)
    requires w < Pow2(a + b)
    ensures Shr(w, b) < Pow2(a)
  {
    if b > 0 {
      ShrBelow(w / 2, a, b - 1);
    }
  }

  lemma {:induction false} ShlMono(p: nat, q: nat, k: nat)
    requires p <= q
    ensures Shl(p, k) <= Shl(q, k)
  {
    ShlSum(p, q - p, k);
  }

  lemma {:induction false} ShlIsTimes(q: nat, k: nat)
    ensures Shl(q, k) == q * Pow2(k)
  {
    if k > 0 {
      ShlIsTimes(q, k - 1);
      var p := Pow2(k - 1);
      assert 2 * (q * p) == q * (2 * p);
    }
  }

  lemma {:induction false} DivModUnique(x: int, d: int, q: int, r: int)
    requires 0 <= r < d && x == q * d + r
    ensures x / d == q && x % d == r
  {
    var p, s := x / d, x % d;
    assert p * d + s == x;
    if q > p {
      MulAtLeast(q - p, d);
      assert false;
    } else if p > q {
      MulAtLeast(p - q, d);
      assert false;
    }
  }

  lemma {:induction false} MulAtLeast(k: int, d: int)
    requires k >= 1 && d >= 0
    ensures k * d >= d
  {
    assert (k - 1) * d >= 0;
  }

  /** Masking is the remainder, shifting the quotient. */
  lemma {:induction false} LowIsMod(w: nat, k: nat)
    ensures w % Pow2(k) == Low(w, k) < Pow2(k)
  {
    Parts(w, k);
    ShlIsTimes(Shr(w, k), k);
    DivModUnique(w, Pow2(k), Shr(w, k), Low(w, k));
  }

  /** Masking twice is masking with the shorter mask. */
  lemma {:induction false} LowLow(w: nat, m: nat, d: nat)
    requires d <= m
    ensures Low(Low(w, m), d) == Low(w, d)
  {
    if d > 0 {
      assert Low(w, m) / 2 == Low(w / 2, m - 1);
      LowLow(w / 2, m - 1, d - 1);
    }
  }

  lemma {:induction false} LowSmall(w: nat, k: nat)
    requires w < Pow2(k)
    ensures Low(w, k) == w
  {
    ShlZero(k);
    JoinParts(0, w, k);
  }

  lemma {:induction false} LowAdd(w: nat, k: nat)
    ensures Low(w + Pow2(k), k) == Low(w, k)
    ensures Shr(w + Pow2(k), k) == Shr(w, k) + 1
  {
    Parts(w, k);
    ShlSum(Shr(w, k), 1, k);
    JoinParts(Shr(w, k) + 1, Low(w, k), k);
  }

  /** A residue class modulo 2^k splits into two classes modulo 2^(k+1). */
  lemma {:induction false} LowHalves(w: nat, k: nat)
    ensures Low(w, k + 1) == Low(w, k) || Low(w, k + 1) == Low(w, k) + Pow2(k)
  {
    if k > 0 {
      LowHalves(w / 2, k - 1);
    } else {
      assert Low(w, 1) == 2 * Low(w / 2, 0) + w % 2;
    }
  }

  // ---------- facts about reversal

  lemma {:induction false} RevBelow(n: nat, w: nat)
    ensures Rev(n, w) < Pow2(n)
  {
    if n > 0 {
      RevBelow(n - 1, w / 2);
      ShlZero(n - 1);
    }
  }

  /** Reading one more bit appends it at the low end. */
  lemma {:induction false} RevSnoc(n: nat, w: nat)
    ensures Rev(n + 1, w) == 2 * Rev(n, w) + Bit(w, n)
  {
    if n == 0 {
      assert Rev(1, w) == Shl(w % 2, 0) + Rev(0, w / 2);
    } else {
      RevSnoc(n - 1, w / 2);
    }
  }

  /** Meaning of the reversal: bit k of the result is bit n-1-k of the word. */
  lemma {:induction false} RevMirrors(n: nat, w: nat, k: nat)
    requires k < n
    ensures Bit(Rev(n, w), k) == Bit(w, n - 1 - k)
  {
    RevSnoc(n - 1, w);
    assert Rev(n, w) / 2 == Rev(n - 1, w);
    if k > 0 {
      RevMirrors(n - 1, w, k - 1);
    }
  }

  /** Reversing a word reverses its two parts and swaps them. */
  lemma {:induction false} RevSplit(j: nat, n: nat, w: nat)
    requires j <= n
    ensures Rev(n, w) == Shl(Rev(j, w), n - j) + Rev(n - j, Shr(w, j))
  {
    if j == 0 {
      ShlZero(n);
    } else {
      RevSplit(j - 1, n - 1, w / 2);
      ShlShl(w % 2, j - 1, n - j);
      ShlSum(Shl(w % 2, j - 1), Rev(j - 1, w / 2), n - j);
    }
  }

  /** Only the low n bits matter. */
  lemma {:induction false} RevIgnoresHighBits(n: nat, r: nat, c: nat)
    ensures Rev(n, Shl(c, n) + r) == Rev(n, r)
  {
    if n > 0 {
      assert (Shl(c, n) + r) / 2 == Shl(c, n - 1) + r / 2;
      RevIgnoresHighBits(n - 1, r / 2, c);
    }
  }

  /** A top bit becomes the low bit. */
  lemma {:induction false} RevOfJoin(n: nat, b: nat, r: nat)
    requires b < 2 && r < Pow2(n)
    ensures Rev(n + 1, Shl(b, n) + r) == 2 * Rev(n, r) + b
  {
    RevSnoc(n, Shl(b, n) + r);
    JoinParts(b, r, n);
    RevIgnoresHighBits(n, r, b);
  }

  lemma {:induction false} RevInvolution(n: nat, w: nat)
    requires w < Pow2(n)
    ensures Rev(n, Rev(n, w)) == w
  {
    if n > 0 {
      RevBelow(n - 1, w / 2);
      RevInvolution(n - 1, w / 2);
      RevOfJoin(n - 1, w % 2, Rev(n - 1, w / 2));
    }
  }

  /** The residue of a reversed word modulo 2^j is decided by the word's block of size 2^(n-j). */
  lemma {:induction false} RevResidue(n: nat, j: nat, w: nat)
    requires j <= n
    ensures Low(Rev(n, w), j) == Rev(j, Shr(w, n - j))
  {
    RevSplit(n - j, n, w);
    RevBelow(j, Shr(w, n - j));
    JoinParts(Rev(n - j, w), Rev(j, Shr(w, n - j)), j);
  }

  /** Block number b of size 2^(n-j) is exactly the residue class Rev(j, b) modulo 2^j. */
  lemma {:induction false} BlockIsResidueClass(n: nat, j: nat, b: nat, w: nat)
    requires j <= n && b < Pow2(j) && w < Pow2(n)
    ensures Shr(w, n - j) == b <==> Low(Rev(n, w), j) == Rev(j, b)
  {
    RevResidue(n, j, w);
    ShrBelow(w, j, n - j);
    RevInvolution(j, Shr(w, n - j));
    RevInvolution(j, b);
  }

  // ---------- the loops of the driver

  /** The or of w with b shifted to position k. */
  function OrBit(w: nat, b: nat, k: nat): nat {
    if b == 1 && Bit(w, k) == 0 then w + Pow2(k) else w
  }

  lemma {:induction false} OrIntoGap(r: nat, b: nat, k: nat)
    requires b < 2
    ensures OrBit(Shl(r, k + 1), b, k) == Shl(2 * r + b, k)
  {
    ShlShl(r, 1, k);
    assert Shl(r, 1) == 2 * Shl(r, 0);
    ShlShl(r, k, 1);
    assert Shl(Shl(r, k), 1) == 2 * Shl(Shl(r, k), 0);
    ShlSum(2 * r, b, k);
    ShlZero(k);
    Pow2Mono(0, k);
    JoinParts(2 * r, 0, k);
  }

  /** Mirrors the low numBits bits of word, one bit at a time from the low end. */
  method ReverseBits(numBits: nat, word: nat) returns (wout: nat)
    ensures wout == Rev(numBits, word)
  {
    wout := 0;
    var i := 0;
    ShlZero(numBits);
    while i < numBits
      invariant i <= numBits
      invariant wout == Shl(Rev(i, word), numBits - i)
    {
      RevSnoc(i, word);
      OrIntoGap(Rev(i, word), Bit(word, i), numBits - i - 1);
      wout := OrBit(wout, Bit(word, i), numBits - i - 1);
      i := i + 1;
    }
  }

  /** 2^k is the largest power of two that is at most inter and at most 32; a zero is read as a one. */
  ghost predicate IsIntervalLog(inter: nat, k: nat) {
    && k <= 5
    && (if inter == 0 then k == 0 else Pow2(k) <= inter)
    && (k < 5 ==> inter < Pow2(k + 1))
  }

  lemma {:induction false} ShiftTests(inter: nat, i: nat)
    ensures Shr(inter, i) > 1 <==> inter >= Pow2(i + 1)
  {
    if i > 0 {
      ShiftTests(inter / 2, i - 1);
    } else {
      assert Pow2(1) == 2 * Shl(1, 0);
    }
  }

  /** The largest power of two that is at most inter and at most 32. */
  method RoundInterval(inter: nat) returns (interval: nat, ghost k: nat)
    ensures interval == Pow2(k) && IsIntervalLog(inter, k)
    ensures interval in {1, 2, 4, 8, 16, 32}
    ensures if inter == 0 then interval == 1 else interval <= inter
    ensures interval < 32 ==> inter < 2 * interval
  {
    var i := 0;
    while Shr(inter, i) > 1 && i < 5
      decreases 5 - i
      invariant i <= 5
      invariant if inter == 0 then i == 0 else Pow2(i) <= inter
    {
      ShiftTests(inter, i);
      i := i + 1;
    }
    ShiftTests(inter, i);
    interval := Shl(1, i);
    k := i;
    SmallPowers(i);
  }

  lemma {:induction false} SmallPowers(k: nat)
    requires k <= 5
    ensures Pow2(k) in {1, 2, 4, 8, 16, 32} && (k < 5 <==> Pow2(k) < 32)
    ensures Pow2(k + 1) == 2 * Pow2(k)
  {
    if k > 0 {
      SmallPowers(k - 1);
      Pow2Mono(k, 5);
      assert Pow2(5) == 32 by {
        assert Pow2(5) == 2 * Shl(1, 4) && Shl(1, 4) == 2 * Shl(1, 3) && Shl(1, 3) == 2 * Shl(1, 2);
        assert Shl(1, 2) == 2 * Shl(1, 1);
      }
    }
  }
}
