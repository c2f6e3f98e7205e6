/** Unsigned machine words and the sets of bit numbers they hold.

    The kernel keeps one 32-bit word of ready tasks per priority level, one 32-bit
    word of non-empty levels and one 64-bit word of sleeping tasks; event groups
    keep 32-bit flag words.  A word is a natural number, its operators are defined
    bit by bit on that number, and everything proved elsewhere about words goes
    through `Bits`, the set of the bit numbers that are set. */
module Words {

  const WIDTH32 := 32
  const WIDTH64 := 64

  function Pow2(n: nat): (p: nat)
    ensures p > 0
  {
    if n == 0 then 1 else 2 * Pow2(n - 1)
  }

  /** w fits in a word of n bits. */
  predicate Fits(w: nat, n: nat) {
    w < Pow2(n)
  }

  /** The operator << applied to 1. */
  function Mask(i: nat): nat {
    Pow2(i)
  }

  /** The operator |. */
  function Or(a: nat, b: nat): nat {
    if a == 0 then b else if b == 0 then a
    else (if a % 2 == 1 || b % 2 == 1 then 1 else 0) + 2 * Or(a / 2, b / 2)
  }

  /** The operator &. */
  function And(a: nat, b: nat): nat {
    if a == 0 || b == 0 then 0
    else (if a % 2 == 1 && b % 2 == 1 then 1 else 0) + 2 * And(a / 2, b / 2)
  }

  /** The operator ~ on a word of n bits. */
  function Not(a: nat, n: nat): nat
    requires Fits(a, n)
  {
    Pow2(n) - 1 - a
  }

  /** Bit i of w. */
  predicate Has(w: nat, i: nat) {
    if i == 0 then w % 2 == 1 else Has(w / 2, i - 1)
  }

  /** The bit numbers set in w, for words of at most 64 bits. */
  function Bits(w: nat): set<nat> {
    set i: nat | i < WIDTH64 && Has(w, i)
  }

  lemma {:induction false} HasOr(a: nat, b: nat, i: nat)
    ensures Has(Or(a, b), i) <==> Has(a, i) || Has(b, i)
    decreases i
  {
    if a == 0 { HasZero(i); } else if b == 0 { HasZero(i); } else if i > 0 { HasOr(a / 2, b / 2, i - 1); }
  }

  lemma {:induction false} HasAnd(a: nat, b: nat, i: nat)
    ensures Has(And(a, b), i) <==> Has(a, i) && Has(b, i)
    decreases i
  {
    if a == 0 || b == 0 { HasZero(i); } else if i > 0 { HasAnd(a / 2, b / 2, i - 1); }
  }

  lemma {:induction false} HasNot(a: nat, n: nat, i: nat)
    requires Fits(a, n) && i < n
    ensures Has(Not(a, n), i) <==> !Has(a, i)
    decreases i
  {
    if i > 0 {
      assert Not(a, n) / 2 == Not(a / 2, n - 1);
      HasNot(a / 2, n - 1, i - 1);
    }
  }

  lemma {:induction false} HasMask(k: nat, i: nat)
    ensures Has(Mask(k), i) <==> i == k
    decreases i
  {
    if k == 0 {
      HasOne(i);
    } else if i > 0 {
      HasMask(k - 1, i - 1);
    }
  }

  lemma {:induction false} HasZero(i: nat)
    ensures !Has(0, i)
  {
    if i > 0 { HasZero(i - 1); }
  }

  lemma {:induction false} HasOne(i: nat)
    ensures Has(1, i) <==> i == 0
  {
    if i > 0 { HasZero(i - 1); }
  }

  /** A word of n bits has no bit at or above n. */
  lemma {:induction false} HasFits(w: nat, n: nat, i: nat)
    requires Fits(w, n) && n <= i
    ensures !Has(w, i)
    decreases n
  {
    if n == 0 { HasZero(i); } else { HasFits(w / 2, n - 1, i - 1); }
  }

  lemma {:induction false} Pow2Monotone(m: nat, n: nat)
    requires m <= n
    ensures Pow2(m) <= Pow2(n)
    decreases n - m
  {
    if m < n { Pow2Monotone(m + 1, n); }
  }

  lemma {:induction false} OrFits(a: nat, b: nat, n: nat)
    requires Fits(a, n) && Fits(b, n)
    ensures Fits(Or(a, b), n)
    decreases n
  {
    if a != 0 && b != 0 { OrFits(a / 2, b / 2, n - 1); }
  }

  lemma {:induction false} AndFits(a: nat, b: nat, n: nat)
    requires Fits(a, n)
    ensures Fits(And(a, b), n)
    decreases n
  {
    if a != 0 && b != 0 { AndFits(a / 2, b / 2, n - 1); }
  }

  /** A word is zero exactly when none of its bits is set. */
  lemma {:induction false} ZeroBits(w: nat, n: nat)
    requires Fits(w, n) && n <= WIDTH64
    ensures w == 0 <==> Bits(w) == {}
  {
    if w == 0 {
      forall i: nat
        ensures !Has(w, i)
      {
        HasZero(i);
      }
    } else {
      var i := SomeBit(w, n);
      assert i in Bits(w);
    }
  }

  lemma {:induction false} SomeBit(w: nat, n: nat) returns (i: nat)
    requires 0 < w < Pow2(n)
    ensures i < n && Has(w, i)
    decreases n
  {
    if w % 2 == 1 {
      i := 0;
    } else {
      var j := SomeBit(w / 2, n - 1);
      i := j + 1;
    }
  }

  // ------------------------------------------------- the words as sets of numbers

  /** Setting a bit adds exactly its number and keeps the width. */
  lemma SetBit(w: nat, i: nat, n: nat)
    requires Fits(w, n) && i < n <= WIDTH64
    ensures Bits(Or(w, Mask(i))) == Bits(w) + {i}
    ensures Fits(Or(w, Mask(i)), n)
  {
    forall j: nat
      ensures Has(Or(w, Mask(i)), j) <==> Has(w, j) || j == i
    {
      HasOr(w, Mask(i), j);
      HasMask(i, j);
    }
    Pow2Monotone(i + 1, n);
    OrFits(w, Mask(i), n);
  }

  /** Clearing a bit removes exactly its number and keeps the width. */
  lemma ClearBit(w: nat, i: nat, n: nat)
    requires Fits(w, n) && i < n <= WIDTH64
    ensures Fits(Mask(i), n)
    ensures Bits(And(w, Not(Mask(i), n))) == Bits(w) - {i}
    ensures Fits(And(w, Not(Mask(i), n)), n)
  {
    Pow2Monotone(i + 1, n);
    assert Fits(Mask(i), n);
    forall j: nat
      ensures Has(And(w, Not(Mask(i), n)), j) <==> Has(w, j) && j != i
    {
      HasAnd(w, Not(Mask(i), n), j);
      HasMask(i, j);
      if j < n { HasNot(Mask(i), n, j); } else { HasFits(w, n, j); }
    }
    AndFits(w, Not(Mask(i), n), n);
  }

  /** Testing a bit with its mask. */
  lemma TestBit(w: nat, i: nat, n: nat)
    requires Fits(w, n) && i < n <= WIDTH64
    ensures And(w, Mask(i)) != 0 <==> i in Bits(w)
  {
    forall j: nat
      ensures Has(And(w, Mask(i)), j) <==> Has(w, j) && j == i
    {
      HasAnd(w, Mask(i), j);
      HasMask(i, j);
    }
    AndFits(w, Mask(i), n);
    ZeroBits(And(w, Mask(i)), n);
    assert And(w, Mask(i)) != 0 ==> exists j :: j in Bits(And(w, Mask(i)));
    assert i in Bits(w) ==> i in Bits(And(w, Mask(i)));
  }

  /** The operators | and & are union and intersection; so two flag words share a
      flag exactly when their bits do. */
  lemma OrAndBits(a: nat, b: nat, n: nat)
    requires Fits(a, n) && Fits(b, n) && n <= WIDTH64
    ensures Bits(Or(a, b)) == Bits(a) + Bits(b) && Fits(Or(a, b), n)
    ensures Bits(And(a, b)) == Bits(a) * Bits(b) && Fits(And(a, b), n)
    ensures And(a, b) == 0 <==> Bits(a) * Bits(b) == {}
  {
    forall j: nat
      ensures Has(Or(a, b), j) <==> Has(a, j) || Has(b, j)
      ensures Has(And(a, b), j) <==> Has(a, j) && Has(b, j)
    {
      HasOr(a, b, j);
      HasAnd(a, b, j);
    }
    OrFits(a, b, n);
    AndFits(a, b, n);
    ZeroBits(And(a, b), n);
  }

  /** a & ~b removes the bits of b. */
  lemma AndNotBits(a: nat, b: nat, n: nat)
    requires Fits(a, n) && Fits(b, n) && n <= WIDTH64
    ensures Bits(And(a, Not(b, n))) == Bits(a) - Bits(b) && Fits(And(a, Not(b, n)), n)
  {
    forall j: nat
      ensures Has(And(a, Not(b, n)), j) <==> Has(a, j) && !Has(b, j)
    {
      HasAnd(a, Not(b, n), j);
      if j < n { HasNot(b, n, j); } else { HasFits(a, n, j); }
    }
    AndFits(a, Not(b, n), n);
  }

  // ------------------------------------------------- arrays of words

  /** w is the n-bit word whose set bits are s. */
  ghost predicate WordOf(w: nat, n: nat, s: set<nat>) {
    Fits(w, n) && n <= WIDTH64 && Bits(w) == s
  }

  ghost predicate WordsOf(ws: seq<nat>, n: nat, ss: seq<set<nat>>) {
    |ws| == |ss| && forall l | 0 <= l < |ws| :: WordOf(ws[l], n, ss[l])
  }

  lemma SetBitOf(w: nat, n: nat, s: set<nat>, i: nat)
    requires WordOf(w, n, s) && i < n
    ensures WordOf(Or(w, Mask(i)), n, s + {i})
  {
    SetBit(w, i, n);
  }

  lemma ClearBitOf(w: nat, n: nat, s: set<nat>, i: nat)
    requires WordOf(w, n, s) && i < n
    ensures Fits(Mask(i), n) && WordOf(And(w, Not(Mask(i), n)), n, s - {i})
  {
    ClearBit(w, i, n);
  }

  lemma ZeroOf(w: nat, n: nat, s: set<nat>)
    requires WordOf(w, n, s)
    ensures w == 0 <==> s == {}
  {
    ZeroBits(w, n);
  }

  lemma ZeroWords(ws: seq<nat>, n: nat)
    requires n <= WIDTH64 && forall l | 0 <= l < |ws| :: ws[l] == 0
    ensures WordOf(0, n, {}) && WordsOf(ws, n, seq(|ws|, l => {}))
  {
    ZeroBits(0, n);
  }

  lemma SetBitIn(ws: seq<nat>, n: nat, ss: seq<set<nat>>, l: nat, i: nat)
    requires WordsOf(ws, n, ss) && l < |ws| && i < n
    ensures WordsOf(ws[l := Or(ws[l], Mask(i))], n, ss[l := ss[l] + {i}])
  {
    SetBitOf(ws[l], n, ss[l], i);
  }

  lemma ClearBitIn(ws: seq<nat>, n: nat, ss: seq<set<nat>>, l: nat, i: nat)
    requires WordsOf(ws, n, ss) && l < |ws| && i < n
    ensures Fits(Mask(i), n)
    ensures WordsOf(ws[l := And(ws[l], Not(Mask(i), n))], n, ss[l := ss[l] - {i}])
    ensures And(ws[l], Not(Mask(i), n)) == 0 <==> ss[l] - {i} == {}
  {
    ClearBitOf(ws[l], n, ss[l], i);
    ZeroOf(And(ws[l], Not(Mask(i), n)), n, ss[l] - {i});
  }

  // ------------------------------------------------- scanning a word from bit 0

  /** What is left of w after k single right shifts. */
  ghost function Shr(w: nat, k: nat): nat {
    if k == 0 then w else Shr(w, k - 1) / 2
  }

  lemma {:induction false} HasShr(w: nat, k: nat, j: nat)
    ensures Has(Shr(w, k), j) <==> Has(w, k + j)
    decreases k
  {
    if k > 0 { HasShr(w, k - 1, j + 1); }
  }

  lemma {:induction false} ShrFits(w: nat, k: nat, n: nat)
    requires Fits(w, n) && k <= n
    ensures Fits(Shr(w, k), n - k)
  {
    if k > 0 { ShrFits(w, k - 1, n); }
  }

  /** One step of the scan: the lowest bit of the shifted word is bit k of w; a
      shifted word that is zero leaves no bit at or above k, and one that is not
      zero has not been shifted n times yet. */
  lemma ScanBit(w: nat, k: nat, n: nat)
    requires Fits(w, n) && k <= n <= WIDTH64
    ensures Shr(w, k) != 0 ==> k < n && (And(Shr(w, k), 1) != 0 <==> k in Bits(w))
    ensures Shr(w, k) == 0 ==> forall i | i in Bits(w) :: i < k
  {
    ShrFits(w, k, n);
    HasShr(w, k, 0);
    if Shr(w, k) == 0 {
      forall i: nat | k <= i
        ensures !Has(w, i)
      {
        HasShr(w, k, i - k);
        HasZero(i - k);
      }
    }
  }
}
