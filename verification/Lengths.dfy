/** How long a closure manifest is, and so how many payments an authorization may have to be closable. */
module Lengths {
  import opened Messages

  /** Ten to the power n. */
  function Power(n: nat): nat {
    if n == 0 then 1 else 10 * Power(n - 1)
  }

  lemma Nineteen()
    ensures Power(19) == 10_000_000_000_000_000_000
  {
    assert Power(4) == 10_000;
    assert Power(8) == 100_000_000 by {
      assert Power(5) == 100_000 && Power(6) == 1_000_000 && Power(7) == 10_000_000;
    }
    assert Power(12) == 1_000_000_000_000 by {
      assert Power(9) == 1_000_000_000 && Power(10) == 10_000_000_000 && Power(11) == 100_000_000_000;
    }
    assert Power(16) == 10_000_000_000_000_000 by {
      assert Power(13) == 10_000_000_000_000 && Power(14) == 100_000_000_000_000 && Power(15) == 1_000_000_000_000_000;
    }
    assert Power(17) == 100_000_000_000_000_000 && Power(18) == 1_000_000_000_000_000_000;
  }

  /** A number has at most k digits exactly when it is below the power. */
  lemma {:induction false} DigitsBelow(n: nat, k: nat)
    requires k >= 1
    ensures DigitCount(n) <= k <==> n < Power(k)
  {
    if n >= 10 && k > 1 {
      assert Power(k) == 10 * Power(k - 1);
      DigitsBelow(n / 10, k - 1);
    } else {
      assert Power(k) >= 10 && Power(1) == 10 by { PowerGrows(k); }
      if n >= 10 {
        assert DigitCount(n) == 1 + DigitCount(n / 10) >= 2;
      }
    }
  }

  lemma {:induction false} PowerGrows(k: nat)
    requires k >= 1
    ensures Power(k) >= 10 && Power(1) == 10
  {
    if k > 1 {
      PowerGrows(k - 1);
    }
  }

  lemma AmountDigits(n: int)
    requires 1 <= n <= MAX_INT64
    ensures 1 <= DigitCount(n) <= 19
  {
    Nineteen();
    DigitsBelow(n, 19);
    hide Power;
  }

  /** The largest amount of an entry has 19 digits. */
  lemma LargestDigits()
    ensures DigitCount(MAX_INT64) == 19
  {
    AmountDigits(MAX_INT64);
    assert Power(18) == 1_000_000_000_000_000_000 by {
      Nineteen();
      assert Power(19) == 10 * Power(18);
    }
    DigitsBelow(MAX_INT64, 18);
  }

  /** Indices up to 9 have one digit, later ones at least two, up to 99 exactly two. */
  lemma IndexDigits(i: int)
    requires i >= 1
    ensures i < 10 ==> DigitCount(i) == 1
    ensures i >= 10 ==> DigitCount(i) >= 2
    ensures 10 <= i < 100 ==> DigitCount(i) == 2
  {
  }

  /** Digits of the indices from one to n, for n below 100, and a lower bound for larger ones. */
  function IndicesLength(n: nat): nat {
    if n < 10 then n else 2 * n - 9
  }

  /** The lines of n entries with indices 1 to n take between 175 and 193 bytes each, and their indices. */
  lemma {:induction false} LengthBounds(entries: seq<Entry>)
    requires forall i | 0 <= i < |entries| :: entries[i].index == i + 1 && 1 <= entries[i].amount <= MAX_INT64
    ensures LinesLength(entries) >= 175 * |entries| + IndicesLength(|entries|)
    ensures |entries| < 100 ==> LinesLength(entries) <= 193 * |entries| + IndicesLength(|entries|)
  {
    if |entries| > 0 {
      var last := entries[|entries| - 1];
      LengthBounds(entries[..|entries| - 1]);
      AmountDigits(last.amount);
      IndexDigits(last.index);
      hide DigitCount;
    }
  }

  /** Up to 21 payments always fit a manifest, 24 or more never do. */
  lemma FitsByCount(entries: seq<Entry>)
    requires WellFormedManifest(entries)
    ensures |entries| <= 21 ==> Fits(entries)
    ensures |entries| >= 24 ==> !Fits(entries)
  {
    LengthBounds(entries);
    hide LinesLength;
  }

  /** Entries of one amount each. */
  lemma {:induction false} UniformLength(entries: seq<Entry>, amount: int)
    requires |entries| < 100
    requires forall i | 0 <= i < |entries| :: entries[i].index == i + 1 && entries[i].amount == amount
    ensures LinesLength(entries) == (174 + DigitCount(amount)) * |entries| + IndicesLength(|entries|)
  {
    hide DigitCount, IndicesLength;
    if |entries| > 0 {
      var n := |entries|;
      UniformLength(entries[..n - 1], amount);
      IndicesGrow(n);
      OneMore(174 + DigitCount(amount), n);
    } else {
      assert IndicesLength(0) == 0 by { IndicesGrow(1); }
    }
  }

  lemma IndicesGrow(n: nat)
    requires 1 <= n < 100
    ensures IndicesLength(0) == 0 && IndicesLength(n) == IndicesLength(n - 1) + DigitCount(n)
  {
    IndexDigits(n);
    hide DigitCount;
  }

  lemma OneMore(d: nat, n: nat)
    requires n >= 1
    ensures d * n == d * (n - 1) + d
  {
  }

  /** With 22 or 23 payments it depends on their amounts: with the smallest they fit, with the largest they do not. */
  lemma BetweenItDepends(entries: seq<Entry>, amount: int)
    requires 22 <= |entries| <= 23 && (amount == 1 || amount == MAX_INT64)
    requires forall i | 0 <= i < |entries| :: entries[i].index == i + 1 && entries[i].amount == amount
    ensures Fits(entries) <==> amount == 1
  {
    UniformLength(entries, amount);
    LargestDigits();
    assert DigitCount(1) == 1;
    hide LinesLength, DigitCount;
    if amount == 1 {
      assert LinesLength(entries) == 175 * |entries| + IndicesLength(|entries|);
    } else {
      assert LinesLength(entries) == 193 * |entries| + IndicesLength(|entries|);
    }
  }

  /** The length counted from the first line. */
  lemma {:induction false} LengthFromFront(entries: seq<Entry>)
    requires |entries| > 0
    ensures LinesLength(entries) ==
            174 + DigitCount(entries[0].amount) + DigitCount(entries[0].index) + LinesLength(entries[1..])
  {
    hide DigitCount;
    if |entries| > 1 {
      LengthFromFront(entries[..|entries| - 1]);
      assert entries[..|entries| - 1][1..] == entries[1..][..|entries| - 2];
    } else {
      assert entries[..0] == [] && entries[1..] == [];
    }
  }
}
