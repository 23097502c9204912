/** Card-number redaction in bytes: digits are 48 to 57, separators 32 and 45, the mask is 42. Which bytes of a text
    are masked is said here by windows of the text, without the runs and ranks the scanner is proved against. */
module RedactTerms {
  import opened Outcomes
  import opened Utf8
  import opened Redact

  // ---- windows ----

  predicate DigitByte(s: Bytes, i: int) {
    0 <= i < |s| && 48 <= s[i] <= 57
  }

  /** A space or a hyphen. */
  predicate SepByte(s: Bytes, i: int) {
    0 <= i < |s| && (s[i] == 32 || s[i] == 45)
  }

  function DigitsOf(s: Bytes): Bytes {
    if s == [] then []
    else if 48 <= s[0] <= 57 then [s[0]] + DigitsOf(s[1..])
    else DigitsOf(s[1..])
  }

  /** A digit, or a single separator between two digits. */
  predicate Joined(s: Bytes, i: int) {
    DigitByte(s, i) || (SepByte(s, i) && DigitByte(s, i - 1) && DigitByte(s, i + 1))
  }

  ghost predicate AllJoined(s: Bytes, a: int, b: int) {
    forall i :: a <= i < b ==> Joined(s, i)
  }

  /** Another digit follows, next to the window or across one separator. */
  predicate GoesOn(s: Bytes, b: int) {
    DigitByte(s, b) || (SepByte(s, b) && DigitByte(s, b + 1))
  }

  /** From `a` to `b`: 13 to 19 digits, singly separated at most, with no further digit to the right. */
  ghost predicate CardAt(s: Bytes, a: int, b: int) {
    && 0 <= a < b <= |s|
    && DigitByte(s, a) && DigitByte(s, b - 1)
    && AllJoined(s, a, b)
    && 13 <= |DigitsOf(s[a..b])| <= 19
    && !GoesOn(s, b)
  }

  /** A digit of such a window with at least four more after it. */
  ghost predicate MaskedIn(s: Bytes, k: int, a: int, b: int) {
    CardAt(s, a, b) && a <= k < b && DigitByte(s, k) && |DigitsOf(s[k..b])| > 4
  }

  ghost predicate Covered(s: Bytes, k: int) {
    exists a, b :: MaskedIn(s, k, a, b)
  }

  // ---- windows and runs ----

  lemma {:induction false} SameDigits(s: Bytes)
    ensures DigitsOf(s) == OnlyDigits(s)
  {
    if s != [] {
      SameDigits(s[1..]);
    }
  }

  /** The rank of a digit counts the digits to the end of its run. */
  lemma RankIsCount(s: Bytes, i: int)
    requires DigitAt(s, i)
    ensures |DigitsOf(s[i..RunEnd(s, i)])| == Rank(s, i)
  {
    var e := RunEnd(s, i);
    WithinRun(s, i, e - 1);
    OnlyDigitsAppend(s[i..e - 1], s[e - 1]);
    assert s[i..e - 1] + [s[e - 1]] == s[i..e];
    SameDigits(s[i..e]);
  }

  lemma {:induction false} RunIsJoined(s: Bytes, i: int, k: int)
    requires DigitAt(s, i) && i <= k < RunEnd(s, i)
    ensures Joined(s, k)
    decreases k - i
  {
    if i < k && HasNext(s, i) && Next(s, i) <= k {
      RunIsJoined(s, Next(s, i), k);
    }
  }

  /** A window of joined bytes with nothing to follow ends where the run of its first digit ends. */
  lemma {:induction false} WindowIsRun(s: Bytes, a: int, b: int)
    requires 0 <= a < b <= |s| && DigitByte(s, a) && DigitByte(s, b - 1) && AllJoined(s, a, b) && !GoesOn(s, b)
    ensures DigitAt(s, a) && RunEnd(s, a) == b
    decreases b - a
  {
    if a < b - 1 {
      assert Joined(s, a + 1);
      assert HasNext(s, a) && Next(s, a) < b;
      WindowIsRun(s, Next(s, a), b);
    }
  }

  /** In one run, a digit of no lower rank stands no later. */
  lemma HigherRankIsEarlier(s: Bytes, k: int, a: int)
    requires DigitAt(s, k) && DigitAt(s, a) && RunEnd(s, a) == RunEnd(s, k) && Rank(s, a) >= Rank(s, k)
    ensures a <= k
  {
    if k < a {
      WithinRun(s, k, a);
    }
  }

  lemma MaskedIsCovered(s: Bytes, k: int)
    requires Masked(s, k)
    ensures Covered(s, k)
  {
    var n := if RunLength(s, k) <= 19 then RunLength(s, k) else 19;
    var a := EveryRankOccurs(s, k, n);
    var b := RunEnd(s, k);
    HigherRankIsEarlier(s, k, a);
    forall i | a <= i < b
      ensures Joined(s, i)
    {
      RunIsJoined(s, a, i);
    }
    RankIsCount(s, a);
    RankIsCount(s, k);
    assert MaskedIn(s, k, a, b);
  }

  /** In a window, what is masked is what has at least four digits of the window after it. */
  lemma MaskedInWindow(s: Bytes, k: int, a: int, b: int)
    requires CardAt(s, a, b) && a <= k < b
    ensures Masked(s, k) <==> MaskedIn(s, k, a, b)
  {
    WindowIsRun(s, a, b);
    RankIsCount(s, a);
    if DigitByte(s, k) {
      WithinRun(s, a, k);
      RankIsCount(s, k);
    }
  }

  // ---- main results ----

  /** Byte by byte, for every text: a byte becomes 42 exactly if it is a digit with at least four more after it in
      some window of 13 to 19 digits, singly separated by spaces or hyphens and with no digit to follow; every
      other byte stays. */
  lemma RedactsExactly(s: Bytes, k: int)
    requires 0 <= k < |s|
    ensures Redacted(s)[k] == if Covered(s, k) then 42 else s[k]
  {
    if Masked(s, k) {
      MaskedIsCovered(s, k);
    }
    if Covered(s, k) {
      var a, b :| MaskedIn(s, k, a, b);
      MaskedInWindow(s, k, a, b);
    }
  }

  /** A text that is one card number: 13 to 19 digits, from the first byte to the last, with at most single spaces
      or hyphens in between. All digits but the last four become 42 and the rest stays. */
  lemma CardNumberIsMasked(s: Bytes, k: int)
    requires s != [] && DigitByte(s, 0) && DigitByte(s, |s| - 1) && AllJoined(s, 0, |s|)
    requires 13 <= |DigitsOf(s)| <= 19
    requires 0 <= k < |s|
    ensures Redacted(s)[k] == if 48 <= s[k] <= 57 && |DigitsOf(s[k..])| > 4 then 42 else s[k]
  {
    assert s[0..|s|] == s && s[k..|s|] == s[k..];
    MaskedInWindow(s, k, 0, |s|);
  }

  /** `last4` gives the last four digits of a text with 13 to 19 of them, and nothing otherwise. */
  lemma Last4Plainly(s: Bytes)
    ensures var digits := DigitsOf(s);
      Last4(s) == if 13 <= |digits| <= 19 then Some(digits[|digits| - 4..]) else None
  {
    SameDigits(s);
  }

  // ---- instances ----

  lemma CountFrom(s: Bytes, k: int)
    requires 0 <= k < |s|
    ensures |DigitsOf(s[k..])| == (if 48 <= s[k] <= 57 then 1 else 0) + |DigitsOf(s[k + 1..])|
  {
    assert s[k..][1..] == s[k + 1..];
  }

  /** Where the separators of four groups of four stand. */
  predicate BetweenGroups(k: int) {
    k == 4 || k == 9 || k == 14
  }

  predicate FourGroups(s: Bytes, sep: Byte) {
    && |s| == 19
    && (forall k :: 0 <= k < 19 ==> if BetweenGroups(k) then s[k] == sep else 48 <= s[k] <= 57)
  }

  /** The digits from `k` on in four groups of four. */
  function GroupDigitsLeft(k: int): int {
    if k <= 4 then 16 - k else if k <= 9 then 17 - k else if k <= 14 then 18 - k else 19 - k
  }

  lemma {:induction false} FourGroupsCount(s: Bytes, sep: Byte, k: int)
    requires FourGroups(s, sep) && (sep == 32 || sep == 45) && 0 <= k <= 19
    ensures |DigitsOf(s[k..])| == GroupDigitsLeft(k)
    decreases 19 - k
  {
    if k < 19 {
      FourGroupsCount(s, sep, k + 1);
      CountFrom(s, k);
    }
  }

  /** Any sixteen digits in four groups, spaced or hyphenated: twelve are masked, four and the layout stay. */
  lemma FourGroupsMasked(s: Bytes, sep: Byte, k: int)
    requires FourGroups(s, sep) && (sep == 32 || sep == 45) && 0 <= k < 19
    ensures Redacted(s)[k] == if k < 14 && !BetweenGroups(k) then 42 else s[k]
  {
    forall i | 0 <= i < 19
      ensures Joined(s, i)
    {
      assert BetweenGroups(i) ==> !BetweenGroups(i - 1) && !BetweenGroups(i + 1);
    }
    FourGroupsCount(s, sep, 0);
    FourGroupsCount(s, sep, k);
    assert s[0..] == s;
    CardNumberIsMasked(s, k);
  }

  const SPACED: Bytes := [52, 50, 52, 50, 32, 48, 57, 48, 57, 32, 49, 51, 53, 55, 32, 50, 52, 54, 56]

  const SPACED_MASKED: Bytes := [42, 42, 42, 42, 32, 42, 42, 42, 42, 32, 42, 42, 42, 42, 32, 50, 52, 54, 56]

  const HYPHENATED: Bytes := [52, 50, 52, 50, 45, 48, 57, 48, 57, 45, 49, 51, 53, 55, 45, 57, 48, 48, 57]

  const HYPHENATED_MASKED: Bytes := [42, 42, 42, 42, 45, 42, 42, 42, 42, 45, 42, 42, 42, 42, 45, 57, 48, 48, 57]

  /** `4242 0909 1357 2468`. */
  lemma SpacedCard()
    ensures Redacted(SPACED) == SPACED_MASKED
  {
    assert FourGroups(SPACED, 32);
    forall k | 0 <= k < 19
      ensures Redacted(SPACED)[k] == SPACED_MASKED[k]
    {
      FourGroupsMasked(SPACED, 32, k);
    }
  }

  /** `4242-0909-1357-9009`. */
  lemma HyphenatedCard()
    ensures Redacted(HYPHENATED) == HYPHENATED_MASKED
  {
    assert FourGroups(HYPHENATED, 45);
    forall k | 0 <= k < 19
      ensures Redacted(HYPHENATED)[k] == HYPHENATED_MASKED[k]
    {
      FourGroupsMasked(HYPHENATED, 45, k);
    }
  }

  lemma {:induction false} SolidCount(s: Bytes, k: int)
    requires (forall i :: 0 <= i < |s| ==> 48 <= s[i] <= 57) && 0 <= k <= |s|
    ensures |DigitsOf(s[k..])| == |s| - k
    decreases |s| - k
  {
    if k < |s| {
      SolidCount(s, k + 1);
      CountFrom(s, k);
    }
  }

  /** Digits only, 13 to 19 of them, whichever they are. */
  lemma SolidNumberIsMasked(s: Bytes, k: int)
    requires 13 <= |s| <= 19 && (forall i :: 0 <= i < |s| ==> 48 <= s[i] <= 57) && 0 <= k < |s|
    ensures Redacted(s)[k] == if k < |s| - 4 then 42 else s[k]
  {
    SolidCount(s, 0);
    SolidCount(s, k);
    assert s[0..] == s;
    CardNumberIsMasked(s, k);
  }
}
