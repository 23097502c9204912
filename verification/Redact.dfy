/** Redaction of card numbers in text bound for the log: the scanner's exact effect, byte by byte. */
module Redact {
  import opened Outcomes
  import opened Utf8

  const STAR: Byte := 42

  // ---- runs of digits ----

  predicate IsDigit(b: Byte) {
    48 <= b <= 57
  }

  predicate DigitAt(s: Bytes, i: int) {
    0 <= i < |s| && IsDigit(s[i])
  }

  predicate SepAt(s: Bytes, i: int) {
    0 <= i < |s| && (s[i] == 32 || s[i] == 45)
  }

  /** A run goes from digit to digit, adjacent or across one separator. */
  predicate HasNext(s: Bytes, i: int) {
    DigitAt(s, i + 1) || (SepAt(s, i + 1) && DigitAt(s, i + 2))
  }

  function Next(s: Bytes, i: int): int
    requires HasNext(s, i)
  {
    if DigitAt(s, i + 1) then i + 1 else i + 2
  }

  predicate HasPrev(s: Bytes, i: int) {
    DigitAt(s, i - 1) || (SepAt(s, i - 1) && DigitAt(s, i - 2))
  }

  function Prev(s: Bytes, i: int): int
    requires HasPrev(s, i)
  {
    if DigitAt(s, i - 1) then i - 1 else i - 2
  }

  /** The rank of a digit counted from the end of its run: the last digit is first. */
  function Rank(s: Bytes, i: int): (r: nat)
    requires DigitAt(s, i)
    decreases |s| - i
  {
    1 + if HasNext(s, i) then Rank(s, Next(s, i)) else 0
  }

  /** How many digits of the run come before this one. */
  function Before(s: Bytes, i: int): nat
    requires DigitAt(s, i)
    decreases i
  {
    if HasPrev(s, i) then 1 + Before(s, Prev(s, i)) else 0
  }

  function RunLength(s: Bytes, i: int): nat
    requires DigitAt(s, i)
  {
    Before(s, i) + Rank(s, i)
  }

  /** Just past the last digit of the run. */
  function RunEnd(s: Bytes, i: int): (end: int)
    requires DigitAt(s, i)
    ensures i < end && DigitAt(s, end - 1) && !HasNext(s, end - 1)
    decreases |s| - i
  {
    if HasNext(s, i) then RunEnd(s, Next(s, i)) else i + 1
  }

  /** The digits of the run from this one on. */
  function RunDigits(s: Bytes, i: int): (digits: Bytes)
    requires DigitAt(s, i)
    decreases |s| - i
  {
    [s[i]] + if HasNext(s, i) then RunDigits(s, Next(s, i)) else []
  }

  lemma NextThenPrev(s: Bytes, i: int)
    requires DigitAt(s, i) && HasNext(s, i)
    ensures HasPrev(s, Next(s, i)) && Prev(s, Next(s, i)) == i
    ensures RunLength(s, Next(s, i)) == RunLength(s, i) && RunEnd(s, Next(s, i)) == RunEnd(s, i)
  {
  }

  lemma PrevThenNext(s: Bytes, i: int)
    requires DigitAt(s, i) && HasPrev(s, i)
    ensures HasNext(s, Prev(s, i)) && Next(s, Prev(s, i)) == i
    ensures RunLength(s, Prev(s, i)) == RunLength(s, i) && RunEnd(s, Prev(s, i)) == RunEnd(s, i)
  {
  }

  // ---- the closed form ----

  predicate Masked(s: Bytes, i: int) {
    DigitAt(s, i) && RunLength(s, i) >= 13 && 5 <= Rank(s, i) <= 19
  }

  /** A digit of rank r in a run of N is masked just when N is at least 13 and r is between 5 and 19.
      Nothing else changes. */
  function Redacted(s: Bytes): (t: Bytes) {
    seq(|s|, i requires 0 <= i < |s| => if Masked(s, i) then STAR else s[i])
  }

  function OnlyDigits(s: Bytes): Bytes {
    if s == [] then []
    else if IsDigit(s[0]) then [s[0]] + OnlyDigits(s[1..])
    else OnlyDigits(s[1..])
  }

  // ---- the scanner ----

  /** How far the scan has come: `last` is the last digit taken, with at most one separator behind it. */
  ghost predicate Scanned(s: Bytes, start: nat, i: int, digits: Bytes, lastWasSep: bool, last: int) {
    if digits == [] then i == start && !lastWasSep
    else
      && DigitAt(s, start) && DigitAt(s, last)
      && i == last + (if lastWasSep then 2 else 1)
      && (lastWasSep ==> SepAt(s, last + 1))
      && RunDigits(s, start) == digits + RunDigits(s, last)[1..]
      && RunEnd(s, last) == RunEnd(s, start)
  }

  lemma RunDigitsNext(s: Bytes, i: int)
    requires DigitAt(s, i) && HasNext(s, i)
    ensures RunDigits(s, i)[1..] == [s[Next(s, i)]] + RunDigits(s, Next(s, i))[1..]
  {
  }

  lemma MoveFirst(digits: Bytes, next: Byte, rest: Bytes)
    ensures digits + ([next] + rest) == (digits + [next]) + rest
  {
  }

  lemma ScanDigit(s: Bytes, start: nat, i: int, digits: Bytes, lastWasSep: bool, last: int)
    requires Scanned(s, start, i, digits, lastWasSep, last) && DigitAt(s, i)
    ensures Scanned(s, start, i + 1, digits + [s[i]], false, i)
  {
    if digits == [] {
      assert digits + [s[i]] == [s[i]];
      assert RunDigits(s, i) == [s[i]] + RunDigits(s, i)[1..];
    } else {
      assert HasNext(s, last) && Next(s, last) == i;
      RunDigitsNext(s, last);
      MoveFirst(digits, s[i], RunDigits(s, i)[1..]);
    }
  }

  lemma ScanStops(s: Bytes, start: nat, i: int, digits: Bytes, lastWasSep: bool, last: int)
    requires Scanned(s, start, i, digits, lastWasSep, last) && digits != []
    requires !DigitAt(s, i) && !(SepAt(s, i) && !lastWasSep)
    requires !lastWasSep || i <= |s|
    ensures RunDigits(s, start) == digits && RunEnd(s, start) == if lastWasSep then i - 1 else i
  {
    assert !HasNext(s, last);
    assert RunDigits(s, last)[1..] == [];
  }

  /** Scanning from any digit of a run ends where the run ends, with the run's remaining digits. */
  method ScanPan(bytes: Bytes, start: nat) returns (found: Option<(nat, Bytes)>)
    ensures !DigitAt(bytes, start) ==> found == None
    ensures DigitAt(bytes, start) ==>
      found == if 13 <= Rank(bytes, start) <= 19 then Some((RunEnd(bytes, start), RunDigits(bytes, start))) else None
  {
    var i := start;
    var digits: Bytes := [];
    var lastWasSep := false;
    ghost var last := start;
    while i < |bytes|
      invariant start <= i && (digits != [] ==> i <= |bytes|)
      invariant Scanned(bytes, start, i, digits, lastWasSep, last)
      decreases |bytes| - i
    {
      var b := bytes[i];
      if IsDigit(b) {
        ScanDigit(bytes, start, i, digits, lastWasSep, last);
        digits, last := digits + [b], i;
        lastWasSep := false;
        i := i + 1;
      } else if (b == 32 || b == 45) && !lastWasSep && digits != [] {
        lastWasSep := true;
        i := i + 1;
      } else {
        break;
      }
    }
    if digits != [] {
      ScanStops(bytes, start, i, digits, lastWasSep, last);
      RunDigitsCount(bytes, start);
    }
    if lastWasSep {
      i := i - 1;
    }
    if 13 <= |digits| <= 19 {
      found := Some((i, digits));
    } else {
      found := None;
    }
  }

  lemma {:induction false} RunDigitsCount(s: Bytes, i: int)
    requires DigitAt(s, i)
    ensures |RunDigits(s, i)| == Rank(s, i)
    decreases |s| - i
  {
    if HasNext(s, i) {
      RunDigitsCount(s, Next(s, i));
    }
  }

  /** Every digit of the span but the last four of `digits` becomes a star. Beyond ASCII a byte is never a
      digit, so going by bytes copies such characters whole. */
  method MaskKeepingLast4(span: Bytes, digits: Bytes) returns (out: Bytes)
    ensures |out| == |span|
    ensures forall k :: 0 <= k < |span| ==>
      out[k] == if IsDigit(span[k]) && |OnlyDigits(span[..k])| + 4 < |digits| then STAR else span[k]
  {
    var keepFrom := if |digits| >= 4 then |digits| - 4 else 0;
    var digitIdx := 0;
    out := [];
    var i := 0;
    while i < |span|
      invariant 0 <= i <= |span| && |out| == i
      invariant digitIdx == |OnlyDigits(span[..i])|
      invariant forall k :: 0 <= k < i ==>
        out[k] == if IsDigit(span[k]) && |OnlyDigits(span[..k])| + 4 < |digits| then STAR else span[k]
    {
      assert span[..i + 1] == span[..i] + [span[i]];
      OnlyDigitsAppend(span[..i], span[i]);
      if IsDigit(span[i]) {
        if digitIdx >= keepFrom {
          out := out + [span[i]];
        } else {
          out := out + [STAR];
        }
        digitIdx := digitIdx + 1;
      } else {
        out := out + [span[i]];
      }
      i := i + 1;
    }
  }

  lemma {:induction false} OnlyDigitsAppend(s: Bytes, b: Byte)
    ensures OnlyDigits(s + [b]) == OnlyDigits(s) + if IsDigit(b) then [b] else []
  {
    if s == [] {
      assert [] + [b] == [b];
    } else {
      assert (s + [b])[1..] == s[1..] + [b];
      OnlyDigitsAppend(s[1..], b);
    }
  }

  // ---- the main loop ----

  /** A run the cursor stands inside was left alone so far: it is too short, or at least 19 digits remain. */
  ghost predicate Pending(s: Bytes, i: int) {
    forall j :: PendingAt(s, i, j)
  }

  predicate PendingAt(s: Bytes, i: int, j: int) {
    i <= j && DigitAt(s, j) && HasPrev(s, j) && Prev(s, j) < i ==> Rank(s, j) >= 19 || RunLength(s, j) <= 12
  }

  lemma CopyDigitStep(s: Bytes, i: int)
    requires DigitAt(s, i) && Pending(s, i) && !(13 <= Rank(s, i) <= 19)
    ensures !Masked(s, i) && Pending(s, i + 1)
  {
    assert PendingAt(s, i, i);
    assert Rank(s, i) >= 20 || RunLength(s, i) <= 12;
    var after := i + 1;
    forall j
      ensures PendingAt(s, after, j)
    {
      assert PendingAt(s, i, j);
      if DigitAt(s, j) && HasPrev(s, j) && Prev(s, j) == i {
        PrevThenNext(s, j);
      }
    }
  }

  lemma CopyCharStep(s: Bytes, i: nat)
    requires i < |s| && WellFormedFrom(s, i) && !DigitAt(s, i) && Pending(s, i)
    ensures Pending(s, i + Utf8Len(s[i]))
    ensures forall k :: i <= k < i + Utf8Len(s[i]) ==> !DigitAt(s, k)
  {
    StepIsOneChar(s, i);
    forall k | i < k < i + Utf8Len(s[i])
      ensures !DigitAt(s, k)
    {
      assert Tail(s, k);
    }
    var after := i + Utf8Len(s[i]);
    forall j
      ensures PendingAt(s, after, j)
    {
      assert PendingAt(s, i, j);
    }
  }

  /** Inside a run, counting digits is the difference of ranks. */
  lemma {:induction false} WithinRun(s: Bytes, i: int, j: int)
    requires DigitAt(s, i) && DigitAt(s, j) && i <= j < RunEnd(s, i)
    ensures RunLength(s, j) == RunLength(s, i) && RunEnd(s, j) == RunEnd(s, i)
    ensures |OnlyDigits(s[i..j])| + Rank(s, j) == Rank(s, i)
    decreases j - i
  {
    if i < j {
      var n := Next(s, i);
      NextThenPrev(s, i);
      WithinRun(s, n, j);
      assert s[i..j][1..] == s[i + 1..j];
      if n == i + 2 {
        assert s[i + 1..j][1..] == s[n..j];
      }
    }
  }

  /** A run holds only digits and separators. */
  lemma {:induction false} RunIsAscii(s: Bytes, i: int, k: int)
    requires DigitAt(s, i) && i <= k < RunEnd(s, i)
    ensures DigitAt(s, k) || SepAt(s, k)
    decreases k - i
  {
    if i < k && HasNext(s, i) && Next(s, i) <= k {
      RunIsAscii(s, Next(s, i), k);
    }
  }

  /** What masking writes at `k` of a match at `i`. */
  predicate IsMaskingAt(s: Bytes, i: int, masked: Bytes, k: int)
    requires DigitAt(s, i)
  {
    var span := s[i..RunEnd(s, i)];
    0 <= k < |masked| == |span| ==>
      masked[k] == if IsDigit(span[k]) && |OnlyDigits(span[..k])| + 4 < Rank(s, i) then STAR else span[k]
  }

  ghost predicate IsMasking(s: Bytes, i: int, masked: Bytes)
    requires DigitAt(s, i)
  {
    |masked| == RunEnd(s, i) - i && forall k :: IsMaskingAt(s, i, masked, k)
  }

  lemma MaskedAt(s: Bytes, i: int, masked: Bytes, k: int)
    requires DigitAt(s, i) && 13 <= Rank(s, i) <= 19 && i <= k < RunEnd(s, i)
    requires |masked| == RunEnd(s, i) - i && IsMaskingAt(s, i, masked, k - i)
    ensures masked[k - i] == Redacted(s)[k]
  {
    var span := s[i..RunEnd(s, i)];
    assert span[..k - i] == s[i..k] && span[k - i] == s[k];
    if DigitAt(s, k) {
      WithinRun(s, i, k);
    }
  }

  lemma IsSpan(t: Bytes, i: nat, end: nat, part: Bytes)
    requires i <= end <= |t| && |part| == end - i
    requires forall k :: 0 <= k < |part| ==> part[k] == t[i + k]
    ensures part == t[i..end]
  {
  }

  /** Masking a match gives the closed form on its span. */
  lemma MatchStep(s: Bytes, i: int, masked: Bytes)
    requires DigitAt(s, i) && 13 <= Rank(s, i) <= 19 && IsMasking(s, i, masked)
    ensures masked == Redacted(s)[i..RunEnd(s, i)]
  {
    forall k | 0 <= k < |masked|
      ensures masked[k] == Redacted(s)[i + k]
    {
      assert IsMaskingAt(s, i, masked, k);
      MaskedAt(s, i, masked, i + k);
    }
    IsSpan(Redacted(s), i, RunEnd(s, i), masked);
  }

  lemma NothingPendingAtRunEnd(s: Bytes, i: int)
    requires DigitAt(s, i)
    ensures Pending(s, RunEnd(s, i))
  {
    var end := RunEnd(s, i);
    forall j
      ensures PendingAt(s, end, j)
    {
      NoLinkAcross(s, end, j);
    }
  }

  /** No digit beyond the end of a run belongs to it. */
  lemma NoLinkAcross(s: Bytes, end: int, j: int)
    requires DigitAt(s, end - 1) && !HasNext(s, end - 1)
    ensures end <= j && DigitAt(s, j) && HasPrev(s, j) ==> end <= Prev(s, j)
  {
  }

  /** Where the scanner finds no match it copies one character, and so does the closed form. */
  lemma LeftAlone(s: Bytes, i: nat)
    requires i < |s| && WellFormedFrom(s, i) && Pending(s, i)
    requires DigitAt(s, i) ==> !(13 <= Rank(s, i) <= 19)
    ensures var end := i + Utf8Len(s[i]);
      end <= |s| && s[i..end] == Redacted(s)[i..end] && Pending(s, end)
  {
    StepIsOneChar(s, i);
    if DigitAt(s, i) {
      CopyDigitStep(s, i);
    } else {
      CopyCharStep(s, i);
    }
    UnmaskedSpan(s, i, i + Utf8Len(s[i]));
  }

  lemma UnmaskedSpan(s: Bytes, i: nat, end: nat)
    requires i <= end <= |s| && forall k :: i <= k < end ==> !Masked(s, k)
    ensures s[i..end] == Redacted(s)[i..end]
  {
    forall k | i <= k < end
      ensures s[k] == Redacted(s)[k]
    {
    }
  }

  lemma Extend(s: Bytes, i: nat, end: nat)
    requires i <= end <= |s|
    ensures Redacted(s)[..i] + Redacted(s)[i..end] == Redacted(s)[..end]
  {
  }

  /** The scanner computes the closed form. Every slice is in range and on character boundaries. */
  method RedactPan(input: Bytes) returns (out: Bytes)
    requires WellFormed(input)
    ensures out == Redacted(input)
  {
    out := [];
    var i := 0;
    while i < |input|
      invariant 0 <= i <= |input| && WellFormedFrom(input, i)
      invariant out == Redacted(input)[..i]
      invariant Pending(input, i)
    {
      StepIsOneChar(input, i);
      if IsDigit(input[i]) {
        var found := ScanPan(input, i);
        if found.Some? {
          var (end, digits) := found.value;
          SpanIsSafe(input, i);
          var masked := MaskKeepingLast4(Slice(input, i, end), digits);
          RunDigitsCount(input, i);
          MatchStep(input, i, masked);
          NothingPendingAtRunEnd(input, i);
          Extend(input, i, end);
          out := out + masked;
          i := end;
          continue;
        }
      }
      LeftAlone(input, i);
      var chLen := Utf8Len(input[i]);
      Extend(input, i, i + chLen);
      out := out + Slice(input, i, i + chLen);
      i := i + chLen;
    }
  }

  lemma SpanIsSafe(s: Bytes, i: nat)
    requires WellFormedFrom(s, i) && DigitAt(s, i)
    ensures WellFormedFrom(s, RunEnd(s, i)) && IsCharBoundary(s, RunEnd(s, i))
  {
    forall k | i <= k < RunEnd(s, i)
      ensures s[k] < 0x80
    {
      RunIsAscii(s, i, k);
    }
    AsciiKeepsWellFormed(s, i, RunEnd(s, i));
    StartIsBoundary(s, RunEnd(s, i));
  }

  // ---- what the closed form means ----

  /** The log line stays UTF-8 and keeps its length and layout. */
  lemma RedactedIsWellFormed(s: Bytes)
    requires WellFormed(s)
    ensures WellFormed(Redacted(s)) && |Redacted(s)| == |s|
  {
    AsciiEditKeepsWellFormed(s, Redacted(s), 0);
  }

  /** A run of N digits has a digit of every rank from 1 to N. */
  lemma {:induction false} EveryRankOccurs(s: Bytes, i: int, r: nat) returns (j: int)
    requires DigitAt(s, i) && 1 <= r <= RunLength(s, i)
    ensures DigitAt(s, j) && Rank(s, j) == r
    ensures RunLength(s, j) == RunLength(s, i) && RunEnd(s, j) == RunEnd(s, i)
    decreases if r < Rank(s, i) then Rank(s, i) - r else r - Rank(s, i)
  {
    if Rank(s, i) == r {
      j := i;
    } else if Rank(s, i) > r {
      NextThenPrev(s, i);
      j := EveryRankOccurs(s, Next(s, i), r);
    } else {
      PrevThenNext(s, i);
      j := EveryRankOccurs(s, Prev(s, i), r);
    }
  }

  predicate RunUpTo(s: Bytes, n: nat, i: int) {
    DigitAt(s, i) ==> RunLength(s, i) <= n
  }

  ghost predicate RunsUpTo(s: Bytes, n: nat) {
    forall i :: RunUpTo(s, n, i)
  }

  /** Redaction changes a text just when it has a run of at least 13 digits. */
  lemma UnchangedIffNoLongRun(s: Bytes)
    ensures Redacted(s) == s <==> RunsUpTo(s, 12)
  {
    if i :| !RunUpTo(s, 12, i) {
      var j := EveryRankOccurs(s, i, 5);
      assert Masked(s, j);
      assert Redacted(s)[j] != s[j];
    } else {
      forall i | 0 <= i < |s|
        ensures Redacted(s)[i] == s[i]
      {
        assert RunUpTo(s, 12, i);
      }
    }
  }

  /** What survives of a digit's neighbourhood. */
  lemma SurvivorsAt(s: Bytes, i: int)
    ensures DigitAt(Redacted(s), i) <==> DigitAt(s, i) && !Masked(s, i)
    ensures SepAt(Redacted(s), i) <==> SepAt(s, i)
  {
  }

  /** Ranks after redaction: the kept tail of a run stays, and the uncovered head loses 19. */
  lemma {:induction false} RankAfter(s: Bytes, i: int)
    requires DigitAt(s, i) && !Masked(s, i)
    ensures DigitAt(Redacted(s), i)
    ensures Rank(Redacted(s), i) == if Rank(s, i) >= 20 then Rank(s, i) - 19 else Rank(s, i)
    decreases |s| - i
  {
    var t := Redacted(s);
    SurvivorsAt(s, i);
    SurvivorsAt(s, i + 1);
    SurvivorsAt(s, i + 2);
    if HasNext(s, i) {
      NextThenPrev(s, i);
      if !Masked(s, Next(s, i)) {
        RankAfter(s, Next(s, i));
      }
    }
  }

  lemma {:induction false} BeforeAfter(s: Bytes, i: int)
    requires DigitAt(s, i) && !Masked(s, i)
    ensures DigitAt(Redacted(s), i)
    ensures Before(Redacted(s), i) == if RunLength(s, i) >= 13 && Rank(s, i) <= 4 then 4 - Rank(s, i) else Before(s, i)
    decreases i
  {
    var t := Redacted(s);
    SurvivorsAt(s, i);
    SurvivorsAt(s, i - 1);
    SurvivorsAt(s, i - 2);
    if HasPrev(s, i) {
      PrevThenNext(s, i);
      if !Masked(s, Prev(s, i)) {
        BeforeAfter(s, Prev(s, i));
      }
    }
  }

  /** The run of a digit that redaction left alone. */
  lemma RunAfter(s: Bytes, i: int)
    requires DigitAt(Redacted(s), i)
    ensures DigitAt(s, i) && !Masked(s, i)
    ensures RunLength(Redacted(s), i) ==
      if RunLength(s, i) < 13 then RunLength(s, i) else if Rank(s, i) <= 4 then 4 else RunLength(s, i) - 19
  {
    SurvivorsAt(s, i);
    RankAfter(s, i);
    BeforeAfter(s, i);
  }

  /** After redaction a run has at most 12 digits exactly when it had at most 31: nothing else uncovered
      is card-shaped. */
  lemma RunsAfter(s: Bytes)
    ensures RunsUpTo(Redacted(s), 12) <==> RunsUpTo(s, 31)
  {
    var t := Redacted(s);
    if i :| !RunUpTo(s, 31, i) {
      var j := EveryRankOccurs(s, i, 20);
      SurvivorsAt(s, j);
      RunAfter(s, j);
      assert !RunUpTo(t, 12, j);
    } else {
      forall i
        ensures RunUpTo(t, 12, i)
      {
        if DigitAt(t, i) {
          RunAfter(s, i);
          assert RunUpTo(s, 31, i);
        }
      }
    }
  }

  /** Redacting twice is redacting once just when no run has more than 31 digits. */
  lemma IdempotentIff(s: Bytes)
    ensures Redacted(Redacted(s)) == Redacted(s) <==> RunsUpTo(s, 31)
  {
    UnchangedIffNoLongRun(Redacted(s));
    RunsAfter(s);
  }

  predicate SameRun(s: Bytes, i: int, j: int)
    requires DigitAt(s, i)
  {
    DigitAt(s, j) ==> RunEnd(s, j) == RunEnd(s, i)
  }

  lemma SameRunLength(s: Bytes, i: int, j: int)
    requires DigitAt(s, i) && DigitAt(s, j) && SameRun(s, i, j)
    ensures RunLength(s, j) == RunLength(s, i)
  {
    WithinRun(s, i, RunEnd(s, i) - 1);
    WithinRun(s, j, RunEnd(s, j) - 1);
  }

  /** If the digit at `j` is in the run of `i` and still legible, it is one of the run's last four. */
  predicate LegibleOnlyAsLast(s: Bytes, i: int, j: int)
    requires DigitAt(s, i)
  {
    DigitAt(s, j) && SameRun(s, i, j) && DigitAt(Redacted(s), j) ==> Rank(s, j) <= 4
  }

  ghost predicate OnlyLastFourStay(s: Bytes, i: int)
    requires DigitAt(s, i)
  {
    forall j :: LegibleOnlyAsLast(s, i, j)
  }

  lemma CardRunKeepsLastFour(s: Bytes, i: int, j: int)
    requires DigitAt(s, i) && 13 <= RunLength(s, i) <= 19
    ensures LegibleOnlyAsLast(s, i, j)
  {
    if DigitAt(s, j) && SameRun(s, i, j) {
      SameRunLength(s, i, j);
      SurvivorsAt(s, j);
    }
  }

  /** A run of 20 digits or more leaks: its first digits, all but 19, stay in the log. */
  lemma LongRunLeaks(s: Bytes, i: int) returns (j: int)
    requires DigitAt(s, i) && RunLength(s, i) >= 20
    ensures DigitAt(s, j) && !LegibleOnlyAsLast(s, i, j)
  {
    j := EveryRankOccurs(s, i, 20);
    SurvivorsAt(s, j);
  }

  /** Of a run of at least 13 digits only the last four stay legible just when it has at most 19. */
  lemma OnlyLastFourStayIff(s: Bytes, i: int)
    requires DigitAt(s, i) && RunLength(s, i) >= 13
    ensures OnlyLastFourStay(s, i) <==> RunLength(s, i) <= 19
  {
    if RunLength(s, i) <= 19 {
      forall j
        ensures LegibleOnlyAsLast(s, i, j)
      {
        CardRunKeepsLastFour(s, i, j);
      }
    } else {
      var j := LongRunLeaks(s, i);
    }
  }

  // ---- texts at which the two promises fail ----

  /** The digit 4, n times. */
  function Fours(n: nat): Bytes {
    seq(n, _ => 52)
  }

  lemma {:induction false} FoursRank(n: nat, i: nat)
    requires i < n
    ensures DigitAt(Fours(n), i) && Rank(Fours(n), i) == n - i
    decreases n - i
  {
    if i + 1 < n {
      FoursRank(n, i + 1);
    }
  }

  lemma {:induction false} FoursBefore(n: nat, i: nat)
    requires i < n
    ensures DigitAt(Fours(n), i) && Before(Fours(n), i) == i
  {
    if i > 0 {
      FoursBefore(n, i - 1);
    }
  }

  lemma FoursRun(n: nat)
    requires n > 0
    ensures WellFormed(Fours(n)) && DigitAt(Fours(n), 0)
    ensures Rank(Fours(n), 0) == n && RunLength(Fours(n), 0) == n
  {
    AsciiIsWellFormed(Fours(n));
    FoursRank(n, 0);
    FoursBefore(n, 0);
  }

  /** Twenty digits in a row: the first one is copied to the log. */
  lemma TwentyDigitsLeak()
    ensures WellFormed(Fours(20)) && RunLength(Fours(20), 0) == 20
    ensures Redacted(Fours(20))[0] == Fours(20)[0]
    ensures !OnlyLastFourStay(Fours(20), 0)
  {
    FoursRun(20);
    assert !Masked(Fours(20), 0);
    OnlyLastFourStayIff(Fours(20), 0);
  }

  /** Thirty-two digits in a row: redacting what was redacted changes it again. */
  lemma ThirtyTwoDigitsRedactTwice()
    ensures WellFormed(Fours(32)) && RunLength(Fours(32), 0) == 32
    ensures Redacted(Redacted(Fours(32))) != Redacted(Fours(32))
  {
    FoursRun(32);
    assert !RunUpTo(Fours(32), 31, 0);
    IdempotentIff(Fours(32));
  }

  lemma AsciiIsWellFormed(s: Bytes)
    requires forall k :: 0 <= k < |s| ==> s[k] < 0x80
    ensures WellFormed(s)
  {
    AsciiSuffixIsWellFormed(s, 0);
  }

  lemma {:induction false} AsciiSuffixIsWellFormed(s: Bytes, i: nat)
    requires i <= |s| && forall k :: i <= k < |s| ==> s[k] < 0x80
    ensures WellFormedFrom(s, i)
    decreases |s| - i
  {
    if i < |s| {
      AsciiSuffixIsWellFormed(s, i + 1);
    }
  }

  // ---- last4 ----

  /** The last four digits of a card-shaped string, whatever stands between them. */
  function Last4(pan: Bytes): Option<Bytes> {
    var digits := OnlyDigits(pan);
    if 13 <= |digits| <= 19 then Some(digits[|digits| - 4..]) else None
  }

  ghost predicate SingleRun(s: Bytes, i: int) {
    DigitAt(s, i) && forall j :: SameRun(s, i, j)
  }

  /** With a single run, a digit's rank counts all digits from there on. */
  lemma {:induction false} RankCountsAll(s: Bytes, i: int, k: int)
    requires SingleRun(s, i) && DigitAt(s, k)
    ensures |OnlyDigits(s[k..])| == Rank(s, k)
    decreases |s| - k
  {
    assert s[k..][1..] == s[k + 1..];
    if HasNext(s, k) {
      var n := Next(s, k);
      RankCountsAll(s, i, n);
      if n == k + 2 {
        assert s[k + 1..][1..] == s[n..];
      }
    } else {
      assert SameRun(s, i, k);
      NoDigitsLeft(s, i, k + 1);
    }
  }

  lemma {:induction false} NoDigitsLeft(s: Bytes, i: int, k: int)
    requires SingleRun(s, i) && RunEnd(s, i) <= k <= |s|
    ensures OnlyDigits(s[k..]) == []
    decreases |s| - k
  {
    if k < |s| {
      assert SameRun(s, i, k) && !DigitAt(s, k);
      assert s[k..][1..] == s[k + 1..];
      NoDigitsLeft(s, i, k + 1);
    }
  }

  function LastFourOf(digits: Bytes): Bytes {
    if |digits| <= 4 then digits else digits[|digits| - 4..]
  }

  /** With a single card-shaped run, a digit is masked just when more than four digits remain. */
  lemma MaskedBeforeLastFour(s: Bytes, i: int, k: int)
    requires SingleRun(s, i) && 13 <= RunLength(s, i) <= 19 && DigitAt(s, k)
    ensures Masked(s, k) <==> |OnlyDigits(s[k..])| > 4
  {
    RankCountsAll(s, i, k);
    assert SameRun(s, i, k);
    SameRunLength(s, i, k);
  }

  lemma OnlyDigitsFirst(s: Bytes, k: nat)
    requires k < |s|
    ensures OnlyDigits(s[k..]) == (if IsDigit(s[k]) then [s[k]] else []) + OnlyDigits(s[k + 1..])
  {
    assert s[k..][1..] == s[k + 1..];
  }

  lemma LastFourOfMore(digit: Byte, rest: Bytes)
    ensures LastFourOf([digit] + rest) == (if |rest| >= 4 then [] else [digit]) + LastFourOf(rest)
  {
  }

  /** A digit of the run survives just when fewer than four digits follow it. */
  lemma SurvivesAt(s: Bytes, i: int, k: nat)
    requires SingleRun(s, i) && 13 <= RunLength(s, i) <= 19 && k < |s|
    ensures var kept := if IsDigit(s[k]) && |OnlyDigits(s[k + 1..])| < 4 then [s[k]] else [];
      OnlyDigits(Redacted(s)[k..]) == kept + OnlyDigits(Redacted(s)[k + 1..])
  {
    OnlyDigitsFirst(s, k);
    OnlyDigitsFirst(Redacted(s), k);
    if DigitAt(s, k) {
      MaskedBeforeLastFour(s, i, k);
    }
  }

  lemma {:induction false} SurvivingDigits(s: Bytes, i: int, k: nat)
    requires SingleRun(s, i) && 13 <= RunLength(s, i) <= 19 && k <= |s|
    ensures OnlyDigits(Redacted(s)[k..]) == LastFourOf(OnlyDigits(s[k..]))
    decreases |s| - k
  {
    if k < |s| {
      SurvivingDigits(s, i, k + 1);
      OnlyDigitsFirst(s, k);
      SurvivesAt(s, i, k);
      var rest := OnlyDigits(s[k + 1..]);
      if IsDigit(s[k]) {
        LastFourOfMore(s[k], rest);
      } else {
        assert OnlyDigits(s[k..]) == rest;
      }
    }
  }

  /** The count of all digits of a single run is its length. */
  lemma {:induction false} SingleRunCount(s: Bytes, i: int, k: nat)
    requires SingleRun(s, i) && k <= i && (forall j :: 0 <= j < k ==> !DigitAt(s, j))
    ensures |OnlyDigits(s[k..])| == RunLength(s, i)
    decreases |s| - k
  {
    assert s[k..][1..] == s[k + 1..];
    if DigitAt(s, k) {
      RankCountsAll(s, i, k);
      assert SameRun(s, i, k) && !HasPrev(s, k);
      SameRunLength(s, i, k);
    } else {
      SingleRunCount(s, i, k + 1);
    }
  }

  /** The two halves of the module agree: on a text with one run of digits, `last4` gives what redaction
      leaves legible just when the run is card-shaped, and gives nothing otherwise. */
  lemma RedactionKeepsLast4(s: Bytes, i: int)
    requires SingleRun(s, i)
    ensures Last4(s) == if 13 <= RunLength(s, i) <= 19 then Some(OnlyDigits(Redacted(s))) else None
  {
    SingleRunCount(s, i, 0);
    assert s[0..] == s && Redacted(s)[0..] == Redacted(s);
    if 13 <= RunLength(s, i) <= 19 {
      SurvivingDigits(s, i, 0);
    }
  }
}
