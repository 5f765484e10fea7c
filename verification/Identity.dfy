/** Event ids: `producer:sequence` with the sequence zero-padded to six digits
    (anvil_events/domain_v2.py), and the split at the last colon that reads the producer back
    (anvil_events/storage/migration.py). */
module Identity {
  import opened Basics

  predicate IsDigit(c: char) {
    '0' <= c <= '9'
  }

  function Digit(d: nat): (c: char)
    requires d < 10
    ensures IsDigit(c)
  {
    '0' + d as char
  }

  function DigitValue(c: char): nat
    requires IsDigit(c)
  {
    (c - '0') as int
  }

  predicate AllDigits(s: string) {
    forall i :: 0 <= i < |s| ==> IsDigit(s[i])
  }

  /** Decimal notation without leading zeros. */
  function Decimal(n: nat): (s: string)
    ensures s != [] && AllDigits(s)
  {
    if n < 10 then [Digit(n)] else Decimal(n / 10) + [Digit(n % 10)]
  }

  /** The number that a digit string denotes; leading zeros are allowed. */
  function Number(s: string): nat
    requires AllDigits(s)
  {
    if s == [] then 0 else 10 * Number(s[..|s| - 1]) + DigitValue(s[|s| - 1])
  }

  lemma {:induction false} NumberOfDecimal(n: nat)
    ensures Number(Decimal(n)) == n
  {
    if n < 10 {
    } else {
      NumberOfDecimal(n / 10);
      assert Decimal(n)[..|Decimal(n)| - 1] == Decimal(n / 10);
    }
  }

  function Zeros(n: nat): (s: string)
    ensures |s| == n && AllDigits(s) && forall i :: 0 <= i < n ==> s[i] == '0'
  {
    seq(n, _ => '0')
  }

  const WIDTH := 6

  /** The `06d` format. */
  function Padded(n: nat): (s: string)
    ensures AllDigits(s) && |s| >= WIDTH
  {
    var digits := Decimal(n);
    (if |digits| < WIDTH then Zeros(WIDTH - |digits|) else []) + digits
  }

  lemma {:induction false} NumberOfPadded(zeros: nat, s: string)
    requires AllDigits(s)
    ensures Number(Zeros(zeros) + s) == Number(s)
    decreases |s|, zeros
  {
    var all := Zeros(zeros) + s;
    if s != [] {
      assert all[..|all| - 1] == Zeros(zeros) + s[..|s| - 1];
      NumberOfPadded(zeros, s[..|s| - 1]);
    } else if zeros > 0 {
      assert all[..|all| - 1] == Zeros(zeros - 1) + [];
      NumberOfPadded(zeros - 1, []);
    }
  }

  lemma PaddedNumber(n: nat)
    ensures Number(Padded(n)) == n
  {
    NumberOfDecimal(n);
    var digits := Decimal(n);
    if |digits| < WIDTH {
      NumberOfPadded(WIDTH - |digits|, digits);
    } else {
      assert [] + digits == digits;
    }
  }

  function EventId(producer: string, sequence: nat): string {
    producer + ":" + Padded(sequence)
  }

  /** `rsplit(":", 1)`: what is before and after the last colon. */
  function SplitLast(s: string): Option<(string, string)> {
    if s == [] then None
    else if s[|s| - 1] == ':' then Some((s[..|s| - 1], ""))
    else
      match SplitLast(s[..|s| - 1])
      case None => None
      case Some((before, after)) => Some((before, after + [s[|s| - 1]]))
  }

  lemma {:induction false} SplitAtColon(before: string, after: string)
    requires ':' !in after
    ensures SplitLast(before + ":" + after) == Some((before, after))
  {
    var s := before + ":" + after;
    if after == [] {
      assert s[..|s| - 1] == before;
    } else {
      assert s[..|s| - 1] == before + ":" + after[..|after| - 1];
      SplitAtColon(before, after[..|after| - 1]);
      assert after[..|after| - 1] + [after[|after| - 1]] == after;
    }
  }

  /** Splitting an event id at its last colon gives back producer and sequence, whatever colons and
      digits the producer contains. */
  lemma SplitInvertsPrint(producer: string, sequence: nat)
    ensures SplitLast(EventId(producer, sequence)) == Some((producer, Padded(sequence)))
    ensures Number(Padded(sequence)) == sequence
  {
    assert ':' !in Padded(sequence);
    SplitAtColon(producer, Padded(sequence));
    PaddedNumber(sequence);
  }

  /** One event id names one producer and one sequence. */
  lemma EventIdInjective(producer: string, sequence: nat, producer': string, sequence': nat)
    requires EventId(producer, sequence) == EventId(producer', sequence')
    ensures producer == producer' && sequence == sequence'
  {
    SplitInvertsPrint(producer, sequence);
    SplitInvertsPrint(producer', sequence');
  }
}
