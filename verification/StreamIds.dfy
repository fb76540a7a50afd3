/** Redis stream identifiers: canonical text, the 64-bit lexicographic order, and the
    exclusive trim boundary that follows one identifier. */
module StreamIds {
  import opened Options

  const WORD: nat := 0x1_0000_0000_0000_0000

  datatype StreamId = StreamId(millis: nat, sequence: nat)

  predicate InRange(id: StreamId) {
    id.millis < WORD && id.sequence < WORD
  }

  predicate Less(a: StreamId, b: StreamId) {
    a.millis < b.millis || (a.millis == b.millis && a.sequence < b.sequence)
  }

  /** The identifier read as one 128-bit number; the delivery model uses this form. */
  function Key(id: StreamId): nat {
    id.millis * WORD + id.sequence
  }

  /** The exclusive MINID boundary immediately after one identifier. */
  function Next(id: StreamId): StreamId {
    if id.sequence >= WORD - 1 then StreamId(id.millis + 1, 0)
    else StreamId(id.millis, id.sequence + 1)
  }

  // ----- decimal text

  predicate IsDigit(c: char) {
    '0' <= c <= '9'
  }

  predicate AllDigits(text: string) {
    forall i :: 0 <= i < |text| ==> IsDigit(text[i])
  }

  function Digit(n: nat): char
    requires n < 10
  {
    '0' + n as char
  }

  function Show(n: nat): string {
    if n < 10 then [Digit(n)] else Show(n / 10) + [Digit(n % 10)]
  }

  function Value(text: string): nat
    requires AllDigits(text)
  {
    if text == "" then 0
    else Value(text[..|text| - 1]) * 10 + (text[|text| - 1] - '0') as nat
  }

  /** Accepts a component only when printing its value gives the same text back. */
  function Component(text: string): Option<nat> {
    if text != "" && AllDigits(text) && Show(Value(text)) == text then Some(Value(text)) else None
  }

  function FirstDash(text: string): nat
    ensures FirstDash(text) <= |text|
  {
    if text == "" || text[0] == '-' then 0 else 1 + FirstDash(text[1..])
  }

  function Format(id: StreamId): string {
    Show(id.millis) + "-" + Show(id.sequence)
  }

  /** Parses canonical identifiers only: both components canonical and within 64 bits. */
  function Parts(text: string): Option<StreamId> {
    var dash := FirstDash(text);
    if dash == |text| then None
    else match (Component(text[..dash]), Component(text[dash + 1..])) {
           case (Some(millis), Some(sequence)) =>
             var id := StreamId(millis, sequence);
             if InRange(id) then Some(id) else None
           case _ => None
         }
  }

  // ----- canonical parsing is the exact inverse of printing

  lemma {:induction false} ShowReadsBack(n: nat)
    ensures Show(n) != "" && AllDigits(Show(n)) && Value(Show(n)) == n
  {
    if n < 10 {
      assert Show(n)[..0] == "";
    } else {
      ShowReadsBack(n / 10);
      var text := Show(n);
      assert text[..|text| - 1] == Show(n / 10);
    }
  }

  lemma {:induction false} DashAfter(head: string, tail: string)
    requires AllDigits(head)
    ensures FirstDash(head + "-" + tail) == |head|
  {
    var text := head + "-" + tail;
    if head == "" {
      assert text[0] == '-';
    } else {
      assert text[0] == head[0];
      assert text[1..] == head[1..] + "-" + tail;
      DashAfter(head[1..], tail);
    }
  }

  lemma {:induction false} DashSplits(text: string)
    requires FirstDash(text) < |text|
    ensures text == text[..FirstDash(text)] + "-" + text[FirstDash(text) + 1..]
  {
    if text[0] != '-' {
      var rest := text[1..];
      DashSplits(rest);
      var d := FirstDash(rest);
      assert text[d + 1] == rest[d] == '-';
    } else {
      assert text == text[..0] + "-" + text[1..];
    }
  }

  /** `Parts` accepts exactly the printed form of each identifier in range, and returns it. */
  lemma PartsInvertsFormat(text: string, id: StreamId)
    ensures Parts(text) == Some(id) <==> InRange(id) && text == Format(id)
  {
    if InRange(id) && text == Format(id) {
      ShowReadsBack(id.millis);
      ShowReadsBack(id.sequence);
      DashAfter(Show(id.millis), Show(id.sequence));
      assert text[..|Show(id.millis)|] == Show(id.millis);
      assert text[|Show(id.millis)| + 1..] == Show(id.sequence);
    }
    if Parts(text) == Some(id) {
      DashSplits(text);
    }
  }

  // ----- the order

  /** The numeric form is an order isomorphism on identifiers in range. */
  lemma KeyPreservesOrder(a: StreamId, b: StreamId)
    requires InRange(a) && InRange(b)
    ensures Less(a, b) <==> Key(a) < Key(b)
    ensures a == b <==> Key(a) == Key(b)
  {
  }

  /** `Next` is the exact successor, so trimming below it removes `id` and all before it only. */
  lemma NextIsExactSuccessor(id: StreamId, other: StreamId)
    requires InRange(id) && InRange(other)
    ensures Key(Next(id)) == Key(id) + 1
    ensures Less(other, Next(id)) <==> other == id || Less(other, id)
    ensures InRange(Next(id)) <==> id != StreamId(WORD - 1, WORD - 1)
  {
  }
}
