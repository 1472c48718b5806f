/** Request ids: a kind, a decimal counter and, for a retried create, a suffix
    (internal/wsclient/client.go). */
module RequestIds {

  const COUNTER_SPAN: nat := 0x1_0000_0000_0000_0000  // values of the uint64 counter

  datatype Kind = Send | Create | CreateFallback | Connect

  function Digit(d: nat): char
    requires d < 10
  {
    (d + 48) as char
  }

  /** strconv.FormatUint(n, 10). */
  function Decimal(n: nat): string {
    if n < 10 then [Digit(n)] else Decimal(n / 10) + [Digit(n % 10)]
  }

  /** The number a digit string denotes. */
  function Parse(s: string): int {
    if s == "" then 0 else 10 * Parse(s[..|s| - 1]) + (s[|s| - 1] as int - 48)
  }

  lemma {:induction false} DecimalRoundTrip(n: nat)
    ensures Parse(Decimal(n)) == n
    ensures Decimal(n) != "" && forall i :: 0 <= i < |Decimal(n)| ==> '0' <= Decimal(n)[i] <= '9'
  {
    if n < 10 {
      assert [Digit(n)][..0] == "";
    } else {
      DecimalRoundTrip(n / 10);
      var d := Decimal(n);
      assert d[..|d| - 1] == Decimal(n / 10);
    }
  }

  function Prefix(kind: Kind): string {
    match kind
    case Send => "send-"
    case Create => "create-"
    case CreateFallback => "create-"
    case Connect => "connect-"
  }

  function Suffix(kind: Kind): string { if kind == CreateFallback then "-fallback" else "" }

  function IdText(kind: Kind, n: nat): string { Prefix(kind) + Decimal(n) + Suffix(kind) }

  /** The id made after the counter has been advanced `step` times in all. */
  function RequestId(kind: Kind, step: nat): string { IdText(kind, step % COUNTER_SPAN) }

  lemma PrefixDecides(k1: Kind, n1: nat, k2: Kind, n2: nat)
    requires IdText(k1, n1) == IdText(k2, n2)
    ensures Prefix(k1) == Prefix(k2)
  {
    hide Decimal;
    var x, y := IdText(k1, n1), IdText(k2, n2);
    assert x[0] == Prefix(k1)[0] && y[0] == Prefix(k2)[0];
    DecimalRoundTrip(n1);
    DecimalRoundTrip(n2);
    assert x[1] == Prefix(k1)[1] && y[1] == Prefix(k2)[1];
    assert Prefix(k1)[0] == Prefix(k2)[0] && Prefix(k1)[1] == Prefix(k2)[1];
  }

  lemma LastCharDecides(k: Kind, n: nat)
    ensures var x := IdText(k, n); x != "" && (k == CreateFallback <==> x[|x| - 1] == 'k')
  {
    DecimalRoundTrip(n);
    var x := IdText(k, n);
    if k == CreateFallback {
      assert x[|x| - 1] == "-fallback"[8];
    } else {
      assert x[|x| - 1] == Decimal(n)[|Decimal(n)| - 1];
    }
  }

  /** An id determines its kind and its number. */
  lemma IdTextInjective(k1: Kind, n1: nat, k2: Kind, n2: nat)
    ensures IdText(k1, n1) == IdText(k2, n2) <==> k1 == k2 && n1 == n2
  {
    if IdText(k1, n1) == IdText(k2, n2) {
      PrefixDecides(k1, n1, k2, n2);
      LastCharDecides(k1, n1);
      LastCharDecides(k2, n2);
      assert k1 == k2;
      var x, p, t := IdText(k1, n1), |Prefix(k1)|, |Suffix(k1)|;
      assert x[p..|x| - t] == Decimal(n1);
      assert IdText(k2, n2)[p..|x| - t] == Decimal(n2);
      DecimalRoundTrip(n1);
      DecimalRoundTrip(n2);
    }
  }

  /** Two ids coincide only when they are of one kind and the counter has wrapped all the way
      round between them; before 2^64 steps no two ids are alike. */
  lemma RequestIdsDistinct(k1: Kind, i: nat, k2: Kind, j: nat)
    ensures RequestId(k1, i) == RequestId(k2, j) <==> k1 == k2 && i % COUNTER_SPAN == j % COUNTER_SPAN
    ensures i < COUNTER_SPAN && j < COUNTER_SPAN ==> (RequestId(k1, i) == RequestId(k2, j) <==> k1 == k2 && i == j)
  {
    IdTextInjective(k1, i % COUNTER_SPAN, k2, j % COUNTER_SPAN);
  }

  /** No id is the empty string, which the reader never looks up. */
  lemma RequestIdNotEmpty(k: Kind, i: nat)
    ensures RequestId(k, i) != ""
  {}
}
