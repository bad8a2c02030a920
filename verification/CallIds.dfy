/** Call ids: the decimal process id, a dash, the decimal sequence number
    (src/coro_actor_ctx.cpp:53-56). */
module CallIds {
  import opened Protocol

  const DASH: byte := 45

  /** `std::to_string` of an unsigned number. */
  function Decimal(n: nat): (t: Text)
    ensures t != []
    ensures forall i :: 0 <= i < |t| ==> 48 <= t[i] <= 57
  {
    if n < 10 then [48 + n] else Decimal(n / 10) + [48 + n % 10]
  }

  /** Reads decimal digits back. */
  function Number(t: Text): int {
    if t == [] then 0 else
      var digit: int := t[|t| - 1];
      10 * Number(t[..|t| - 1]) + digit - 48
  }

  lemma {:induction false} DecimalReadsBack(n: nat)
    ensures Number(Decimal(n)) == n
  {
    if n >= 10 {
      DecimalReadsBack(n / 10);
      var t := Decimal(n);
      assert t[..|t| - 1] == Decimal(n / 10);
    } else {
      assert Number([48 + n][..0]) == 0;
    }
  }

  function Ten(k: nat): (p: nat)
    ensures p > 0
  {
    if k == 0 then 1 else 10 * Ten(k - 1)
  }

  lemma DivideByTen(n: nat, p: nat)
    requires p > 0
    ensures n / 10 / p == n / (10 * p)
  {
    var q, r := n / 10 / p, n / 10 % p;
    assert n / 10 == p * q + r;
    assert n == 10 * p * q + (10 * r + n % 10);
    Quotient(n, 10 * p, q, 10 * r + n % 10);
  }

  lemma Quotient(n: nat, d: nat, q: nat, r: nat)
    requires n == d * q + r && r < d
    ensures n / d == q
  {
    Monotone(d, n / d + 1, q);
    Monotone(d, q + 1, n / d);
  }

  lemma Monotone(d: nat, a: nat, b: nat)
    ensures a <= b ==> d * a <= d * b
  {
  }

  /** The digits, the most significant one first, and no more of them than needed. */
  lemma {:induction false} DecimalIs(n: nat)
    ensures var t := Decimal(n);
            && (forall i :: 0 <= i < |t| ==> t[i] == 48 + n / Ten(|t| - 1 - i) % 10)
            && n < Ten(|t|) && (|t| > 1 ==> Ten(|t| - 1) <= n)
  {
    if n >= 10 {
      var t, less := Decimal(n), Decimal(n / 10);
      DecimalIs(n / 10);
      forall i | 0 <= i < |t| ensures t[i] == 48 + n / Ten(|t| - 1 - i) % 10 {
        if i < |less| {
          DivideByTen(n, Ten(|less| - 1 - i));
        }
      }
    } else {
      assert Ten(1) == 10 && n / 1 == n;
    }
  }

  function MakeCallId(pid: nat, seq_: nat): (c: Text)
    ensures c != []
  {
    Decimal(pid) + [DASH] + Decimal(seq_)
  }

  /** Two processes, or two sequence numbers, never share a call id. */
  lemma MakeCallIdInjective(p: nat, m: nat, q: nat, n: nat)
    requires MakeCallId(p, m) == MakeCallId(q, n)
    ensures p == q && m == n
  {
    var a, b, c, d := Decimal(p), Decimal(m), Decimal(q), Decimal(n);
    var id := MakeCallId(p, m);
    assert id[|a|] == DASH && id[|c|] == DASH;
    assert id[..|a|] == a && id[..|c|] == c;
    assert id[|a| + 1..] == b && id[|c| + 1..] == d;
    DecimalReadsBack(p);
    DecimalReadsBack(q);
    DecimalReadsBack(m);
    DecimalReadsBack(n);
  }

  /** An id shows the process before its one dash and the number behind it. */
  lemma MakeCallIdReads(p: nat, n: nat)
    ensures var c, k := MakeCallId(p, n), |Decimal(p)|;
            && k < |c| && c[k] == 45 && (forall i :: 0 <= i < |c| && i != k ==> c[i] != 45)
            && Number(c[..k]) == p && Number(c[k + 1..]) == n
  {
    var c, k := MakeCallId(p, n), |Decimal(p)|;
    assert c[..k] == Decimal(p) && c[k + 1..] == Decimal(n);
    DecimalReadsBack(p);
    DecimalReadsBack(n);
  }
}
