// The request fingerprint of the order service: the string that is hashed.

module Fingerprint {
  import opened Common

  const NUL: char := '\0'

  predicate NulFree(s: string) {
    NUL !in s
  }

  // strconv.FormatInt in base 10.
  function Digit(d: nat): char
    requires d < 10
  {
    '0' + d as char
  }

  function FormatNat(n: nat): string {
    if n < 10 then [Digit(n)] else FormatNat(n / 10) + [Digit(n % 10)]
  }

  function FormatInt(n: int): string {
    if n < 0 then "-" + FormatNat(-n) else FormatNat(n)
  }

  function PreHash(customerID: string, itemName: string, amount: int): string {
    customerID + [NUL] + itemName + [NUL] + FormatInt(amount)
  }

  // ---------- Decimal printing is injective ----------

  function ParseNat(s: string): int {
    if s == [] then 0 else 10 * ParseNat(s[..|s| - 1]) + (s[|s| - 1] as int - '0' as int)
  }

  function ParseInt(s: string): int {
    if s != [] && s[0] == '-' then -ParseNat(s[1..]) else ParseNat(s)
  }

  lemma {:induction false} FormatNatDigits(n: nat)
    ensures FormatNat(n) != [] && forall c :: c in FormatNat(n) ==> '0' <= c <= '9'
  {
    if n >= 10 {
      FormatNatDigits(n / 10);
    }
  }

  lemma {:induction false} ParseNatInvertsFormat(n: nat)
    ensures ParseNat(FormatNat(n)) == n
  {
    if n >= 10 {
      ParseNatInvertsFormat(n / 10);
      assert FormatNat(n)[..|FormatNat(n)| - 1] == FormatNat(n / 10);
    } else {
      assert FormatNat(n)[..0] == [];
    }
  }

  lemma ParseIntInvertsFormat(n: int)
    ensures ParseInt(FormatInt(n)) == n
    ensures NulFree(FormatInt(n))
  {
    var m: nat := if n < 0 then -n else n;
    FormatNatDigits(m);
    ParseNatInvertsFormat(m);
    if n >= 0 {
      assert FormatInt(n)[0] in FormatNat(m);
    } else {
      assert FormatInt(n)[1..] == FormatNat(m);
    }
  }

  // No leading zeros: a positive number starts with another digit.
  lemma {:induction false} NoLeadingZero(n: nat)
    ensures FormatNat(n) != [] && (n > 0 ==> FormatNat(n)[0] != '0') && FormatNat(0) == "0"
  {
    if n >= 10 {
      NoLeadingZero(n / 10);
    }
  }

  // ---------- The separators split uniquely ----------

  lemma PreHashNuls(c: string, i: string, a: int)
    ensures multiset(PreHash(c, i, a))[NUL] == multiset(c)[NUL] + multiset(i)[NUL] + 2
  {
    ParseIntInvertsFormat(a);
    assert multiset(FormatInt(a))[NUL] == 0;
  }

  lemma OtherIsNulFree(c: string, i: string, a: int, c': string, i': string, a': int)
    requires NulFree(c) && NulFree(i) && PreHash(c, i, a) == PreHash(c', i', a')
    ensures NulFree(c') && NulFree(i')
  {
    PreHashNuls(c, i, a);
    PreHashNuls(c', i', a');
    assert NUL !in multiset(c) && NUL !in multiset(i);
    assert NUL !in multiset(c') && NUL !in multiset(i');
  }

  lemma PreHashSplit(c: string, i: string, a: int)
    ensures PreHash(c, i, a) == c + [NUL] + (i + [NUL] + FormatInt(a))
  {
    assert c + [NUL] + i + [NUL] == c + [NUL] + (i + [NUL]);
  }

  // A stored order has a customer and an item without NUL (Postgres text cannot hold one). No other
  // request, not even one with NULs in it, has the same string hashed.
  lemma PreHashFaithful(c: string, i: string, a: int, c': string, i': string, a': int)
    requires NulFree(c) && NulFree(i)
    requires PreHash(c, i, a) == PreHash(c', i', a')
    ensures c == c' && i == i' && a == a'
  {
    OtherIsNulFree(c, i, a, c', i', a');
    var x, x' := i + [NUL] + FormatInt(a), i' + [NUL] + FormatInt(a');
    PreHashSplit(c, i, a);
    PreHashSplit(c', i', a');
    SplitAt(NUL, c, x, c', x');
    SplitAt(NUL, i, FormatInt(a), i', FormatInt(a'));
    ParseIntInvertsFormat(a);
    ParseIntInvertsFormat(a');
  }

  lemma SeparatorMoves(x: string, y: string, z: string, n: int)
    ensures PreHash(x + [NUL] + y, z, n) == PreHash(x, y + [NUL] + z, n)
  {
    assert x + [NUL] + y + [NUL] + z + [NUL] == x + [NUL] + (y + [NUL] + z) + [NUL];
  }

  // No other request has the same string hashed.
  ghost predicate Faithful(c: string, i: string, a: int) {
    forall c', i', a' :: PreHash(c', i', a') == PreHash(c, i, a) ==> c' == c && i' == i && a' == a
  }

  // The fingerprint of an order identifies its request exactly when neither text holds a NUL:
  // otherwise the request that moves the separator has the same one.
  lemma FaithfulIffNulFree(c: string, i: string, a: int)
    ensures Faithful(c, i, a) <==> NulFree(c) && NulFree(i)
  {
    if NulFree(c) && NulFree(i) {
      forall c', i', a' | PreHash(c', i', a') == PreHash(c, i, a) ensures c' == c && i' == i && a' == a {
        PreHashFaithful(c, i, a, c', i', a');
      }
    } else if !NulFree(c) {
      var k :| 0 <= k < |c| && c[k] == NUL;
      SeparatorMoves(c[..k], c[k + 1..], i, a);
      assert c == c[..k] + [NUL] + c[k + 1..];
      assert |c[..k]| < |c|;
    } else {
      var k :| 0 <= k < |i| && i[k] == NUL;
      SeparatorMoves(c, i[..k], i[k + 1..], a);
      assert i == i[..k] + [NUL] + i[k + 1..];
      assert |i[k + 1..]| < |i|;
    }
  }
}
