// Revision identifiers of a migration chain.
//
// The source derives every id from a SHA-1 digest: the base id hashes the
// type name alone, and the id made by the k-th call to `add` (k >= 1) hashes
// the name followed by the decimal text of k - 1, the size of the revision
// map before that call. The digest itself is abstracted as an injective constructor over
// the hashed text, so two ids are equal exactly when their hashed texts are.
module Revisions {

  /** The SHA-1 hex digest of `input`, taken to be injective. */
  datatype RevId = Digest(input: string)

  function Digit(d: nat): (c: char)
    requires d < 10
    ensures '0' <= c <= '9'
  {
    ('0' as int + d) as char
  }

  /** Python's `str(n)` for a non-negative integer. */
  function Decimal(n: nat): (s: string)
    ensures 1 <= |s|
    ensures n < 10 <==> |s| == 1
    decreases n
  {
    if n < 10 then [Digit(n)] else Decimal(n / 10) + [Digit(n % 10)]
  }

  lemma DigitInjective(a: nat, b: nat)
    requires a < 10 && b < 10
    requires Digit(a) == Digit(b)
    ensures a == b
  {
    assert Digit(a) as int == '0' as int + a;
    assert Digit(b) as int == '0' as int + b;
  }

  /** Distinct numbers have distinct decimal texts. */
  lemma {:induction false} DecimalInjective(m: nat, n: nat)
    requires Decimal(m) == Decimal(n)
    ensures m == n
    decreases m
  {
    if m < 10 {
      DigitInjective(m, n);
    } else {
      var dm, dn := Decimal(m), Decimal(n);
      assert dm[|dm| - 1] == Digit(m % 10) && dn[|dn| - 1] == Digit(n % 10);
      DigitInjective(m % 10, n % 10);
      assert dm[..|dm| - 1] == Decimal(m / 10);
      assert dn[..|dn| - 1] == Decimal(n / 10);
      DecimalInjective(m / 10, n / 10);
    }
  }

  /** The id of position `k` of the chain for type `name`: position 0 is the
      base id, position k + 1 the id produced by the (k+1)-th added step. */
  function RevAt(name: string, k: nat): (r: RevId)
    ensures k == 0 ==> r.input == name
    ensures k > 0 ==> |r.input| > |name| && r.input[..|name|] == name
  {
    if k == 0 then Digest(name) else Digest(name + Decimal(k - 1))
  }

  /** Within one chain the positional ids never repeat. */
  lemma RevAtInjective(name: string, i: nat, j: nat)
    requires RevAt(name, i) == RevAt(name, j)
    ensures i == j
  {
    if i > 0 && j > 0 {
      var si, sj := name + Decimal(i - 1), name + Decimal(j - 1);
      assert si[|name|..] == Decimal(i - 1);
      assert sj[|name|..] == Decimal(j - 1);
      DecimalInjective(i - 1, j - 1);
    }
  }

  /** Ids are positional, not content-addressed: across chains of different
      names they can collide. The id after the second step of type "a" is
      the base id of type "a1". */
  lemma PositionalCollision()
    ensures RevAt("a", 2) == RevAt("a1", 0)
  {
    assert Decimal(1) == "1";
  }
}
