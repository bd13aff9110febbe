/** What the three contracts share: addresses, 32-byte identifiers, the word size of
    checked arithmetic, and totals over storage mappings. */
module Chain {

  type Address = nat

  const ZERO: Address := 0

  /** `msg.sender` is never the zero address. */
  type Account = a: Address | a != ZERO witness 1

  /** A `bytes32` key. */
  type Id = nat

  /** One more than the largest `uint256`. */
  const WORD: nat := 0x1_0000000000000000000000000000000000000000000000000000000000000000

  function Min(a: nat, b: nat): nat {
    if a <= b then a else b
  }

  function Max(a: nat, b: nat): nat {
    if a >= b then a else b
  }

  /** The total of `f` over the values of a mapping. */
  ghost function Total<V>(m: map<Id, V>, f: V -> nat): nat
    decreases |m|
  {
    if m == map[] then 0
    else
      var k :| k in m;
      f(m[k]) + Total(m - {k}, f)
  }

  /** Any key can be taken out first. */
  lemma {:induction false} TotalSplit<V>(m: map<Id, V>, f: V -> nat, k: Id)
    requires k in m
    ensures Total(m, f) == f(m[k]) + Total(m - {k}, f)
    decreases |m|
  {
    var c :| c in m && Total(m, f) == f(m[c]) + Total(m - {c}, f);
    if c != k {
      TotalSplit(m - {c}, f, k);
      assert m - {c} - {k} == m - {k} - {c};
      TotalSplit(m - {k}, f, c);
    }
  }

  /** Writing one key changes the total by the difference at that key. */
  lemma TotalWrite<V>(m: map<Id, V>, f: V -> nat, k: Id, v: V)
    ensures Total(m[k := v], f) == Total(m, f) - (if k in m then f(m[k]) else 0) + f(v)
  {
    TotalSplit(m[k := v], f, k);
    assert m[k := v] - {k} == m - {k};
    if k in m {
      TotalSplit(m, f, k);
    } else {
      assert m - {k} == m;
    }
  }

  /** Equal values key by key give equal totals. */
  lemma {:induction false} TotalSame<V>(m: map<Id, V>, m': map<Id, V>, f: V -> nat)
    requires m.Keys == m'.Keys
    requires forall k :: k in m ==> f(m[k]) == f(m'[k])
    ensures Total(m, f) == Total(m', f)
    decreases |m|
  {
    if m == map[] {
      assert m' == map[];
    } else {
      var k :| k in m;
      TotalSplit(m, f, k);
      TotalSplit(m', f, k);
      TotalSame(m - {k}, m' - {k}, f);
    }
  }
}
