/** Values that may be absent, such as a nullable column. */
module Options {
  datatype Option<+T> = None | Some(value: T)
}

/** Finite sums over maps, and the cardinality facts the counting arguments need. */
module Sums {

  ghost function PickKey<K, V>(m: map<K, V>): (k: K)
    requires |m| != 0
    ensures k in m
  {
    assert m.Keys != {};
    var k :| k in m; k
  }

  /** The sum of weight(m[k]) over all keys k. */
  ghost function Total<K, V>(m: map<K, V>, weight: V -> int): int
    decreases |m|
  {
    if |m| == 0 then 0
    else
      var k := PickKey(m);
      weight(m[k]) + Total(m - {k}, weight)
  }

  lemma {:induction false} TotalRemove<K, V>(m: map<K, V>, weight: V -> int, k: K)
    requires k in m
    ensures Total(m, weight) == weight(m[k]) + Total(m - {k}, weight)
    decreases |m|
  {
    var p := PickKey(m);
    if p != k {
      TotalRemove(m - {p}, weight, k);
      TotalRemove(m - {k}, weight, p);
      assert m - {p} - {k} == m - {k} - {p};
    }
  }

  lemma TotalSet<K, V>(m: map<K, V>, weight: V -> int, k: K, v: V)
    ensures Total(m[k := v], weight) == Total(m, weight) + weight(v) - (if k in m then weight(m[k]) else 0)
  {
    TotalRemove(m[k := v], weight, k);
    assert m[k := v] - {k} == m - {k};
    if k in m {
      TotalRemove(m, weight, k);
    } else {
      assert m - {k} == m;
    }
  }

  lemma {:induction false} TotalNonNegative<K, V>(m: map<K, V>, weight: V -> int)
    requires forall k | k in m :: weight(m[k]) >= 0
    ensures Total(m, weight) >= 0
    decreases |m|
  {
    if |m| != 0 {
      TotalNonNegative(m - {PickKey(m)}, weight);
    }
  }

  ghost function Members<T>(xs: seq<T>): set<T> {
    set x | x in xs
  }

  lemma {:induction false} DistinctCard<T>(xs: seq<T>)
    requires forall i, j | 0 <= i < j < |xs| :: xs[i] != xs[j]
    ensures |Members(xs)| == |xs|
  {
    if xs != [] {
      var rest, last := xs[..|xs| - 1], xs[|xs| - 1];
      DistinctCard(rest);
      assert Members(xs) == Members(rest) + {last};
    }
  }

  /** A number above all those in use. */
  lemma {:induction false} FreshKey(used: set<nat>) returns (k: nat)
    ensures forall x {:trigger x in used} | x in used :: x < k
    decreases |used|
  {
    if used == {} {
      k := 0;
    } else {
      var x :| x in used;
      var rest := FreshKey(used - {x});
      k := if rest > x then rest else x + 1;
      assert forall y {:trigger y in used} | y in used :: y == x || y in used - {x};
    }
  }

  lemma {:induction false} SubsetCard<T>(a: set<T>, b: set<T>)
    requires a <= b
    ensures |a| <= |b|
  {
    assert b == a + (b - a);
    assert |a + (b - a)| == |a| + |b - a|;
  }
}

/** Decimal rendering of the numbers that travel inside identifiers and headers. */
module Decimals {
  import opened Options

  function Digit(d: nat): (c: char)
    requires d < 10
    ensures '0' <= c <= '9' && c as int - '0' as int == d
  {
    ('0' as int + d) as char
  }

  function Decimal(n: nat): (s: string)
    ensures |s| > 0 && forall i | 0 <= i < |s| :: '0' <= s[i] <= '9'
  {
    if n < 10 then [Digit(n)] else Decimal(n / 10) + [Digit(n % 10)]
  }

  /** Reads a string of decimal digits; anything else is rejected. */
  function ParseDecimal(s: string): Option<nat> {
    if |s| == 0 then None
    else
      var last := s[|s| - 1];
      if !('0' <= last <= '9') then None
      else if |s| == 1 then Some(last as int - '0' as int)
      else
        match ParseDecimal(s[..|s| - 1])
        case None => None
        case Some(high) => Some(10 * high + (last as int - '0' as int))
  }

  lemma {:induction false} ParseInvertsDecimal(n: nat)
    ensures ParseDecimal(Decimal(n)) == Some(n)
  {
    if n >= 10 {
      ParseInvertsDecimal(n / 10);
      var s := Decimal(n);
      assert s[..|s| - 1] == Decimal(n / 10);
    }
  }

  lemma DecimalInjective(m: nat, n: nat)
    requires Decimal(m) == Decimal(n)
    ensures m == n
  {
    ParseInvertsDecimal(m);
    ParseInvertsDecimal(n);
  }
}
