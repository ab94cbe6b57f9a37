/**
 * PHP arrays: ordered maps whose keys are distinct. A key is written as a string; an
 * integer key n is written as its canonical decimal string (`Decimal(n)`), which is
 * exactly how PHP identifies `"5"` with `5`. The operations are array reads, the
 * assignment `$a[$k] = $v`, and `array_merge`.
 */
module PhpArrays {
  import opened Wrappers
  import opened PhpScalars

  function Keys<V>(a: seq<(string, V)>): set<string> {
    if a == [] then {} else {a[0].0} + Keys(a[1..])
  }

  predicate DistinctKeys<V>(a: seq<(string, V)>) {
    a == [] || (a[0].0 !in Keys(a[1..]) && DistinctKeys(a[1..]))
  }

  /** A PHP array: entries in iteration order, no key twice. */
  type PhpArray<V> = a: seq<(string, V)> | DistinctKeys(a) witness []

  /** `$a[$k] ?? null`: the value stored under `k`, if any. */
  function Get<V>(a: seq<(string, V)>, k: string): (r: Option<V>)
    ensures r.Some? <==> k in Keys(a)
  {
    if a == [] then None else if a[0].0 == k then Some(a[0].1) else Get(a[1..], k)
  }

  lemma {:induction false} KeysAt<V>(a: seq<(string, V)>, i: nat)
    requires i < |a|
    ensures a[i].0 in Keys(a)
  {
    if i > 0 {
      KeysAt(a[1..], i - 1);
    }
  }

  /** Every key of an array is the key of one of its entries. */
  lemma {:induction false} KeyIndex<V>(a: seq<(string, V)>, k: string) returns (i: nat)
    requires k in Keys(a)
    ensures i < |a| && a[i].0 == k
  {
    if a[0].0 == k {
      i := 0;
    } else {
      var j := KeyIndex(a[1..], k);
      i := j + 1;
    }
  }

  /** Reading the key of any entry gives that entry's value. */
  lemma {:induction false} GetAt<V>(a: PhpArray<V>, i: nat)
    requires i < |a|
    ensures Get(a, a[i].0) == Some(a[i].1)
  {
    if i > 0 {
      KeysAt(a[1..], i - 1);
      GetAt(a[1..], i - 1);
    }
  }

  lemma {:induction false} KeysAppend<V>(a: seq<(string, V)>, k: string, v: V)
    ensures Keys(a + [(k, v)]) == Keys(a) + {k}
  {
    if a != [] {
      assert (a + [(k, v)])[1..] == a[1..] + [(k, v)];
      KeysAppend(a[1..], k, v);
    }
  }

  lemma {:induction false} DistinctAppend<V>(a: PhpArray<V>, k: string, v: V)
    requires k !in Keys(a)
    ensures DistinctKeys(a + [(k, v)])
  {
    if a != [] {
      assert (a + [(k, v)])[1..] == a[1..] + [(k, v)];
      KeysAppend(a[1..], k, v);
      DistinctAppend(a[1..], k, v);
    }
  }

  /** Two entries of a PHP array at different positions have different keys. */
  lemma {:induction false} DistinctAt<V>(a: PhpArray<V>, i: nat, j: nat)
    requires i < j < |a|
    ensures a[i].0 != a[j].0
  {
    if i == 0 {
      KeysAt(a[1..], j - 1);
    } else {
      DistinctAt(a[1..], i - 1, j - 1);
    }
  }

  /** An entry sequence whose keys differ position by position is a PHP array. */
  lemma {:induction false} DistinctByIndex<V>(a: seq<(string, V)>)
    requires forall i, j | 0 <= i < j < |a| :: a[i].0 != a[j].0
    ensures DistinctKeys(a)
  {
    if a != [] {
      if a[0].0 in Keys(a[1..]) {
        var j := KeyIndex(a[1..], a[0].0);
        assert false;
      }
      DistinctByIndex(a[1..]);
    }
  }

  /** Every prefix of a PHP array is a PHP array. */
  lemma DistinctPrefix<V>(a: PhpArray<V>, n: nat)
    requires n <= |a|
    ensures DistinctKeys(a[..n])
  {
    forall i, j | 0 <= i < j < n
      ensures a[..n][i].0 != a[..n][j].0
    {
      DistinctAt(a, i, j);
    }
    DistinctByIndex(a[..n]);
  }

  /** The key of entry `i` does not occur among the entries before it. */
  lemma FreshKeyAt<V>(a: PhpArray<V>, i: nat)
    requires i < |a|
    ensures a[i].0 !in Keys(a[..i])
    ensures Keys(a[..i + 1]) == Keys(a[..i]) + {a[i].0}
  {
    if a[i].0 in Keys(a[..i]) {
      var j := KeyIndex(a[..i], a[i].0);
      DistinctAt(a, j, i);
    }
    assert a[..i + 1] == a[..i] + [(a[i].0, a[i].1)];
    KeysAppend(a[..i], a[i].0, a[i].1);
  }

  /** `$a[$k] = $v`: an existing key keeps its position, a new key is appended. */
  function Set<V>(a: PhpArray<V>, k: string, v: V): (r: PhpArray<V>)
    ensures Keys(r) == Keys(a) + {k}
    ensures forall j :: Get(r, j) == if j == k then Some(v) else Get(a, j)
    ensures k !in Keys(a) ==> r == a + [(k, v)]
    ensures !IsIntegerKey(k) ==> IntValues(r) == IntValues(a)
  {
    if a == [] then
      var one: seq<(string, V)> := [(k, v)];
      assert one[1..] == [] && Keys(one) == {k};
      one
    else if a[0].0 == k then [(k, v)] + a[1..]
    else
      var t := Set(a[1..], k, v);
      assert ([a[0]] + t)[1..] == t;
      assert k !in Keys(a) ==> a == [a[0]] + a[1..];
      [a[0]] + t
  }

  /** The values stored under integer keys, in iteration order. */
  function IntValues<V>(a: seq<(string, V)>): seq<V> {
    if a == [] then [] else (if IsIntegerKey(a[0].0) then [a[0].1] else []) + IntValues(a[1..])
  }

  lemma {:induction false} IntValuesAppend<V>(a: seq<(string, V)>, k: string, v: V)
    ensures IntValues(a + [(k, v)]) == IntValues(a) + (if IsIntegerKey(k) then [v] else [])
  {
    if a == [] {
      assert [(k, v)][1..] == [];
    } else {
      assert (a + [(k, v)])[1..] == a[1..] + [(k, v)];
      IntValuesAppend(a[1..], k, v);
    }
  }

  lemma {:induction false} GetAppend<V>(a: seq<(string, V)>, k: string, v: V, j: string)
    ensures Get(a + [(k, v)], j) == if j in Keys(a) then Get(a, j) else if j == k then Some(v) else None
  {
    if a != [] {
      assert (a + [(k, v)])[1..] == a[1..] + [(k, v)];
      GetAppend(a[1..], k, v, j);
    }
  }

  /** Every integer key of `a` stands for an integer in [0, n). */
  ghost predicate IntKeysBelow<V>(a: seq<(string, V)>, n: int) {
    forall k :: k in Keys(a) && IsIntegerKey(k) ==> 0 <= IntegerValue(k) < n
  }

  /**
   * What `array_merge` keeps while it consumes its arguments: the integer keys are
   * 0, 1, ... in order, one for each integer-keyed value.
   */
  ghost predicate Renumbered<V>(a: seq<(string, V)>) {
    && IntKeysBelow(a, |IntValues(a)|)
    && forall n :: 0 <= n < |IntValues(a)| ==> Get(a, Decimal(n)) == Some(IntValues(a)[n])
  }

  /** Appending the next integer key keeps an array renumbered. */
  lemma AppendNextIndex<V>(a: PhpArray<V>, v: V)
    requires Renumbered(a)
    ensures DistinctKeys(a + [(Decimal(|IntValues(a)|), v)])
    ensures IntValues(a + [(Decimal(|IntValues(a)|), v)]) == IntValues(a) + [v]
    ensures Renumbered(a + [(Decimal(|IntValues(a)|), v)])
  {
    var n := |IntValues(a)|;
    var r := a + [(Decimal(n), v)];
    DecimalRoundTrip(n);
    assert Decimal(n) !in Keys(a);
    DistinctAppend(a, Decimal(n), v);
    IntValuesAppend(a, Decimal(n), v);
    KeysAppend(a, Decimal(n), v);
    assert IntKeysBelow(r, n + 1) by {
      forall k | k in Keys(r) && IsIntegerKey(k)
        ensures 0 <= IntegerValue(k) < n + 1
      {
        if k != Decimal(n) {
          assert k in Keys(a);
        }
      }
    }
    forall m | 0 <= m < n + 1
      ensures Get(r, Decimal(m)) == Some((IntValues(a) + [v])[m])
    {
      GetAppend(a, Decimal(n), v, Decimal(m));
      if m < n {
        assert Get(a, Decimal(m)) == Some(IntValues(a)[m]);
      } else {
        assert Decimal(m) !in Keys(a);
      }
    }
  }

  /** Setting a string (non-integer) key keeps an array renumbered. */
  lemma SetStringKey<V>(a: PhpArray<V>, k: string, v: V)
    requires Renumbered(a) && !IsIntegerKey(k)
    ensures Renumbered(Set(a, k, v))
  {
    var r := Set(a, k, v);
    forall m | 0 <= m < |IntValues(r)|
      ensures Get(r, Decimal(m)) == Some(IntValues(r)[m])
    {
      DecimalRoundTrip(m);
    }
  }

  /** `array_merge` from the point where `acc` has been built and `rest` is still to come. */
  function MergeInto<V>(acc: PhpArray<V>, rest: PhpArray<V>): (r: PhpArray<V>)
    requires Renumbered(acc)
    ensures Renumbered(r)
    decreases |rest|
  {
    if rest == [] then acc
    else if IsIntegerKey(rest[0].0) then
      AppendNextIndex(acc, rest[0].1);
      MergeInto(acc + [(Decimal(|IntValues(acc)|), rest[0].1)], rest[1..])
    else
      SetStringKey(acc, rest[0].0, rest[0].1);
      MergeInto(Set(acc, rest[0].0, rest[0].1), rest[1..])
  }

  lemma {:induction false} MergeIntoSpec<V>(acc: PhpArray<V>, rest: PhpArray<V>)
    requires Renumbered(acc)
    ensures IntValues(MergeInto(acc, rest)) == IntValues(acc) + IntValues(rest)
    ensures forall k :: !IsIntegerKey(k) ==>
              Get(MergeInto(acc, rest), k) == if k in Keys(rest) then Get(rest, k) else Get(acc, k)
    decreases |rest|
  {
    if rest != [] {
      if IsIntegerKey(rest[0].0) {
        MergeIntegerKey(acc, rest);
      } else {
        MergeStringKey(acc, rest);
      }
    }
  }

  lemma ConcatAssoc<T>(a: seq<T>, b: seq<T>, c: seq<T>)
    ensures (a + b) + c == a + (b + c)
  {
  }

  lemma IntValuesCons<V>(rest: seq<(string, V)>)
    requires rest != [] && IsIntegerKey(rest[0].0)
    ensures IntValues(rest) == [rest[0].1] + IntValues(rest[1..])
  {
  }

  lemma {:induction false} MergeIntegerKey<V>(acc: PhpArray<V>, rest: PhpArray<V>)
    requires Renumbered(acc) && rest != [] && IsIntegerKey(rest[0].0)
    ensures IntValues(MergeInto(acc, rest)) == IntValues(acc) + IntValues(rest)
    ensures forall k :: !IsIntegerKey(k) ==>
              Get(MergeInto(acc, rest), k) == if k in Keys(rest) then Get(rest, k) else Get(acc, k)
    decreases |rest|, 0
  {
    var v := rest[0].1;
    var n := |IntValues(acc)|;
    AppendNextIndex(acc, v);
    var acc': PhpArray<V> := acc + [(Decimal(n), v)];
    var tail: PhpArray<V> := rest[1..];
    assert MergeInto(acc, rest) == MergeInto(acc', tail);
    MergeIntoSpec(acc', tail);
    IntValuesCons(rest);
    ConcatAssoc(IntValues(acc), [v], IntValues(tail));
    forall j | !IsIntegerKey(j)
      ensures Get(MergeInto(acc, rest), j) == if j in Keys(rest) then Get(rest, j) else Get(acc, j)
    {
      DecimalRoundTrip(n);
      GetAppend(acc, Decimal(n), v, j);
    }
  }

  lemma {:induction false} MergeStringKey<V>(acc: PhpArray<V>, rest: PhpArray<V>)
    requires Renumbered(acc) && rest != [] && !IsIntegerKey(rest[0].0)
    ensures IntValues(MergeInto(acc, rest)) == IntValues(acc) + IntValues(rest)
    ensures forall k :: !IsIntegerKey(k) ==>
              Get(MergeInto(acc, rest), k) == if k in Keys(rest) then Get(rest, k) else Get(acc, k)
    decreases |rest|, 0
  {
    var (k, v) := rest[0];
    SetStringKey(acc, k, v);
    var acc' := Set(acc, k, v);
    assert MergeInto(acc, rest) == MergeInto(acc', rest[1..]);
    MergeIntoSpec(acc', rest[1..]);
    assert IntValues(rest) == IntValues(rest[1..]);
  }

  /**
   * `array_merge(a, b)`: string keys of `b` override those of `a` (keeping the
   * position they have in `a`), and every integer-keyed value of `a` and then of `b`
   * is appended under the keys 0, 1, 2, ...
   */
  function Merge<V>(a: PhpArray<V>, b: PhpArray<V>): (r: PhpArray<V>)
    ensures forall k :: !IsIntegerKey(k) ==>
              Get(r, k) == if k in Keys(b) then Get(b, k) else Get(a, k)
    ensures IntValues(r) == IntValues(a) + IntValues(b)
    ensures forall n :: 0 <= n < |IntValues(r)| ==> Get(r, Decimal(n)) == Some(IntValues(r)[n])
    ensures forall k :: k in Keys(r) && IsIntegerKey(k) ==> 0 <= IntegerValue(k) < |IntValues(r)|
  {
    var empty: PhpArray<V> := [];
    MergeSpec(a, b);
    MergeInto(MergeInto(empty, a), b)
  }

  /**
   * After renumbering, the integer keys of a merge are exactly "0", "1", ... up to the
   * number of integer-keyed values: no integer key is missing and none lies beyond.
   */
  lemma MergeIntegerKeys<V>(a: PhpArray<V>, b: PhpArray<V>, k: string)
    requires IsIntegerKey(k)
    ensures k in Keys(Merge(a, b)) <==> 0 <= IntegerValue(k) < |IntValues(a)| + |IntValues(b)|
  {
    var r := Merge(a, b);
    if 0 <= IntegerValue(k) < |IntValues(r)| {
      IntegerKeyRoundTrip(k);
      assert Get(r, Decimal(IntegerValue(k))).Some?;
    }
  }

  lemma MergeSpec<V>(a: PhpArray<V>, b: PhpArray<V>)
    ensures var empty: PhpArray<V> := [];
      var r := MergeInto(MergeInto(empty, a), b);
      && IntValues(r) == IntValues(a) + IntValues(b)
      && forall k :: !IsIntegerKey(k) ==> Get(r, k) == if k in Keys(b) then Get(b, k) else Get(a, k)
  {
    var empty: PhpArray<V> := [];
    MergeIntoSpec(empty, a);
    var first := MergeInto(empty, a);
    assert IntValues(first) == IntValues(a) by {
      assert [] + IntValues(a) == IntValues(a);
    }
    MergeIntoSpec(first, b);
  }

  /** The values of an array in iteration order, as `array_map` visits them. */
  function Values<V>(a: seq<(string, V)>): (r: seq<V>)
    ensures |r| == |a| && forall i :: 0 <= i < |a| ==> r[i] == a[i].1
  {
    seq(|a|, i requires 0 <= i < |a| => a[i].1)
  }
}
