/**
  PHP associative arrays with string keys, as the gateway uses them for
  request options and parsed results: an ordered list of entries with
  distinct keys. `$a[$k] = $v` overwrites an existing key in place and
  appends a new one at the end; reading a missing key yields null.
  Strings stand for PHP byte strings, one character per byte.
 */
module PhpArrays {

  /** A PHP value as it occurs in the gateway's arrays: null or a string. */
  datatype Value = Null | Str(text: string)

  datatype Entry = Entry(key: string, value: Value)

  type PhpArray = seq<Entry>

  /** The keys of an array, in insertion order (`array_keys`). */
  function Keys(a: PhpArray): (ks: seq<string>)
    ensures |ks| == |a|
    ensures forall i :: 0 <= i < |a| ==> ks[i] == a[i].key
  {
    seq(|a|, i requires 0 <= i < |a| => a[i].key)
  }

  /** The values of an array, in order (`array_values`). */
  function Values(a: PhpArray): (vs: seq<Value>)
    ensures |vs| == |a|
    ensures forall i :: 0 <= i < |a| ==> vs[i] == a[i].value
  {
    seq(|a|, i requires 0 <= i < |a| => a[i].value)
  }

  predicate Distinct(ks: seq<string>)
  {
    forall i, j :: 0 <= i < j < |ks| ==> ks[i] != ks[j]
  }

  /** No name of `a` occurs in `b`. */
  predicate Disjoint(a: seq<string>, b: seq<string>)
  {
    forall i, j :: 0 <= i < |a| && 0 <= j < |b| ==> a[i] != b[j]
  }

  /** Two repeat-free lists with no name in common join into a repeat-free list. */
  lemma DistinctAppend(a: seq<string>, b: seq<string>)
    requires Distinct(a) && Distinct(b) && Disjoint(a, b)
    ensures Distinct(a + b)
  {
    forall i, j | 0 <= i < j < |a + b|
      ensures (a + b)[i] != (a + b)[j]
    {
      if i >= |a| {
        assert (a + b)[i] == b[i - |a|] && (a + b)[j] == b[j - |a|];
      } else if j >= |a| {
        assert (a + b)[j] == b[j - |a|];
      }
    }
  }

  lemma DisjointAppend(a: seq<string>, b: seq<string>, c: seq<string>)
    requires Disjoint(a, c) && Disjoint(b, c)
    ensures Disjoint(a + b, c)
  {
    forall i, j | 0 <= i < |a + b| && 0 <= j < |c|
      ensures (a + b)[i] != c[j]
    {
      if i >= |a| {
        assert (a + b)[i] == b[i - |a|];
      }
    }
  }

  /** Every PHP array has pairwise distinct keys. */
  predicate WellFormed(a: PhpArray)
  {
    Distinct(Keys(a))
  }

  /** `$a[$k]`: the value stored under `k`, or null when `k` is absent. */
  function Get(a: PhpArray, k: string): Value
  {
    if a == [] then Null
    else if a[0].key == k then a[0].value
    else Get(a[1..], k)
  }

  /** `isset($a[$k])`: the key is present and its value is not null. */
  predicate IsSet(a: PhpArray, k: string)
  {
    Get(a, k) != Null
  }

  /** `$a[$k] = $v`: an existing key keeps its position and takes the new
      value; a new key is appended. */
  function Put(a: PhpArray, k: string, v: Value): (r: PhpArray)
    ensures Get(r, k) == v
    ensures forall k' :: k' != k ==> Get(r, k') == Get(a, k')
    ensures k in Keys(a) ==> Keys(r) == Keys(a)
    ensures k !in Keys(a) ==> r == a + [Entry(k, v)]
    ensures WellFormed(a) ==> WellFormed(r)
  {
    StoreGet(a, k, v);
    StoreKeys(a, k, v);
    StoreWellFormed(a, k, v);
    Store(a, k, v)
  }

  /** The recursion behind `Put`. */
  function Store(a: PhpArray, k: string, v: Value): PhpArray
  {
    if a == [] then [Entry(k, v)]
    else if a[0].key == k then [Entry(k, v)] + a[1..]
    else [a[0]] + Store(a[1..], k, v)
  }

  lemma {:induction false} StoreGet(a: PhpArray, k: string, v: Value)
    ensures Get(Store(a, k, v), k) == v
    ensures forall k' :: k' != k ==> Get(Store(a, k, v), k') == Get(a, k')
  {
    if a != [] && a[0].key != k {
      StoreGet(a[1..], k, v);
    }
  }

  lemma {:induction false} StoreKeys(a: PhpArray, k: string, v: Value)
    ensures k in Keys(a) ==> Keys(Store(a, k, v)) == Keys(a)
    ensures k !in Keys(a) ==> Store(a, k, v) == a + [Entry(k, v)]
  {
    if a != [] {
      KeysCons(a[0], a[1..]);
      assert [a[0]] + a[1..] == a;
      if a[0].key == k {
        KeysCons(Entry(k, v), a[1..]);
      } else {
        StoreKeys(a[1..], k, v);
        KeysCons(a[0], Store(a[1..], k, v));
        assert [a[0]] + (a[1..] + [Entry(k, v)]) == a + [Entry(k, v)];
      }
    }
  }

  lemma {:induction false} StoreWellFormed(a: PhpArray, k: string, v: Value)
    ensures WellFormed(a) ==> WellFormed(Store(a, k, v))
  {
    if a != [] && WellFormed(a) {
      KeysCons(a[0], a[1..]);
      assert [a[0]] + a[1..] == a;
      DistinctCons(a[0].key, Keys(a[1..]));
      if a[0].key == k {
        KeysCons(Entry(k, v), a[1..]);
      } else {
        StoreKeys(a[1..], k, v);
        StoreWellFormed(a[1..], k, v);
        KeysCons(a[0], Store(a[1..], k, v));
        DistinctCons(a[0].key, Keys(Store(a[1..], k, v)));
        if k !in Keys(a[1..]) {
          assert Keys(a[1..] + [Entry(k, v)]) == Keys(a[1..]) + [k];
        }
      }
    }
  }

  lemma KeysCons(e: Entry, a: PhpArray)
    ensures Keys([e] + a) == [e.key] + Keys(a)
  {
  }

  /** A list headed by `x` is free of repeats exactly when its tail is and
      does not contain `x`. */
  lemma DistinctCons(x: string, ks: seq<string>)
    ensures Distinct([x] + ks) <==> x !in ks && Distinct(ks)
  {
    var xs := [x] + ks;
    if x !in ks && Distinct(ks) {
      forall i, j | 0 <= i < j < |xs|
        ensures xs[i] != xs[j]
      {
        assert xs[j] == ks[j - 1];
        if i > 0 {
          assert xs[i] == ks[i - 1];
        }
      }
    }
    if Distinct(xs) {
      forall i | 0 <= i < |ks|
        ensures ks[i] != x
      {
        assert xs[0] == x && xs[i + 1] == ks[i];
      }
      forall i, j | 0 <= i < j < |ks|
        ensures ks[i] != ks[j]
      {
        assert xs[i + 1] == ks[i] && xs[j + 1] == ks[j];
      }
    }
  }

  /** A PHP array literal `array(k0 => v0, k1 => v1, ...)` of string values:
      the pairs are stored from left to right, so a repeated key keeps the
      position of its first occurrence and the value of its last. */
  function FromPairs(ps: seq<(string, string)>): (r: PhpArray)
    ensures WellFormed(r)
    ensures |r| <= |ps|
  {
    if ps == [] then []
    else Put(FromPairs(ps[..|ps| - 1]), ps[|ps| - 1].0, Str(ps[|ps| - 1].1))
  }

  /** Storing one more pair stores it on top of the earlier ones. */
  lemma FromPairsSnoc(ps: seq<(string, string)>, p: (string, string))
    ensures FromPairs(ps + [p]) == Put(FromPairs(ps), p.0, Str(p.1))
  {
    assert (ps + [p])[..|ps|] == ps;
  }

  /** A key no pair mentions is not in the literal. */
  lemma {:induction false} FromPairsAbsent(ps: seq<(string, string)>, k: string)
    requires forall i :: 0 <= i < |ps| ==> ps[i].0 != k
    ensures Get(FromPairs(ps), k) == Null
    ensures k !in Keys(FromPairs(ps))
  {
    if ps != [] {
      var front := ps[..|ps| - 1];
      FromPairsAbsent(front, k);
      assert Keys(FromPairs(ps)) <= Keys(FromPairs(front)) + [ps[|ps| - 1].0];
    }
  }

  /** The keys of a literal's pairs, in written order. */
  function PairKeys(ps: seq<(string, string)>): (ks: seq<string>)
    ensures |ks| == |ps|
    ensures forall i :: 0 <= i < |ps| ==> ks[i] == ps[i].0
  {
    seq(|ps|, i requires 0 <= i < |ps| => ps[i].0)
  }

  lemma PairKeysAppend(ps: seq<(string, string)>, qs: seq<(string, string)>)
    ensures PairKeys(ps + qs) == PairKeys(ps) + PairKeys(qs)
  {
  }

  /** The entries of the pairs, one per pair, in order. */
  function Entries(ps: seq<(string, string)>): (es: PhpArray)
    ensures |es| == |ps|
    ensures forall i :: 0 <= i < |ps| ==> es[i] == Entry(ps[i].0, Str(ps[i].1))
  {
    seq(|ps|, i requires 0 <= i < |ps| => Entry(ps[i].0, Str(ps[i].1)))
  }

  /** In a literal with distinct keys, every pair appears, in order. */
  lemma {:induction false} FromPairsDistinct(ps: seq<(string, string)>)
    requires forall i, j :: 0 <= i < j < |ps| ==> ps[i].0 != ps[j].0
    ensures FromPairs(ps) == Entries(ps)
  {
    if ps != [] {
      var n := |ps| - 1;
      var front, p := ps[..n], ps[n];
      assert ps == front + [p];
      forall i, j | 0 <= i < j < |front|
        ensures front[i].0 != front[j].0
      {
        assert front[i] == ps[i] && front[j] == ps[j];
      }
      forall i | 0 <= i < |front|
        ensures front[i].0 != p.0
      {
        assert front[i] == ps[i];
      }
      FromPairsDistinct(front);
      EntriesFresh(front, p.0);
      FromPairsSnoc(front, p);
      EntriesSnoc(front, p);
    }
  }

  /** A literal whose keys are all different builds the well-formed array of its entries. */
  lemma DistinctPairsEntries(ps: seq<(string, string)>)
    requires Distinct(PairKeys(ps))
    ensures FromPairs(ps) == Entries(ps) && Keys(Entries(ps)) == PairKeys(ps)
    ensures WellFormed(Entries(ps))
  {
    var ks := PairKeys(ps);
    forall i, j | 0 <= i < j < |ps|
      ensures ps[i].0 != ps[j].0
    {
      assert ks[i] == ps[i].0 && ks[j] == ps[j].0;
    }
    FromPairsDistinct(ps);
    assert Keys(Entries(ps)) == ks;
  }

  /** A key no pair carries is not among the entries. */
  lemma EntriesFresh(ps: seq<(string, string)>, k: string)
    requires forall i :: 0 <= i < |ps| ==> ps[i].0 != k
    ensures k !in Keys(Entries(ps))
  {
    var ks := Keys(Entries(ps));
    forall i | 0 <= i < |ks|
      ensures ks[i] != k
    {
      assert ks[i] == ps[i].0;
    }
  }

  lemma EntriesSnoc(ps: seq<(string, string)>, p: (string, string))
    ensures Entries(ps + [p]) == Entries(ps) + [Entry(p.0, Str(p.1))]
  {
  }

  /** In a well-formed array, looking up the key of entry `i` gives entry `i`'s value. */
  lemma {:induction false} GetAt(a: PhpArray, i: nat)
    requires WellFormed(a) && i < |a|
    ensures Get(a, a[i].key) == a[i].value
  {
    if i > 0 {
      assert a[0].key == Keys(a)[0] != Keys(a)[i] == a[i].key;
      assert Keys(a[1..]) == Keys(a)[1..];
      GetAt(a[1..], i - 1);
    }
  }

  /** A key is present exactly when some entry carries it. */
  lemma {:induction false} GetAbsent(a: PhpArray, k: string)
    requires k !in Keys(a)
    ensures Get(a, k) == Null
  {
    if a != [] {
      assert Keys(a) == [a[0].key] + Keys(a[1..]);
      GetAbsent(a[1..], k);
    }
  }
}
