/** A plain JavaScript object whose property values are strings (the
    `Record<string, string>` the client keeps for purchase-intent columns and
    sends to the server), written as the list of its own properties in the
    order JavaScript enumerates them (`Object.keys`, `Object.values`, spread).

    That order is not plain insertion order: properties whose key is an array
    index (the canonical decimal form of an integer from 0 to 2^32 - 2, such as
    "10" or "25") come first, in ascending numeric order; the other keys follow
    in the order they were first created. */
module JsRecords {
  import opened Wrappers
  import opened JsArrays

  type Record = seq<(string, string)>

  /** The empty object `{}`. */
  const Empty: Record := []

  /** The largest array index, 2^32 - 2. */
  const MaxArrayIndex: nat := 4294967294

  predicate AllDigits(s: string)
  {
    forall i :: 0 <= i < |s| ==> '0' <= s[i] <= '9'
  }

  /** The value of a string of decimal digits. */
  function DigitsValue(s: string): nat
    requires AllDigits(s)
  {
    if |s| == 0 then 0
    else DigitsValue(s[..|s| - 1]) * 10 + (s[|s| - 1] as int - '0' as int)
  }

  /** `k` is an array index: digits without a leading zero (except "0"
      itself) whose value is at most 2^32 - 2. */
  predicate IsArrayIndex(k: string)
  {
    && |k| > 0
    && AllDigits(k)
    && (k[0] != '0' || |k| == 1)
    && DigitsValue(k) <= MaxArrayIndex
  }

  /** The keys are pairwise different. */
  predicate DistinctKeys(r: Record)
  {
    forall i, j :: 0 <= i < j < |r| ==> r[i].0 != r[j].0
  }

  /** Array-index keys come before all other keys, in ascending numeric order. */
  predicate IndexKeysFirst(r: Record)
  {
    forall i, j :: 0 <= i < j < |r| && IsArrayIndex(r[j].0) ==>
      IsArrayIndex(r[i].0) && DigitsValue(r[i].0) < DigitsValue(r[j].0)
  }

  /** What every object reachable from `{}` by `{...r, [k]: v}` satisfies. */
  predicate WellFormed(r: Record)
  {
    DistinctKeys(r) && IndexKeysFirst(r)
  }

  /** `Object.keys(r)`. */
  function Keys(r: Record): (ks: seq<string>)
    ensures |ks| == |r|
    ensures forall i :: 0 <= i < |r| ==> ks[i] == r[i].0
  {
    seq(|r|, i requires 0 <= i < |r| => r[i].0)
  }

  /** `Object.values(r)`. */
  function Values(r: Record): (vs: seq<string>)
    ensures |vs| == |r|
    ensures forall i :: 0 <= i < |r| ==> vs[i] == r[i].1
  {
    seq(|r|, i requires 0 <= i < |r| => r[i].1)
  }

  /** `r[k]`: the value of property `k`, or `None` (JavaScript's `undefined`)
      when `r` has no such property. */
  function Get(r: Record, k: string): (o: Option<string>)
    ensures o.None? <==> forall i :: 0 <= i < |r| ==> r[i].0 != k
    ensures o.Some? ==> (k, o.value) in r
  {
    if |r| == 0 then None
    else if r[0].0 == k then Some(r[0].1)
    else Get(r[1..], k)
  }

  /** With distinct keys, a property has the value of its (only) entry. */
  lemma GetEntry(r: Record, k: string, v: string)
    requires DistinctKeys(r)
    ensures Get(r, k) == Some(v) <==> (k, v) in r
  {
    if (k, v) in r {
      var i :| 0 <= i < |r| && r[i] == (k, v);
      var w := Get(r, k).value;
      var j :| 0 <= j < |r| && r[j] == (k, w);
      assert i == j;
    }
  }

  /** The position of key `k` in `r`, if it is there. */
  function KeyPosition(r: Record, k: string): (p: Option<nat>)
    ensures p.None? <==> forall i :: 0 <= i < |r| ==> r[i].0 != k
    ensures p.Some? ==> p.value < |r| && r[p.value].0 == k
  {
    if |r| == 0 then None
    else if r[0].0 == k then Some(0)
    else match KeyPosition(r[1..], k)
      case None => None
      case Some(p) => Some(p + 1)
  }

  /** Where a new array-index key `k` goes: after the leading array-index
      keys that are numerically smaller. */
  function InsertionPoint(r: Record, k: string): (q: nat)
    requires IsArrayIndex(k)
    ensures q <= |r|
    ensures forall i :: 0 <= i < q ==> IsArrayIndex(r[i].0) && DigitsValue(r[i].0) < DigitsValue(k)
    ensures q < |r| ==> !(IsArrayIndex(r[q].0) && DigitsValue(r[q].0) < DigitsValue(k))
  {
    if |r| > 0 && IsArrayIndex(r[0].0) && DigitsValue(r[0].0) < DigitsValue(k)
    then 1 + InsertionPoint(r[1..], k)
    else 0
  }

  /** The entry of `e` is not under key `k`. */
  predicate OtherKey(e: (string, string), k: string)
  {
    e.0 != k
  }

  /** The `filter` test that keeps the entries not under `k`. */
  function NotKey(k: string): ((string, string)) -> bool
  {
    e => OtherKey(e, k)
  }

  /** The entries of `r` under keys other than `k`, in enumeration order. */
  function Others(r: Record, k: string): Record
  {
    Filter(r, NotKey(k))
  }

  /** `{...r, [k]: v}`: an existing property keeps its place and takes the new
      value; a new array-index key is placed by its numeric value; any other
      new key goes last. Either way the other entries keep their relative
      order. */
  function Set(r: Record, k: string, v: string): (r': Record)
    requires WellFormed(r)
    ensures WellFormed(r')
    ensures Get(r', k) == Some(v)
    ensures forall k' :: k' != k ==> Get(r', k') == Get(r, k')
    ensures |r'| == if Get(r, k).Some? then |r| else |r| + 1
    ensures Get(r, k).Some? ==> Keys(r') == Keys(r)
    ensures Others(r', k) == Others(r, k)
    ensures Get(r, k).None? && !IsArrayIndex(k) ==> r' == r + [(k, v)]
  {
    match KeyPosition(r, k)
    case Some(p) =>
      ReplaceEntry(r, k, v, p);
      r[p := (k, v)]
    case None =>
      if IsArrayIndex(k) then
        var q := InsertionPoint(r, k);
        InsertIndexEntry(r, k, v, q);
        r[..q] + [(k, v)] + r[q..]
      else
        AppendEntry(r, k, v);
        r + [(k, v)]
  }

  /** The case of `Set` for an existing key at position `p`. */
  lemma ReplaceEntry(r: Record, k: string, v: string, p: nat)
    requires WellFormed(r) && p < |r| && r[p].0 == k
    ensures var r' := r[p := (k, v)];
            && WellFormed(r') && Keys(r') == Keys(r) && |r'| == |r|
            && Get(r', k) == Some(v)
            && (forall k' :: k' != k ==> Get(r', k') == Get(r, k'))
            && Others(r', k) == Others(r, k)
  {
    var r' := r[p := (k, v)];
    assert Keys(r') == Keys(r);
    SetPreservesOthers(r, r', k);
    GetEntry(r', k, v);
    ReplaceKeepsOthers(r, k, v, p);
  }

  /** The case of `Set` for a new array-index key, inserted at `q`. */
  lemma InsertIndexEntry(r: Record, k: string, v: string, q: nat)
    requires WellFormed(r) && IsArrayIndex(k)
    requires forall i :: 0 <= i < |r| ==> r[i].0 != k
    requires q == InsertionPoint(r, k)
    ensures var r' := r[..q] + [(k, v)] + r[q..];
            && WellFormed(r') && |r'| == |r| + 1
            && Get(r', k) == Some(v)
            && (forall k' :: k' != k ==> Get(r', k') == Get(r, k'))
            && Others(r', k) == Others(r, k)
  {
    var r' := r[..q] + [(k, v)] + r[q..];
    InsertKeepsOrder(r, k, v, q);
    SetPreservesOthers(r, r', k);
    GetEntry(r', k, v);
    InsertKeepsOthers(r, (k, v), q);
  }

  /** The case of `Set` for a new key that is not an array index. */
  lemma AppendEntry(r: Record, k: string, v: string)
    requires WellFormed(r) && !IsArrayIndex(k)
    requires forall i :: 0 <= i < |r| ==> r[i].0 != k
    ensures var r' := r + [(k, v)];
            && WellFormed(r')
            && Get(r', k) == Some(v)
            && (forall k' :: k' != k ==> Get(r', k') == Get(r, k'))
            && Others(r', k) == Others(r, k)
  {
    var r' := r + [(k, v)];
    AppendKeepsWellFormed(r, k, v);
    SetPreservesOthers(r, r', k);
    GetEntry(r', k, v);
    AppendKeepsOthers(r, (k, v));
  }

  /** Appending a new key that is not an array index keeps the enumeration
      order well formed. */
  lemma AppendKeepsWellFormed(r: Record, k: string, v: string)
    requires WellFormed(r) && !IsArrayIndex(k)
    requires forall i :: 0 <= i < |r| ==> r[i].0 != k
    ensures WellFormed(r + [(k, v)])
  {
    var r' := r + [(k, v)];
    forall i, j | 0 <= i < j < |r'|
      ensures r'[i].0 != r'[j].0
      ensures IsArrayIndex(r'[j].0) ==> IsArrayIndex(r'[i].0) && DigitsValue(r'[i].0) < DigitsValue(r'[j].0)
    {
      assert r'[i] == r[i];
      if j < |r| {
        assert r'[j] == r[j];
      }
    }
  }

  /** Inserting an entry under `k` keeps the other entries. */
  lemma InsertKeepsOthers(r: Record, e: (string, string), q: nat)
    requires q <= |r|
    ensures Others(r[..q] + [e] + r[q..], e.0) == Others(r, e.0)
  {
    OthersAround(r[..q], e, r[q..], e.0);
    assert r[..q] + r[q..] == r;
    FilterAppend(r[..q], r[q..], NotKey(e.0));
  }

  /** Appending an entry under `k` keeps the other entries. */
  lemma AppendKeepsOthers(r: Record, e: (string, string))
    ensures Others(r + [e], e.0) == Others(r, e.0)
  {
    FilterAppend(r, [e], NotKey(e.0));
    assert Filter([e], NotKey(e.0)) == [] by {
      assert [e][1..] == [];
    }
  }

  /** Dropping the entries under `k` around an entry under `k`. */
  lemma OthersAround(a: Record, e: (string, string), b: Record, k: string)
    requires e.0 == k
    ensures Others(a + [e] + b, k) == Others(a, k) + Others(b, k)
  {
    FilterAppend(a + [e], b, NotKey(k));
    FilterAppend(a, [e], NotKey(k));
    FilterAppend(b, [], NotKey(k));
    assert Filter([e], NotKey(k)) == [] by {
      assert [e][1..] == [];
    }
    FilterAppend(a, b, NotKey(k));
  }

  /** Replacing the entry under `k` at position `p` keeps the other entries. */
  lemma ReplaceKeepsOthers(r: Record, k: string, v: string, p: nat)
    requires p < |r| && r[p].0 == k
    ensures Others(r[p := (k, v)], k) == Others(r, k)
  {
    assert r == r[..p] + [r[p]] + r[p + 1..];
    assert r[p := (k, v)] == r[..p] + [(k, v)] + r[p + 1..];
    OthersAround(r[..p], r[p], r[p + 1..], k);
    OthersAround(r[..p], (k, v), r[p + 1..], k);
  }

  /** If the entries of `r'` under keys other than `k` are those of `r`, then
      every other property reads the same in both. */
  lemma SetPreservesOthers(r: Record, r': Record, k: string)
    requires DistinctKeys(r) && DistinctKeys(r')
    requires forall k', w :: k' != k ==> ((k', w) in r' <==> (k', w) in r)
    ensures forall k' :: k' != k ==> Get(r', k') == Get(r, k')
  {
    forall k' | k' != k ensures Get(r', k') == Get(r, k') {
      match Get(r, k')
      case Some(w) =>
        GetEntry(r', k', w);
      case None =>
    }
  }

  /** From the insertion point on, every array-index key is numerically
      larger than the new key `k`. */
  lemma AfterInsertionPoint(r: Record, k: string)
    requires WellFormed(r) && IsArrayIndex(k)
    requires forall i :: 0 <= i < |r| ==> r[i].0 != k
    ensures forall j :: InsertionPoint(r, k) <= j < |r| && IsArrayIndex(r[j].0) ==>
              DigitsValue(k) < DigitsValue(r[j].0)
  {
    var q := InsertionPoint(r, k);
    forall j | q <= j < |r| && IsArrayIndex(r[j].0)
      ensures DigitsValue(k) < DigitsValue(r[j].0)
    {
      if j > q {
        assert IsArrayIndex(r[q].0) && DigitsValue(r[q].0) < DigitsValue(r[j].0);
      }
      if DigitsValue(r[j].0) == DigitsValue(k) {
        CanonicalDigitsInjective(r[j].0, k);
      }
    }
  }

  /** Inserting a new array-index key at its insertion point keeps the
      enumeration order well formed and keeps every other entry. */
  lemma InsertKeepsOrder(r: Record, k: string, v: string, q: nat)
    requires WellFormed(r) && IsArrayIndex(k)
    requires forall i :: 0 <= i < |r| ==> r[i].0 != k
    requires q == InsertionPoint(r, k)
    ensures WellFormed(r[..q] + [(k, v)] + r[q..])
    ensures forall k', w :: k' != k ==> ((k', w) in r[..q] + [(k, v)] + r[q..] <==> (k', w) in r)
  {
    var r' := r[..q] + [(k, v)] + r[q..];
    AfterInsertionPoint(r, k);
    InsertShifts(r, (k, v), q);
    forall i, j | 0 <= i < j < |r'|
      ensures r'[i].0 != r'[j].0
      ensures IsArrayIndex(r'[j].0) ==> IsArrayIndex(r'[i].0) && DigitsValue(r'[i].0) < DigitsValue(r'[j].0)
    {
      if j < q {
        assert r'[i] == r[i] && r'[j] == r[j];
      } else if j == q {
        assert r'[i] == r[i];
      } else if i < q {
        assert r'[i] == r[i] && r'[j] == r[j - 1];
      } else if i == q {
        assert r'[j] == r[j - 1];
      } else {
        assert r'[i] == r[i - 1] && r'[j] == r[j - 1];
      }
    }
  }

  /** Where the entries of `r` sit after `e` is inserted at position `q`. */
  lemma InsertShifts(r: Record, e: (string, string), q: nat)
    requires q <= |r|
    ensures var r' := r[..q] + [e] + r[q..];
            && |r'| == |r| + 1 && r'[q] == e
            && (forall i :: 0 <= i < q ==> r'[i] == r[i])
            && (forall i :: q < i < |r'| ==> r'[i] == r[i - 1])
            && (forall k', w :: (k', w) != e ==> ((k', w) in r' <==> (k', w) in r))
  {
    var r' := r[..q] + [e] + r[q..];
    forall k', w | (k', w) != e ensures (k', w) in r' <==> (k', w) in r {
      if (k', w) in r {
        var i :| 0 <= i < |r| && r[i] == (k', w);
        if i < q { assert r'[i] == (k', w); } else { assert r'[i + 1] == (k', w); }
      }
    }
  }

  function Pow10(n: nat): (p: nat)
    ensures p >= 1
  {
    if n == 0 then 1 else 10 * Pow10(n - 1)
  }

  lemma {:induction false} Pow10Monotone(m: nat, n: nat)
    requires m <= n
    ensures Pow10(m) <= Pow10(n)
    decreases n
  {
    if m < n {
      Pow10Monotone(m, n - 1);
    }
  }

  /** An n-digit string is worth less than 10^n, and at least 10^(n-1) when
      it does not start with a zero. */
  lemma {:induction false} DigitsValueBounds(s: string)
    requires AllDigits(s)
    ensures DigitsValue(s) < Pow10(|s|)
    ensures |s| > 0 && s[0] != '0' ==> Pow10(|s| - 1) <= DigitsValue(s)
    decreases |s|
  {
    if |s| > 0 {
      var prefix := s[..|s| - 1];
      DigitsValueBounds(prefix);
      if |s| > 1 {
        assert prefix[0] == s[0];
      }
    }
  }

  /** Two digit strings of the same length and value are equal. */
  lemma {:induction false} SameLengthSameDigits(a: string, b: string)
    requires AllDigits(a) && AllDigits(b) && |a| == |b|
    requires DigitsValue(a) == DigitsValue(b)
    ensures a == b
    decreases |a|
  {
    if |a| > 0 {
      var n := |a| - 1;
      SameLengthSameDigits(a[..n], b[..n]);
      assert a == a[..n] + [a[n]];
      assert b == b[..n] + [b[n]];
    }
  }

  /** A canonical number with more digits is larger. */
  lemma LongerIsLarger(a: string, b: string)
    requires IsArrayIndex(a) && IsArrayIndex(b) && |a| < |b|
    ensures DigitsValue(a) < DigitsValue(b)
  {
    DigitsValueBounds(a);
    DigitsValueBounds(b);
    Pow10Monotone(|a|, |b| - 1);
  }

  /** The canonical decimal form of a number is unique. */
  lemma CanonicalDigitsInjective(a: string, b: string)
    requires IsArrayIndex(a) && IsArrayIndex(b)
    requires DigitsValue(a) == DigitsValue(b)
    ensures a == b
  {
    if |a| < |b| {
      LongerIsLarger(a, b);
    } else if |b| < |a| {
      LongerIsLarger(b, a);
    } else {
      SameLengthSameDigits(a, b);
    }
  }
}
