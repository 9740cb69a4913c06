/**
 The order in which `Object.entries` lists the own keys of a plain JavaScript
 object used as a dictionary (ECMAScript's OrdinaryOwnPropertyKeys): first
 every key that is an array index, in ascending numeric order, then every
 other string key in the order the keys were first created.
 */
module ObjectKeys {

  import opened Sequences

  predicate IsDigit(c: char) {
    '0' <= c <= '9'
  }

  predicate AllDigits(s: string) {
    forall i :: 0 <= i < |s| ==> IsDigit(s[i])
  }

  /** The number a string of decimal digits denotes. */
  function DecimalValue(s: string): nat
    requires AllDigits(s)
  {
    if s == [] then 0
    else DecimalValue(s[..|s| - 1]) * 10 + (s[|s| - 1] as int - '0' as int)
  }

  /** The numeric value of a key: its decimal value when it is all digits. */
  function IndexValue(k: string): nat {
    if AllDigits(k) then DecimalValue(k) else 0
  }

  /** The largest array index, 2^32 - 2. */
  const MaxArrayIndex: nat := 0xFFFF_FFFE

  /**
   An array index: the canonical decimal form of an integer (no sign, no
   leading zero) whose value is at most 2^32 - 2.
   */
  predicate IsArrayIndex(k: string) {
    && k != []
    && AllDigits(k)
    && (k[0] == '0' ==> |k| == 1)
    && IndexValue(k) <= MaxArrayIndex
  }

  /** Every key that is not an array index. */
  predicate IsNamedKey(k: string) {
    !IsArrayIndex(k)
  }

  predicate AllIndices(s: seq<string>) {
    forall i :: 0 <= i < |s| ==> IsArrayIndex(s[i])
  }

  /** Keys in ascending numeric order, each no larger than the next. */
  predicate Ascending(s: seq<string>) {
    |s| <= 1 || (IndexValue(s[0]) <= IndexValue(s[1]) && Ascending(s[1..]))
  }

  /** Insertion of one key before the first key of larger or equal value. */
  function InsertIndex(k: string, s: seq<string>): (r: seq<string>)
    requires Ascending(s)
    ensures multiset(r) == multiset(s) + multiset{k}
    ensures Ascending(r)
    ensures |r| == |s| + 1 && (r[0] == k || (s != [] && r[0] == s[0]))
  {
    if s == [] then [k]
    else if IndexValue(k) <= IndexValue(s[0]) then [k] + s
    else
      assert s == [s[0]] + s[1..];
      [s[0]] + InsertIndex(k, s[1..])
  }

  /** The keys of `s` in ascending numeric order. */
  function SortIndices(s: seq<string>): (r: seq<string>)
    ensures multiset(r) == multiset(s)
    ensures |r| == |s|
    ensures Ascending(r)
  {
    if s == [] then []
    else
      assert s == [s[0]] + s[1..];
      InsertIndex(s[0], SortIndices(s[1..]))
  }

  /** An ascending run is ordered between any two of its positions. */
  lemma {:induction false} AscendingPairwise(s: seq<string>, i: nat, j: nat)
    requires Ascending(s) && i <= j < |s|
    ensures IndexValue(s[i]) <= IndexValue(s[j])
  {
    if i < j {
      if i == 0 {
        AscendingPairwise(s[1..], 0, j - 1);
      } else {
        AscendingPairwise(s[1..], i - 1, j - 1);
      }
    }
  }

  /**
   The `Object.entries` key order of a dictionary whose keys were created in
   the order `created`.
   */
  function OwnKeys(created: seq<string>): (r: seq<string>)
    ensures multiset(r) == multiset(created)
    ensures var n := |Filter(created, IsArrayIndex)|;
      && n <= |r|
      && AllIndices(r[..n]) && Ascending(r[..n])
      && r[n..] == Filter(created, IsNamedKey)
  {
    var indices := Filter(created, IsArrayIndex);
    var r := SortIndices(indices) + Filter(created, IsNamedKey);
    FilterSplit(created, IsArrayIndex, IsNamedKey);
    assert r[..|indices|] == SortIndices(indices);
    forall i | 0 <= i < |indices| ensures IsArrayIndex(r[i]) {
      assert r[i] in multiset(indices);
    }
    r
  }

  /** The listing holds each created key once, and nothing else. */
  lemma OwnKeysNoDup(created: seq<string>)
    requires NoDup(created)
    ensures NoDup(OwnKeys(created))
    ensures forall k :: k in OwnKeys(created) <==> k in created
  {
    PermutationNoDup(created, OwnKeys(created));
    forall k ensures k in OwnKeys(created) <==> k in created {
      assert k in multiset(OwnKeys(created)) <==> k in multiset(created);
    }
  }

  /**
   The array-index part of the listing is ordered by numeric value between
   any two of its positions, so "3" comes before "7" wherever they were created.
   */
  lemma OwnKeysIndicesOrdered(created: seq<string>, i: nat, j: nat)
    requires i <= j < |Filter(created, IsArrayIndex)|
    ensures IndexValue(OwnKeys(created)[i]) <= IndexValue(OwnKeys(created)[j])
  {
    var n := |Filter(created, IsArrayIndex)|;
    var r := OwnKeys(created);
    AscendingPairwise(r[..n], i, j);
    assert r[..n][i] == r[i] && r[..n][j] == r[j];
  }

  /** Without array-index keys, the listing is creation order. */
  lemma OwnKeysCreationOrder(created: seq<string>)
    requires forall k :: k in created ==> !IsArrayIndex(k)
    ensures OwnKeys(created) == created
  {
    FilterAll(created, IsNamedKey);
    FilterNone(created, IsArrayIndex);

  }
}
