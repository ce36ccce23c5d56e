/** JavaScript's "missing" values: `undefined`/`null` become None. */
module Options {

  datatype Option<T> = None | Some(value: T)

  /** JavaScript truthiness of a string that may be missing: present and non-empty. */
  predicate Filled(o: Option<string>) {
    o.Some? && o.value != ""
  }

  /** `a || b` on strings that may be missing. */
  function OrElse(a: Option<string>, b: string): (r: string)
    ensures Filled(a) ==> r == a.value
    ensures !Filled(a) ==> r == b
  {
    if Filled(a) then a.value else b
  }
}

/** List operations shared by the stores: `Array.prototype.filter` and
    `Array.prototype.findIndex`, with the facts the stores need about them. */
module Seqs {

  /** `s.filter(keep)`: the elements that pass, in their original order. */
  function Filter<T>(s: seq<T>, keep: T -> bool): (r: seq<T>)
    ensures |r| <= |s|
    ensures forall i :: 0 <= i < |r| ==> r[i] in s && keep(r[i])
    ensures forall i :: 0 <= i < |s| && keep(s[i]) ==> s[i] in r
  {
    if s == [] then []
    else (if keep(s[0]) then [s[0]] else []) + Filter(s[1..], keep)
  }

  /** Filtering distributes over concatenation: relative order is kept. */
  lemma {:induction false} FilterConcat<T>(a: seq<T>, b: seq<T>, keep: T -> bool)
    ensures Filter(a + b, keep) == Filter(a, keep) + Filter(b, keep)
  {
    if a == [] {
      assert a + b == b;
    } else {
      assert (a + b)[1..] == a[1..] + b;
      FilterConcat(a[1..], b, keep);
    }
  }

  /** When every element passes, filtering changes nothing. */
  lemma {:induction false} FilterKeepsAll<T>(s: seq<T>, keep: T -> bool)
    requires forall i :: 0 <= i < |s| ==> keep(s[i])
    ensures Filter(s, keep) == s
  {
    if s != [] {
      FilterKeepsAll(s[1..], keep);
    }
  }

  /** `s.reduce((t, x) => t + f(x), 0)` */
  function Sum<T>(s: seq<T>, f: T -> int): int {
    if s == [] then 0 else f(s[0]) + Sum(s[1..], f)
  }

  lemma {:induction false} SumConcat<T>(a: seq<T>, b: seq<T>, f: T -> int)
    ensures Sum(a + b, f) == Sum(a, f) + Sum(b, f)
  {
    if a == [] {
      assert a + b == b;
    } else {
      assert (a + b)[1..] == a[1..] + b;
      SumConcat(a[1..], b, f);
    }
  }

  /** Replacing one element changes the sum by the difference of the two terms. */
  lemma {:induction false} SumUpdate<T>(s: seq<T>, k: nat, x: T, f: T -> int)
    requires k < |s|
    ensures Sum(s[k := x], f) == Sum(s, f) - f(s[k]) + f(x)
  {
    if k > 0 {
      assert s[k := x][1..] == s[1..][k - 1 := x];
      SumUpdate(s[1..], k - 1, x, f);
    } else {
      assert s[k := x][1..] == s[1..];
    }
  }

  /** Index of the first element satisfying p, or -1 (`s.findIndex(p)`). */
  function FirstIndex<T>(s: seq<T>, p: T -> bool): (r: int)
    ensures -1 <= r < |s|
    ensures r >= 0 ==> p(s[r]) && forall j :: 0 <= j < r ==> !p(s[j])
    ensures r == -1 ==> forall j :: 0 <= j < |s| ==> !p(s[j])
  {
    if s == [] then -1
    else if p(s[0]) then 0
    else var k := FirstIndex(s[1..], p); if k == -1 then -1 else k + 1
  }

  /** The loop `findIndex` runs. */
  method FindIndex<T>(s: seq<T>, p: T -> bool) returns (r: int)
    ensures r == FirstIndex(s, p)
  {
    var i := 0;
    while i < |s|
      invariant 0 <= i <= |s|
      invariant forall j :: 0 <= j < i ==> !p(s[j])
    {
      if p(s[i]) {
        FirstIndexIsUnique(s, p, i);
        return i;
      }
      i := i + 1;
    }
    FirstIndexIsUnique(s, p, -1);
    r := -1;
  }

  /** FirstIndex is the only value with its postcondition. */
  lemma FirstIndexIsUnique<T>(s: seq<T>, p: T -> bool, k: int)
    requires -1 <= k < |s|
    requires k >= 0 ==> p(s[k]) && forall j :: 0 <= j < k ==> !p(s[j])
    requires k == -1 ==> forall j :: 0 <= j < |s| ==> !p(s[j])
    ensures k == FirstIndex(s, p)
  {
    var r := FirstIndex(s, p);
    if k >= 0 && r >= 0 {
      assert !(r < k) && !(k < r);
    }
  }
}

/** browser storage (`localStorage`) as an abstract map from keys to what each key holds. */
module Storage {

  /** What `getItem(key)` followed by `JSON.parse` yields for a present key:
      a parsed value, the empty string (falsy, not parsable), or text that
      `JSON.parse` rejects. An absent key is the key not being in the map. */
  datatype Slot<T> = Stored(value: T) | Blank | Corrupt

  type Store<T> = map<string, Slot<T>>
}
