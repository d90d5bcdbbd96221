/** Helpers shared by every handler: optional values, replies, JavaScript
    truthiness of request fields, and the first-match semantics of the
    document store (findOne, updateOne and deleteOne all act on the first
    document that matches their filter). */
module Base {

  datatype Option<+T> = None | Some(value: T)

  /** What a handler sends back: a JSON body with a status, or `{ error }`. */
  datatype Reply<+T> = Ok(status: int, body: T) | Err(status: int, error: string)

  /** A request field as JavaScript tests it: `!field` holds when the field
      is absent or is the empty string. */
  predicate Truthy(f: Option<string>)
  {
    f.Some? && f.value != ""
  }

  /** `s.slice(1)`: drops the first element; an empty array stays empty. */
  function Tail<T>(s: seq<T>): (t: seq<T>)
    ensures |s| == 0 ==> t == []
    ensures |s| > 0 ==> [s[0]] + t == s
  {
    if |s| == 0 then [] else s[1..]
  }

  /** `s.startsWith(prefix)`, case-sensitive. */
  predicate StartsWith(s: string, prefix: string)
  {
    |prefix| <= |s| && s[..|prefix|] == prefix
  }

  /** `deleteOne`: the collection without its i-th document. */
  function RemoveAt<T>(s: seq<T>, i: nat): (r: seq<T>)
    requires i < |s|
    ensures |r| == |s| - 1
    ensures forall j :: 0 <= j < i ==> r[j] == s[j]
    ensures forall j :: i <= j < |r| ==> r[j] == s[j + 1]
  {
    s[..i] + s[i + 1..]
  }

  /** The index of the first element whose key is k: what `findOne({key: k})`
      returns in natural order. */
  function FirstWithKey<T, K(==)>(s: seq<T>, key: T -> K, k: K): (r: Option<nat>)
    ensures r.Some? ==> r.value < |s| && key(s[r.value]) == k
    ensures r.Some? ==> forall j :: 0 <= j < r.value ==> key(s[j]) != k
    ensures r.None? <==> forall j :: 0 <= j < |s| ==> key(s[j]) != k
  {
    if |s| == 0 then None
    else if key(s[0]) == k then Some(0)
    else match FirstWithKey(s[1..], key, k)
      case None => None
      case Some(i) => Some(i + 1)
  }

  /** An element with key k that no earlier element shares is the first
      match. */
  lemma FirstWithKeyAt<T, K>(s: seq<T>, key: T -> K, k: K, i: nat)
    requires i < |s| && key(s[i]) == k
    requires forall j :: 0 <= j < i ==> key(s[j]) != k
    ensures FirstWithKey(s, key, k) == Some(i)
  {
    var r := FirstWithKey(s, key, k);
    assert r.Some?;
    assert !(r.value < i) && !(r.value > i);
  }

  /** Whether some element has key k. */
  predicate HasKey<T, K(==)>(s: seq<T>, key: T -> K, k: K)
  {
    FirstWithKey(s, key, k).Some?
  }

  /** `find({key: k})` in natural order: the elements whose key is k. */
  function WithKey<T, K(==)>(s: seq<T>, key: T -> K, k: K): (r: seq<T>)
    ensures |r| <= |s|
    ensures forall x :: x in r ==> x in s && key(x) == k
  {
    if |s| == 0 then []
    else (if key(s[0]) == k then [s[0]] else []) + WithKey(s[1..], key, k)
  }

  /** No two elements share a key (a unique index on that key). */
  ghost predicate KeysDistinct<T, K>(s: seq<T>, key: T -> K)
  {
    forall i, j :: 0 <= i < j < |s| ==> key(s[i]) != key(s[j])
  }

  /** Every element of s whose key is k is in WithKey(s, key, k). */
  lemma {:induction false} WithKeyComplete<T, K>(s: seq<T>, key: T -> K, k: K, x: T)
    requires x in s && key(x) == k
    ensures x in WithKey(s, key, k)
  {
    if s[0] != x {
      WithKeyComplete(s[1..], key, k, x);
    }
  }

  /** WithKey keeps exactly the elements with key k. */
  lemma WithKeyMembership<T, K>(s: seq<T>, key: T -> K, k: K)
    ensures forall x :: x in WithKey(s, key, k) <==> x in s && key(x) == k
  {
    forall x | x in s && key(x) == k
      ensures x in WithKey(s, key, k)
    {
      WithKeyComplete(s, key, k, x);
    }
  }

  /** Filtering distributes over concatenation. */
  lemma {:induction false} WithKeyAppend<T, K>(s: seq<T>, t: seq<T>, key: T -> K, k: K)
    ensures WithKey(s + t, key, k) == WithKey(s, key, k) + WithKey(t, key, k)
  {
    if |s| == 0 {
      assert s + t == t;
    } else {
      assert (s + t)[1..] == s[1..] + t;
      WithKeyAppend(s[1..], t, key, k);
    }
  }

  /** Replacing an element whose key is not k, by one whose key is not k,
      leaves the documents with key k as they were. */
  lemma {:induction false} WithKeyUpdateOther<T, K>(s: seq<T>, key: T -> K, i: nat, x: T, k: K)
    requires i < |s| && key(s[i]) != k && key(x) != k
    ensures WithKey(s[i := x], key, k) == WithKey(s, key, k)
  {
    if i > 0 {
      assert s[i := x][1..] == s[1..][i - 1 := x];
      WithKeyUpdateOther(s[1..], key, i - 1, x, k);
    } else {
      assert s[i := x][1..] == s[1..];
    }
  }

  /** Removing an element whose key is not k leaves the documents with key k
      as they were. */
  lemma WithKeyRemoveOther<T, K>(s: seq<T>, key: T -> K, i: nat, k: K)
    requires i < |s| && key(s[i]) != k
    ensures WithKey(RemoveAt(s, i), key, k) == WithKey(s, key, k)
  {
    var pre, post := s[..i], s[i + 1..];
    assert RemoveAt(s, i) == pre + post;
    assert s == (pre + [s[i]]) + post;
    assert WithKey([s[i]], key, k) == [] by {
      assert [s[i]][1..] == [];
    }
    WithKeyAppend(pre, [s[i]], key, k);
    assert WithKey(pre + [s[i]], key, k) == WithKey(pre, key, k);
    WithKeyAppend(pre + [s[i]], post, key, k);
    WithKeyAppend(pre, post, key, k);
  }

  /** Under a unique index, the only document with key k is the one found. */
  lemma {:induction false} WithKeyOfDistinct<T, K>(s: seq<T>, key: T -> K, i: nat)
    requires KeysDistinct(s, key) && i < |s|
    ensures WithKey(s, key, key(s[i])) == [s[i]]
  {
    var k := key(s[i]);
    if i == 0 {
      NoKeyNoneFound(s[1..], key, k);
    } else {
      assert key(s[0]) != k;
      WithKeyOfDistinct(s[1..], key, i - 1);
    }
  }

  /** When no element has key k, filtering on k gives nothing. */
  lemma {:induction false} NoKeyNoneFound<T, K>(s: seq<T>, key: T -> K, k: K)
    requires forall j :: 0 <= j < |s| ==> key(s[j]) != k
    ensures WithKey(s, key, k) == []
  {
    if |s| > 0 {
      NoKeyNoneFound(s[1..], key, k);
    }
  }

  /** Appending an element with a new key keeps keys distinct. */
  lemma AppendKeepsDistinct<T, K>(s: seq<T>, key: T -> K, x: T)
    requires KeysDistinct(s, key)
    requires forall j :: 0 <= j < |s| ==> key(s[j]) != key(x)
    ensures KeysDistinct(s + [x], key)
  {
    var t := s + [x];
    forall i, j | 0 <= i < j < |t|
      ensures key(t[i]) != key(t[j])
    {
      if j == |s| {
        assert t[i] == s[i] && t[j] == x;
      } else {
        assert t[i] == s[i] && t[j] == s[j];
      }
    }
  }

  /** Replacing element i by one whose key no other element holds keeps keys
      distinct. */
  lemma ReplaceKeepsDistinct<T, K>(s: seq<T>, key: T -> K, i: nat, x: T)
    requires KeysDistinct(s, key) && i < |s|
    requires forall j :: 0 <= j < |s| && j != i ==> key(s[j]) != key(x)
    ensures KeysDistinct(s[i := x], key)
  {
  }

  /** Removing an element keeps keys distinct. */
  lemma RemoveKeepsDistinct<T, K>(s: seq<T>, key: T -> K, i: nat)
    requires KeysDistinct(s, key) && i < |s|
    ensures KeysDistinct(RemoveAt(s, i), key)
  {
    var r := RemoveAt(s, i);
    forall a, b | 0 <= a < b < |r|
      ensures key(r[a]) != key(r[b])
    {
      var a' := if a < i then a else a + 1;
      var b' := if b < i then b else b + 1;
      assert r[a] == s[a'] && r[b] == s[b'];
    }
  }

  /** A positive multiple of n is at least n. */
  lemma MulAtLeast(d: int, n: int)
    requires d >= 1 && n > 0
    ensures d * n >= n
  {
    assert d * n == (d - 1) * n + n;
    assert (d - 1) * n >= 0;
  }

  /** Euclidean division is unique: x = q * n + r with 0 <= r < n fixes
      x / n and x % n. */
  lemma DivModUnique(x: int, n: int, q: int, r: int)
    requires n > 0 && 0 <= r < n && x == q * n + r
    ensures x / n == q && x % n == r
  {
    var q' := x / n;
    var r' := x % n;
    assert x == q' * n + r';
    assert (q - q') * n == r' - r;
    if q > q' {
      MulAtLeast(q - q', n);
    } else if q < q' {
      MulAtLeast(q' - q, n);
    }
  }
}
