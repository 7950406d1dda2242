/**
 * The list idioms every store applies to a server reply: `find` then patch
 * (Array.prototype.find returns the FIRST match), `filter` by id, and `map`
 * of a document list through a mapping that may throw.  Elements are looked
 * up through a key function (the entity's `id`).
 */
module Lists {
  import opened Wrappers
  import Api

  /** Index `i` holds the first element whose key is `x`. */
  predicate IsFirst<T>(s: seq<T>, key: T -> string, x: string, i: int)
  {
    0 <= i < |s| && key(s[i]) == x && forall j :: 0 <= j < i ==> key(s[j]) != x
  }

  /** No element of `s` has key `x`. */
  predicate Absent<T>(s: seq<T>, key: T -> string, x: string)
  {
    forall j :: 0 <= j < |s| ==> key(s[j]) != x
  }

  /** Where `s.find(e => key(e) === x)` stops: the first index with key `x`, if any. */
  function IndexOf<T>(s: seq<T>, key: T -> string, x: string): (r: Option<nat>)
    ensures r.Some? ==> IsFirst(s, key, x, r.value)
    ensures r.None? <==> Absent(s, key, x)
  {
    if |s| == 0 then None
    else if key(s[0]) == x then Some(0)
    else match IndexOf(s[1..], key, x)
      case None => None
      case Some(i) => Some(i + 1)
  }

  /**
   * `const e = s.find(e => key(e) === x); if (e) { ...patch e... }`: the
   * first element with key `x` becomes `f` of itself, every other element
   * is kept, and a list without such an element is returned unchanged.
   */
  function PatchFirst<T>(s: seq<T>, key: T -> string, x: string, f: T -> T): (r: seq<T>)
    ensures |r| == |s|
    ensures forall i :: 0 <= i < |s| ==> r[i] == if IsFirst(s, key, x, i) then f(s[i]) else s[i]
    ensures Absent(s, key, x) ==> r == s
  {
    match IndexOf(s, key, x)
    case None => s
    case Some(i) => s[i := f(s[i])]
  }

  /** `s.filter(e => key(e) !== x)`. */
  function Without<T>(s: seq<T>, key: T -> string, x: string): (r: seq<T>)
    ensures forall i :: 0 <= i < |r| ==> r[i] in s
    ensures forall i :: 0 <= i < |s| && key(s[i]) != x ==> s[i] in r
    ensures Absent(r, key, x)
    ensures |r| <= |s|
  {
    if |s| == 0 then []
    else if key(s[0]) == x then Without(s[1..], key, x)
    else [s[0]] + Without(s[1..], key, x)
  }

  /** `docs.map(f)` where `f` may throw: any failure makes the whole map fail. */
  function MapAll<D, T>(docs: seq<D>, f: D -> Option<T>): (r: Option<seq<T>>)
    ensures r.Some? <==> forall i :: 0 <= i < |docs| ==> f(docs[i]).Some?
    ensures r.Some? ==> |r.value| == |docs| && forall i :: 0 <= i < |docs| ==> r.value[i] == f(docs[i]).value
  {
    if |docs| == 0 then Some([])
    else match (f(docs[0]), MapAll(docs[1..], f))
      case (Some(t), Some(ts)) => Some([t] + ts)
      case _ => None
  }

  /**
   * A reload of a cached list from a reply of documents: a failed reply, or
   * a document whose mapping throws, keeps the list and gives an error (the
   * reply's own, or `failed`); otherwise the list becomes one element per
   * document, in order, and the error is cleared.
   */
  function Reload<D, T>(prior: seq<T>, reply: Api.ApiResponse<seq<D>>, f: D -> Option<T>, failed: string)
    : (r: (seq<T>, Option<string>))
    ensures r.1.Some? <==> reply.Failure? || MapAll(reply.value, f).None?
    ensures r.1.Some? ==> r.0 == prior
    ensures reply.Failure? ==> r.1 == Some(reply.message)
    ensures reply.Data? && r.1.Some? ==> r.1 == Some(failed)
    ensures r.1.None? ==>
      && reply.Data? && |r.0| == |reply.value|
      && forall i :: 0 <= i < |r.0| ==> Some(r.0[i]) == f(reply.value[i])
  {
    if reply.Failure? then (prior, Some(reply.message))
    else
      var mapped := MapAll(reply.value, f);
      if mapped.Some? then (mapped.value, None) else (prior, Some(failed))
  }

  /** Two lists with the same keys position by position have the same first matches. */
  lemma {:induction false} SameKeysSameIndex<T>(s: seq<T>, t: seq<T>, key: T -> string, y: string)
    requires |s| == |t| && forall i :: 0 <= i < |s| ==> key(s[i]) == key(t[i])
    ensures IndexOf(s, key, y) == IndexOf(t, key, y)
  {
    if |s| > 0 && key(s[0]) != y {
      SameKeysSameIndex(s[1..], t[1..], key, y);
    }
  }

  /** A patch that keeps the key keeps every element's key, so later lookups
      find the same positions. */
  lemma PatchFirstKeepsKeys<T>(s: seq<T>, key: T -> string, x: string, f: T -> T)
    requires forall y :: key(f(y)) == key(y)
    ensures forall i :: 0 <= i < |s| ==> key(PatchFirst(s, key, x, f)[i]) == key(s[i])
    ensures forall y :: IndexOf(PatchFirst(s, key, x, f), key, y) == IndexOf(s, key, y)
  {
    var r := PatchFirst(s, key, x, f);
    forall i | 0 <= i < |s| ensures key(r[i]) == key(s[i]) {
      if IsFirst(s, key, x, i) {
        assert key(f(s[i])) == key(s[i]);
      }
    }
    forall y ensures IndexOf(r, key, y) == IndexOf(s, key, y) {
      SameKeysSameIndex(r, s, key, y);
    }
  }

  /** Patching twice with an idempotent, key-keeping patch is patching once. */
  lemma PatchFirstIdempotent<T>(s: seq<T>, key: T -> string, x: string, f: T -> T)
    requires forall y :: key(f(y)) == key(y)
    requires forall y :: f(f(y)) == f(y)
    ensures PatchFirst(PatchFirst(s, key, x, f), key, x, f) == PatchFirst(s, key, x, f)
  {
    var r := PatchFirst(s, key, x, f);
    PatchFirstKeepsKeys(s, key, x, f);
    assert forall i :: IsFirst(r, key, x, i) <==> IsFirst(s, key, x, i);
  }

  /** `filter` keeps order: filtering a concatenation filters each part. */
  lemma {:induction false} WithoutAppend<T>(a: seq<T>, b: seq<T>, key: T -> string, x: string)
    ensures Without(a + b, key, x) == Without(a, key, x) + Without(b, key, x)
  {
    if |a| > 0 {
      assert (a + b)[1..] == a[1..] + b;
      WithoutAppend(a[1..], b, key, x);
    } else {
      assert a + b == b;
    }
  }

  /** A list with no element of key `x` is kept whole. */
  lemma {:induction false} WithoutAbsent<T>(s: seq<T>, key: T -> string, x: string)
    requires Absent(s, key, x)
    ensures Without(s, key, x) == s
  {
    if |s| > 0 {
      WithoutAbsent(s[1..], key, x);
    }
  }

  /** Filtering is idempotent. */
  lemma WithoutIdempotent<T>(s: seq<T>, key: T -> string, x: string)
    ensures Without(Without(s, key, x), key, x) == Without(s, key, x)
  {
    WithoutAbsent(Without(s, key, x), key, x);
  }
}
