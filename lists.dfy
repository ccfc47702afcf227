/** The array operations the source uses on its id-keyed lists:
    `find`/`findIndex` by id, `filter` out an id, replace at the first match. */
module Lists {
  import opened Wrappers

  /** `findIndex(x => key(x) === id)`, with None for -1. */
  function FirstIndex<T>(s: seq<T>, key: T -> string, id: string): (r: Option<nat>)
    ensures r.Some? ==> r.value < |s| && key(s[r.value]) == id
    ensures r.Some? ==> forall j :: 0 <= j < r.value ==> key(s[j]) != id
    ensures r.None? <==> forall j :: 0 <= j < |s| ==> key(s[j]) != id
  {
    if |s| == 0 then None
    else if key(s[0]) == id then Some(0)
    else match FirstIndex(s[1..], key, id)
      case None => None
      case Some(k) => Some(k + 1)
  }

  /** `find(x => key(x) === id)`: the first element carrying `id`. */
  function Find<T>(s: seq<T>, key: T -> string, id: string): (r: Option<T>)
    ensures r.Some? ==> r.value in s && key(r.value) == id
    ensures r.Some? ==> exists k :: 0 <= k < |s| && s[k] == r.value && forall j :: 0 <= j < k ==> key(s[j]) != id
    ensures r.None? <==> forall j :: 0 <= j < |s| ==> key(s[j]) != id
  {
    match FirstIndex(s, key, id)
    case None => None
    case Some(k) => Some(s[k])
  }

  /** `filter(x => key(x) !== id)`. */
  function RemoveKey<T>(s: seq<T>, key: T -> string, id: string): (r: seq<T>)
    ensures |r| <= |s|
    ensures forall j :: 0 <= j < |r| ==> r[j] in s && key(r[j]) != id
    ensures forall j :: 0 <= j < |s| && key(s[j]) != id ==> s[j] in r
  {
    if |s| == 0 then []
    else (if key(s[0]) == id then [] else [s[0]]) + RemoveKey(s[1..], key, id)
  }

  /** Filtering distributes over concatenation, so the survivors keep their order. */
  lemma {:induction false} RemoveKeyAppend<T>(a: seq<T>, b: seq<T>, key: T -> string, id: string)
    ensures RemoveKey(a + b, key, id) == RemoveKey(a, key, id) + RemoveKey(b, key, id)
  {
    if |a| > 0 {
      assert (a + b)[1..] == a[1..] + b;
      RemoveKeyAppend(a[1..], b, key, id);
    } else {
      assert a + b == b;
    }
  }

  /** Removing an id that no element carries changes nothing. */
  lemma {:induction false} RemoveKeyAbsent<T>(s: seq<T>, key: T -> string, id: string)
    requires forall j :: 0 <= j < |s| ==> key(s[j]) != id
    ensures RemoveKey(s, key, id) == s
  {
    if |s| > 0 {
      RemoveKeyAbsent(s[1..], key, id);
      assert [s[0]] + s[1..] == s;
    }
  }

  /** `const i = findIndex(x => key(x) === key(v)); if (i !== -1) s[i] = v`. */
  function ReplaceFirst<T>(s: seq<T>, key: T -> string, v: T): (r: seq<T>)
    ensures |r| == |s|
    ensures forall j :: 0 <= j < |s| ==>
      r[j] == if key(s[j]) == key(v) && (forall i :: 0 <= i < j ==> key(s[i]) != key(v)) then v else s[j]
  {
    match FirstIndex(s, key, key(v))
    case None => s
    case Some(k) => s[k := v]
  }
}
