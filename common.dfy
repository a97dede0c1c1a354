/** Values shared by every reconciler: optional values, JSON values, the lodash
    helpers the reconcilers rely on (`_.defaults`, `_.find`) and paging. */
module Common {

  datatype Option<T> = None | Some(value: T)

  /** Remote identifiers (organization, environment, team, role, provider) are opaque strings. */
  type Id = string

  /** A JSON value, for the parts of a manifest or payload the reconcilers pass through untouched. */
  datatype Json =
    | JNull
    | JBool(b: bool)
    | JNum(n: int)
    | JStr(s: string)
    | JArr(items: seq<Json>)
    | JObj(fields: map<string, Json>)

  /** JavaScript truthiness of a JSON value: `null`, `false`, `0` and `""` are falsy. */
  predicate Truthy(j: Json)
  {
    match j
    case JNull => false
    case JBool(b) => b
    case JNum(n) => n != 0
    case JStr(s) => s != ""
    case _ => true
  }

  /** lodash `_.defaults(object, source)` on a plain object: every key of `source`
      that `obj` lacks is added, and the values already in `obj` win. */
  function Defaults(obj: map<string, Json>, source: map<string, Json>): (r: map<string, Json>)
    ensures r.Keys == obj.Keys + source.Keys
    ensures forall k :: k in obj ==> r[k] == obj[k]
    ensures forall k :: k in source && k !in obj ==> r[k] == source[k]
  {
    source + obj
  }

  /** The position of the first element of `s` whose key equals `name`, or
      `|s|` when there is none. */
  function FirstIndex<T>(s: seq<T>, key: T -> string, name: string): (k: nat)
    ensures k <= |s|
    ensures forall j :: 0 <= j < k ==> key(s[j]) != name
    ensures k < |s| ==> key(s[k]) == name
  {
    if s == [] || key(s[0]) == name then 0
    else
      var k := FirstIndex(s[1..], key, name);
      assert forall j :: 1 <= j < |s| ==> s[j] == s[1..][j - 1];
      1 + k
  }

  /** The first element of `s` whose key equals `name` (lodash `_.find`, or
      `s.filter(...)[0]`), or None when no element has that key. */
  function FirstWith<T>(s: seq<T>, key: T -> string, name: string): (r: Option<T>)
    ensures r.None? <==> forall i :: 0 <= i < |s| ==> key(s[i]) != name
    ensures r.Some? ==> exists i :: 0 <= i < |s| && s[i] == r.value && key(s[i]) == name &&
                                   forall j :: 0 <= j < i ==> key(s[j]) != name
  {
    var k := FirstIndex(s, key, name);
    if k < |s| then Some(s[k]) else None
  }

  /** A name found in a sequence is still found once the sequence grows. */
  lemma FirstWithExtend<T>(a: seq<T>, b: seq<T>, key: T -> string, name: string)
    requires a <= b
    requires FirstWith(a, key, name).Some?
    ensures FirstWith(b, key, name).Some?
  {
    var i :| 0 <= i < |a| && key(a[i]) == name;
    assert b[i] == a[i];
  }

  /** The first page of a listing fetched with `limit=<limit>&offset=0`. */
  function Take<T>(s: seq<T>, limit: nat): (r: seq<T>)
    ensures r <= s
    ensures |r| == if |s| <= limit then |s| else limit
  {
    if |s| <= limit then s else s[..limit]
  }

  /** The entries of a per-key listing; a key the remote has never seen lists nothing. */
  function Lookup<K, V>(m: map<K, seq<V>>, k: K): seq<V>
  {
    if k in m then m[k] else []
  }

  /** Concatenation regroups; stated once so that proofs about growing logs
      do not search for it. */
  lemma AppendAssoc<T>(a: seq<T>, b: seq<T>, c: seq<T>)
    ensures a + (b + c) == (a + b) + c
  {
  }

  /** Dropping the first one or two elements of a sequence with a known head. */
  lemma DropHead<T>(a: T, b: T, tail: seq<T>)
    ensures ([a, b] + tail)[1..] == [b] + tail
    ensures ([a, b] + tail)[2..] == tail
  {
  }

  /** A prefix stays a prefix behind a common head. */
  lemma PrefixExtend<T>(a: seq<T>, x: seq<T>, y: seq<T>)
    requires x <= y
    ensures a + x <= a + y
  {
    assert a + y == (a + x) + y[|x|..];
  }

  /** No value occurs twice in `s`. */
  ghost predicate Distinct<T>(s: seq<T>)
  {
    forall i, j :: 0 <= i < j < |s| ==> s[i] != s[j]
  }

  lemma {:induction false} DistinctSplit<T>(a: seq<T>, b: seq<T>)
    requires Distinct(a + b)
    ensures Distinct(a) && Distinct(b)
    ensures forall x :: x in a ==> x !in b
  {
    forall i, j | 0 <= i < j < |a| ensures a[i] != a[j] {
      assert a[i] == (a + b)[i] && a[j] == (a + b)[j];
    }
    forall i, j | 0 <= i < j < |b| ensures b[i] != b[j] {
      assert b[i] == (a + b)[|a| + i] && b[j] == (a + b)[|a| + j];
    }
    forall i, j | 0 <= i < |a| && 0 <= j < |b| ensures a[i] != b[j] {
      assert a[i] == (a + b)[i] && b[j] == (a + b)[|a| + j];
    }
  }
}
