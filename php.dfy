/** PHP values as the client puts them into a request body or query, and the
    array helpers the client relies on: `??`, `empty`, `array_filter` without a
    callback, keyed lookup and keyed assignment, and the early exit of a
    `foreach` that throws on the first bad element. */
module Php {

  datatype Option<+T> = None | Some(value: T)

  datatype Result<+T, +E> = Success(value: T) | Failure(error: E)

  /** The PHP values that occur in the client's payloads. A PHP array is either
      a list (`List`) or an ordered dictionary (`Dict`). */
  datatype Value =
    | Null
    | Bool(b: bool)
    | Int(i: int)
    | Real(r: real)
    | Str(s: string)
    | List(items: seq<Value>)
    | Dict(entries: seq<Entry>)

  datatype Entry = Entry(key: string, value: Value)

  /** Values whose boolean conversion is false: `null`, `false`, `0`, `0.0`,
      `""`, `"0"` and the empty array. */
  predicate Falsy(v: Value) {
    match v
    case Null => true
    case Bool(b) => !b
    case Int(i) => i == 0
    case Real(r) => r == 0.0
    case Str(s) => s == "" || s == "0"
    case List(items) => items == []
    case Dict(entries) => entries == []
  }

  /** `$x ?? null` for an optional string. */
  function StrOrNull(o: Option<string>): Value {
    match o
    case Some(s) => Str(s)
    case None => Null
  }

  /** `$x ?? null` for an optional integer. */
  function IntOrNull(o: Option<int>): Value {
    match o
    case Some(i) => Int(i)
    case None => Null
  }

  function Keys(es: seq<Entry>): (ks: seq<string>)
    ensures |ks| == |es|
    ensures forall i | 0 <= i < |es| :: ks[i] == es[i].key
  {
    seq(|es|, i requires 0 <= i < |es| => es[i].key)
  }

  /** `$es[$k]` for a key that may be missing: the first entry with that key. */
  function Lookup(es: seq<Entry>, k: string): (r: Option<Value>)
  {
    if es == [] then None
    else if es[0].key == k then Some(es[0].value)
    else Lookup(es[1..], k)
  }

  /** A lookup finds the first entry with the key, and nothing when no entry
      has it. */
  lemma {:induction false} LookupFinds(es: seq<Entry>, k: string)
    ensures Lookup(es, k).None? <==> forall i | 0 <= i < |es| :: es[i].key != k
    ensures Lookup(es, k).Some? ==> exists i | 0 <= i < |es| :: es[i] == Entry(k, Lookup(es, k).value) && forall j | 0 <= j < i :: es[j].key != k
  {
    if es != [] && es[0].key != k {
      LookupFinds(es[1..], k);
      assert forall i | 1 <= i < |es| :: es[i] == es[1..][i - 1];
      if Lookup(es, k).Some? {
        var i :| 0 <= i < |es[1..]| && es[1..][i] == Entry(k, Lookup(es, k).value) && forall j | 0 <= j < i :: es[1..][j].key != k;
        assert es[i + 1] == Entry(k, Lookup(es, k).value);
        assert forall j | 0 <= j < i + 1 :: es[j].key != k by {
          forall j | 0 <= j < i + 1 ensures es[j].key != k {
            if j > 0 { assert es[j] == es[1..][j - 1]; }
          }
        }
      }
    }
  }

  /** `empty($es[$k])`: the key is missing or its value is falsy. */
  predicate IsEmpty(es: seq<Entry>, k: string) {
    match Lookup(es, k)
    case None => true
    case Some(v) => Falsy(v)
  }

  /** `$es[$k] = $v`: an existing key keeps its position and takes the new value;
      a missing key is appended. */
  function Put(es: seq<Entry>, k: string, v: Value): (r: seq<Entry>)
  {
    if es == [] then [Entry(k, v)]
    else if es[0].key == k then [Entry(k, v)] + es[1..]
    else [es[0]] + Put(es[1..], k, v)
  }

  lemma {:induction false} PutStores(es: seq<Entry>, k: string, v: Value)
    ensures Lookup(Put(es, k, v), k) == Some(v)
  {
    if es != [] && es[0].key != k {
      PutStores(es[1..], k, v);
      assert Put(es, k, v)[1..] == Put(es[1..], k, v);
    }
  }

  lemma {:induction false} PutLeavesOthers(es: seq<Entry>, k: string, v: Value, other: string)
    requires other != k
    ensures Lookup(Put(es, k, v), other) == Lookup(es, other)
  {
    if es != [] && es[0].key != k && es[0].key != other {
      PutLeavesOthers(es[1..], k, v, other);
      assert Put(es, k, v)[1..] == Put(es[1..], k, v);
    }
  }

  /** Assigning to a key that is already there keeps every key in its place. */
  lemma {:induction false} PutKeepsKeys(es: seq<Entry>, k: string, v: Value)
    requires Lookup(es, k).Some?
    ensures Keys(Put(es, k, v)) == Keys(es)
  {
    if es[0].key != k {
      assert Lookup(es[1..], k).Some?;
      PutKeepsKeys(es[1..], k, v);
      assert Put(es, k, v) == [es[0]] + Put(es[1..], k, v);
    }
  }

  /** `array_filter($es)`: drops the entries whose value is falsy and keeps the
      others, in order and with their keys. */
  function ArrayFilter(es: seq<Entry>): (r: seq<Entry>)
    ensures |r| <= |es|
  {
    if es == [] then []
    else if Falsy(es[0].value) then ArrayFilter(es[1..])
    else [es[0]] + ArrayFilter(es[1..])
  }

  /** The filter keeps exactly the entries with a truthy value. */
  lemma {:induction false} FilterMembers(es: seq<Entry>)
    ensures forall e | e in ArrayFilter(es) :: e in es && !Falsy(e.value)
    ensures forall e | e in es && !Falsy(e.value) :: e in ArrayFilter(es)
  {
    if es != [] {
      FilterMembers(es[1..]);
      assert forall e | e in es[1..] :: e in es;
      assert es == [es[0]] + es[1..];
    }
  }

  /** Filtering a concatenation filters each part in place: the kept entries
      keep their relative order. */
  lemma {:induction false} FilterAppend(a: seq<Entry>, b: seq<Entry>)
    ensures ArrayFilter(a + b) == ArrayFilter(a) + ArrayFilter(b)
  {
    if a != [] {
      assert (a + b)[0] == a[0];
      assert (a + b)[1..] == a[1..] + b;
      FilterAppend(a[1..], b);
    } else {
      assert a + b == b;
    }
  }

  lemma {:induction false} FilterIdempotent(es: seq<Entry>)
    ensures ArrayFilter(ArrayFilter(es)) == ArrayFilter(es)
  {
    if es != [] {
      FilterIdempotent(es[1..]);
      if !Falsy(es[0].value) {
        assert ([es[0]] + ArrayFilter(es[1..]))[1..] == ArrayFilter(es[1..]);
      }
    }
  }

  /** With distinct keys, a key survives the filter exactly when it was there
      with a truthy value, and it keeps that value. */
  lemma {:induction false} FilterLookup(es: seq<Entry>, k: string)
    requires forall i, j | 0 <= i < j < |es| :: es[i].key != es[j].key
    ensures Lookup(ArrayFilter(es), k) == if Lookup(es, k).Some? && !Falsy(Lookup(es, k).value) then Lookup(es, k) else None
  {
    if es != [] {
      var t := es[1..];
      assert forall i, j | 0 <= i < j < |t| :: t[i].key != t[j].key by {
        forall i, j | 0 <= i < j < |t| ensures t[i].key != t[j].key {
          assert t[i] == es[i + 1] && t[j] == es[j + 1];
        }
      }
      FilterLookup(t, k);
      if es[0].key == k {
        LookupFinds(t, k);
        assert forall i | 0 <= i < |t| :: t[i].key != k by {
          forall i | 0 <= i < |t| ensures t[i].key != k {
            assert t[i] == es[i + 1];
          }
        }
      }
    }
  }

  /** A list whose values are all truthy comes through the filter unchanged. */
  lemma {:induction false} FilterKeepsTruthy(es: seq<Entry>)
    requires forall i | 0 <= i < |es| :: !Falsy(es[i].value)
    ensures ArrayFilter(es) == es
  {
    if es != [] {
      FilterKeepsTruthy(es[1..]);
      assert [es[0]] + es[1..] == es;
    }
  }

  /** A key that occurs once, at index `i`, is in the filtered array exactly
      when its value is truthy, and then with that value. */
  lemma {:induction false} FilteredKey(es: seq<Entry>, i: nat)
    requires i < |es|
    requires forall j | 0 <= j < |es| && j != i :: es[j].key != es[i].key
    ensures Lookup(ArrayFilter(es), es[i].key) == if Falsy(es[i].value) then None else Some(es[i].value)
  {
    var k, t := es[i].key, es[1..];
    if i == 0 {
      forall e | e in ArrayFilter(t) ensures e.key != k {
        FilterMembers(t);
        var j :| 0 <= j < |t| && t[j] == e;
        assert es[j + 1] == e;
      }
      LookupFinds(ArrayFilter(t), k);
    } else {
      assert forall j | 0 <= j < |t| && j != i - 1 :: t[j].key != t[i - 1].key by {
        forall j | 0 <= j < |t| && j != i - 1 ensures t[j].key != t[i - 1].key {
          assert t[j] == es[j + 1];
        }
      }
      FilteredKey(t, i - 1);
      assert es[0].key != k;
    }
  }

  /** Index of the first element for which `bad` holds: where a `foreach` that
      throws on a bad element stops. */
  function FirstWhere<T>(xs: seq<T>, bad: T -> bool): (r: Option<nat>)
    ensures r.None? <==> forall k | 0 <= k < |xs| :: !bad(xs[k])
    ensures r.Some? ==> r.value < |xs| && bad(xs[r.value]) && forall j | 0 <= j < r.value :: !bad(xs[j])
  {
    if xs == [] then None
    else if bad(xs[0]) then Some(0)
    else match FirstWhere(xs[1..], bad)
      case None => None
      case Some(k) => Some(k + 1)
  }
}
