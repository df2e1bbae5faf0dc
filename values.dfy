/** Python values as they cross the JSON boundaries of the system: decoded tool
    arguments, tool results, customer records, deposit forms and trade records.
    A `dict` is an association list in insertion order. */
module Values {
  import opened Wrappers

  datatype Json =
    | JNull
    | JBool(b: bool)
    | JInt(i: int)
    | JFloat(f: real)
    | JStr(s: string)
    | JArr(items: seq<Json>)
    | JObj(fields: Dict)

  /** A Python `dict`: its items in insertion order. */
  type Dict = seq<(string, Json)>

  /** Python's `bool(v)`: `None`, `False`, zero, and empty strings and containers are falsy. */
  predicate Truthy(v: Json)
  {
    match v
    case JNull => false
    case JBool(b) => b
    case JInt(i) => i != 0
    case JFloat(f) => f != 0.0
    case JStr(s) => s != ""
    case JArr(items) => items != []
    case JObj(fields) => fields != []
  }

  /** Every key occurs once, as in every Python `dict`. */
  predicate DistinctKeys(d: Dict)
  {
    forall i, j :: 0 <= i < j < |d| ==> d[i].0 != d[j].0
  }

  predicate HasKey(d: Dict, k: string)
  {
    exists i :: 0 <= i < |d| && d[i].0 == k
  }

  /** `d.get(k)`. */
  function Get(d: Dict, k: string): (r: Option<Json>)
    ensures r.Some? <==> HasKey(d, k)
    ensures r.Some? ==> (k, r.value) in d
  {
    if d == [] then None
    else if d[0].0 == k then Some(d[0].1)
    else
      assert forall i :: 1 <= i < |d| ==> d[1..][i - 1] == d[i];
      Get(d[1..], k)
  }

  /** `not d.get(k)`: the key is missing or its value is falsy. */
  predicate Missing(d: Dict, k: string)
  {
    Get(d, k).None? || !Truthy(Get(d, k).value)
  }

  /** How a subscript `v[k]` or a call `v.items()` fails in Python. */
  datatype AccessError =
    | KeyError(key: string)          // the dict has no such key
    | NotSubscriptable               // `v` is not a dict (TypeError)
    | NoAttribute                    // `v` is not a dict: no `items` or `get` method (AttributeError)

  /** `v[k]` for a key string. */
  function Subscript(v: Json, k: string): (r: Result<Json, AccessError>)
    ensures r.Success? <==> v.JObj? && HasKey(v.fields, k)
    ensures r.Success? ==> Get(v.fields, k) == Some(r.value)
  {
    if !v.JObj? then Failure(NotSubscriptable)
    else match Get(v.fields, k)
      case None => Failure(KeyError(k))
      case Some(x) => Success(x)
  }

  /** `v.get(k)` on a decoded value. */
  function GetOf(v: Json, k: string): (r: Result<Option<Json>, AccessError>)
    ensures r.Success? <==> v.JObj?
    ensures r.Success? ==> r.value == Get(v.fields, k)
  {
    if v.JObj? then Success(Get(v.fields, k)) else Failure(NoAttribute)
  }

  /** `v.items()`. */
  function Items(v: Json): (r: Result<Dict, AccessError>)
    ensures r.Success? <==> v.JObj?
    ensures r.Success? ==> r.value == v.fields
  {
    if v.JObj? then Success(v.fields) else Failure(NoAttribute)
  }

  /** `{k: v for k, v in d.items() if k in keep}`. */
  function FilterKeys(d: Dict, keep: seq<string>): (r: Dict)
    decreases |d|
  {
    if d == [] then []
    else (if d[0].0 in keep then [d[0]] else []) + FilterKeys(d[1..], keep)
  }

  /** Every kept item is an item of the input whose key is listed. */
  lemma {:induction false} FilterKeysSound(d: Dict, keep: seq<string>)
    ensures forall i :: 0 <= i < |FilterKeys(d, keep)| ==>
              FilterKeys(d, keep)[i].0 in keep && FilterKeys(d, keep)[i] in d
    decreases |d|
  {
    if d != [] {
      FilterKeysSound(d[1..], keep);
    }
  }

  /** The kept keys are exactly the input's keys that are listed. */
  lemma {:induction false} FilterKeysHasKey(d: Dict, keep: seq<string>, k: string)
    ensures HasKey(FilterKeys(d, keep), k) <==> HasKey(d, k) && k in keep
    decreases |d|
  {
    if d != [] {
      var head := if d[0].0 in keep then [d[0]] else [];
      var t := FilterKeys(d[1..], keep);
      var r := FilterKeys(d, keep);
      assert r == head + t;
      FilterKeysHasKey(d[1..], keep, k);
      if HasKey(r, k) {
        var i :| 0 <= i < |r| && r[i].0 == k;
        if i < |head| {
          assert d[0].0 == k;
        } else {
          assert t[i - |head|].0 == k;
          var j :| 0 <= j < |d[1..]| && d[1..][j].0 == k;
          assert d[j + 1].0 == k;
        }
      }
      if HasKey(d, k) && k in keep {
        var i :| 0 <= i < |d| && d[i].0 == k;
        if i == 0 {
          assert r[0].0 == k;
        } else {
          assert d[1..][i - 1].0 == k;
          var j :| 0 <= j < |t| && t[j].0 == k;
          assert r[|head| + j].0 == k;
        }
      }
    }
  }

  /** A listed key keeps its value; an unlisted key is dropped. */
  lemma {:induction false} FilterKeysGet(d: Dict, keep: seq<string>, k: string)
    ensures Get(FilterKeys(d, keep), k) == if k in keep then Get(d, k) else None
    decreases |d|
  {
    if d != [] {
      FilterKeysGet(d[1..], keep, k);
      var t := FilterKeys(d[1..], keep);
      if d[0].0 in keep {
        assert FilterKeys(d, keep) == [d[0]] + t;
        assert ([d[0]] + t)[1..] == t;
      } else {
        assert FilterKeys(d, keep) == t;
      }
    }
  }

  /** Filtering a filtered dict again changes nothing. */
  lemma {:induction false} FilterKeysIdempotent(d: Dict, keep: seq<string>)
    ensures FilterKeys(FilterKeys(d, keep), keep) == FilterKeys(d, keep)
    decreases |d|
  {
    if d != [] {
      FilterKeysIdempotent(d[1..], keep);
      var t := FilterKeys(d[1..], keep);
      if d[0].0 in keep {
        assert FilterKeys(d, keep) == [d[0]] + t;
        assert ([d[0]] + t)[1..] == t;
        assert FilterKeys([d[0]] + t, keep) == [d[0]] + FilterKeys(t, keep);
      } else {
        assert FilterKeys(d, keep) == t;
      }
    }
  }

  /** `r` is `d` with some items deleted: the relative order of what is kept is the input's. */
  predicate Subsequence(r: Dict, d: Dict)
    decreases |d|
  {
    if r == [] then true
    else if d == [] then false
    else (r[0] == d[0] && Subsequence(r[1..], d[1..])) || Subsequence(r, d[1..])
  }

  lemma {:induction false} FilterKeysKeepsOrder(d: Dict, keep: seq<string>)
    ensures Subsequence(FilterKeys(d, keep), d)
    decreases |d|
  {
    if d != [] {
      FilterKeysKeepsOrder(d[1..], keep);
      var t := FilterKeys(d[1..], keep);
      if d[0].0 in keep {
        assert FilterKeys(d, keep) == [d[0]] + t;
        assert ([d[0]] + t)[1..] == t;
      } else {
        assert FilterKeys(d, keep) == t;
      }
    }
  }

  /** The set of keys of a dict. */
  function KeySet(d: Dict): set<string>
  {
    set i | 0 <= i < |d| :: d[i].0
  }

  lemma {:induction false} DistinctKeySetSize(d: Dict)
    requires DistinctKeys(d)
    ensures |KeySet(d)| == |d|
    decreases |d|
  {
    if d != [] {
      DistinctKeySetSize(d[1..]);
      assert KeySet(d) == {d[0].0} + KeySet(d[1..]) by {
        forall k | k in KeySet(d) ensures k in {d[0].0} + KeySet(d[1..]) {
          var i :| 0 <= i < |d| && d[i].0 == k;
          if i > 0 { assert d[1..][i - 1].0 == k; }
        }
      }
      assert d[0].0 !in KeySet(d[1..]);
    }
  }

  lemma {:induction false} SeqSetSize(s: seq<string>)
    ensures |set x | x in s| <= |s|
    decreases |s|
  {
    if s != [] {
      SeqSetSize(s[1..]);
      assert (set x | x in s) == {s[0]} + (set x | x in s[1..]);
    }
  }

  lemma {:induction false} FilterKeysDistinct(d: Dict, keep: seq<string>)
    requires DistinctKeys(d)
    ensures DistinctKeys(FilterKeys(d, keep))
    decreases |d|
  {
    if d != [] {
      FilterKeysDistinct(d[1..], keep);
      var t := FilterKeys(d[1..], keep);
      if d[0].0 in keep {
        forall i | 0 <= i < |t| ensures t[i].0 != d[0].0 {
          FilterKeysSound(d[1..], keep);
          var j :| 0 <= j < |d[1..]| && d[1..][j] == t[i];
          assert d[j + 1] == t[i];
        }
      }
    }
  }

  /** A filtered dict has at most as many items as there are listed keys. */
  lemma FilterKeysBound(d: Dict, keep: seq<string>)
    requires DistinctKeys(d)
    ensures |FilterKeys(d, keep)| <= |keep|
  {
    var r := FilterKeys(d, keep);
    FilterKeysDistinct(d, keep);
    DistinctKeySetSize(r);
    FilterKeysSound(d, keep);
    assert KeySet(r) <= set x | x in keep;
    SubsetSize(KeySet(r), set x | x in keep);
    SeqSetSize(keep);
  }

  lemma {:induction false} SubsetSize(a: set<string>, b: set<string>)
    requires a <= b
    ensures |a| <= |b|
    decreases |a|
  {
    if a != {} {
      var x :| x in a;
      SubsetSize(a - {x}, b - {x});
    }
  }

  /** `v[section].items()` filtered to the listed keys: the dict comprehension
      `{k: x for k, x in v[section].items() if k in keep}`. */
  function FilterSection(v: Json, section: string, keep: seq<string>): (r: Result<Dict, AccessError>)
    ensures r.Success? <==> Subscript(v, section).Success? && Subscript(v, section).value.JObj?
    ensures r.Failure? ==> r.error == (if v.JObj? && !HasKey(v.fields, section) then KeyError(section)
                                       else if v.JObj? then NoAttribute else NotSubscriptable)
    ensures r.Success? ==>
              var d := Subscript(v, section).value.fields;
              && (forall k :: HasKey(r.value, k) <==> HasKey(d, k) && k in keep)
              && (forall k :: k in keep ==> Get(r.value, k) == Get(d, k))
              && (forall i :: 0 <= i < |r.value| ==> r.value[i].0 in keep && r.value[i] in d)
              && Subsequence(r.value, d)
              && FilterKeys(r.value, keep) == r.value
              && (DistinctKeys(d) ==> DistinctKeys(r.value) && |r.value| <= |keep|)
  {
    var x :- Subscript(v, section);
    var d :- Items(x);
    FilterKeysSpec(d, keep);
    Success(FilterKeys(d, keep))
  }

  /** Everything the lemmas above say about one filter, in one place. */
  lemma FilterKeysSpec(d: Dict, keep: seq<string>)
    ensures forall k :: HasKey(FilterKeys(d, keep), k) <==> HasKey(d, k) && k in keep
    ensures forall k :: k in keep ==> Get(FilterKeys(d, keep), k) == Get(d, k)
    ensures forall i :: 0 <= i < |FilterKeys(d, keep)| ==>
              FilterKeys(d, keep)[i].0 in keep && FilterKeys(d, keep)[i] in d
    ensures Subsequence(FilterKeys(d, keep), d)
    ensures FilterKeys(FilterKeys(d, keep), keep) == FilterKeys(d, keep)
    ensures DistinctKeys(d) ==> DistinctKeys(FilterKeys(d, keep)) && |FilterKeys(d, keep)| <= |keep|
  {
    forall k ensures HasKey(FilterKeys(d, keep), k) <==> HasKey(d, k) && k in keep {
      FilterKeysHasKey(d, keep, k);
    }
    forall k | k in keep ensures Get(FilterKeys(d, keep), k) == Get(d, k) {
      FilterKeysGet(d, keep, k);
    }
    FilterKeysSound(d, keep);
    FilterKeysKeepsOrder(d, keep);
    FilterKeysIdempotent(d, keep);
    if DistinctKeys(d) {
      FilterKeysDistinct(d, keep);
      FilterKeysBound(d, keep);
    }
  }
}
