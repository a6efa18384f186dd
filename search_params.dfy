/** The query-parameter list of a `URL` object (`url.searchParams`) and the one
    operation the dashboard applies to it, `set`, following the `set(name,
    value)` method of the URLSearchParams interface in section 6.2 of the
    WHATWG URL Standard: if the list holds pairs named `name`, the first one
    takes the new value and the others are removed; otherwise a new pair is
    appended. */
module UrlSearchParams {
  import opened Wrappers

  /** One name-value pair of the list. */
  type Param = (string, string)

  /** How many pairs of `ps` are named `k`. */
  function Count(ps: seq<Param>, k: string): nat {
    if ps == [] then 0 else (if ps[0].0 == k then 1 else 0) + Count(ps[1..], k)
  }

  predicate HasKey(ps: seq<Param>, k: string) {
    Count(ps, k) > 0
  }

  /** No name appears twice. */
  ghost predicate DistinctKeys(ps: seq<Param>) {
    forall k :: Count(ps, k) <= 1
  }

  /** `get(name)`: the value of the first pair named `k`, if any. */
  function Get(ps: seq<Param>, k: string): (r: Option<string>)
    ensures r.None? <==> !HasKey(ps, k)
  {
    if ps == [] then None
    else if ps[0].0 == k then Some(ps[0].1)
    else Get(ps[1..], k)
  }

  /** Index of the first pair named `k`, if any. */
  function FirstIndex(ps: seq<Param>, k: string): (r: Option<nat>)
    ensures r.None? <==> !HasKey(ps, k)
    ensures r.Some? ==> r.value < |ps| && ps[r.value].0 == k
    ensures r.Some? ==> forall j :: 0 <= j < r.value ==> ps[j].0 != k
  {
    if ps == [] then None
    else if ps[0].0 == k then Some(0)
    else match FirstIndex(ps[1..], k)
      case None => None
      case Some(i) => Some(i + 1)
  }

  /** `ps` with every pair named `k` removed, the others in their order. */
  function Without(ps: seq<Param>, k: string): seq<Param> {
    if ps == [] then []
    else if ps[0].0 == k then Without(ps[1..], k)
    else [ps[0]] + Without(ps[1..], k)
  }

  /** `set(k, v)` applied to the list `ps`. */
  function SetParam(ps: seq<Param>, k: string, v: string): seq<Param> {
    if ps == [] then [(k, v)]
    else if ps[0].0 == k then [(k, v)] + Without(ps[1..], k)
    else [ps[0]] + SetParam(ps[1..], k, v)
  }

  // ---------------------------------------------------------------------------
  // Counting over concatenation and removal.

  lemma {:induction false} CountAppend(a: seq<Param>, b: seq<Param>, k: string)
    ensures Count(a + b, k) == Count(a, k) + Count(b, k)
  {
    if a == [] {
      assert a + b == b;
    } else {
      assert (a + b)[1..] == a[1..] + b;
      CountAppend(a[1..], b, k);
    }
  }

  lemma CountSingleton(p: Param, k: string)
    ensures Count([p], k) == if p.0 == k then 1 else 0
  {
  }

  lemma {:induction false} GetAppend(a: seq<Param>, b: seq<Param>, k: string)
    ensures Get(a + b, k) == if HasKey(a, k) then Get(a, k) else Get(b, k)
  {
    if a == [] {
      assert a + b == b;
    } else {
      assert (a + b)[1..] == a[1..] + b;
      GetAppend(a[1..], b, k);
    }
  }

  lemma {:induction false} WithoutCount(ps: seq<Param>, k: string, k': string)
    ensures Count(Without(ps, k), k) == 0
    ensures k' != k ==> Count(Without(ps, k), k') == Count(ps, k')
  {
    if ps != [] {
      WithoutCount(ps[1..], k, k');
      if ps[0].0 != k {
        assert ([ps[0]] + Without(ps[1..], k))[1..] == Without(ps[1..], k);
      }
    }
  }

  lemma {:induction false} WithoutIdempotent(ps: seq<Param>, k: string)
    ensures Without(Without(ps, k), k) == Without(ps, k)
  {
    if ps != [] {
      WithoutIdempotent(ps[1..], k);
      if ps[0].0 != k {
        assert ([ps[0]] + Without(ps[1..], k))[1..] == Without(ps[1..], k);
      }
    }
  }

  lemma {:induction false} WithoutGet(ps: seq<Param>, k: string, k': string)
    requires k' != k
    ensures Get(Without(ps, k), k') == Get(ps, k')
  {
    if ps != [] {
      WithoutGet(ps[1..], k, k');
      if ps[0].0 != k {
        assert ([ps[0]] + Without(ps[1..], k))[1..] == Without(ps[1..], k);
      }
    }
  }

  // ---------------------------------------------------------------------------
  // `set` agrees with the wording of the standard.

  /** No pair named `k`: `set` appends `(k, v)` and leaves the rest alone. */
  lemma {:induction false} SetParamAbsent(ps: seq<Param>, k: string, v: string)
    requires !HasKey(ps, k)
    ensures SetParam(ps, k, v) == ps + [(k, v)]
  {
    if ps != [] {
      SetParamAbsent(ps[1..], k, v);
      assert ps == [ps[0]] + ps[1..];
    }
  }

  /** The first pair named `k` sits at `i`: it takes the value `v` in place,
      every later pair named `k` is removed, everything else keeps its place. */
  lemma {:induction false} SetParamPresent(ps: seq<Param>, k: string, v: string)
    requires HasKey(ps, k)
    ensures var i := FirstIndex(ps, k).value;
      SetParam(ps, k, v) == ps[..i] + [(k, v)] + Without(ps[i + 1..], k)
  {
    var i := FirstIndex(ps, k).value;
    if ps[0].0 == k {
      assert i == 0 && ps[..i] == [];
    } else {
      var tail := ps[1..];
      var j := FirstIndex(tail, k).value;
      assert i == j + 1;
      SetParamPresent(tail, k, v);
      assert tail[..j] == ps[1..i];
      assert tail[j + 1..] == ps[i + 1..];
      assert ps[..i] == [ps[0]] + ps[1..i];
      calc {
        SetParam(ps, k, v);
        [ps[0]] + SetParam(tail, k, v);
        [ps[0]] + (ps[1..i] + [(k, v)] + Without(ps[i + 1..], k));
        ps[..i] + [(k, v)] + Without(ps[i + 1..], k);
      }
    }
  }

  // ---------------------------------------------------------------------------
  // What `set` guarantees to its callers.

  /** After `set(k, v)`, `get(k)` yields `v` and every other name reads as before. */
  lemma {:induction false} SetParamGet(ps: seq<Param>, k: string, v: string, k': string)
    ensures Get(SetParam(ps, k, v), k) == Some(v)
    ensures k' != k ==> Get(SetParam(ps, k, v), k') == Get(ps, k')
  {
    if ps != [] {
      if ps[0].0 == k {
        if k' != k {
          WithoutGet(ps[1..], k, k');
        }
      } else {
        SetParamGet(ps[1..], k, v, k');
      }
    }
  }

  /** After `set(k, v)` exactly one pair is named `k`, and every other name
      occurs as often as before. */
  lemma {:induction false} SetParamCount(ps: seq<Param>, k: string, v: string, k': string)
    ensures Count(SetParam(ps, k, v), k) == 1
    ensures k' != k ==> Count(SetParam(ps, k, v), k') == Count(ps, k')
  {
    if ps == [] {
      assert SetParam(ps, k, v) == [(k, v)];
    } else if ps[0].0 == k {
      WithoutCount(ps[1..], k, k');
      assert ([(k, v)] + Without(ps[1..], k))[1..] == Without(ps[1..], k);
    } else {
      SetParamCount(ps[1..], k, v, k');
      assert ([ps[0]] + SetParam(ps[1..], k, v))[1..] == SetParam(ps[1..], k, v);
    }
  }

  /** `set` never creates a duplicate name. */
  lemma SetParamKeepsDistinct(ps: seq<Param>, k: string, v: string)
    requires DistinctKeys(ps)
    ensures DistinctKeys(SetParam(ps, k, v))
  {
    forall k' ensures Count(SetParam(ps, k, v), k') <= 1 {
      SetParamCount(ps, k, v, k');
    }
  }

  /** The pairs with other names keep their relative order. */
  lemma {:induction false} SetParamKeepsOthers(ps: seq<Param>, k: string, v: string)
    ensures Without(SetParam(ps, k, v), k) == Without(ps, k)
  {
    if ps != [] {
      if ps[0].0 == k {
        assert ([(k, v)] + Without(ps[1..], k))[1..] == Without(ps[1..], k);
        WithoutIdempotent(ps[1..], k);
      } else {
        assert ([ps[0]] + SetParam(ps[1..], k, v))[1..] == SetParam(ps[1..], k, v);
        SetParamKeepsOthers(ps[1..], k, v);
      }
    }
  }

  /** A second `set` of the same name overrides the first; with equal values
      this is idempotence. */
  lemma {:induction false} SetParamOverwrite(ps: seq<Param>, k: string, v1: string, v2: string)
    ensures SetParam(SetParam(ps, k, v1), k, v2) == SetParam(ps, k, v2)
  {
    if ps != [] {
      if ps[0].0 == k {
        var w := Without(ps[1..], k);
        assert ([(k, v1)] + w)[1..] == w;
        WithoutIdempotent(ps[1..], k);
      } else {
        assert ([ps[0]] + SetParam(ps[1..], k, v1))[1..] == SetParam(ps[1..], k, v1);
        SetParamOverwrite(ps[1..], k, v1, v2);
      }
    }
  }

  /** A `URLSearchParams` object: the list is updated in place by `Set`. */
  class SearchParams {
    var entries: seq<Param>

    /** The list of a URL without a query string. */
    constructor ()
      ensures entries == []
    {
      entries := [];
    }

    /** `searchParams.set(name, value)`. */
    method Set(name: string, value: string)
      modifies this
      ensures entries == SetParam(old(entries), name, value)
      ensures Get(entries, name) == Some(value)
      ensures DistinctKeys(old(entries)) ==> DistinctKeys(entries)
    {
      SetParamGet(entries, name, value, name);
      if DistinctKeys(entries) {
        SetParamKeepsDistinct(entries, name, value);
      }
      entries := SetParam(entries, name, value);
    }
  }
}
