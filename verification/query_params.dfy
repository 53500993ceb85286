/**
 * The query rewrite of the captured search URL (`fetchSwiggyData`): `lat`,
 * `lng` and `str` are set on the URL's search parameters, with the semantics
 * of `URLSearchParams.set` in section 6.2 of the WHATWG URL Standard: the
 * first pair with the name takes the value, later pairs with the name are
 * removed, and a missing name is appended.
 */
module QueryParams {
  import opened JsValues

  type Pair = (string, string)

  /** The number of pairs named `name`. */
  function Count(list: seq<Pair>, name: string): nat
  {
    if list == [] then 0 else (if list[0].0 == name then 1 else 0) + Count(list[1..], name)
  }

  /** `params.get(name)`: the value of the first pair named `name`. */
  function Get(list: seq<Pair>, name: string): Option<string>
  {
    if list == [] then None else if list[0].0 == name then Some(list[0].1) else Get(list[1..], name)
  }

  /** The pairs not named `name`, in order. */
  function Without(list: seq<Pair>, name: string): seq<Pair>
  {
    if list == [] then []
    else if list[0].0 == name then Without(list[1..], name)
    else [list[0]] + Without(list[1..], name)
  }

  /** The first pair named `name` takes `value`; the later ones are removed. */
  function ReplaceFirst(list: seq<Pair>, name: string, value: string): seq<Pair>
  {
    if list == [] then []
    else if list[0].0 == name then [(name, value)] + Without(list[1..], name)
    else [list[0]] + ReplaceFirst(list[1..], name, value)
  }

  /** `params.set(name, value)`. */
  function SetParam(list: seq<Pair>, name: string, value: string): seq<Pair>
  {
    if Count(list, name) > 0 then ReplaceFirst(list, name, value) else list + [(name, value)]
  }

  /** The parameters the rewrite does not touch. */
  function Others(list: seq<Pair>): seq<Pair>
  {
    Without(Without(Without(list, "lat"), "lng"), "str")
  }

  /** The three `set` calls, in the source's order. */
  function Rewrite(list: seq<Pair>, lat: string, lng: string, item: string): seq<Pair>
  {
    SetParam(SetParam(SetParam(list, "lat", lat), "lng", lng), "str", item)
  }

  // ---------------------------------------------------------------------
  // Facts about the pieces

  lemma {:induction false} WithoutFacts(list: seq<Pair>, name: string, other: string)
    ensures Count(Without(list, name), name) == 0
    ensures Without(Without(list, name), name) == Without(list, name)
    ensures other != name ==> Count(Without(list, name), other) == Count(list, other)
    ensures other != name ==> Get(Without(list, name), other) == Get(list, other)
  {
    if list != [] {
      WithoutFacts(list[1..], name, other);
      var rest := Without(list[1..], name);
      if list[0].0 != name {
        assert ([list[0]] + rest)[1..] == rest;
      }
    }
  }

  lemma {:induction false} WithoutCommutes(list: seq<Pair>, a: string, b: string)
    ensures Without(Without(list, a), b) == Without(Without(list, b), a)
  {
    if list != [] {
      WithoutCommutes(list[1..], a, b);
      var x := list[0];
      assert forall rest: seq<Pair> :: ([x] + rest)[0] == x && ([x] + rest)[1..] == rest;
    }
  }

  lemma {:induction false} AppendFacts(list: seq<Pair>, p: Pair, name: string)
    ensures Count(list + [p], name) == Count(list, name) + (if p.0 == name then 1 else 0)
    ensures Without(list + [p], name) == Without(list, name) + (if p.0 == name then [] else [p])
    ensures Get(list + [p], name) == if Count(list, name) > 0 then Get(list, name) else if p.0 == name then Some(p.1) else None
  {
    if list == [] {
      assert [] + [p] == [p] && [p][1..] == [];
    } else {
      AppendFacts(list[1..], p, name);
      assert (list + [p])[1..] == list[1..] + [p];
      if list[0].0 != name {
        assert [list[0]] + Without(list[1..], name) + (if p.0 == name then [] else [p])
          == [list[0]] + (Without(list[1..], name) + (if p.0 == name then [] else [p]));
      }
    }
  }

  /** Replacing keeps one pair named `name`, holding `value`, and the pairs
      of every other name as they were. */
  lemma {:induction false} ReplaceFirstFacts(list: seq<Pair>, name: string, value: string, other: string)
    requires Count(list, name) > 0
    ensures Count(ReplaceFirst(list, name, value), name) == 1
    ensures Get(ReplaceFirst(list, name, value), name) == Some(value)
    ensures Without(ReplaceFirst(list, name, value), name) == Without(list, name)
    ensures other != name ==> Count(ReplaceFirst(list, name, value), other) == Count(list, other)
    ensures other != name ==> Get(ReplaceFirst(list, name, value), other) == Get(list, other)
    ensures other != name ==> Without(ReplaceFirst(list, name, value), other) == ReplaceFirst(Without(list, other), name, value)
  {
    var x, rest := list[0], list[1..];
    if x.0 == name {
      WithoutFacts(rest, name, other);
      var tail := Without(rest, name);
      assert ([(name, value)] + tail)[0] == (name, value) && ([(name, value)] + tail)[1..] == tail;
      if other != name {
        WithoutCommutes(rest, name, other);
        var wr := Without(rest, other);
        assert Without(list, other) == [x] + wr;
        assert ([x] + wr)[0] == x && ([x] + wr)[1..] == wr;
      }
    } else {
      ReplaceFirstFacts(rest, name, value, other);
      var tail := ReplaceFirst(rest, name, value);
      assert ([x] + tail)[0] == x && ([x] + tail)[1..] == tail;
      if other != name && x.0 != other {
        var wr := Without(rest, other);
        assert Without(list, other) == [x] + wr;
        assert ([x] + wr)[0] == x && ([x] + wr)[1..] == wr;
        assert Without([x] + tail, other) == [x] + Without(tail, other);
      }
      if other != name && x.0 == other {
        WithoutFacts(rest, other, name);
      }
    }
  }

  lemma {:induction false} ReplaceFirstPlace(list: seq<Pair>, name: string, value: string) returns (k: nat)
    requires Count(list, name) > 0
    ensures k < |list| && list[k].0 == name && forall j :: 0 <= j < k ==> list[j].0 != name
    ensures ReplaceFirst(list, name, value) == list[..k] + [(name, value)] + Without(list[k + 1..], name)
  {
    if list[0].0 == name {
      k := 0;
    } else {
      var k' := ReplaceFirstPlace(list[1..], name, value);
      k := k' + 1;
      assert list[..k] == [list[0]] + list[1..][..k'];
      assert list[k + 1..] == list[1..][k' + 1..];
    }
  }

  // ---------------------------------------------------------------------
  // What `set` guarantees

  /** After `set(name, value)` there is exactly one pair named `name` and it
      holds `value`; the pairs of every other name are kept, in order. */
  lemma SetParamSets(list: seq<Pair>, name: string, value: string)
    ensures Count(SetParam(list, name, value), name) == 1
    ensures Get(SetParam(list, name, value), name) == Some(value)
    ensures Without(SetParam(list, name, value), name) == Without(list, name)
  {
    if Count(list, name) > 0 {
      ReplaceFirstFacts(list, name, value, name);
    } else {
      AppendFacts(list, (name, value), name);
    }
  }

  /** The pair sits where the first pair of that name was, after an
      untouched prefix, or at the end when there was none. */
  lemma SetParamPlace(list: seq<Pair>, name: string, value: string) returns (k: nat)
    ensures k <= |list| && k < |SetParam(list, name, value)|
    ensures SetParam(list, name, value)[..k] == list[..k] && SetParam(list, name, value)[k] == (name, value)
    ensures forall j :: 0 <= j < k ==> list[j].0 != name
    ensures k < |list| <==> Count(list, name) > 0
    ensures k < |list| ==> list[k].0 == name
  {
    if Count(list, name) > 0 {
      k := ReplaceFirstPlace(list, name, value);
      var r := SetParam(list, name, value);
      assert r == list[..k] + ([(name, value)] + Without(list[k + 1..], name));
    } else {
      k := |list|;
      forall j | 0 <= j < k
        ensures list[j].0 != name
      {
        if list[j].0 == name {
          CountPositive(list, name, j);
        }
      }
    }
  }

  lemma {:induction false} CountPositive(list: seq<Pair>, name: string, k: nat)
    requires k < |list| && list[k].0 == name
    ensures Count(list, name) > 0
  {
    if k > 0 {
      CountPositive(list[1..], name, k - 1);
    }
  }

  /** `set` on one name leaves every other name's pairs as they were. */
  lemma SetParamOther(list: seq<Pair>, name: string, value: string, other: string)
    requires other != name
    ensures Count(SetParam(list, name, value), other) == Count(list, other)
    ensures Get(SetParam(list, name, value), other) == Get(list, other)
    ensures Without(SetParam(list, name, value), other) == SetParam(Without(list, other), name, value)
  {
    WithoutFacts(list, other, name);
    if Count(list, name) > 0 {
      ReplaceFirstFacts(list, name, value, other);
    } else {
      AppendFacts(list, (name, value), other);
      AppendFacts(Without(list, other), (name, value), name);
      if Count(list, other) == 0 {
        NoneWithoutCount(list, other);
      }
    }
  }

  lemma {:induction false} NoneWithoutCount(list: seq<Pair>, name: string)
    requires Count(list, name) == 0
    ensures Get(list, name) == None
  {
    if list != [] {
      NoneWithoutCount(list[1..], name);
    }
  }

  /** After the three `set` calls, `lat`, `lng` and `str` each occur exactly
      once with the supplied values, and every other parameter keeps its
      value and its place relative to the others. */
  lemma RewriteSpec(list: seq<Pair>, lat: string, lng: string, item: string)
    ensures Count(Rewrite(list, lat, lng, item), "lat") == 1 && Get(Rewrite(list, lat, lng, item), "lat") == Some(lat)
    ensures Count(Rewrite(list, lat, lng, item), "lng") == 1 && Get(Rewrite(list, lat, lng, item), "lng") == Some(lng)
    ensures Count(Rewrite(list, lat, lng, item), "str") == 1 && Get(Rewrite(list, lat, lng, item), "str") == Some(item)
    ensures Others(Rewrite(list, lat, lng, item)) == Others(list)
  {
    var r1 := SetParam(list, "lat", lat);
    var r2 := SetParam(r1, "lng", lng);
    var r3 := SetParam(r2, "str", item);
    SetParamSets(list, "lat", lat);
    SetParamSets(r1, "lng", lng);
    SetParamSets(r2, "str", item);
    SetParamOther(r1, "lng", lng, "lat");
    SetParamOther(r2, "str", item, "lat");
    SetParamOther(r2, "str", item, "lng");
    // The pairs of the other names, peeled one name at a time.
    var w1 := Without(r1, "lat");
    assert w1 == Without(list, "lat");
    var w2 := Without(r2, "lat");
    assert w2 == SetParam(w1, "lng", lng);
    SetParamSets(w1, "lng", lng);
    assert Without(w2, "lng") == Without(w1, "lng");
    var w3 := Without(r3, "lat");
    assert w3 == SetParam(w2, "str", item);
    SetParamOther(w2, "str", item, "lng");
    var w3b := Without(w3, "lng");
    assert w3b == SetParam(Without(w2, "lng"), "str", item);
    SetParamSets(Without(w2, "lng"), "str", item);
    assert Without(w3b, "str") == Without(Without(w2, "lng"), "str");
  }

  /** The URL's search parameters, updated in place by `set`. */
  class SearchParams {
    var list: seq<Pair>

    constructor (pairs: seq<Pair>)
      ensures list == pairs
    {
      list := pairs;
    }

    method Set(name: string, value: string)
      modifies this
      ensures list == SetParam(old(list), name, value)
    {
      list := SetParam(list, name, value);
    }
  }

  /** `modifiedUrl.searchParams.set("lat", lat)`, then `"lng"`, then `"str"`. */
  method RewriteQuery(params: SearchParams, lat: string, lng: string, item: string)
    modifies params
    ensures params.list == Rewrite(old(params.list), lat, lng, item)
    ensures Count(params.list, "lat") == 1 && Get(params.list, "lat") == Some(lat)
    ensures Count(params.list, "lng") == 1 && Get(params.list, "lng") == Some(lng)
    ensures Count(params.list, "str") == 1 && Get(params.list, "str") == Some(item)
    ensures Others(params.list) == Others(old(params.list))
  {
    params.Set("lat", lat);
    params.Set("lng", lng);
    params.Set("str", item);
    RewriteSpec(old(params.list), lat, lng, item);
  }
}
