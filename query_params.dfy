/** `URLSearchParams` as an ordered list of name/value pairs, and the
    relative URLs the storefront builds from it. */
module QueryParams {
  import opened Wrappers
  import opened Arrays

  type Param = (string, string)

  /** A path with its query parameters; the origin is not modelled. */
  datatype Url = Url(path: string, query: seq<Param>)

  /** Where the first pair named `name` sits, or |ps| when there is none. */
  function ParamIndex(ps: seq<Param>, name: string): (i: nat)
    ensures i <= |ps|
    ensures i < |ps| ==> ps[i].0 == name
    ensures forall j :: 0 <= j < i ==> ps[j].0 != name
  {
    FindIndex(ps, (p: Param) => p.0 == name)
  }

  /** `get`: the value of the first pair with that name. */
  function Lookup(ps: seq<Param>, name: string): (r: Option<string>)
    ensures r.None? <==> forall j :: 0 <= j < |ps| ==> ps[j].0 != name
    ensures r.Some? ==> (name, r.value) in ps
    ensures r.Some? ==> exists i :: 0 <= i < |ps| && ps[i] == (name, r.value) && forall j :: 0 <= j < i ==> ps[j].0 != name
  {
    var i := ParamIndex(ps, name);
    if i < |ps| then assert ps[i] == (name, ps[i].1); Some(ps[i].1) else None
  }

  /** `delete`: drop every pair with that name. */
  function DeleteParam(ps: seq<Param>, name: string): (r: seq<Param>)
    ensures forall j :: 0 <= j < |r| ==> r[j].0 != name && r[j] in ps
    ensures forall j :: 0 <= j < |ps| && ps[j].0 != name ==> ps[j] in r
  {
    Filter(ps, (p: Param) => p.0 != name)
  }

  /** `set`: the first pair with that name takes the new value and the later
      ones are dropped; with no such pair, a new one goes at the end. */
  function SetParam(ps: seq<Param>, name: string, value: string): (r: seq<Param>)
    ensures var i := ParamIndex(ps, name); i < |r| && r[..i] == ps[..i] && r[i] == (name, value)
  {
    var i := ParamIndex(ps, name);
    if i < |ps| then ps[..i] + [(name, value)] + DeleteParam(ps[i + 1..], name)
    else ps + [(name, value)]
  }

  /** `toString` without percent-encoding: `name=value` pairs joined by `&`. */
  function Serialize(ps: seq<Param>): (r: string)
    ensures r == "" <==> ps == []
  {
    if ps == [] then ""
    else if |ps| == 1 then ps[0].0 + "=" + ps[0].1
    else ps[0].0 + "=" + ps[0].1 + "&" + Serialize(ps[1..])
  }

  /** Two parameters serialise as `a=x&b=y`. */
  lemma SerializeTwo(p: Param, q: Param)
    ensures Serialize([p, q]) == p.0 + "=" + p.1 + "&" + q.0 + "=" + q.1
  {
    assert [p, q][1..] == [q];
  }

  /** Deleting twice is deleting once. */
  lemma DeleteParamIdempotent(ps: seq<Param>, name: string)
    ensures DeleteParam(DeleteParam(ps, name), name) == DeleteParam(ps, name)
  {
    var d := DeleteParam(ps, name);
    FilterAll(d, (p: Param) => p.0 != name);
  }

  /** After `set`, `get` gives the new value and no other pair has the name. */
  lemma SetParamValue(ps: seq<Param>, name: string, value: string)
    ensures Lookup(SetParam(ps, name, value), name) == Some(value)
    ensures forall j :: 0 <= j < |SetParam(ps, name, value)| && SetParam(ps, name, value)[j].0 == name ==>
              SetParam(ps, name, value)[j] == (name, value)
  {
    var i := ParamIndex(ps, name);
    var r := SetParam(ps, name, value);
    if i < |ps| {
      assert r[i] == (name, value);
      assert ParamIndex(r, name) == i;
    } else {
      assert forall j :: 0 <= j < |ps| ==> r[j] == ps[j];
      assert r[|ps|] == (name, value);
      assert ParamIndex(r, name) == |ps|;
    }
  }

  /** `set` leaves the pairs of every other name as they were, in order. */
  lemma SetParamKeepsOthers(ps: seq<Param>, name: string, value: string)
    ensures DeleteParam(SetParam(ps, name, value), name) == DeleteParam(ps, name)
  {
    var f := (p: Param) => p.0 != name;
    var i := ParamIndex(ps, name);
    if i < |ps| {
      var pre, post := ps[..i], ps[i + 1..];
      assert ps == pre + [ps[i]] + post;
      FilterConcat(pre + [ps[i]], post, f);
      FilterConcat(pre, [ps[i]], f);
      assert Filter([ps[i]], f) == [];
      FilterConcat(pre + [(name, value)], DeleteParam(post, name), f);
      FilterConcat(pre, [(name, value)], f);
      assert Filter([(name, value)], f) == [];
      DeleteParamIdempotent(post, name);
    } else {
      FilterConcat(ps, [(name, value)], f);
      assert Filter([(name, value)], f) == [];
    }
  }

  /** A mutable `URLSearchParams` object. */
  class SearchParams {
    var entries: seq<Param>

    /** `new URLSearchParams(init)`. */
    constructor (init: seq<Param>)
      ensures entries == init
    {
      entries := init;
    }

    method Append(name: string, value: string)
      modifies this
      ensures entries == old(entries) + [(name, value)]
    {
      entries := entries + [(name, value)];
    }

    method Delete(name: string)
      modifies this
      ensures entries == DeleteParam(old(entries), name)
    {
      entries := DeleteParam(entries, name);
    }

    method Set(name: string, value: string)
      modifies this
      ensures entries == SetParam(old(entries), name, value)
    {
      entries := SetParam(entries, name, value);
    }

    function ToString(): (r: string)
      reads this
      ensures r == "" <==> entries == []
    {
      Serialize(entries)
    }
  }
}
