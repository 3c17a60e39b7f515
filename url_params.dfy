/**
 * The query string of a page URL as `URLSearchParams` sees it: an ordered list
 * of (name, value) pairs, in which a name may occur more than once.
 * Percent-encoding is not part of this model.
 */
module UrlParams {
  import opened JsBuiltins

  type Params = seq<(string, string)>

  /** `params.get(name)`: the value of the first pair with that name, or null (None). */
  function Get(params: Params, name: string): (r: Option<string>)
    ensures r.Some? <==> exists i :: 0 <= i < |params| && params[i].0 == name
  {
    if |params| == 0 then None
    else if params[0].0 == name then Some(params[0].1)
    else
      var r := Get(params[1..], name);
      assert forall i :: 1 <= i < |params| ==> params[i] == params[1..][i - 1];
      r
  }

  /** What `get` finds is the value of the first pair with that name. */
  lemma {:induction false} GetFirst(params: Params, name: string)
    ensures Get(params, name).Some? ==>
      exists i :: 0 <= i < |params| && params[i] == (name, Get(params, name).value) && (forall j :: 0 <= j < i ==> params[j].0 != name)
  {
    if |params| > 0 && params[0].0 != name {
      var rest := params[1..];
      GetFirst(rest, name);
      if Get(rest, name).Some? {
        var i :| 0 <= i < |rest| && rest[i] == (name, Get(rest, name).value) && (forall j :: 0 <= j < i ==> rest[j].0 != name);
        assert params[i + 1] == rest[i];
        assert forall j :: 1 <= j < i + 1 ==> params[j] == rest[j - 1];
      }
    }
  }

  /** The pairs whose name differs from `name`, in order. */
  function Without(params: Params, name: string): (r: Params)
    ensures forall i :: 0 <= i < |r| ==> r[i].0 != name
  {
    KeepIf(params, (p: (string, string)) => p.0 != name)
  }

  /**
   * `params.set(name, value)`: the first pair with that name takes the new value
   * and the later ones are removed; without such a pair, one is appended.
   */
  function Set(params: Params, name: string, value: string): (r: Params)
    ensures Get(r, name) == Some(value)
  {
    if |params| == 0 then [(name, value)]
    else if params[0].0 == name then [(name, value)] + Without(params[1..], name)
    else
      var rest := Set(params[1..], name, value);
      assert ([params[0]] + rest)[1..] == rest;
      [params[0]] + rest
  }

  lemma {:induction false} GetWithout(params: Params, name: string)
    ensures Get(Without(params, name), name) == None
  {
  }

  /** `set` leaves the pairs of every other name as they were, in the same order. */
  lemma {:induction false} SetKeepsOthers(params: Params, name: string, value: string, other: string)
    requires other != name
    ensures Without(Set(params, name, value), name) == Without(params, name)
    ensures Get(Set(params, name, value), other) == Get(params, other)
  {
    var notName := (p: (string, string)) => p.0 != name;
    if |params| > 0 {
      var rest := params[1..];
      assert params == [params[0]] + rest;
      KeepIfAppend([params[0]], rest, notName);
      if params[0].0 == name {
        KeepIfAppend([(name, value)], KeepIf(rest, notName), notName);
        KeepIfIdempotent(rest, notName);
        GetKeepIf(rest, notName, other);
      } else {
        SetKeepsOthers(rest, name, value, other);
        KeepIfAppend([params[0]], Set(rest, name, value), notName);
      }
    }
  }

  /** Dropping pairs of one name does not change what `get` answers for another. */
  lemma {:induction false} GetKeepIf(params: Params, keep: ((string, string)) -> bool, other: string)
    requires forall p: (string, string) :: p.0 == other ==> keep(p)
    ensures Get(KeepIf(params, keep), other) == Get(params, other)
  {
    if |params| > 0 {
      GetKeepIf(params[1..], keep, other);
    }
  }
}
