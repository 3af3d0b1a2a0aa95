/** Redaction of the query values of a `bunker://` URI. */
module BunkerUris {
  import opened Wrappers
  import opened Texts

  const MARK := "[REDACTED]"

  function RedactParam(param: string): string {
    var r := SplitOnce(param, '=');
    if r.Some? then r.value.0 + "=" + MARK else param
  }

  function RedactParams(params: seq<string>): (r: seq<string>)
    ensures |r| == |params| && forall i :: 0 <= i < |r| ==> r[i] == RedactParam(params[i])
  {
    if params == [] then [] else [RedactParam(params[0])] + RedactParams(params[1..])
  }

  function RedactBunkerUri(uri: string): string {
    var r := SplitOnce(uri, '?');
    if r.None? then uri else r.value.0 + "?" + Join(RedactParams(Split(r.value.1, '&')), '&')
  }

  // ----- What redaction keeps and what it hides -----

  /** A parameter's key and whether a value follows it. */
  datatype Param = Param(key: string, hasValue: bool)

  datatype Skeleton = Skeleton(base: string, params: Option<seq<Param>>)

  function ParamOf(param: string): Param {
    var r := SplitOnce(param, '=');
    if r.Some? then Param(r.value.0, true) else Param(param, false)
  }

  function ParamsOf(params: seq<string>): (r: seq<Param>)
    ensures |r| == |params| && forall i :: 0 <= i < |r| ==> r[i] == ParamOf(params[i])
  {
    if params == [] then [] else [ParamOf(params[0])] + ParamsOf(params[1..])
  }

  /** A URI without its values. */
  function SkeletonOf(uri: string): Skeleton {
    var r := SplitOnce(uri, '?');
    if r.None? then Skeleton(uri, None) else Skeleton(r.value.0, Some(ParamsOf(Split(r.value.1, '&'))))
  }

  lemma RedactedParam(param: string)
    requires '&' !in param
    ensures '&' !in RedactParam(param)
    ensures ParamOf(RedactParam(param)) == ParamOf(param)
    ensures RedactParam(param) == if ParamOf(param).hasValue then ParamOf(param).key + "=" + MARK else ParamOf(param).key
  {
    var r := SplitOnce(param, '=');
    if r.Some? {
      FirstSeparator(r.value.0, '=', MARK);
    }
  }

  lemma RedactedQuery(query: string)
    ensures var params := Split(query, '&');
            && Split(Join(RedactParams(params), '&'), '&') == RedactParams(params)
            && ParamsOf(RedactParams(params)) == ParamsOf(params)
  {
    var params := Split(query, '&');
    SplitParts(query, '&');
    forall i | 0 <= i < |params|
      ensures '&' !in RedactParams(params)[i] && ParamOf(RedactParams(params)[i]) == ParamOf(params[i])
    {
      RedactedParam(params[i]);
    }
    SplitJoined(RedactParams(params), '&');
  }

  /** Base, number of parameters, keys and their order stay. */
  lemma SkeletonIsKept(uri: string)
    ensures SkeletonOf(RedactBunkerUri(uri)) == SkeletonOf(uri)
  {
    var r := SplitOnce(uri, '?');
    if r.Some? {
      RedactedQuery(r.value.1);
      FirstSeparator(r.value.0, '?', Join(RedactParams(Split(r.value.1, '&')), '&'));
    }
  }

  lemma ValueIsMarked(param: string)
    ensures RedactParam(param) == if '=' in param then SplitOnce(param, '=').value.0 + "=" + "[REDACTED]" else param
  {
  }

  /** In the result, every parameter that had a value has the mark for one, and the others are as they were. */
  lemma EveryValueIsTheMark(uri: string)
    requires '?' in uri
    ensures var r, r' := SplitOnce(uri, '?'), SplitOnce(RedactBunkerUri(uri), '?');
            r'.Some? && r'.value.0 == r.value.0 &&
            var params, params' := Split(r.value.1, '&'), Split(r'.value.1, '&');
            && |params'| == |params|
            && forall i :: 0 <= i < |params| ==>
                 params'[i] == if '=' in params[i] then SplitOnce(params[i], '=').value.0 + "=" + "[REDACTED]" else params[i]
  {
    var r := SplitOnce(uri, '?');
    var params := Split(r.value.1, '&');
    RedactedQuery(r.value.1);
    FirstSeparator(r.value.0, '?', Join(RedactParams(params), '&'));
    forall i | 0 <= i < |params|
      ensures RedactParams(params)[i] == if '=' in params[i] then SplitOnce(params[i], '=').value.0 + "=" + "[REDACTED]" else params[i]
    {
      ValueIsMarked(params[i]);
    }
  }

  lemma RedactingTwice(param: string)
    ensures RedactParam(RedactParam(param)) == RedactParam(param)
  {
    var r := SplitOnce(param, '=');
    if r.Some? {
      FirstSeparator(r.value.0, '=', MARK);
    }
  }

  lemma Idempotent(uri: string)
    ensures RedactBunkerUri(RedactBunkerUri(uri)) == RedactBunkerUri(uri)
  {
    var r := SplitOnce(uri, '?');
    if r.Some? {
      var params := Split(r.value.1, '&');
      RedactedQuery(r.value.1);
      FirstSeparator(r.value.0, '?', Join(RedactParams(params), '&'));
      forall i | 0 <= i < |params|
        ensures RedactParams(RedactParams(params))[i] == RedactParams(params)[i]
      {
        RedactingTwice(params[i]);
      }
      assert RedactParams(RedactParams(params)) == RedactParams(params);
    }
  }

  lemma {:induction false} SameParams(p: seq<string>, q: seq<string>)
    requires Without(p, '&') && Without(q, '&') && ParamsOf(p) == ParamsOf(q)
    ensures RedactParams(p) == RedactParams(q)
  {
    forall i | 0 <= i < |p|
      ensures |p| == |q| && RedactParams(p)[i] == RedactParams(q)[i]
    {
      assert ParamOf(p[i]) == ParamsOf(p)[i] == ParamsOf(q)[i] == ParamOf(q[i]);
      RedactedParam(p[i]);
      RedactedParam(q[i]);
    }
  }

  /** Values do not leak: two URIs look the same after redaction exactly when they differ in values only. */
  lemma OnlyTheSkeletonShows(u: string, v: string)
    ensures RedactBunkerUri(u) == RedactBunkerUri(v) <==> SkeletonOf(u) == SkeletonOf(v)
  {
    SkeletonIsKept(u);
    SkeletonIsKept(v);
    var r, q := SplitOnce(u, '?'), SplitOnce(v, '?');
    if SkeletonOf(u) == SkeletonOf(v) && r.Some? {
      SplitParts(r.value.1, '&');
      SplitParts(q.value.1, '&');
      SameParams(Split(r.value.1, '&'), Split(q.value.1, '&'));
    }
  }
}
