/** The query parameters `fetchMedia` puts on the listing URL. */
module Query {
  import opened Media
  import Projection

  /** The value of the first entry with `key`, as `URLSearchParams.get` reads it. */
  function Lookup(params: seq<(string, string)>, key: string): Option<string> {
    if params == [] then None
    else if params[0].0 == key then Some(params[0].1)
    else Lookup(params[1..], key)
  }

  /** The entries of `params`, in insertion order: `kind` for a specific
      tab, `q` for a non-empty query, both copied verbatim. */
  function SearchParams(active: string, query: string): (params: seq<(string, string)>)
    ensures |params| <= 2
    ensures Lookup(params, "kind") == (if active != Projection.AllTab then Some(active) else None)
    ensures Lookup(params, "q") == (if query != "" then Some(query) else None)
    ensures forall k :: 0 <= k < |params| ==> params[k].0 == "kind" || params[k].0 == "q"
    ensures params == [] <==> active == Projection.AllTab && query == ""
    ensures |params| == 2 ==> params[0].0 == "kind" && params[1].0 == "q"
  {
    (if active != Projection.AllTab then [("kind", active)] else [])
    + (if query != "" then [("q", query)] else [])
  }

  /** The two requests worked out for the listing call. */
  lemma SearchParamsExamples()
    ensures SearchParams("movie", "Drift") == [("kind", "movie"), ("q", "Drift")]
    ensures SearchParams(Projection.AllTab, "") == []
  {
  }
}
