/**
 * Viewer-request function that sends every request for a `www.` host to
 * the same URL on the bare host with a permanent redirect, rebuilding the
 * query string from CloudFront's parsed `querystring` object.
 */
module RedirectRemoveWww {
  import opened Wrappers
  import opened Strings
  import opened CloudFront

  const WWW := "www."

  /** The part `encodeRequestQuery` pushes for one parameter. */
  function EncodeParam(param: string, query: QueryParam): (part: string)
    ensures query.multiValue.None? && query.value == "" ==> part == param
    ensures query.multiValue.None? && query.value != "" ==> part == param + "=" + query.value
    ensures query.multiValue == Some([]) ==> part == ""
    ensures query.multiValue.Some? && |query.multiValue.value| == 1 ==>
      part == param + "=" + query.multiValue.value[0]
    ensures query.multiValue.Some? && |query.multiValue.value| > 1 ==>
      var items := query.multiValue.value;
      part == param + "=" + items[0] + "&" + Join(MultiValueParts(param, items[1..]), "&")
  {
    match query.multiValue
    case Some(items) =>
      assert |items| > 1 ==> MultiValueParts(param, items)[1..] == MultiValueParts(param, items[1..]);
      Join(MultiValueParts(param, items), "&")
    case None => if query.value == "" then param else param + "=" + query.value
  }

  /** `query.multiValue.map((item) => param + '=' + item.value)`. */
  function MultiValueParts(param: string, items: seq<string>): seq<string>
  {
    seq(|items|, i requires 0 <= i < |items| => param + "=" + items[i])
  }

  /** The parts, one per parameter and in iteration order. */
  function Parts(qs: QueryString): (parts: seq<string>)
    ensures |parts| == |qs|
    ensures forall i :: 0 <= i < |qs| ==> parts[i] == EncodeParam(qs[i].0, qs[i].1)
  {
    seq(|qs|, i requires 0 <= i < |qs| => EncodeParam(qs[i].0, qs[i].1))
  }

  /** What `encodeRequestQuery` returns: the parts joined with `&`. */
  function EncodedQuery(qs: QueryString): (qstr: string)
    ensures qs == [] ==> qstr == ""
    ensures |qs| == 1 ==> qstr == EncodeParam(qs[0].0, qs[0].1)
  {
    Join(Parts(qs), "&")
  }

  /** `encodeRequestQuery`: push one part per parameter, then join the parts with `&`. */
  method EncodeRequestQuery(querystring: QueryString) returns (s: string)
    ensures s == EncodedQuery(querystring)
  {
    var parts: seq<string> := [];
    for i := 0 to |querystring|
      invariant |parts| == i
      invariant forall j :: 0 <= j < i ==> parts[j] == EncodeParam(querystring[j].0, querystring[j].1)
    {
      var (param, query) := querystring[i];
      if query.multiValue.Some? {
        parts := parts + [Join(MultiValueParts(param, query.multiValue.value), "&")];
      } else if query.value == "" {
        parts := parts + [param];
      } else {
        parts := parts + [param + "=" + query.value];
      }
    }
    assert parts == Parts(querystring);
    s := Join(parts, "&");
  }

  /** The query suffix of the location: nothing for an empty query, else `?` and the query. */
  function QueryPart(qstr: string): (qpart: string)
    ensures qpart == "" <==> qstr == ""
    ensures qpart != "" ==> qpart[0] == '?' && qpart[1..] == qstr
  {
    if qstr == "" then "" else "?" + qstr
  }

  /** The `location` of the redirect for a host that starts with `www.`. */
  function Location(request: Request, newHost: string): string
  {
    "https://" + newHost + request.uri + QueryPart(EncodedQuery(request.querystring))
  }

  /**
   * `handler`: a missing Host header makes `headers.host.value` throw; a
   * host starting with `www.` (case-sensitive) gets a 301 whose only header
   * is `location`; any other request is forwarded unchanged.
   */
  function Handler(event: Event): (out: Outcome)
    ensures out.Throws? <==> "host" !in event.request.headers
    ensures out.Forward? <==>
      "host" in event.request.headers && !(WWW <= event.request.headers["host"])
    ensures out.Forward? ==> out.request == event.request
    ensures out.Respond? ==>
      && out.response.statusCode == 301
      && out.response.statusDescription == "Moved Permanently"
      && out.response.headers.Some?
      && out.response.headers.value.Keys == {"location"}
  {
    var request := event.request;
    if "host" !in request.headers then Throws
    else
      var host := request.headers["host"];
      if WWW <= host then
        var newHost := host[4..];
        Respond(Response(301, "Moved Permanently", Some(map["location" := Location(request, newHost)])))
      else
        Forward(request)
  }

  /**
   * The redirect target is `https://`, the host with its `www.` removed,
   * the original uri and the rebuilt query.
   */
  lemma RedirectLocation(request: Request)
    requires "host" in request.headers && WWW <= request.headers["host"]
    ensures var host := request.headers["host"];
      var out := Handler(Event(request));
      var qstr := EncodedQuery(request.querystring);
      && out.Respond?
      && WWW + host[4..] == host
      && out.response.headers.value["location"] == "https://" + host[4..] + request.uri + QueryPart(qstr)
      && |out.response.headers.value["location"]| == 4 + |host| + |request.uri| + (if qstr == "" then 0 else 1 + |qstr|)
  {
  }

  /**
   * Following the redirect (same request on the new host) is forwarded to
   * the origin unless the host began with `www.` twice.
   */
  lemma {:induction false} FollowingRedirectIsForwarded(request: Request)
    requires "host" in request.headers && WWW <= request.headers["host"]
    ensures var newHost := request.headers["host"][4..];
      var next := request.(headers := request.headers["host" := newHost]);
      Handler(Event(next)).Forward? <==> !(WWW <= newHost)
  {
  }

  /** The query of two non-empty parameter lists is their queries joined by `&`. */
  lemma EncodedQueryAppend(a: QueryString, b: QueryString)
    requires |a| > 0 && |b| > 0
    ensures EncodedQuery(a + b) == EncodedQuery(a) + "&" + EncodedQuery(b)
  {
    assert Parts(a + b) == Parts(a) + Parts(b);
    JoinAppend(Parts(a), Parts(b), "&");
  }

  /** The `&`-separated segments one parameter contributes. */
  function Segments(param: string, query: QueryParam): seq<string>
  {
    match query.multiValue
    case Some(items) => MultiValueParts(param, items)
    case None => [EncodeParam(param, query)]
  }

  /** Joining a parameter's segments gives its part. */
  lemma SegmentsJoinToPart(param: string, query: QueryParam)
    ensures Join(Segments(param, query), "&") == EncodeParam(param, query)
  {
  }

  /** The segments of every parameter, in iteration order. */
  function AllSegments(qs: QueryString): seq<string>
  {
    if qs == [] then [] else Segments(qs[0].0, qs[0].1) + AllSegments(qs[1..])
  }

  /** Every `multiValue` that is present holds at least one value. */
  predicate NoEmptyMultiValue(qs: QueryString)
  {
    forall i :: 0 <= i < |qs| ==> qs[i].1.multiValue != Some([])
  }

  lemma AllSegmentsNonEmpty(qs: QueryString)
    requires |qs| > 0 && NoEmptyMultiValue(qs)
    ensures |AllSegments(qs)| > 0
  {
  }

  /** With no empty `multiValue`, the query is the join of all segments. */
  lemma {:induction false} EncodedQueryIsJoinOfSegments(qs: QueryString)
    requires NoEmptyMultiValue(qs)
    ensures EncodedQuery(qs) == Join(AllSegments(qs), "&")
  {
    if |qs| > 0 {
      var rest := qs[1..];
      assert NoEmptyMultiValue(rest) by {
        forall i | 0 <= i < |rest| ensures rest[i].1.multiValue != Some([]) {
          assert rest[i] == qs[i + 1];
        }
      }
      var first := Segments(qs[0].0, qs[0].1);
      SegmentsJoinToPart(qs[0].0, qs[0].1);
      if rest == [] {
        assert AllSegments(qs) == first;
      } else {
        EncodedQueryIsJoinOfSegments(rest);
        AllSegmentsNonEmpty(rest);
        assert qs == qs[..1] + rest;
        EncodedQueryAppend(qs[..1], rest);
        JoinAppend(first, AllSegments(rest), "&");
      }
    }
  }

  /** No parameter name or value contains `&`. */
  predicate NoAmpersand(qs: QueryString)
  {
    forall i :: 0 <= i < |qs| ==>
      && '&' !in qs[i].0
      && '&' !in qs[i].1.value
      && (qs[i].1.multiValue.Some? ==> forall j :: 0 <= j < |qs[i].1.multiValue.value| ==> '&' !in qs[i].1.multiValue.value[j])
  }

  lemma {:induction false} AllSegmentsHaveNoAmpersand(qs: QueryString)
    requires NoAmpersand(qs)
    ensures forall k :: 0 <= k < |AllSegments(qs)| ==> '&' !in AllSegments(qs)[k]
  {
    if qs != [] {
      var rest := qs[1..];
      assert NoAmpersand(rest) by {
        forall i | 0 <= i < |rest| ensures rest[i] == qs[i + 1] { }
      }
      AllSegmentsHaveNoAmpersand(rest);
    }
  }

  /**
   * Splitting the rebuilt query at `&` gives back one segment per value,
   * in order: `param=value` for each value of a multi-valued parameter,
   * `param` for an empty single value, `param=value` otherwise.
   */
  lemma SplitEncodedQuery(qs: QueryString)
    requires |qs| > 0 && NoEmptyMultiValue(qs) && NoAmpersand(qs)
    ensures Split(EncodedQuery(qs), '&') == AllSegments(qs)
  {
    EncodedQueryIsJoinOfSegments(qs);
    AllSegmentsNonEmpty(qs);
    AllSegmentsHaveNoAmpersand(qs);
    SplitJoin(AllSegments(qs), '&');
  }
}
