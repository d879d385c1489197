/** Viewer-request function that answers every POST at the edge with an empty 204. */
module PostRequestOk {
  import opened Wrappers
  import opened CloudFront

  /** The literal `{statusCode: 204, statusDescription: 'No Content'}`: no headers, no body. */
  const NO_CONTENT := Response(204, "No Content", None)

  /**
   * A request whose method is exactly "POST" (case-sensitive) is answered
   * with NO_CONTENT; every other request is forwarded as it came.
   */
  function Handler(event: Event): (out: Outcome)
    ensures out.Respond? <==> event.request.httpMethod == "POST"
    ensures out.Respond? ==> out.response == Response(204, "No Content", None)
    ensures out.Respond? ==> out.response.headers == None
    ensures !out.Respond? ==> out == Forward(event.request)
  {
    var request := event.request;
    if request.httpMethod == "POST" then Respond(NO_CONTENT) else Forward(request)
  }

  /** The method test is case-sensitive: a lower-case "post" reaches the origin untouched. */
  lemma LowerCasePostIsForwarded(request: Request)
    requires request.httpMethod == "post"
    ensures Handler(Event(request)) == Forward(request)
  {
  }
}
