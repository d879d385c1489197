/**
 * The parts of a CloudFront Functions viewer-request event that the two
 * edge functions read, and the two things such a function can return:
 * the request (possibly unchanged) to forward to the origin, or a
 * response generated at the edge.
 */
module CloudFront {
  import opened Wrappers

  /**
   * One query-string parameter: `value`, and `multiValue` holding every
   * value when the parameter was repeated (None when the field is absent).
   */
  datatype QueryParam = QueryParam(value: string, multiValue: Option<seq<string>>)

  /** The `querystring` object, its parameters listed in the order `for...in` visits them. */
  type QueryString = seq<(string, QueryParam)>

  /** A viewer request (`httpMethod` is its `method` field); `headers` maps a lower-case header name to its `value`. */
  datatype Request = Request(
    httpMethod: string,
    uri: string,
    headers: map<string, string>,
    querystring: QueryString)

  datatype Event = Event(request: Request)

  /** A response generated at the edge; `headers` is None when the object has no `headers` field. */
  datatype Response = Response(
    statusCode: int,
    statusDescription: string,
    headers: Option<map<string, string>>)

  /** What a viewer-request function hands back to CloudFront. */
  datatype Outcome =
    | Forward(request: Request)   // the function returned a request object
    | Respond(response: Response) // the function returned a response object
    | Throws                      // the function raised a JavaScript error
}
