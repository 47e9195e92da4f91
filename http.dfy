/** Requests and responses as the views see them. */
module Http {
  import opened PyValues
  import Records
  import opened Wrappers

  const HTTP_200_OK: int := 200
  const HTTP_400_BAD_REQUEST: int := 400
  const HTTP_405_METHOD_NOT_ALLOWED: int := 405
  const HTTP_502_BAD_GATEWAY: int := 502

  /** `request.query_params` (every (name, value) pair in the order sent)
      and the request's parsed body. */
  datatype Request = Request(queryParams: seq<(string, string)>, data: PyValue)

  /** What a `Response` carries: a Python value, the serialized dose logs of
      a list answer, or nothing. */
  datatype Body =
    | Data(value: PyValue)
    | Logs(logs: seq<Records.DoseLog>)
    | NoBody

  datatype Response = Response(status: int, body: Body)

  /** `Response({"error": message}, status=...)`. */
  function ErrorBody(message: string): Body
  {
    Data(PyDict(map["error" := PyStr(message)]))
  }

  /** `query_params.get(name)`: absent when the name was never sent,
      otherwise the value sent with it last. */
  function QueryParam(params: seq<(string, string)>, name: string): (r: Option<string>)
    ensures r.None? <==> forall i :: 0 <= i < |params| ==> params[i].0 != name
    ensures r.Some? ==> exists i :: 0 <= i < |params| && params[i] == (name, r.value) &&
                          forall j :: i < j < |params| ==> params[j].0 != name
  {
    if params == [] then None
    else if params[|params| - 1].0 == name then Some(params[|params| - 1].1)
    else QueryParam(params[..|params| - 1], name)
  }
}
