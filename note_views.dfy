/** `NoteViewSet`: notes can be listed, created, read and deleted, but the
    two update verbs are refused. */
module NoteViews {
  import opened Http

  /** `update` (PUT). */
  function Update(request: Request): (r: Response)
    ensures r.status == HTTP_405_METHOD_NOT_ALLOWED && r.body == NoBody
  {
    Response(HTTP_405_METHOD_NOT_ALLOWED, NoBody)
  }

  /** `partial_update` (PATCH). */
  function PartialUpdate(request: Request): (r: Response)
    ensures r.status == HTTP_405_METHOD_NOT_ALLOWED && r.body == NoBody
  {
    Response(HTTP_405_METHOD_NOT_ALLOWED, NoBody)
  }

  /** Neither update verb depends on anything in the request. */
  lemma UpdatesIgnoreRequest(a: Request, b: Request)
    ensures Update(a) == Update(b) == PartialUpdate(a) == PartialUpdate(b)
  {
  }
}
