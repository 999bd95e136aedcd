/** What the Next.js `/api/about` route handlers share: the dispatch on the last
    '/'-separated segment of the request path, and the JSON responses they build. */
module Routing {
  import opened Text
  import opened Json

  /** A `NextResponse.json(body, { status })`. */
  datatype Response = Response(status: int, body: Json)

  /** `NextResponse.json({ error: message }, { status })`. */
  function ErrorResponse(status: int, message: string): (r: Response)
    ensures r.status == status && r.body.JObj? && r.body.fields.Keys == {"error"}
    ensures r.body.fields["error"] == JStr(message)
  {
    Response(status, JObj(map["error" := JStr(message)]))
  }

  /** `NextResponse.json(body)`. */
  function Ok(body: Json): Response {
    Response(200, body)
  }

  /** Where a GET goes: the active record, one record by id, or the whole list. */
  datatype GetRoute = Current | ById(id: string) | ListAll

  /** The GET dispatch of both `/api/about` routes: 'current' is the active record,
      'about' the whole list, and any other last segment an id. So no id of
      'current' or 'about' can ever be asked for. */
  function ClassifyGet(pathname: string): (r: GetRoute)
    ensures r == Current <==> LastSegment(pathname) == "current"
    ensures r == ListAll <==> LastSegment(pathname) == "about"
    ensures r.ById? ==> r.id == LastSegment(pathname) && '/' !in r.id
    ensures r.ById? ==> r.id != "current" && r.id != "about"
  {
    var last := LastSegment(pathname);
    if last == "current" then Current
    else if last != "about" then ById(last)
    else ListAll
  }

  /** The segment after the last '/' of a path built as `base + "/" + segment`
      is `segment`, whatever `base` holds. */
  lemma LastSegmentOfJoin(base: string, segment: string)
    requires '/' !in segment
    ensures LastSegment(base + "/" + segment) == segment
  {
    var p := base + "/" + segment;
    assert p[|p| - |segment|..] == segment;
    assert p[|p| - |segment| - 1] == '/';
  }

  /** A request for `/api/about/<id>` reaches the by-id branch exactly when the id
      is neither 'current' nor 'about'. */
  lemma RequestedIdReachesById(base: string, id: string)
    requires '/' !in id && id != ""
    ensures ClassifyGet(base + "/" + id) == ById(id) <==> id != "current" && id != "about"
  {
    LastSegmentOfJoin(base, id);
  }
}
