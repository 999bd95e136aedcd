/** The portfolio app's `/api/about` route: it dispatches on the last path segment
    and turns the front-end AboutService's answers into responses. The service
    calls are parameters; list-all, update and delete are handed to the shared
    route adapter, which is not part of this model. */
module PortfolioAboutRoute {
  import opened Wrappers
  import opened Text
  import opened Json
  import opened Routing

  /** What an awaited service call produced. */
  datatype Outcome = Resolved(value: Json) | Threw

  /** A lookup's answer: a missing (falsy) record is 404, a thrown error is 500,
      anything else is returned as is. */
  function AnswerLookup(o: Outcome, missing: string, failed: string): (r: Response)
    ensures r.status == 200 <==> o.Resolved? && Truthy(o.value)
    ensures r.status == 200 ==> r.body == o.value
    ensures o.Resolved? && !Truthy(o.value) ==> r == ErrorResponse(404, missing)
    ensures o.Threw? ==> r == ErrorResponse(500, failed)
  {
    match o
    case Threw => ErrorResponse(500, failed)
    case Resolved(v) => if !Truthy(v) then ErrorResponse(404, missing) else Ok(v)
  }

  /** GET: 'current' answers from `findActive`, an id from `findOne(id)`; 'about'
      is handed to the adapter's list-all (None). */
  function Get(pathname: string, findActive: Outcome, findOne: string -> Outcome): (r: Option<Response>)
    ensures r.None? <==> LastSegment(pathname) == "about"
    ensures LastSegment(pathname) == "current" ==>
              r == Some(AnswerLookup(findActive, "Nenhum about ativo encontrado", "Falha ao buscar about ativo"))
    ensures LastSegment(pathname) != "current" && LastSegment(pathname) != "about" ==>
              r == Some(AnswerLookup(findOne(LastSegment(pathname)), "About não encontrado", "Falha ao buscar about específico"))
  {
    match ClassifyGet(pathname)
    case Current => Some(AnswerLookup(findActive, "Nenhum about ativo encontrado", "Falha ao buscar about ativo"))
    case ById(id) => Some(AnswerLookup(findOne(id), "About não encontrado", "Falha ao buscar about específico"))
    case ListAll => None
  }

  /** What a PUT does. */
  datatype PutAction =
    | Activate(aboutId: Json)     // `aboutService.setActive(data.id)`
    | Reject(response: Response)  // 400 before any call
    | UpdateById(id: string)      // `adapter.handleUpdate(id, req)`

  /** PUT dispatch: 'activate' needs a truthy `id` in the body, anything else is an
      update of the record the last segment names. */
  function PutDispatch(pathname: string, body: Obj): (r: PutAction)
    ensures LastSegment(pathname) == "activate" ==>
              (r.Reject? <==> !("id" in body && Truthy(body["id"])))
    ensures LastSegment(pathname) == "activate" && r.Activate? ==> r.aboutId == body["id"]
    ensures r.Reject? ==> r.response == ErrorResponse(400, "ID do about não fornecido")
    ensures LastSegment(pathname) != "activate" ==> r == UpdateById(LastSegment(pathname))
  {
    var id := LastSegment(pathname);
    if id == "activate" then
      if !("id" in body && Truthy(body["id"])) then Reject(ErrorResponse(400, "ID do about não fornecido"))
      else Activate(body["id"])
    else UpdateById(id)
  }

  /** The answer to 'activate': the service's result, or 500 when it throws. */
  function AnswerActivate(o: Outcome): (r: Response)
    ensures o.Resolved? ==> r == Ok(o.value)
    ensures o.Threw? ==> r == ErrorResponse(500, "Falha ao ativar about")
  {
    if o.Resolved? then Ok(o.value) else ErrorResponse(500, "Falha ao ativar about")
  }

  /** DELETE hands the last segment to the adapter as the id. */
  function DeleteTarget(pathname: string): (r: string)
    ensures '/' !in r
  {
    LastSegment(pathname)
  }

  /** A DELETE of `/api/about/<id>` deletes `<id>`, even 'current' or 'about'. */
  lemma DeleteTargetsRequestedId(base: string, id: string)
    requires '/' !in id
    ensures DeleteTarget(base + "/" + id) == id
  {
    LastSegmentOfJoin(base, id);
  }

  /** A PUT of `/api/about/<id>` updates `<id>` unless `<id>` is 'activate'. */
  lemma PutTargetsRequestedId(base: string, id: string, body: Obj)
    requires '/' !in id && id != "activate"
    ensures PutDispatch(base + "/" + id, body) == UpdateById(id)
  {
    LastSegmentOfJoin(base, id);
  }
}
