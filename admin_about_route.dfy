/** The admin app's `/api/about` route: an in-memory `mockAbouts` list served by
    GET, POST, PUT and DELETE handlers. Records are plain objects keyed by `_id`.
    The request body is a parsed JSON object; the clock and `Date.now()` ids are
    parameters. */
module AdminAboutRoute {
  import opened Wrappers
  import opened Seqs
  import opened Text
  import opened Json
  import opened Routing

  /** `about.active` is truthy. */
  function IsActive(): Obj -> bool {
    (o: Obj) => "active" in o && Truthy(o["active"])
  }

  /** `about._id === id`. */
  function IdIs(id: Json): Obj -> bool {
    (o: Obj) => "_id" in o && StrictEquals(o["_id"], id)
  }

  /** `about._id !== id`, the filter DELETE keeps. */
  function IdIsNot(id: Json): Obj -> bool {
    (o: Obj) => !("_id" in o && StrictEquals(o["_id"], id))
  }

  /** `{ ...about, active: false }`. */
  function Deactivated(o: Obj): (r: Obj)
    ensures r.Keys == o.Keys + {"active"} && r["active"] == JBool(false)
    ensures forall k :: k in o && k != "active" ==> r[k] == o[k]
  {
    o["active" := JBool(false)]
  }

  /** The first step of 'activate': every record a copy with `active: false`. */
  function DeactivateAll(abouts: seq<Obj>): (r: seq<Obj>)
    ensures |r| == |abouts|
    ensures forall j :: 0 <= j < |r| ==> r[j] == Deactivated(abouts[j]) && !IsActive()(r[j])
  {
    seq(|abouts|, j requires 0 <= j < |abouts| => Deactivated(abouts[j]))
  }

  /** Deactivation keeps every `_id`, so it does not move the first record with one. */
  lemma {:induction false} DeactivateKeepsFirstId(abouts: seq<Obj>, id: Json)
    ensures FirstIndex(DeactivateAll(abouts), IdIs(id)) == FirstIndex(abouts, IdIs(id))
  {
    if |abouts| > 0 {
      DeactivateKeepsFirstId(abouts[1..], id);
      assert DeactivateAll(abouts)[1..] == DeactivateAll(abouts[1..]);
    }
  }

  /** The record POST stores: the body's fields, then a fresh `_id`, `active` as
      `data.active || false`, the three lists as `|| []`, `socialLinks` as `|| {}`
      and both timestamps. */
  function NewRecord(data: Obj, newId: string, now: string): (r: Obj)
    ensures r.Keys == data.Keys + {"_id", "active", "skills", "education", "experience", "socialLinks", "createdAt", "updatedAt"}
    ensures r["_id"] == JStr(newId)
    ensures r["active"] == OrElse(data, "active", JBool(false))
    ensures Truthy(r["active"]) <==> "active" in data && Truthy(data["active"])
    ensures r["skills"] == OrElse(data, "skills", JArr([]))
    ensures r["education"] == OrElse(data, "education", JArr([]))
    ensures r["experience"] == OrElse(data, "experience", JArr([]))
    ensures r["socialLinks"] == OrElse(data, "socialLinks", JObj(map[]))
    ensures r["createdAt"] == JStr(now) && r["updatedAt"] == JStr(now)
    ensures forall k :: k in data && k !in {"_id", "active", "skills", "education", "experience", "socialLinks", "createdAt", "updatedAt"} ==> r[k] == data[k]
  {
    data["_id" := JStr(newId)]
        ["active" := OrElse(data, "active", JBool(false))]
        ["skills" := OrElse(data, "skills", JArr([]))]
        ["education" := OrElse(data, "education", JArr([]))]
        ["experience" := OrElse(data, "experience", JArr([]))]
        ["socialLinks" := OrElse(data, "socialLinks", JObj(map[]))]
        ["createdAt" := JStr(now)]
        ["updatedAt" := JStr(now)]
  }

  function Skill(name: string, level: int, category: string): Json {
    JObj(map["name" := JStr(name), "level" := JNum(level), "category" := JStr(category)])
  }

  /** The one record the list starts with; `now` is the module's load time. */
  function Seed(now: string): Obj {
    map[
      "_id" := JStr("1"),
      "title" := JStr("Desenvolvedor Full Stack"),
      "description" := JStr("Desenvolvedor apaixonado por tecnologias web e aplicações móveis."),
      "active" := JBool(true),
      "skills" := JArr([Skill("React", 90, "Frontend"), Skill("Node.js", 85, "Backend"), Skill("TypeScript", 80, "Linguagem")]),
      "education" := JArr([JObj(map[
        "institution" := JStr("Universidade Federal"),
        "degree" := JStr("Bacharelado"),
        "field" := JStr("Ciência da Computação"),
        "startDate" := JStr("2015-01-01"),
        "endDate" := JStr("2019-12-01"),
        "description" := JStr("Formação em desenvolvimento de software e sistemas computacionais.")])]),
      "experience" := JArr([JObj(map[
        "company" := JStr("Tech Solutions"),
        "position" := JStr("Desenvolvedor Full Stack"),
        "startDate" := JStr("2020-01-01"),
        "endDate" := JStr(""),
        "current" := JBool(true),
        "description" := JStr("Desenvolvimento de aplicações web e mobile utilizando tecnologias modernas."),
        "technologies" := JArr([JStr("React"), JStr("Node.js"), JStr("TypeScript"), JStr("MongoDB")])])]),
      "socialLinks" := JObj(map[
        "github" := JStr("https://github.com/username"),
        "linkedin" := JStr("https://linkedin.com/in/username"),
        "twitter" := JStr("https://twitter.com/username"),
        "website" := JStr("https://myportfolio.com"),
        "instagram" := JStr("https://instagram.com/username")]),
      "createdAt" := JStr(now),
      "updatedAt" := JStr(now)
    ]
  }

  /** Exactly the record at `k` is active. */
  predicate OnlyActiveAt(abouts: seq<Obj>, k: nat) {
    k < |abouts| && forall j :: 0 <= j < |abouts| ==> (IsActive()(abouts[j]) <==> j == k)
  }

  function AsJson(abouts: seq<Obj>): (r: Json)
    ensures r.JArr? && |r.items| == |abouts|
    ensures forall j :: 0 <= j < |abouts| ==> r.items[j] == JObj(abouts[j])
  {
    JArr(seq(|abouts|, j requires 0 <= j < |abouts| => JObj(abouts[j])))
  }

  class MockAboutRoute {
    /** `mockAbouts`. */
    var abouts: seq<Obj>

    /** The list as the module loads it: the seed record, which is active. */
    constructor(now: string)
      ensures abouts == [Seed(now)]
      ensures OnlyActiveAt(abouts, 0)
    {
      abouts := [Seed(now)];
    }

    /** GET: 'current' is the first active record or 404, 'about' the whole list,
        any other last segment the first record with that `_id` or 404. */
    method Get(pathname: string) returns (r: Response)
      ensures LastSegment(pathname) == "current" ==>
                match FirstIndex(abouts, IsActive())
                case None => r == ErrorResponse(404, "Nenhum about ativo encontrado")
                case Some(k) => r == Ok(JObj(abouts[k]))
      ensures LastSegment(pathname) == "about" ==> r == Ok(AsJson(abouts))
      ensures LastSegment(pathname) != "current" && LastSegment(pathname) != "about" ==>
                match FirstIndex(abouts, IdIs(JStr(LastSegment(pathname))))
                case None => r == ErrorResponse(404, "About não encontrado")
                case Some(k) => r == Ok(JObj(abouts[k]))
    {
      match ClassifyGet(pathname)
      case Current =>
        var found := FirstIndex(abouts, IsActive());
        if found.None? {
          return ErrorResponse(404, "Nenhum about ativo encontrado");
        }
        r := Ok(JObj(abouts[found.value]));
      case ById(id) =>
        var found := FirstIndex(abouts, IdIs(JStr(id)));
        if found.None? {
          return ErrorResponse(404, "About não encontrado");
        }
        r := Ok(JObj(abouts[found.value]));
      case ListAll =>
        r := Ok(AsJson(abouts));
    }

    /** POST: appends the defaulted record and answers with it. */
    method Post(data: Obj, newId: string, now: string) returns (r: Response)
      modifies this
      ensures abouts == old(abouts) + [NewRecord(data, newId, now)]
      ensures r == Ok(JObj(NewRecord(data, newId, now)))
    {
      var record := NewRecord(data, newId, now);
      abouts := abouts + [record];
      r := Ok(JObj(record));
    }

    /** PUT 'activate': without a truthy body `id`, 400 and no change. Otherwise
        every record is deactivated first; then an unknown id is 404 (with the
        deactivation kept), and a known one has its first record activated. */
    method Activate(data: Obj, now: string) returns (r: Response)
      modifies this
      ensures !("id" in data && Truthy(data["id"])) ==>
                r == ErrorResponse(400, "ID do about não fornecido") && abouts == old(abouts)
      ensures "id" in data && Truthy(data["id"]) ==>
                match FirstIndex(old(abouts), IdIs(data["id"]))
                case None =>
                  r == ErrorResponse(404, "About não encontrado") && abouts == DeactivateAll(old(abouts))
                case Some(k) =>
                  && abouts == DeactivateAll(old(abouts))[k := old(abouts)[k]["active" := JBool(true)]["updatedAt" := JStr(now)]]
                  && OnlyActiveAt(abouts, k)
                  && r == Ok(JObj(abouts[k]))
    {
      if !("id" in data && Truthy(data["id"])) {
        return ErrorResponse(400, "ID do about não fornecido");
      }
      var aboutId := data["id"];
      abouts := DeactivateAll(abouts);
      DeactivateKeepsFirstId(old(abouts), aboutId);
      var found := FirstIndex(abouts, IdIs(aboutId));
      if found.None? {
        return ErrorResponse(404, "About não encontrado");
      }
      var k := found.value;
      assert abouts[k]["active" := JBool(true)] == old(abouts)[k]["active" := JBool(true)];
      abouts := abouts[k := abouts[k]["active" := JBool(true)]["updatedAt" := JStr(now)]];
      r := Ok(JObj(abouts[k]));
    }

    /** PUT by id: the first record with `_id` takes the sent fields over its own
        and a fresh `updatedAt`; an unknown id is 404 and changes nothing. */
    method Update(id: string, data: Obj, now: string) returns (r: Response)
      modifies this
      ensures match FirstIndex(old(abouts), IdIs(JStr(id)))
              case None => r == ErrorResponse(404, "About não encontrado") && abouts == old(abouts)
              case Some(k) =>
                var merged := (old(abouts)[k] + data)["updatedAt" := JStr(now)];
                && abouts == old(abouts)[k := merged]
                && r == Ok(JObj(merged))
                && (forall f :: f in data && f != "updatedAt" ==> merged[f] == data[f])
                && (forall f :: f in old(abouts)[k] && f !in data && f != "updatedAt" ==> merged[f] == old(abouts)[k][f])
    {
      var found := FirstIndex(abouts, IdIs(JStr(id)));
      if found.None? {
        return ErrorResponse(404, "About não encontrado");
      }
      var k := found.value;
      var merged := (abouts[k] + data)["updatedAt" := JStr(now)];
      abouts := abouts[k := merged];
      r := Ok(JObj(merged));
    }

    /** PUT: the last segment 'activate' activates the body's `id` (400 without one,
        404 after deactivating everything when unknown); any other last segment
        names the record whose fields the body overrides (404 when unknown). */
    method Put(pathname: string, data: Obj, now: string) returns (r: Response)
      modifies this
      ensures |abouts| == |old(abouts)|
      ensures LastSegment(pathname) == "activate" && !("id" in data && Truthy(data["id"])) ==>
                r == ErrorResponse(400, "ID do about não fornecido") && abouts == old(abouts)
      ensures LastSegment(pathname) == "activate" && "id" in data && Truthy(data["id"]) ==>
                match FirstIndex(old(abouts), IdIs(data["id"]))
                case None =>
                  r == ErrorResponse(404, "About não encontrado") && abouts == DeactivateAll(old(abouts))
                case Some(k) =>
                  && abouts == DeactivateAll(old(abouts))[k := old(abouts)[k]["active" := JBool(true)]["updatedAt" := JStr(now)]]
                  && OnlyActiveAt(abouts, k)
                  && r == Ok(JObj(abouts[k]))
      ensures LastSegment(pathname) != "activate" ==>
                match FirstIndex(old(abouts), IdIs(JStr(LastSegment(pathname))))
                case None => r == ErrorResponse(404, "About não encontrado") && abouts == old(abouts)
                case Some(k) =>
                  var merged := (old(abouts)[k] + data)["updatedAt" := JStr(now)];
                  && abouts == old(abouts)[k := merged]
                  && r == Ok(JObj(merged))
    {
      var id := LastSegment(pathname);
      if id == "activate" {
        r := Activate(data, now);
      } else {
        r := Update(id, data, now);
      }
    }

    /** DELETE: 404 when no record has the `_id`; otherwise every record with it is
        removed and the others keep their order. */
    method Delete(pathname: string) returns (r: Response)
      modifies this
      ensures var id := JStr(LastSegment(pathname));
              match FirstIndex(old(abouts), IdIs(id))
              case None => r == ErrorResponse(404, "About não encontrado") && abouts == old(abouts)
              case Some(_) =>
                && abouts == Filter(old(abouts), IdIsNot(id))
                && (forall j :: 0 <= j < |abouts| ==> !("_id" in abouts[j] && StrictEquals(abouts[j]["_id"], id)))
                && r == Ok(JObj(map["success" := JBool(true), "message" := JStr("About removido com sucesso")]))
    {
      var id := JStr(LastSegment(pathname));
      var found := FirstIndex(abouts, IdIs(id));
      if found.None? {
        return ErrorResponse(404, "About não encontrado");
      }
      abouts := Filter(abouts, IdIsNot(id));
      r := Ok(JObj(map["success" := JBool(true), "message" := JStr("About removido com sucesso")]));
    }
  }
}
