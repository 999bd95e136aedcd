/** The request-body rules of CreateAboutDto/UpdateAboutDto and their nested DTOs,
    and how they relate to the About schema's own required fields. */
module AboutDto {
  import opened Wrappers
  import opened Json
  import opened Validation
  import opened AboutSchema

  /** SkillDto: a string name, a numeric level, an optional string category. */
  predicate ValidSkill(j: Json) {
    j.JObj? &&
    var o := j.fields;
    IsStringAt(o, "name") && IsNumberAt(o, "level") && OptionalAt(o, "category", IsStringValue)
  }

  /** EducationDto: institution, degree, field and startDate are strings;
      endDate and description are optional strings. */
  predicate ValidEducation(j: Json) {
    j.JObj? &&
    var o := j.fields;
    && IsStringAt(o, "institution") && IsStringAt(o, "degree")
    && IsStringAt(o, "field") && IsStringAt(o, "startDate")
    && OptionalAt(o, "endDate", IsStringValue) && OptionalAt(o, "description", IsStringValue)
  }

  /** ExperienceDto: company, position, startDate and description are strings;
      endDate (string), current (boolean) and technologies (string list) are optional. */
  predicate ValidExperience(j: Json) {
    j.JObj? &&
    var o := j.fields;
    && IsStringAt(o, "company") && IsStringAt(o, "position")
    && IsStringAt(o, "startDate") && IsStringAt(o, "description")
    && OptionalAt(o, "endDate", IsStringValue)
    && OptionalAt(o, "current", IsBooleanValue)
    && OptionalAt(o, "technologies", IsStringArray)
  }

  /** SocialLinksDto: each of the five links is optional and, when given, an URL.
      `isUrl` stands for class-validator's `isURL`. */
  predicate ValidSocialLinks(j: Json, isUrl: string -> bool) {
    j.JObj? &&
    var o := j.fields;
    && OptionalUrlAt(o, "github", isUrl) && OptionalUrlAt(o, "linkedin", isUrl)
    && OptionalUrlAt(o, "twitter", isUrl) && OptionalUrlAt(o, "website", isUrl)
    && OptionalUrlAt(o, "instagram", isUrl)
  }

  /** `@IsUrl() @IsOptional()` on property `k`. */
  predicate OptionalUrlAt(o: Obj, k: string, isUrl: string -> bool) {
    k !in o || o[k] == JNull || (o[k].JStr? && isUrl(o[k].s))
  }

  /** CreateAboutDto. UpdateAboutDto extends it unchanged, so an update body obeys
      exactly these rules too. Title and description are only checked to be strings. */
  predicate ValidAboutBody(j: Json, isUrl: string -> bool) {
    j.JObj? &&
    var o := j.fields;
    && IsStringAt(o, "title") && IsStringAt(o, "description")
    && IsNestedArrayAt(o, "skills", ValidSkill)
    && IsNestedArrayAt(o, "education", ValidEducation)
    && IsNestedArrayAt(o, "experience", ValidExperience)
    && OptionalAt(o, "avatar", IsStringValue)
    && ("socialLinks" !in o || o["socialLinks"] == JNull || ValidSocialLinks(o["socialLinks"], isUrl))
    && OptionalAt(o, "active", IsBooleanValue)
  }

  // ---- the JSON a client sends for a typed About ----

  /** `m` with property `k` set when `v` is present and left out otherwise. */
  function Put(m: Obj, k: string, v: Option<Json>): Obj {
    if v.Some? then m[k := v.value] else m
  }

  function OptStr(v: Option<string>): Option<Json> {
    if v.Some? then Some(JStr(v.value)) else None
  }

  function EncodeSkill(s: Skill): Json {
    JObj(Put(map["name" := JStr(s.name), "level" := JNum(s.level)], "category", OptStr(s.category)))
  }

  function EncodeEducation(e: Education): Json {
    var o := map["institution" := JStr(e.institution), "degree" := JStr(e.degree),
                 "field" := JStr(e.field), "startDate" := JStr(e.startDate)];
    JObj(Put(Put(o, "endDate", OptStr(e.endDate)), "description", OptStr(e.description)))
  }

  function EncodeStrings(ss: seq<string>): (r: seq<Json>)
    ensures |r| == |ss| && forall i :: 0 <= i < |ss| ==> r[i] == JStr(ss[i])
  {
    seq(|ss|, i requires 0 <= i < |ss| => JStr(ss[i]))
  }

  function EncodeExperience(x: Experience): Json {
    var o := map["company" := JStr(x.company), "position" := JStr(x.position),
                 "startDate" := JStr(x.startDate), "description" := JStr(x.description)];
    var current := if x.current.Some? then Some(JBool(x.current.value)) else None;
    var techs := if x.technologies.Some? then Some(JArr(EncodeStrings(x.technologies.value))) else None;
    JObj(Put(Put(Put(o, "endDate", OptStr(x.endDate)), "current", current), "technologies", techs))
  }

  function EncodeSocialLinks(l: SocialLinks): Json {
    JObj(Put(Put(Put(Put(Put(map[], "github", OptStr(l.github)), "linkedin", OptStr(l.linkedin)),
                         "twitter", OptStr(l.twitter)), "website", OptStr(l.website)),
             "instagram", OptStr(l.instagram)))
  }

  function EncodeList<T>(xs: seq<T>, enc: T -> Json): (r: seq<Json>)
    ensures |r| == |xs| && forall i :: 0 <= i < |xs| ==> r[i] == enc(xs[i])
  {
    seq(|xs|, i requires 0 <= i < |xs| => enc(xs[i]))
  }

  /** The body a client sends for `input`. */
  function EncodeAbout(input: AboutInput): Json {
    var o := map["title" := JStr(input.title), "description" := JStr(input.description),
                 "skills" := JArr(EncodeList(input.skills, EncodeSkill)),
                 "education" := JArr(EncodeList(input.education, EncodeEducation)),
                 "experience" := JArr(EncodeList(input.experience, EncodeExperience))];
    var links := if input.socialLinks.Some? then Some(EncodeSocialLinks(input.socialLinks.value)) else None;
    var active := if input.active.Some? then Some(JBool(input.active.value)) else None;
    JObj(Put(Put(Put(o, "avatar", OptStr(input.avatar)), "socialLinks", links), "active", active))
  }

  predicate UrlOk(v: Option<string>, isUrl: string -> bool) {
    v.Some? ==> isUrl(v.value)
  }

  /** Every link that is present is an URL. */
  predicate LinksAreUrls(l: Option<SocialLinks>, isUrl: string -> bool) {
    l.Some? ==>
      UrlOk(l.value.github, isUrl) && UrlOk(l.value.linkedin, isUrl) && UrlOk(l.value.twitter, isUrl)
      && UrlOk(l.value.website, isUrl) && UrlOk(l.value.instagram, isUrl)
  }

  lemma EncodedSkillValid(s: Skill)
    ensures ValidSkill(EncodeSkill(s))
  {
    var o := EncodeSkill(s).fields;
    assert "name" in o && "level" in o;
  }

  lemma EncodedEducationValid(e: Education)
    ensures ValidEducation(EncodeEducation(e))
  {
    var o := EncodeEducation(e).fields;
    assert "institution" in o && "degree" in o && "field" in o && "startDate" in o;
  }

  lemma EncodedExperienceValid(x: Experience)
    ensures ValidExperience(EncodeExperience(x))
  {
    var o := EncodeExperience(x).fields;
    assert "company" in o && "position" in o && "startDate" in o && "description" in o;
    if x.technologies.Some? {
      assert o["technologies"] == JArr(EncodeStrings(x.technologies.value));
    }
  }

  lemma EncodedSocialLinksValid(l: SocialLinks, isUrl: string -> bool)
    ensures ValidSocialLinks(EncodeSocialLinks(l), isUrl) <==> LinksAreUrls(Some(l), isUrl)
  {
    var o := EncodeSocialLinks(l).fields;
    assert l.github.Some? ==> o["github"] == JStr(l.github.value);
    assert l.linkedin.Some? ==> o["linkedin"] == JStr(l.linkedin.value);
    assert l.twitter.Some? ==> o["twitter"] == JStr(l.twitter.value);
    assert l.website.Some? ==> o["website"] == JStr(l.website.value);
    assert l.instagram.Some? ==> o["instagram"] == JStr(l.instagram.value);
  }

  lemma EncodedListsValid(input: AboutInput)
    ensures var o := EncodeAbout(input).fields;
      && IsNestedArrayAt(o, "skills", ValidSkill)
      && IsNestedArrayAt(o, "education", ValidEducation)
      && IsNestedArrayAt(o, "experience", ValidExperience)
  {
    var o := EncodeAbout(input).fields;
    assert o["skills"] == JArr(EncodeList(input.skills, EncodeSkill));
    assert o["education"] == JArr(EncodeList(input.education, EncodeEducation));
    assert o["experience"] == JArr(EncodeList(input.experience, EncodeExperience));
    forall i | 0 <= i < |input.skills| ensures ValidSkill(o["skills"].items[i]) {
      EncodedSkillValid(input.skills[i]);
    }
    forall i | 0 <= i < |input.education| ensures ValidEducation(o["education"].items[i]) {
      EncodedEducationValid(input.education[i]);
    }
    forall i | 0 <= i < |input.experience| ensures ValidExperience(o["experience"].items[i]) {
      EncodedExperienceValid(input.experience[i]);
    }
  }

  /** A typed About passes validation exactly when its social links are URLs: no
      other rule of the DTO can fail, in particular an empty title passes. */
  lemma EncodedAboutValid(input: AboutInput, isUrl: string -> bool)
    ensures ValidAboutBody(EncodeAbout(input), isUrl) <==> LinksAreUrls(input.socialLinks, isUrl)
  {
    var o := EncodeAbout(input).fields;
    assert o["title"] == JStr(input.title) && o["description"] == JStr(input.description);
    EncodedListsValid(input);
    assert input.avatar.Some? ==> o["avatar"] == JStr(input.avatar.value);
    assert input.active.Some? ==> o["active"] == JBool(input.active.value);
    if input.socialLinks.Some? {
      EncodedSocialLinksValid(input.socialLinks.value, isUrl);
      assert o["socialLinks"] == EncodeSocialLinks(input.socialLinks.value);
    } else {
      assert "socialLinks" !in o;
    }
  }

  /** The DTO lets through a body that the schema's `required` rule then refuses:
      an empty title passes validation but the document cannot be saved. */
  lemma EmptyTitlePassesDtoButNotSchema(input: AboutInput, id: string, subIds: IdSource, isUrl: string -> bool)
    requires input.title == "" && LinksAreUrls(input.socialLinks, isUrl)
    ensures ValidAboutBody(EncodeAbout(input), isUrl)
    ensures NewAbout(id, subIds, input).Failure?
  {
    EncodedAboutValid(input, isUrl);
  }
}
