/** The stored shape of an About document in the `about` collection, with the
    defaults and required-field rules Mongoose applies when one is created. */
module AboutSchema {
  import opened Wrappers

  /** Sub-documents carry the `_id` Mongoose assigns; a client-built one has none. */
  datatype Skill = Skill(subId: Option<string>, name: string, level: int, category: Option<string>)

  datatype Education = Education(
    subId: Option<string>,
    institution: string,
    degree: string,
    field: string,
    startDate: string,
    endDate: Option<string>,
    description: Option<string>)

  datatype Experience = Experience(
    subId: Option<string>,
    company: string,
    position: string,
    startDate: string,
    endDate: Option<string>,
    current: Option<bool>,
    description: string,
    technologies: Option<seq<string>>)

  /** Each of the five links is optional. */
  datatype SocialLinks = SocialLinks(
    github: Option<string>,
    linkedin: Option<string>,
    twitter: Option<string>,
    website: Option<string>,
    instagram: Option<string>)

  /** A stored About document; `id` is its `_id`. */
  datatype About = About(
    id: string,
    title: string,
    description: string,
    skills: seq<Skill>,
    education: seq<Education>,
    experience: seq<Experience>,
    avatar: Option<string>,
    socialLinks: Option<SocialLinks>,
    active: bool)

  /** The fields a caller hands to `new aboutModel(...)` (a validated CreateAboutDto). */
  datatype AboutInput = AboutInput(
    title: string,
    description: string,
    skills: seq<Skill>,
    education: seq<Education>,
    experience: seq<Experience>,
    avatar: Option<string>,
    socialLinks: Option<SocialLinks>,
    active: Option<bool>)

  /** A failed `save()`: the required paths that were missing, in schema order. */
  datatype SchemaError = ValidationFailed(missing: seq<string>)

  /** Mongoose's `required` rule for a string path: present and not the empty string. */
  predicate RequiredString(s: string) {
    s != ""
  }

  /** The required paths of `input` that fail, in declaration order. */
  function MissingPaths(input: AboutInput): (r: seq<string>)
    ensures "title" in r <==> !RequiredString(input.title)
    ensures "description" in r <==> !RequiredString(input.description)
    ensures r == [] <==> RequiredString(input.title) && RequiredString(input.description)
  {
    (if RequiredString(input.title) then [] else ["title"]) +
    (if RequiredString(input.description) then [] else ["description"])
  }

  /** The `_id`s Mongoose generates for sub-documents, in the order it casts them. */
  type IdSource = nat -> string

  /** The inline element types of `skills`, `education` and `experience` are
      sub-document schemas with Mongoose's default `_id` path: an element cast
      without an `_id` is given the generated `newSubId`, one sent with an `_id` keeps
      it, and no other field changes. */
  function StampSkill(s: Skill, newSubId: string): (r: Skill)
    ensures r.subId.Some? && r.(subId := s.subId) == s
    ensures s.subId.None? ==> r.subId == Some(newSubId)
    ensures s.subId.Some? ==> r == s
  {
    s.(subId := Some(s.subId.GetOr(newSubId)))
  }

  function StampEducation(e: Education, newSubId: string): (r: Education)
    ensures r.subId.Some? && r.(subId := e.subId) == e
    ensures e.subId.None? ==> r.subId == Some(newSubId)
    ensures e.subId.Some? ==> r == e
  {
    e.(subId := Some(e.subId.GetOr(newSubId)))
  }

  /** An experience entry is cast the same way, and its `technologies` array path
      also takes Mongoose's array default `[]` when it was not sent. */
  function StampExperience(x: Experience, newSubId: string): (r: Experience)
    ensures r.subId.Some? && r.technologies.Some?
    ensures r.(subId := x.subId, technologies := x.technologies) == x
    ensures x.subId.None? ==> r.subId == Some(newSubId)
    ensures x.subId.Some? ==> r.subId == x.subId
    ensures x.technologies.None? ==> r.technologies == Some([])
    ensures x.technologies.Some? ==> r.technologies == x.technologies
    ensures x.subId.Some? && x.technologies.Some? ==> r == x
  {
    x.(subId := Some(x.subId.GetOr(newSubId)), technologies := Some(x.technologies.GetOr([])))
  }

  /** A cast list of skills: the same skills in the same order, each with an `_id`;
      the `i`-th one sent without an `_id` gets `ids(from + i)`. */
  function StampSkills(skills: seq<Skill>, ids: IdSource, from: nat): (r: seq<Skill>)
    ensures |r| == |skills|
    ensures forall i :: 0 <= i < |r| ==> r[i].subId.Some? && r[i].(subId := skills[i].subId) == skills[i]
    ensures forall i :: 0 <= i < |r| && skills[i].subId.None? ==> r[i].subId == Some(ids(from + i))
    ensures forall i :: 0 <= i < |r| && skills[i].subId.Some? ==> r[i] == skills[i]
  {
    seq(|skills|, i requires 0 <= i < |skills| => StampSkill(skills[i], ids(from + i)))
  }

  function StampEducations(education: seq<Education>, ids: IdSource, from: nat): (r: seq<Education>)
    ensures |r| == |education|
    ensures forall i :: 0 <= i < |r| ==> r[i].subId.Some? && r[i].(subId := education[i].subId) == education[i]
    ensures forall i :: 0 <= i < |r| && education[i].subId.None? ==> r[i].subId == Some(ids(from + i))
    ensures forall i :: 0 <= i < |r| && education[i].subId.Some? ==> r[i] == education[i]
  {
    seq(|education|, i requires 0 <= i < |education| => StampEducation(education[i], ids(from + i)))
  }

  /** A cast experience list: the same entries in the same order, each with an
      `_id` drawn as for skills and with `technologies` defaulting to `[]`. */
  function StampExperiences(experience: seq<Experience>, ids: IdSource, from: nat): (r: seq<Experience>)
    ensures |r| == |experience|
    ensures forall i :: 0 <= i < |r| ==>
              && r[i].subId.Some?
              && r[i].(subId := experience[i].subId, technologies := experience[i].technologies) == experience[i]
              && r[i].technologies == Some(experience[i].technologies.GetOr([]))
    ensures forall i :: 0 <= i < |r| && experience[i].subId.None? ==> r[i].subId == Some(ids(from + i))
    ensures forall i :: 0 <= i < |r| && experience[i].subId.Some? ==> r[i].subId == experience[i].subId
    ensures forall i :: 0 <= i < |r| && experience[i].subId.Some? && experience[i].technologies.Some? ==>
              r[i] == experience[i]
  {
    seq(|experience|, i requires 0 <= i < |experience| => StampExperience(experience[i], ids(from + i)))
  }

  /** Every embedded skill, education and experience entry has an `_id`. */
  predicate SubIdsAssigned(skills: seq<Skill>, education: seq<Education>, experience: seq<Experience>) {
    && (forall i :: 0 <= i < |skills| ==> skills[i].subId.Some?)
    && (forall i :: 0 <= i < |education| ==> education[i].subId.Some?)
    && (forall i :: 0 <= i < |experience| ==> experience[i].subId.Some?)
  }

  /** Every experience entry has its `technologies` array. */
  predicate TechnologiesPresent(experience: seq<Experience>) {
    forall i :: 0 <= i < |experience| ==> experience[i].technologies.Some?
  }

  /** `input` as Mongoose casts it: the three lists in document order draw their
      generated `_id`s from `ids`, skills first, then education, then experience;
      every other field is as sent. */
  function Cast(input: AboutInput, ids: IdSource): (r: AboutInput)
    ensures r.(skills := input.skills, education := input.education, experience := input.experience) == input
    ensures r.skills == StampSkills(input.skills, ids, 0)
    ensures r.education == StampEducations(input.education, ids, |input.skills|)
    ensures r.experience == StampExperiences(input.experience, ids, |input.skills| + |input.education|)
    ensures SubIdsAssigned(r.skills, r.education, r.experience) && TechnologiesPresent(r.experience)
    ensures MissingPaths(r) == MissingPaths(input)
    ensures SubIdsAssigned(input.skills, input.education, input.experience) && TechnologiesPresent(input.experience) ==>
              r == input
  {
    var r := input.(skills := StampSkills(input.skills, ids, 0),
                    education := StampEducations(input.education, ids, |input.skills|),
                    experience := StampExperiences(input.experience, ids, |input.skills| + |input.education|));
    if SubIdsAssigned(input.skills, input.education, input.experience) && TechnologiesPresent(input.experience) then
      assert r.skills == input.skills && r.education == input.education && r.experience == input.experience;
      r
    else
      r
  }

  /** Casting again what Mongoose has already cast changes nothing, whatever ids
      are on offer: every entry already has its `_id` and its `technologies`. */
  lemma CastIdempotent(input: AboutInput, ids: IdSource, moreIds: IdSource)
    ensures Cast(Cast(input, ids), moreIds) == Cast(input, ids)
  {
  }

  /** `a` stores exactly the caller-supplied fields of `input`. */
  predicate Carries(a: About, input: AboutInput) {
    && a.title == input.title
    && a.description == input.description
    && a.skills == input.skills
    && a.education == input.education
    && a.experience == input.experience
    && a.avatar == input.avatar
    && a.socialLinks == input.socialLinks
  }

  /** The document `save()` stores for `new aboutModel(input)` under the generated id,
      its sub-documents drawing their generated `_id`s from `subIds`; `active` falls
      back to the schema default `false`. */
  function NewAbout(id: string, subIds: IdSource, input: AboutInput): (r: Result<About, SchemaError>)
    ensures r.Success? <==> input.title != "" && input.description != ""
    ensures r.Failure? ==> r.error.missing != []
    ensures r.Success? ==> r.value.id == id && Carries(r.value, Cast(input, subIds))
    ensures r.Success? ==> SubIdsAssigned(r.value.skills, r.value.education, r.value.experience)
    ensures r.Success? ==> TechnologiesPresent(r.value.experience)
    ensures r.Success? ==> (r.value.active <==> input.active == Some(true))
  {
    var missing := MissingPaths(input);
    var cast := Cast(input, subIds);
    if missing != [] then Failure(ValidationFailed(missing))
    else Success(About(id, cast.title, cast.description, cast.skills, cast.education,
                       cast.experience, cast.avatar, cast.socialLinks, cast.active.GetOr(false)))
  }

  /** Everything in a document except its `active` flag. */
  function WithoutActive(a: About): About {
    a.(active := false)
  }
}
