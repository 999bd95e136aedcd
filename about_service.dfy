/** The API's AboutService over the `about` collection. The collection is a sequence
    in natural order: `updateMany` maps over it, `findOne`/`findByIdAndUpdate` act on
    the first match, `$push` appends to an embedded list and `$pull` removes every
    matching element of it. Ids are not assumed unique. */
module AboutService {
  import opened Wrappers
  import opened Seqs
  import opened AboutSchema

  /** What the service throws: `setActive`'s plain `Error` for an unknown id (Nest
      answers it with status 500, not 404), or a document the schema refuses. */
  datatype ServiceError = UnknownId(id: string) | SaveFailed(error: SchemaError)

  const DefaultTitle := "Desenvolvedor"
  const DefaultDescription := "Configure suas informau00e7u00f5es de perfil no painel administrativo."

  /** The record `getCurrentAbout` creates in an empty collection. */
  const DefaultInput := AboutInput(DefaultTitle, DefaultDescription, [], [], [], None, None, Some(true))

  function WithId(id: string): About -> bool {
    (a: About) => a.id == id
  }

  predicate IsActive(a: About) {
    a.active
  }

  /** `updateMany({}, { active: false })`. */
  function DeactivateAll(docs: seq<About>): (r: seq<About>)
    ensures |r| == |docs|
    ensures forall i :: 0 <= i < |r| ==> !r[i].active && WithoutActive(r[i]) == WithoutActive(docs[i])
  {
    seq(|docs|, i requires 0 <= i < |docs| => docs[i].(active := false))
  }

  /** With no active record, deactivating everything changes nothing. */
  lemma DeactivateAllInactive(docs: seq<About>)
    requires forall i :: 0 <= i < |docs| ==> !docs[i].active
    ensures DeactivateAll(docs) == docs
  {
  }

  /** Only position `k` is active. */
  predicate OnlyActiveAt(docs: seq<About>, k: nat) {
    k < |docs| && forall j :: 0 <= j < |docs| ==> (docs[j].active <==> j == k)
  }

  function Activate(a: About): About {
    a.(active := true)
  }

  function PushSkill(skill: Skill): About -> About {
    (a: About) => a.(skills := a.skills + [skill])
  }

  function PushEducation(education: Education): About -> About {
    (a: About) => a.(education := a.education + [education])
  }

  function PushExperience(experience: Experience): About -> About {
    (a: About) => a.(experience := a.experience + [experience])
  }

  /** `$pull: { skills: { _id: skillId } }`. */
  function PullSkill(skillId: string): About -> About {
    (a: About) => a.(skills := Filter(a.skills, (s: Skill) => s.subId != Some(skillId)))
  }

  function PullEducation(educationId: string): About -> About {
    (a: About) => a.(education := Filter(a.education, (e: Education) => e.subId != Some(educationId)))
  }

  function PullExperience(experienceId: string): About -> About {
    (a: About) => a.(experience := Filter(a.experience, (x: Experience) => x.subId != Some(experienceId)))
  }

  /** `findByIdAndUpdate(id, dto)`: the body's fields replace the stored ones; an
      optional field the body leaves out keeps its stored value. No validation runs. */
  function SetFields(input: AboutInput): About -> About {
    (a: About) => a.(title := input.title, description := input.description, skills := input.skills,
                     education := input.education, experience := input.experience,
                     avatar := if input.avatar.Some? then input.avatar else a.avatar,
                     socialLinks := if input.socialLinks.Some? then input.socialLinks else a.socialLinks,
                     active := input.active.GetOr(a.active))
  }

  class AboutService {
    /** The `about` collection in natural order. */
    var docs: seq<About>

    constructor(initial: seq<About>)
      ensures docs == initial
    {
      docs := initial;
    }

    /** `findByIdAndUpdate(id, change, { new: true })`: the first document with `id`
        is changed and returned; an unknown id returns null and writes nothing. */
    method FindByIdAndUpdate(id: string, change: About -> About) returns (r: Option<About>)
      modifies this
      ensures FirstIndex(old(docs), WithId(id)).None? ==> r.None? && docs == old(docs)
      ensures FirstIndex(old(docs), WithId(id)).Some? ==>
                var k := FirstIndex(old(docs), WithId(id)).value;
                docs == old(docs)[k := change(old(docs)[k])] && r == Some(docs[k])
    {
      var found := FirstIndex(docs, WithId(id));
      if found.None? {
        return None;
      }
      var k := found.value;
      docs := docs[k := change(docs[k])];
      r := Some(docs[k]);
    }

    /** `create`: `new aboutModel(dto).save()` under the generated id `newId`, the
        sub-documents drawing theirs from `subIds`. */
    method Create(newId: string, subIds: IdSource, input: AboutInput) returns (r: Result<About, ServiceError>)
      modifies this
      ensures NewAbout(newId, subIds, input).Failure? ==> r.Failure? && docs == old(docs)
      ensures NewAbout(newId, subIds, input).Success? ==>
                r == Success(NewAbout(newId, subIds, input).value) && docs == old(docs) + [r.value]
    {
      var created := NewAbout(newId, subIds, input);
      if created.Failure? {
        return Failure(SaveFailed(created.error));
      }
      docs := docs + [created.value];
      r := Success(created.value);
    }

    /** `update`: replaces the body's fields on the first document with `id`, or
        returns null when there is none. The replacing lists are cast like a new
        document's, so their sub-documents draw generated `_id`s from `subIds`. */
    method Update(id: string, subIds: IdSource, input: AboutInput) returns (r: Option<About>)
      modifies this
      ensures FirstIndex(old(docs), WithId(id)).None? ==> r.None? && docs == old(docs)
      ensures FirstIndex(old(docs), WithId(id)).Some? ==>
                var k := FirstIndex(old(docs), WithId(id)).value;
                && |docs| == |old(docs)| && r == Some(docs[k])
                && docs[k].id == id
                && docs[k].title == input.title && docs[k].description == input.description
                && docs[k].skills == Cast(input, subIds).skills
                && docs[k].education == Cast(input, subIds).education
                && docs[k].experience == Cast(input, subIds).experience
                && docs[k].avatar == (if input.avatar.Some? then input.avatar else old(docs)[k].avatar)
                && docs[k].socialLinks == (if input.socialLinks.Some? then input.socialLinks else old(docs)[k].socialLinks)
                && docs[k].active == input.active.GetOr(old(docs)[k].active)
                && (forall j :: 0 <= j < |docs| && j != k ==> docs[j] == old(docs)[j])
    {
      r := FindByIdAndUpdate(id, SetFields(Cast(input, subIds)));
    }

    /** `remove`: `findByIdAndDelete` deletes and returns the first document with `id`. */
    method Remove(id: string) returns (r: Option<About>)
      modifies this
      ensures FirstIndex(old(docs), WithId(id)).None? ==> r.None? && docs == old(docs)
      ensures FirstIndex(old(docs), WithId(id)).Some? ==>
                var k := FirstIndex(old(docs), WithId(id)).value;
                r == Some(old(docs)[k]) && docs == RemoveAt(old(docs), k)
    {
      var found := FirstIndex(docs, WithId(id));
      if found.None? {
        return None;
      }
      r := Some(docs[found.value]);
      docs := RemoveAt(docs, found.value);
    }

    /** `setActive`: deactivate every record, then activate the first one with `id`.
        On success exactly that record is active and nothing else changed; an unknown
        id throws after the deactivation, leaving no record active. */
    method SetActive(id: string) returns (r: Result<About, ServiceError>)
      modifies this
      ensures |docs| == |old(docs)|
      ensures forall j :: 0 <= j < |docs| ==> WithoutActive(docs[j]) == WithoutActive(old(docs)[j])
      ensures r.Success? <==> FirstIndex(old(docs), WithId(id)).Some?
      ensures r.Success? ==> var k := FirstIndex(old(docs), WithId(id)).value;
                OnlyActiveAt(docs, k) && r.value == docs[k] && r.value.id == id
      ensures r.Failure? ==> r.error == UnknownId(id) && forall j :: 0 <= j < |docs| ==> !docs[j].active
    {
      docs := DeactivateAll(docs);
      ghost var cleared := docs;
      assert FirstIndex(cleared, WithId(id)) == FirstIndex(old(docs), WithId(id)) by {
        FirstIndexSameIds(old(docs), cleared, id);
      }
      var about := FindByIdAndUpdate(id, Activate);
      if about.None? {
        return Failure(UnknownId(id));
      }
      r := Success(about.value);
    }

    /** `getCurrentAbout`: the first active record, read without writing; with none
        active, the first record is promoted through `setActive`; in an empty
        collection a default active record is created. */
    method GetCurrentAbout(newId: string) returns (r: Result<About, ServiceError>)
      modifies this
      ensures r.Success?
      ensures FirstIndex(old(docs), IsActive).Some? ==>
                docs == old(docs) && r.value == old(docs)[FirstIndex(old(docs), IsActive).value]
      ensures FirstIndex(old(docs), IsActive).None? && |old(docs)| > 0 ==>
                && |docs| == |old(docs)| && OnlyActiveAt(docs, 0) && r.value == docs[0]
                && docs[0] == Activate(old(docs)[0])
                && (forall j :: 0 < j < |docs| ==> docs[j] == old(docs)[j])
      ensures |old(docs)| == 0 ==>
                && docs == [r.value] && r.value.id == newId && r.value.active
                && r.value.title == DefaultTitle && r.value.description == DefaultDescription
                && r.value.skills == [] && r.value.education == [] && r.value.experience == []
    {
      var active := FirstIndex(docs, IsActive);
      if active.Some? {
        return Success(docs[active.value]);
      }
      if |docs| > 0 {
        ghost var before := docs;
        DeactivateAllInactive(docs);
        assert FirstIndex(docs, WithId(docs[0].id)) == Some(0);
        r := SetActive(docs[0].id);
        forall j | 0 < j < |docs| ensures docs[j] == before[j] {
          assert WithoutActive(docs[j]) == WithoutActive(before[j]);
        }
        return;
      }
      // The default record has no sub-documents, so no `_id` is drawn for them.
      r := Create(newId, (n: nat) => newId, DefaultInput);
    }

    /** `addSkill`: appends `skill`, cast with the generated `_id` `newSubId` unless it
        has one, to the skills of the first document with `id`; null for an unknown id. */
    method AddSkill(id: string, skill: Skill, newSubId: string) returns (r: Option<About>)
      modifies this
      ensures FirstIndex(old(docs), WithId(id)).None? ==> r.None? && docs == old(docs)
      ensures FirstIndex(old(docs), WithId(id)).Some? ==>
                var k := FirstIndex(old(docs), WithId(id)).value;
                docs == old(docs)[k := old(docs)[k].(skills := old(docs)[k].skills + [StampSkill(skill, newSubId)])]
                && r == Some(docs[k])
    {
      r := FindByIdAndUpdate(id, PushSkill(StampSkill(skill, newSubId)));
    }

    /** `removeSkill`: drops every skill whose `_id` is `skillId` from the first
        document with `id`, keeping the others in order; null for an unknown id. */
    method RemoveSkill(id: string, skillId: string) returns (r: Option<About>)
      modifies this
      ensures FirstIndex(old(docs), WithId(id)).None? ==> r.None? && docs == old(docs)
      ensures FirstIndex(old(docs), WithId(id)).Some? ==>
                var k := FirstIndex(old(docs), WithId(id)).value;
                docs == old(docs)[k := old(docs)[k].(skills := Filter(old(docs)[k].skills, (s: Skill) => s.subId != Some(skillId)))]
                && r == Some(docs[k])
    {
      r := FindByIdAndUpdate(id, PullSkill(skillId));
    }

    /** `addEducation`: appends the cast entry to the education list of the first
        document with `id`. */
    method AddEducation(id: string, education: Education, newSubId: string) returns (r: Option<About>)
      modifies this
      ensures FirstIndex(old(docs), WithId(id)).None? ==> r.None? && docs == old(docs)
      ensures FirstIndex(old(docs), WithId(id)).Some? ==>
                var k := FirstIndex(old(docs), WithId(id)).value;
                docs == old(docs)[k := old(docs)[k].(education := old(docs)[k].education + [StampEducation(education, newSubId)])]
                && r == Some(docs[k])
    {
      r := FindByIdAndUpdate(id, PushEducation(StampEducation(education, newSubId)));
    }

    /** `removeEducation`: drops every education entry whose `_id` is `educationId`. */
    method RemoveEducation(id: string, educationId: string) returns (r: Option<About>)
      modifies this
      ensures FirstIndex(old(docs), WithId(id)).None? ==> r.None? && docs == old(docs)
      ensures FirstIndex(old(docs), WithId(id)).Some? ==>
                var k := FirstIndex(old(docs), WithId(id)).value;
                docs == old(docs)[k := old(docs)[k].(education := Filter(old(docs)[k].education, (e: Education) => e.subId != Some(educationId)))]
                && r == Some(docs[k])
    {
      r := FindByIdAndUpdate(id, PullEducation(educationId));
    }

    /** `addExperience`: appends the cast entry to the experience list of the first
        document with `id`. */
    method AddExperience(id: string, experience: Experience, newSubId: string) returns (r: Option<About>)
      modifies this
      ensures FirstIndex(old(docs), WithId(id)).None? ==> r.None? && docs == old(docs)
      ensures FirstIndex(old(docs), WithId(id)).Some? ==>
                var k := FirstIndex(old(docs), WithId(id)).value;
                docs == old(docs)[k := old(docs)[k].(experience := old(docs)[k].experience + [StampExperience(experience, newSubId)])]
                && r == Some(docs[k])
    {
      r := FindByIdAndUpdate(id, PushExperience(StampExperience(experience, newSubId)));
    }

    /** `removeExperience`: drops every experience entry whose `_id` is `experienceId`. */
    method RemoveExperience(id: string, experienceId: string) returns (r: Option<About>)
      modifies this
      ensures FirstIndex(old(docs), WithId(id)).None? ==> r.None? && docs == old(docs)
      ensures FirstIndex(old(docs), WithId(id)).Some? ==>
                var k := FirstIndex(old(docs), WithId(id)).value;
                docs == old(docs)[k := old(docs)[k].(experience := Filter(old(docs)[k].experience, (x: Experience) => x.subId != Some(experienceId)))]
                && r == Some(docs[k])
    {
      r := FindByIdAndUpdate(id, PullExperience(experienceId));
    }
  }

  /** A skill pushed without an `_id` is reached by a `$pull` on the `_id` generated
      for it: the pull removes exactly that skill, so the document is as before. */
  lemma SkillPullUndoesPush(a: About, skill: Skill, newSubId: string)
    requires skill.subId.None?
    requires forall i :: 0 <= i < |a.skills| ==> a.skills[i].subId != Some(newSubId)
    ensures PullSkill(newSubId)(PushSkill(StampSkill(skill, newSubId))(a)) == a
  {
    var keep := (s: Skill) => s.subId != Some(newSubId);
    FilterAppend(a.skills, [StampSkill(skill, newSubId)], keep);
    FilterKeepsAll(a.skills, keep);
  }

  lemma EducationPullUndoesPush(a: About, education: Education, newSubId: string)
    requires education.subId.None?
    requires forall i :: 0 <= i < |a.education| ==> a.education[i].subId != Some(newSubId)
    ensures PullEducation(newSubId)(PushEducation(StampEducation(education, newSubId))(a)) == a
  {
    var keep := (e: Education) => e.subId != Some(newSubId);
    FilterAppend(a.education, [StampEducation(education, newSubId)], keep);
    FilterKeepsAll(a.education, keep);
  }

  lemma ExperiencePullUndoesPush(a: About, experience: Experience, newSubId: string)
    requires experience.subId.None?
    requires forall i :: 0 <= i < |a.experience| ==> a.experience[i].subId != Some(newSubId)
    ensures PullExperience(newSubId)(PushExperience(StampExperience(experience, newSubId))(a)) == a
  {
    var keep := (x: Experience) => x.subId != Some(newSubId);
    FilterAppend(a.experience, [StampExperience(experience, newSubId)], keep);
    FilterKeepsAll(a.experience, keep);
  }

  /** Changing only `active` flags does not move the first record with a given id. */
  lemma {:induction false} FirstIndexSameIds(a: seq<About>, b: seq<About>, id: string)
    requires |a| == |b|
    requires forall j :: 0 <= j < |a| ==> a[j].id == b[j].id
    ensures FirstIndex(a, WithId(id)) == FirstIndex(b, WithId(id))
  {
    if |a| > 0 {
      FirstIndexSameIds(a[1..], b[1..], id);
    }
  }
}
