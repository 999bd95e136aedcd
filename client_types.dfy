/** The records the front-end handles (`about.types.ts`, `profile.types.ts`): every
    identifier is optional, and `_id` is written `dbId`. The About's nested lists
    reuse the schema's element types; the optional `profile` block and the
    timestamps are not carried. */
module ClientTypes {
  import opened Wrappers
  import opened AboutSchema

  datatype ClientSocialLink = ClientSocialLink(platform: string, url: string, active: Option<bool>)

  /** A Profile as the admin pages hold it; the fields the code defaults with `||`
      may be missing. */
  datatype ClientProfile = ClientProfile(
    id: Option<string>,
    dbId: Option<string>,
    name: Option<string>,
    highlightedText: Option<string>,
    description: Option<string>,
    socialLinks: Option<seq<ClientSocialLink>>,
    active: Option<bool>)

  datatype ClientAbout = ClientAbout(
    id: Option<string>,
    dbId: Option<string>,
    title: string,
    description: string,
    skills: seq<Skill>,
    education: seq<Education>,
    experience: seq<Experience>,
    avatar: Option<string>,
    socialLinks: Option<SocialLinks>,
    active: Option<bool>)

  /** `x.id || x._id`: a non-empty `id`, else `_id` as it is (possibly missing). */
  function IdOrDbId(id: Option<string>, dbId: Option<string>): (r: Option<string>)
    ensures id.Some? && id.value != "" ==> r == id
    ensures !(id.Some? && id.value != "") ==> r == dbId
  {
    if id.Some? && id.value != "" then id else dbId
  }

  /** `!!(x.id || x._id)`: the record has been stored before. */
  predicate Identified(id: Option<string>, dbId: Option<string>) {
    (id.Some? && id.value != "") || (dbId.Some? && dbId.value != "")
  }

  function AboutKey(a: ClientAbout): Option<string> {
    IdOrDbId(a.id, a.dbId)
  }

  function ProfileKey(p: ClientProfile): Option<string> {
    IdOrDbId(p.id, p.dbId)
  }

  /** `active === true`. */
  predicate AboutIsActive(a: ClientAbout) {
    a.active == Some(true)
  }

  predicate ProfileIsActive(p: ClientProfile) {
    p.active == Some(true)
  }
}
