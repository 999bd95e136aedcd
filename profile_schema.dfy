/** The stored shape of a Profile document and of its embedded social links, with
    the defaults and required-field rules Mongoose applies on creation. */
module ProfileSchema {
  import opened Wrappers

  /** An embedded social link; its `active` is a display toggle. */
  datatype SocialLink = SocialLink(platform: string, url: string, active: bool)

  /** A stored Profile document; `id` is its `_id`. */
  datatype Profile = Profile(
    id: string,
    name: string,
    highlightedText: string,
    description: string,
    socialLinks: seq<SocialLink>,
    active: bool)

  /** A social link as a caller supplies it: `active` may be left out. */
  datatype SocialLinkInput = SocialLinkInput(platform: string, url: string, active: Option<bool>)

  /** The fields a caller hands to `new profileModel(...)`. */
  datatype ProfileInput = ProfileInput(
    name: string,
    highlightedText: string,
    description: string,
    socialLinks: Option<seq<SocialLinkInput>>,
    active: Option<bool>)

  /** A failed `save()`: the required paths that were missing. */
  datatype SchemaError = ValidationFailed(missing: seq<string>)

  /** Mongoose's `required` rule for a string path: present and not the empty string. */
  predicate RequiredString(s: string) {
    s != ""
  }

  /** A link input that satisfies the SocialLink schema's required paths. */
  predicate LinkAccepted(l: SocialLinkInput) {
    RequiredString(l.platform) && RequiredString(l.url)
  }

  /** An input that satisfies every required path of Profile and of its links. */
  predicate Accepted(input: ProfileInput) {
    && RequiredString(input.name)
    && RequiredString(input.highlightedText)
    && RequiredString(input.description)
    && LinksAccepted(input.socialLinks)
  }

  /** Every supplied link satisfies the SocialLink schema (an absent list trivially does). */
  predicate LinksAccepted(links: Option<seq<SocialLinkInput>>) {
    links.Some? ==> forall j :: 0 <= j < |links.value| ==> LinkAccepted(links.value[j])
  }

  /** The stored link for `l`: a missing `active` takes the schema default `true`. */
  function NewSocialLink(l: SocialLinkInput): (r: SocialLink)
    ensures r.platform == l.platform && r.url == l.url
    ensures !r.active <==> l.active == Some(false)
  {
    SocialLink(l.platform, l.url, l.active.GetOr(true))
  }

  /** The stored links for a list of inputs, position by position. */
  function NewSocialLinks(ls: seq<SocialLinkInput>): (r: seq<SocialLink>)
    ensures |r| == |ls|
    ensures forall j :: 0 <= j < |ls| ==> r[j] == NewSocialLink(ls[j])
  {
    seq(|ls|, j requires 0 <= j < |ls| => NewSocialLink(ls[j]))
  }

  /** The document `save()` stores for `new profileModel(input)`: `socialLinks`
      defaults to the empty list and `active` to `true`. */
  function NewProfile(id: string, input: ProfileInput): (r: Result<Profile, SchemaError>)
    ensures r.Success? <==> Accepted(input)
    ensures r.Failure? ==> r.error.missing != []
    ensures r.Success? ==> r.value.id == id && r.value.name == input.name &&
                           r.value.highlightedText == input.highlightedText &&
                           r.value.description == input.description
    ensures r.Success? ==> (input.socialLinks.None? ==> r.value.socialLinks == [])
    ensures r.Success? && input.socialLinks.Some? ==>
              r.value.socialLinks == NewSocialLinks(input.socialLinks.value)
    ensures r.Success? ==> (!r.value.active <==> input.active == Some(false))
  {
    var missing :=
      (if RequiredString(input.name) then [] else ["name"]) +
      (if RequiredString(input.highlightedText) then [] else ["highlightedText"]) +
      (if RequiredString(input.description) then [] else ["description"]) +
      (if LinksAccepted(input.socialLinks) then [] else ["socialLinks"]);
    if missing != [] then Failure(ValidationFailed(missing))
    else Success(Profile(id, input.name, input.highlightedText, input.description,
                         NewSocialLinks(input.socialLinks.GetOr([])), input.active.GetOr(true)))
  }

  /** What `save()` re-validates on an existing document: every required path of the
      Profile and of each of its links. */
  predicate Savable(p: Profile) {
    && RequiredString(p.name)
    && RequiredString(p.highlightedText)
    && RequiredString(p.description)
    && forall j :: 0 <= j < |p.socialLinks| ==>
         RequiredString(p.socialLinks[j].platform) && RequiredString(p.socialLinks[j].url)
  }

  /** A document created from an input passes the same validation on a later `save()`,
      and an input is refused exactly when no such document exists. */
  lemma CreatedIsSavable(id: string, input: ProfileInput)
    ensures NewProfile(id, input).Success? ==> Savable(NewProfile(id, input).value)
    ensures NewProfile(id, input).Failure? ==>
              forall p: Profile :: p.name == input.name && p.highlightedText == input.highlightedText &&
                p.description == input.description &&
                (input.socialLinks.Some? ==> p.socialLinks == NewSocialLinks(input.socialLinks.value))
                ==> !Savable(p)
  {
    if NewProfile(id, input).Failure? && input.socialLinks.Some? && !LinksAccepted(input.socialLinks) {
      var ls := input.socialLinks.value;
      var j :| 0 <= j < |ls| && !LinkAccepted(ls[j]);
      forall p: Profile | p.socialLinks == NewSocialLinks(ls) ensures !Savable(p) {
        assert p.socialLinks[j] == NewSocialLink(ls[j]);
      }
    }
  }

  /** The link Mongoose stores under the inline element type that the `socialLinks`
      path declares (three untyped-rule paths, no `required`, no `default`): the
      SocialLink class's own rules never reach the embedded documents. */
  datatype StoredLinkAsWritten = StoredLinkAsWritten(platform: string, url: string, active: Option<bool>)

  /** The stored link under the inline element type: the flag stays missing when the
      caller leaves it out, where the SocialLink class declares a default of `true`. */
  function NewSocialLinkAsWritten(l: SocialLinkInput): (r: StoredLinkAsWritten)
    ensures r.active.None? <==> l.active.None?
    ensures r.active.Some? ==> r.active.value == NewSocialLink(l).active
    ensures l.active.None? ==> NewSocialLink(l).active
  {
    StoredLinkAsWritten(l.platform, l.url, l.active)
  }

  /** The required paths a profile input fails under the inline element type: only the
      Profile's own three strings are checked, never a link's platform or url. */
  function MissingPathsAsWritten(input: ProfileInput): (r: seq<string>)
    ensures r == [] <==> RequiredString(input.name) && RequiredString(input.highlightedText) &&
                         RequiredString(input.description)
    ensures r == [] && LinksAccepted(input.socialLinks) <==> Accepted(input)
  {
    (if RequiredString(input.name) then [] else ["name"]) +
    (if RequiredString(input.highlightedText) then [] else ["highlightedText"]) +
    (if RequiredString(input.description) then [] else ["description"])
  }

  /** A link sent without `active` is stored with no flag where the SocialLink class
      promises `true`, and a link with neither platform nor url is saved as written
      while the SocialLink rules refuse it. */
  lemma InlineLinkTypeDropsRules()
    ensures var link := SocialLinkInput("github", "https://github.com/ana", None);
            NewSocialLinkAsWritten(link).active == None && NewSocialLink(link).active
    ensures var blank := SocialLinkInput("", "", None);
            var input := ProfileInput("Ana", "dev", "bio", Some([blank]), None);
            MissingPathsAsWritten(input) == [] && NewProfile("p1", input).Failure?
  {
    var blank := SocialLinkInput("", "", None);
    var links := [blank];
    assert links[0] == blank && !LinkAccepted(blank);
    assert !LinksAccepted(Some(links));
  }
}
