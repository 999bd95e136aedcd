/** The request-body rules of CreateProfileDto/UpdateProfileDto, SocialLinkDto and
    AddSocialLinkDto, and how they relate to the Profile schema's required fields. */
module ProfileDto {
  import opened Wrappers
  import opened Json
  import opened Validation
  import opened ProfileSchema

  /** SocialLinkDto: non-empty platform and url, optional boolean `active`. */
  predicate ValidSocialLink(j: Json) {
    j.JObj? &&
    var o := j.fields;
    IsNonEmptyStringAt(o, "platform") && IsNonEmptyStringAt(o, "url") && OptionalAt(o, "active", IsBooleanValue)
  }

  /** CreateProfileDto. UpdateProfileDto extends it unchanged, so an update body must
      carry every required field as well: an update cannot be partial. */
  predicate ValidProfileBody(j: Json) {
    j.JObj? &&
    var o := j.fields;
    && IsNonEmptyStringAt(o, "name")
    && IsNonEmptyStringAt(o, "highlightedText")
    && IsNonEmptyStringAt(o, "description")
    && IsNestedArrayAt(o, "socialLinks", ValidSocialLink)
    && OptionalAt(o, "active", IsBooleanValue)
  }

  /** AddSocialLinkDto: non-empty platform and url; it declares no `active`. */
  predicate ValidAddSocialLinkBody(j: Json) {
    j.JObj? && IsNonEmptyStringAt(j.fields, "platform") && IsNonEmptyStringAt(j.fields, "url")
  }

  /** The platform and url of an AddSocialLinkDto. */
  datatype LinkFields = LinkFields(platform: string, url: string)

  // ---- the JSON a client sends for typed values ----

  function PutBool(m: Obj, k: string, v: Option<bool>): Obj {
    if v.Some? then m[k := JBool(v.value)] else m
  }

  function EncodeLink(l: SocialLinkInput): Json {
    JObj(PutBool(map["platform" := JStr(l.platform), "url" := JStr(l.url)], "active", l.active))
  }

  function EncodeLinks(ls: seq<SocialLinkInput>): (r: seq<Json>)
    ensures |r| == |ls| && forall i :: 0 <= i < |ls| ==> r[i] == EncodeLink(ls[i])
  {
    seq(|ls|, i requires 0 <= i < |ls| => EncodeLink(ls[i]))
  }

  /** The body a client sends for `input`; an absent link list is left out. */
  function EncodeProfile(input: ProfileInput): Json {
    var o := map["name" := JStr(input.name), "highlightedText" := JStr(input.highlightedText),
                 "description" := JStr(input.description)];
    var withLinks := if input.socialLinks.Some? then o["socialLinks" := JArr(EncodeLinks(input.socialLinks.value))] else o;
    JObj(PutBool(withLinks, "active", input.active))
  }

  function EncodeAddLink(l: LinkFields): Json {
    JObj(map["platform" := JStr(l.platform), "url" := JStr(l.url)])
  }

  lemma EncodedLinkValid(l: SocialLinkInput)
    ensures ValidSocialLink(EncodeLink(l)) <==> LinkAccepted(l)
  {
    var o := EncodeLink(l).fields;
    assert o["platform"] == JStr(l.platform) && o["url"] == JStr(l.url);
  }

  /** A typed Profile passes validation exactly when it carries a link list and the
      schema would accept it: the DTO's non-empty rules are the schema's required rules. */
  lemma EncodedProfileValid(input: ProfileInput)
    ensures ValidProfileBody(EncodeProfile(input)) <==> input.socialLinks.Some? && Accepted(input)
  {
    var o := EncodeProfile(input).fields;
    assert o["name"] == JStr(input.name) && o["highlightedText"] == JStr(input.highlightedText);
    assert o["description"] == JStr(input.description);
    assert input.active.Some? ==> o["active"] == JBool(input.active.value);
    if input.socialLinks.Some? {
      var ls := input.socialLinks.value;
      assert o["socialLinks"] == JArr(EncodeLinks(ls));
      forall i | 0 <= i < |ls| ensures ValidSocialLink(EncodeLinks(ls)[i]) <==> LinkAccepted(ls[i]) {
        EncodedLinkValid(ls[i]);
      }
    } else {
      assert "socialLinks" !in o;
    }
  }

  /** Whatever passes CreateProfileDto validation is then saved without a schema error. */
  lemma ValidBodyIsSaved(input: ProfileInput, id: string)
    requires ValidProfileBody(EncodeProfile(input))
    ensures NewProfile(id, input).Success?
  {
    EncodedProfileValid(input);
  }

  lemma EncodedAddLinkValid(l: LinkFields)
    ensures ValidAddSocialLinkBody(EncodeAddLink(l)) <==> l.platform != "" && l.url != ""
  {
    var o := EncodeAddLink(l).fields;
    assert o["platform"] == JStr(l.platform) && o["url"] == JStr(l.url);
  }
}
