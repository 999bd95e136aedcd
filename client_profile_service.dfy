/** The front-end ProfileService's own logic: the clean-up of the update payload,
    the array wrapping of `findAll` and the error mapping of `findActive`. The HTTP
    calls are parameters. */
module ClientProfileService {
  import opened Wrappers
  import opened Json
  import opened ProfileSchema
  import opened ProfileDto
  import opened ClientTypes
  import opened CrudAbstract

  /** One link of the payload: platform and url as given, `active` kept when it is a
      boolean and `true` otherwise. */
  function CleanLink(l: ClientSocialLink): (r: SocialLinkInput)
    ensures r.platform == l.platform && r.url == l.url
    ensures r.active.Some?
    ensures r.active.value == false <==> l.active == Some(false)
  {
    SocialLinkInput(l.platform, l.url, Some(l.active.GetOr(true)))
  }

  /** `sanitizedData` of `updateProfile`: the three texts default to '', the links to
      [], and a profile without a boolean `active` is sent as active. */
  function Cleaned(data: ClientProfile): (r: ProfileInput)
    ensures r.name == data.name.GetOr("")
    ensures r.highlightedText == data.highlightedText.GetOr("")
    ensures r.description == data.description.GetOr("")
    ensures r.socialLinks.Some?
    ensures var links := data.socialLinks.GetOr([]);
            |r.socialLinks.value| == |links| &&
            forall j :: 0 <= j < |links| ==> r.socialLinks.value[j] == CleanLink(links[j])
    ensures r.active == Some(data.active.GetOr(true))
  {
    var links := data.socialLinks.GetOr([]);
    ProfileInput(data.name.GetOr(""), data.highlightedText.GetOr(""), data.description.GetOr(""),
                 Some(seq(|links|, j requires 0 <= j < |links| => CleanLink(links[j]))),
                 Some(data.active.GetOr(true)))
  }

  /** The body `updateProfile` sends: exactly the five cleaned fields; ids,
      timestamps and anything else the record carried are dropped. */
  function UpdatePayload(data: ClientProfile): (r: Json)
    ensures r.JObj? && r.fields.Keys == {"name", "highlightedText", "description", "socialLinks", "active"}
    ensures r.fields["active"] == JBool(data.active.GetOr(true))
  {
    EncodeProfile(Cleaned(data))
  }

  /** The API accepts the cleaned payload exactly when the three texts are
      non-empty and every link has a platform and a url. */
  lemma PayloadAcceptedIff(data: ClientProfile)
    ensures ValidProfileBody(UpdatePayload(data)) <==>
              && data.name.GetOr("") != ""
              && data.highlightedText.GetOr("") != ""
              && data.description.GetOr("") != ""
              && var links := data.socialLinks.GetOr([]);
                 forall j :: 0 <= j < |links| ==> links[j].platform != "" && links[j].url != ""
  {
    var input := Cleaned(data);
    EncodedProfileValid(input);
    var links := data.socialLinks.GetOr([]);
    assert LinksAccepted(input.socialLinks) <==>
           forall j :: 0 <= j < |links| ==> links[j].platform != "" && links[j].url != "" by {
      assert forall j :: 0 <= j < |links| ==> input.socialLinks.value[j] == CleanLink(links[j]);
    }
  }

  /** `findAll`: an array answer as it is, anything else as a one-element list. */
  function WrapList(data: Json): (r: seq<Json>)
    ensures data.JArr? ==> r == data.items
    ensures !data.JArr? ==> |r| == 1 && r[0] == data
  {
    if data.JArr? then data.items else [data]
  }

  /** `findActive`: the answer's body; a 404 or 500 response is null; any other
      failure is rethrown. */
  function FindActive(reply: ApiReply): (r: Result<Json, ApiReply>)
    ensures reply.Ok? ==> r == Success(reply.data)
    ensures reply.AxiosFailure? && (reply.status == Some(404) || reply.status == Some(500)) ==> r == Success(JNull)
    ensures r.Failure? <==> !reply.Ok? && !(reply.AxiosFailure? && (reply.status == Some(404) || reply.status == Some(500)))
    ensures r.Failure? ==> r.error == reply
  {
    match reply
    case Ok(data) => Success(data)
    case AxiosFailure(status, _) =>
      if status == Some(404) || status == Some(500) then Success(JNull) else Failure(reply)
    case OtherFailure => Failure(reply)
  }
}
