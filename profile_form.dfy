/** The admin ProfileForm: a copy of the profile being edited, the inputs for a new
    social link, and a two-click edit mode for one link's url. */
module ProfileForm {
  import opened Wrappers
  import opened Seqs
  import opened ClientTypes

  /** The text inputs `handleChange` serves, by their `name` attribute. */
  datatype Field = Name | HighlightedText | Description

  /** `{ ...prev, [name]: value }`. */
  function WithField(p: ClientProfile, field: Field, value: string): (r: ClientProfile)
    ensures field == Name ==> r == p.(name := Some(value))
    ensures field == HighlightedText ==> r == p.(highlightedText := Some(value))
    ensures field == Description ==> r == p.(description := Some(value))
  {
    match field
    case Name => p.(name := Some(value))
    case HighlightedText => p.(highlightedText := Some(value))
    case Description => p.(description := Some(value))
  }

  /** `[...(prev.socialLinks || []), { platform, url, active: true }]`. */
  function Appended(links: Option<seq<ClientSocialLink>>, platform: string, url: string): (r: seq<ClientSocialLink>)
    ensures |r| == |links.GetOr([])| + 1
    ensures r[..|links.GetOr([])|] == links.GetOr([])
    ensures r[|links.GetOr([])|] == ClientSocialLink(platform, url, Some(true))
  {
    links.GetOr([]) + [ClientSocialLink(platform, url, Some(true))]
  }

  /** `links.filter((_, i) => i !== index)`: the link at `index` goes, an index
      outside the list removes nothing. */
  function WithoutIndex(links: seq<ClientSocialLink>, index: int): (r: seq<ClientSocialLink>)
    ensures !(0 <= index < |links|) ==> r == links
    ensures 0 <= index < |links| ==>
              && |r| == |links| - 1
              && r[..index] == links[..index]
              && (forall j :: index <= j < |r| ==> r[j] == links[j + 1])
  {
    if 0 <= index < |links| then RemoveAt(links, index) else links
  }

  /** Removing the link just added gives the list back. */
  lemma RemoveUndoesAdd(links: Option<seq<ClientSocialLink>>, platform: string, url: string)
    ensures WithoutIndex(Appended(links, platform, url), |links.GetOr([])|) == links.GetOr([])
  {
    var r := WithoutIndex(Appended(links, platform, url), |links.GetOr([])|);
    assert r == r[..|links.GetOr([])|];
  }

  /** The copied list with `{ ...updatedLinks[index], url }` at `index`. */
  function WithUrl(links: seq<ClientSocialLink>, index: int, url: string): (r: seq<ClientSocialLink>)
    requires 0 <= index < |links|
    ensures |r| == |links|
    ensures r[index].url == url && r[index].platform == links[index].platform && r[index].active == links[index].active
    ensures forall j :: 0 <= j < |links| && j != index ==> r[j] == links[j]
  {
    links[index := links[index].(url := url)]
  }

  class ProfileFormState {
    var formData: ClientProfile
    var newSocialPlatform: string
    var newSocialUrl: string
    var editingIndex: Option<int>
    var editSocialUrl: string

    /** The form starts from the profile it is given, with empty inputs and no
        link in edit mode. */
    constructor(profile: ClientProfile)
      ensures formData == profile && newSocialPlatform == "" && newSocialUrl == ""
      ensures editingIndex.None? && editSocialUrl == ""
    {
      formData := profile;
      newSocialPlatform := "";
      newSocialUrl := "";
      editingIndex := None;
      editSocialUrl := "";
    }

    /** `handleChange`: only the named field takes the typed value. */
    method HandleChange(field: Field, value: string)
      modifies this
      ensures formData == WithField(old(formData), field, value)
      ensures newSocialPlatform == old(newSocialPlatform) && newSocialUrl == old(newSocialUrl)
      ensures editingIndex == old(editingIndex) && editSocialUrl == old(editSocialUrl)
    {
      formData := WithField(formData, field, value);
    }

    /** `handleSelectChange` and the new-url input. */
    method SetNewLinkInputs(platform: string, url: string)
      modifies this
      ensures newSocialPlatform == platform && newSocialUrl == url
      ensures formData == old(formData) && editingIndex == old(editingIndex) && editSocialUrl == old(editSocialUrl)
    {
      newSocialPlatform := platform;
      newSocialUrl := url;
    }

    /** The edit-url input. */
    method SetEditUrl(url: string)
      modifies this
      ensures editSocialUrl == url
      ensures formData == old(formData) && editingIndex == old(editingIndex)
      ensures newSocialPlatform == old(newSocialPlatform) && newSocialUrl == old(newSocialUrl)
    {
      editSocialUrl := url;
    }

    /** `handleAddSocialLink`: with both inputs filled, the link is appended active
        and the inputs are cleared; otherwise nothing happens. */
    method HandleAddSocialLink()
      modifies this
      ensures old(newSocialPlatform) == "" || old(newSocialUrl) == "" ==>
                formData == old(formData) && newSocialPlatform == old(newSocialPlatform) && newSocialUrl == old(newSocialUrl)
      ensures old(newSocialPlatform) != "" && old(newSocialUrl) != "" ==>
                && formData == old(formData).(socialLinks := Some(Appended(old(formData).socialLinks, old(newSocialPlatform), old(newSocialUrl))))
                && newSocialPlatform == "" && newSocialUrl == ""
      ensures editingIndex == old(editingIndex) && editSocialUrl == old(editSocialUrl)
    {
      if newSocialPlatform == "" || newSocialUrl == "" {
        return;
      }
      formData := formData.(socialLinks := Some(Appended(formData.socialLinks, newSocialPlatform, newSocialUrl)));
      newSocialPlatform := "";
      newSocialUrl := "";
    }

    /** `handleRemoveSocialLink`: the link at `index` goes; `prev.socialLinks.filter`
        needs the list to be there. */
    method HandleRemoveSocialLink(index: int)
      requires formData.socialLinks.Some?
      modifies this
      ensures formData == old(formData).(socialLinks := Some(WithoutIndex(old(formData).socialLinks.value, index)))
      ensures newSocialPlatform == old(newSocialPlatform) && newSocialUrl == old(newSocialUrl)
      ensures editingIndex == old(editingIndex) && editSocialUrl == old(editSocialUrl)
    {
      formData := formData.(socialLinks := Some(WithoutIndex(formData.socialLinks.value, index)));
    }

    /** `handleEditSocialLink`: a click on a link not in edit mode puts it in edit
        mode with its url in the buffer; a second click on the same link writes a
        non-empty buffer to its url (platform and `active` kept), then leaves edit
        mode and clears the buffer. The link must exist, as `socialLinks[index].url`
        requires. */
    method HandleEditSocialLink(index: int)
      requires formData.socialLinks.Some? && 0 <= index < |formData.socialLinks.value|
      modifies this
      ensures old(editingIndex) != Some(index) ==>
                && editingIndex == Some(index)
                && editSocialUrl == old(formData).socialLinks.value[index].url
                && formData == old(formData)
      ensures old(editingIndex) == Some(index) ==>
                && editingIndex.None? && editSocialUrl == ""
                && (old(editSocialUrl) != "" ==>
                      formData == old(formData).(socialLinks := Some(WithUrl(old(formData).socialLinks.value, index, old(editSocialUrl)))))
                && (old(editSocialUrl) == "" ==> formData == old(formData))
      ensures newSocialPlatform == old(newSocialPlatform) && newSocialUrl == old(newSocialUrl)
    {
      if editingIndex == Some(index) {
        if editSocialUrl != "" {
          var updatedLinks := WithUrl(formData.socialLinks.value, index, editSocialUrl);
          formData := formData.(socialLinks := Some(updatedLinks));
        }
        editingIndex := None;
        editSocialUrl := "";
      } else {
        editingIndex := Some(index);
        editSocialUrl := formData.socialLinks.value[index].url;
      }
    }

    /** `handleSubmit`: the form data goes to `onSave` unchanged. */
    method HandleSubmit() returns (saved: ClientProfile)
      ensures saved == formData
    {
      saved := formData;
    }
  }
}
