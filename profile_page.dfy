/** The admin Profile page: the selection on load, the defaults it fills in before
    saving, how it folds a save's answer into its list, and the list rewrite after
    an activation. The service calls' outcomes are parameters of the handlers. */
module ProfilePage {
  import opened Wrappers
  import opened Seqs
  import opened Json
  import opened ClientTypes
  import opened ClientProfileService

  /** `emptyProfile`: blank texts, no links, no ids and no `active`. */
  const EmptyProfile := ClientProfile(None, None, Some(""), Some(""), Some(""), Some([]), None)

  /** The selection on load: the first profile with `active === true`, else the
      first profile, else the empty profile. */
  function SelectOnLoad(all: seq<ClientProfile>): (r: ClientProfile)
    ensures FirstIndex(all, ProfileIsActive).Some? ==> r == all[FirstIndex(all, ProfileIsActive).value]
    ensures FirstIndex(all, ProfileIsActive).None? && |all| > 0 ==> r == all[0]
    ensures |all| == 0 ==> r == EmptyProfile
    ensures (exists j :: 0 <= j < |all| && ProfileIsActive(all[j])) ==> ProfileIsActive(r)
  {
    var active := FirstIndex(all, ProfileIsActive);
    if active.Some? then all[active.value]
    else if |all| > 0 then all[0]
    else EmptyProfile
  }

  /** `selectedProfile?.id || selectedProfile?._id` is truthy: the selection is a
      stored profile. */
  predicate IsStored(selected: Option<ClientProfile>) {
    selected.Some? && Identified(selected.value.id, selected.value.dbId)
  }

  /** The id `handleSave` updates: `id || _id` of a stored selection. */
  function StoredId(selected: Option<ClientProfile>): (r: string)
    requires IsStored(selected)
    ensures r != ""
    ensures Some(r) == ProfileKey(selected.value)
  {
    ProfileKey(selected.value).value
  }

  /** `completeProfile`: the three texts default to '' and the links to [], and a
      profile that is not yet stored is saved inactive. */
  function Completed(updated: ClientProfile, selected: Option<ClientProfile>): (r: ClientProfile)
    ensures r.id == updated.id && r.dbId == updated.dbId
    ensures r.name == Some(updated.name.GetOr(""))
    ensures r.highlightedText == Some(updated.highlightedText.GetOr(""))
    ensures r.description == Some(updated.description.GetOr(""))
    ensures r.socialLinks == Some(updated.socialLinks.GetOr([]))
    ensures !IsStored(selected) ==> r.active == Some(false)
    ensures IsStored(selected) ==> r.active == updated.active
  {
    updated.(name := Some(updated.name.GetOr("")),
             highlightedText := Some(updated.highlightedText.GetOr("")),
             description := Some(updated.description.GetOr("")),
             socialLinks := Some(updated.socialLinks.GetOr([])),
             active := if IsStored(selected) then updated.active else Some(false))
  }

  /** `p.id === result.id || p._id === result._id`; a missing field on both sides
      counts as equal. */
  predicate SameRecord(p: ClientProfile, result: ClientProfile) {
    p.id == result.id || p.dbId == result.dbId
  }

  /** The list after an update answered `result`: every element `SameRecord` picks
      is replaced by the result, the others are kept. */
  function Replaced(list: seq<ClientProfile>, result: ClientProfile): (r: seq<ClientProfile>)
    ensures |r| == |list|
    ensures forall j :: 0 <= j < |list| && SameRecord(list[j], result) ==> r[j] == result
    ensures forall j :: 0 <= j < |list| && !SameRecord(list[j], result) ==> r[j] == list[j]
  {
    seq(|list|, j requires 0 <= j < |list| => if SameRecord(list[j], result) then result else list[j])
  }

  /** When neither the list nor the result carries an `id`, every element is
      replaced by the result. */
  lemma ReplacedWithoutIdsReplacesAll(list: seq<ClientProfile>, result: ClientProfile)
    requires result.id.None?
    requires forall j :: 0 <= j < |list| ==> list[j].id.None?
    ensures forall j :: 0 <= j < |list| ==> Replaced(list, result)[j] == result
  {
  }

  /** The list after `setActive` answered `result`: matching `id || _id` becomes the
      result marked active, every other element is marked inactive. */
  function Reconciled(list: seq<ClientProfile>, result: ClientProfile): (r: seq<ClientProfile>)
    ensures |r| == |list|
    ensures forall j :: 0 <= j < |list| && ProfileKey(list[j]) == ProfileKey(result) ==>
              r[j] == result.(active := Some(true))
    ensures forall j :: 0 <= j < |list| && ProfileKey(list[j]) != ProfileKey(result) ==>
              r[j] == list[j].(active := Some(false))
  {
    seq(|list|, j requires 0 <= j < |list| =>
      if ProfileKey(list[j]) == ProfileKey(result) then result.(active := Some(true))
      else list[j].(active := Some(false)))
  }

  predicate DistinctKeys(list: seq<ClientProfile>) {
    forall i, j :: 0 <= i < j < |list| ==> ProfileKey(list[i]) != ProfileKey(list[j])
  }

  /** With distinct keys only the matching element is active after the rewrite. */
  lemma ReconciledOnlyMatchActive(list: seq<ClientProfile>, result: ClientProfile, k: nat)
    requires DistinctKeys(list)
    requires k < |list| && ProfileKey(list[k]) == ProfileKey(result)
    ensures forall j :: 0 <= j < |list| ==> (ProfileIsActive(Reconciled(list, result)[j]) <==> j == k)
  {
    var r := Reconciled(list, result);
    forall j | 0 <= j < |list| && j != k ensures !ProfileIsActive(r[j]) {
      if j < k {
        assert ProfileKey(list[j]) != ProfileKey(list[k]);
      } else {
        assert ProfileKey(list[k]) != ProfileKey(list[j]);
      }
    }
  }

  /** What `handleSave` asks the service for. */
  datatype SaveRequest =
    | UpdateRequest(id: string, payload: Json)   // `updateProfile(id, completeProfile)`
    | CreateRequest(profile: ClientProfile)      // `create(completeProfile)`

  /** The page's state. */
  class ProfilePageState {
    var profiles: seq<ClientProfile>
    var activeProfile: Option<ClientProfile>
    var selectedProfile: Option<ClientProfile>
    var loading: bool
    var saving: bool
    var activating: bool
    var error: string

    constructor()
      ensures profiles == [] && activeProfile.None? && selectedProfile.None?
      ensures loading && !saving && !activating && error == ""
    {
      profiles := [];
      activeProfile := None;
      selectedProfile := None;
      loading := true;
      saving := false;
      activating := false;
      error := "";
    }

    /** `fetchProfiles` with the outcome of `findAll`. */
    method FetchProfiles(fetched: Result<seq<ClientProfile>, string>)
      modifies this
      ensures !loading && saving == old(saving) && activating == old(activating)
      ensures fetched.Success? ==>
                && profiles == fetched.value
                && activeProfile == Find(fetched.value, ProfileIsActive)
                && selectedProfile == Some(SelectOnLoad(fetched.value))
                && error == old(error)
      ensures fetched.Failure? ==>
                && profiles == old(profiles) && activeProfile == old(activeProfile)
                && selectedProfile == Some(EmptyProfile)
                && error == "Failed to load profile data"
    {
      loading := true;
      if fetched.Failure? {
        error := "Failed to load profile data";
        selectedProfile := Some(EmptyProfile);
      } else {
        profiles := fetched.value;
        activeProfile := Find(fetched.value, ProfileIsActive);
        selectedProfile := Some(SelectOnLoad(fetched.value));
      }
      loading := false;
    }

    /** `handleSave` with the service's answer: a stored selection is updated by its
        id with the cleaned payload and replaced in the list; otherwise the profile
        is created and appended. The answer becomes the selection, and the active
        profile when it is active. On failure only the error changes. */
    method HandleSave(updated: ClientProfile, answer: Result<ClientProfile, string>) returns (sent: SaveRequest)
      modifies this
      ensures !saving && loading == old(loading) && activating == old(activating)
      ensures var complete := Completed(updated, old(selectedProfile));
              && (IsStored(old(selectedProfile)) ==>
                    sent == UpdateRequest(StoredId(old(selectedProfile)), UpdatePayload(complete)))
              && (!IsStored(old(selectedProfile)) ==> sent == CreateRequest(complete))
      ensures answer.Success? ==>
                && (IsStored(old(selectedProfile)) ==> profiles == Replaced(old(profiles), answer.value))
                && (!IsStored(old(selectedProfile)) ==> profiles == old(profiles) + [answer.value])
                && selectedProfile == Some(answer.value)
                && activeProfile == (if ProfileIsActive(answer.value) then Some(answer.value) else old(activeProfile))
                && error == ""
      ensures answer.Failure? ==>
                && profiles == old(profiles) && selectedProfile == old(selectedProfile)
                && activeProfile == old(activeProfile)
                && error == "An error occurred while saving the profile"
    {
      saving := true;
      error := "";
      var complete := Completed(updated, selectedProfile);
      var stored := IsStored(selectedProfile);
      if stored {
        sent := UpdateRequest(StoredId(selectedProfile), UpdatePayload(complete));
      } else {
        sent := CreateRequest(complete);
      }
      if answer.Failure? {
        error := (if stored then "Failed to update profile: " else "Failed to create profile: ") + answer.error;
        error := "An error occurred while saving the profile";
      } else {
        var result := answer.value;
        if stored {
          profiles := Replaced(profiles, result);
        } else {
          profiles := profiles + [result];
        }
        selectedProfile := Some(result);
        if ProfileIsActive(result) {
          activeProfile := Some(result);
        }
      }
      saving := false;
    }

    /** `handleSetActive` with the outcome of `setActive`. */
    method HandleSetActive(outcome: Result<ClientProfile, string>)
      modifies this
      ensures !activating && loading == old(loading) && saving == old(saving)
      ensures selectedProfile == old(selectedProfile)
      ensures outcome.Success? ==>
                && profiles == Reconciled(old(profiles), outcome.value)
                && activeProfile == Some(outcome.value)
                && error == ""
      ensures outcome.Failure? ==>
                && profiles == old(profiles) && activeProfile == old(activeProfile)
                && error == "An error occurred while setting the profile as active"
    {
      activating := true;
      error := "";
      if outcome.Success? {
        profiles := Reconciled(profiles, outcome.value);
        activeProfile := Some(outcome.value);
      } else {
        error := "Failed to set profile as active: " + outcome.error;
        error := "An error occurred while setting the profile as active";
      }
      activating := false;
    }

    /** `handleCreateNew`: select the empty profile. */
    method HandleCreateNew()
      modifies this
      ensures selectedProfile == Some(EmptyProfile) && !IsStored(selectedProfile)
      ensures profiles == old(profiles) && activeProfile == old(activeProfile) && error == old(error)
      ensures loading == old(loading) && saving == old(saving) && activating == old(activating)
    {
      selectedProfile := Some(EmptyProfile);
    }
  }
}
