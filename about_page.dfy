/** The admin About page: which record it selects when the list loads, and how it
    rewrites its list after an activation. The service calls' outcomes are
    parameters of the handlers. */
module AboutPage {
  import opened Wrappers
  import opened Seqs
  import opened ClientTypes

  /** `emptyAbout`: blank texts, empty lists, no ids and no `active`. */
  const EmptyAbout := ClientAbout(None, None, "", "", [], [], [], None, None, None)

  /** The selection on load: the first record with `active === true`, else the
      first record, else the empty About. */
  function SelectOnLoad(all: seq<ClientAbout>): (r: ClientAbout)
    ensures FirstIndex(all, AboutIsActive).Some? ==> r == all[FirstIndex(all, AboutIsActive).value]
    ensures FirstIndex(all, AboutIsActive).None? && |all| > 0 ==> r == all[0]
    ensures |all| == 0 ==> r == EmptyAbout
    ensures (exists j :: 0 <= j < |all| && AboutIsActive(all[j])) ==> AboutIsActive(r)
  {
    var active := FirstIndex(all, AboutIsActive);
    if active.Some? then all[active.value]
    else if |all| > 0 then all[0]
    else EmptyAbout
  }

  /** The list after `setActive` answered `result`: every element whose
      `id || _id` equals the result's becomes the result marked active, every
      other element is marked inactive. */
  function Reconciled(list: seq<ClientAbout>, result: ClientAbout): (r: seq<ClientAbout>)
    ensures |r| == |list|
    ensures forall j :: 0 <= j < |list| && AboutKey(list[j]) == AboutKey(result) ==>
              r[j] == result.(active := Some(true))
    ensures forall j :: 0 <= j < |list| && AboutKey(list[j]) != AboutKey(result) ==>
              r[j] == list[j].(active := Some(false))
  {
    seq(|list|, j requires 0 <= j < |list| =>
      if AboutKey(list[j]) == AboutKey(result) then result.(active := Some(true))
      else list[j].(active := Some(false)))
  }

  /** No two elements share an `id || _id` key. */
  predicate DistinctKeys(list: seq<ClientAbout>) {
    forall i, j :: 0 <= i < j < |list| ==> AboutKey(list[i]) != AboutKey(list[j])
  }

  /** With distinct keys the rewrite leaves at most one active element, and exactly
      one when the result's key is in the list. */
  lemma ReconciledAtMostOneActive(list: seq<ClientAbout>, result: ClientAbout)
    requires DistinctKeys(list)
    ensures forall i, j ::
              0 <= i < |list| && 0 <= j < |list| &&
              AboutIsActive(Reconciled(list, result)[i]) && AboutIsActive(Reconciled(list, result)[j])
              ==> i == j
    ensures forall k :: 0 <= k < |list| && AboutKey(list[k]) == AboutKey(result) ==>
              forall j :: 0 <= j < |list| ==> (AboutIsActive(Reconciled(list, result)[j]) <==> j == k)
  {
    var r := Reconciled(list, result);
    forall i, j | 0 <= i < |list| && 0 <= j < |list| && AboutIsActive(r[i]) && AboutIsActive(r[j])
      ensures i == j
    {
      assert AboutKey(list[i]) == AboutKey(result) == AboutKey(list[j]);
    }
  }

  /** Without distinct keys the rewrite can activate several elements: two records
      that carry neither `id` nor `_id` both match a result that carries none. */
  lemma ReconciledWithoutIdsActivatesBoth(a: ClientAbout, b: ClientAbout, result: ClientAbout)
    requires a.id.None? && a.dbId.None? && b.id.None? && b.dbId.None?
    requires result.id.None? && result.dbId.None?
    ensures AboutIsActive(Reconciled([a, b], result)[0]) && AboutIsActive(Reconciled([a, b], result)[1])
  {
  }

  /** The page's state. */
  class AboutPageState {
    var abouts: seq<ClientAbout>
    var activeAbout: Option<ClientAbout>
    var selectedAbout: Option<ClientAbout>
    var loading: bool
    var activating: bool
    var error: string

    constructor()
      ensures abouts == [] && activeAbout.None? && selectedAbout.None?
      ensures loading && !activating && error == ""
    {
      abouts := [];
      activeAbout := None;
      selectedAbout := None;
      loading := true;
      activating := false;
      error := "";
    }

    /** `fetchAbouts` with the outcome of `findAll`: the list, the active record
        (if any) and the selection; a failure selects the empty About. */
    method FetchAbouts(fetched: Result<seq<ClientAbout>, string>)
      modifies this
      ensures !loading && activating == old(activating)
      ensures fetched.Success? ==>
                && abouts == fetched.value
                && activeAbout == Find(fetched.value, AboutIsActive)
                && selectedAbout == Some(SelectOnLoad(fetched.value))
                && error == old(error)
      ensures fetched.Failure? ==>
                && abouts == old(abouts) && activeAbout == old(activeAbout)
                && selectedAbout == Some(EmptyAbout)
                && error == "Falha ao carregar dados do About"
    {
      loading := true;
      if fetched.Failure? {
        error := "Falha ao carregar dados do About";
        selectedAbout := Some(EmptyAbout);
      } else {
        abouts := fetched.value;
        activeAbout := Find(fetched.value, AboutIsActive);
        selectedAbout := Some(SelectOnLoad(fetched.value));
      }
      loading := false;
    }

    /** `handleSetActive` with the outcome of `setActive`: on success the list is
        rewritten and the result becomes the active About; on failure the list is
        untouched and the catch block's message is the one left showing. */
    method HandleSetActive(outcome: Result<ClientAbout, string>)
      modifies this
      ensures !activating && loading == old(loading) && selectedAbout == old(selectedAbout)
      ensures outcome.Success? ==>
                && abouts == Reconciled(old(abouts), outcome.value)
                && activeAbout == Some(outcome.value)
                && error == ""
      ensures outcome.Failure? ==>
                && abouts == old(abouts) && activeAbout == old(activeAbout)
                && error == "Ocorreu um erro ao definir o about como ativo"
    {
      activating := true;
      error := "";
      if outcome.Success? {
        abouts := Reconciled(abouts, outcome.value);
        activeAbout := Some(outcome.value);
      } else {
        error := "Falha ao definir about como ativo: " + outcome.error;
        error := "Ocorreu um erro ao definir o about como ativo";
      }
      activating := false;
    }
  }
}
