/** The API's ProfileService over the `profile` collection, a sequence in natural
    order. `findById`/`findByIdAndUpdate`/`deleteOne` act on the first document with
    the id; `save()` re-validates the whole document and writes it back in place. */
module ProfileService {
  import opened Wrappers
  import opened Seqs
  import opened ProfileSchema
  import opened ProfileDto

  /** A link position as the controller hands it over: `parseInt` of a path
      segment, which is an integer or NaN. */
  datatype JsIndex = Int(value: int) | NaN

  /** What the service throws. */
  datatype ServiceError = ProfileNotFound(id: string) | LinkNotFound(index: JsIndex) | SaveFailed

  function WithId(id: string): Profile -> bool {
    (p: Profile) => p.id == id
  }

  predicate IsActive(p: Profile) {
    p.active
  }

  /** `updateMany({}, { active: false })`. */
  function DeactivateAll(docs: seq<Profile>): (r: seq<Profile>)
    ensures |r| == |docs|
    ensures forall i :: 0 <= i < |r| ==> !r[i].active && r[i] == docs[i].(active := false)
  {
    seq(|docs|, i requires 0 <= i < |docs| => docs[i].(active := false))
  }

  predicate OnlyActiveAt(docs: seq<Profile>, k: nat) {
    k < |docs| && forall j :: 0 <= j < |docs| ==> (docs[j].active <==> j == k)
  }

  /** `findByIdAndUpdate(id, dto)`: the body's fields replace the stored ones, links
      are cast with their `active` default; no validator runs. */
  function ApplyUpdate(input: ProfileInput): Profile -> Profile {
    (p: Profile) => p.(name := input.name, highlightedText := input.highlightedText,
                       description := input.description,
                       socialLinks := if input.socialLinks.Some? then NewSocialLinks(input.socialLinks.value) else p.socialLinks,
                       active := input.active.GetOr(p.active))
  }

  function Activate(p: Profile): Profile {
    p.(active := true)
  }

  /** `addSocialLink` on a loaded profile: the new link is appended with `active` set. */
  function AddLink(p: Profile, link: LinkFields): (r: Profile)
    ensures |r.socialLinks| == |p.socialLinks| + 1
    ensures r.socialLinks[..|p.socialLinks|] == p.socialLinks
    ensures r.socialLinks[|p.socialLinks|] == SocialLink(link.platform, link.url, true)
    ensures r.(socialLinks := p.socialLinks) == p
  {
    p.(socialLinks := p.socialLinks + [SocialLink(link.platform, link.url, true)])
  }

  /** The bounds check as written: it throws only when `index < 0 || index >= length`,
      and both comparisons are false for NaN. */
  predicate OutOfRangeAsWritten(index: JsIndex, length: nat) {
    index.Int? && (index.value < 0 || index.value >= length)
  }

  /** The evidently intended check: a position of an existing link. */
  predicate InRange(index: JsIndex, length: nat) {
    index.Int? && 0 <= index.value < length
  }

  /** The two checks agree on every integer; they differ only on NaN. */
  lemma ChecksAgreeOnIntegers(n: int, length: nat)
    ensures InRange(Int(n), length) <==> !OutOfRangeAsWritten(Int(n), length)
    ensures !InRange(NaN, length) && !OutOfRangeAsWritten(NaN, length)
  {
  }

  /** `removeSocialLink` on a loaded profile, as written: after the check,
      `splice(index, 1)` reads NaN as position 0. */
  function RemoveLinkAsWritten(p: Profile, index: JsIndex): (r: Result<Profile, ServiceError>)
    ensures r.Failure? <==> OutOfRangeAsWritten(index, |p.socialLinks|)
    ensures r.Success? && index.Int? ==> r.value.socialLinks == RemoveAt(p.socialLinks, index.value)
  {
    if OutOfRangeAsWritten(index, |p.socialLinks|) then Failure(LinkNotFound(index))
    else if index.NaN? then
      Success(p.(socialLinks := if |p.socialLinks| == 0 then [] else p.socialLinks[1..]))
    else Success(p.(socialLinks := RemoveAt(p.socialLinks, index.value)))
  }

  /** A non-numeric index passes the check and deletes the first link. */
  lemma NaNIndexRemovesFirstLink(p: Profile)
    requires |p.socialLinks| > 0
    ensures RemoveLinkAsWritten(p, NaN) == Success(p.(socialLinks := p.socialLinks[1..]))
    ensures RemoveLink(p, NaN) == Failure(LinkNotFound(NaN))
  {
  }

  /** `removeSocialLink` on a loaded profile with the intended check: exactly the link
      at `index` goes, later links shift down, nothing else changes. */
  function RemoveLink(p: Profile, index: JsIndex): (r: Result<Profile, ServiceError>)
    ensures r.Success? <==> InRange(index, |p.socialLinks|)
    ensures r.Failure? ==> r.error == LinkNotFound(index)
    ensures r.Success? ==>
              var i := index.value;
              && |r.value.socialLinks| == |p.socialLinks| - 1
              && r.value.socialLinks[..i] == p.socialLinks[..i]
              && (forall j :: i <= j < |r.value.socialLinks| ==> r.value.socialLinks[j] == p.socialLinks[j + 1])
              && r.value.(socialLinks := p.socialLinks) == p
  {
    if !InRange(index, |p.socialLinks|) then Failure(LinkNotFound(index))
    else Success(p.(socialLinks := RemoveAt(p.socialLinks, index.value)))
  }

  /** `updateSocialLink` on a loaded profile, as written: with NaN the assignment
      lands on a non-index property of the array, so no link changes. */
  function UpdateLinkAsWritten(p: Profile, index: JsIndex, link: LinkFields): (r: Result<Profile, ServiceError>)
    ensures r.Failure? <==> OutOfRangeAsWritten(index, |p.socialLinks|)
    ensures r.Success? && index.NaN? ==> r.value == p
  {
    if OutOfRangeAsWritten(index, |p.socialLinks|) then Failure(LinkNotFound(index))
    else if index.NaN? then Success(p)
    else
      var current := p.socialLinks[index.value];
      Success(p.(socialLinks := p.socialLinks[index.value := SocialLink(link.platform, link.url, current.active)]))
  }

  /** A non-numeric index is answered with the unchanged profile instead of NotFound. */
  lemma NaNIndexUpdatesNothing(p: Profile, link: LinkFields)
    ensures UpdateLinkAsWritten(p, NaN, link) == Success(p)
    ensures UpdateLink(p, NaN, link) == Failure(LinkNotFound(NaN))
  {
  }

  /** `updateSocialLink` on a loaded profile with the intended check: the link at
      `index` takes the new platform and url and keeps its `active` flag; every other
      position and field is unchanged. */
  function UpdateLink(p: Profile, index: JsIndex, link: LinkFields): (r: Result<Profile, ServiceError>)
    ensures r.Success? <==> InRange(index, |p.socialLinks|)
    ensures r.Failure? ==> r.error == LinkNotFound(index)
    ensures r.Success? ==>
              var i := index.value;
              && |r.value.socialLinks| == |p.socialLinks|
              && r.value.socialLinks[i].platform == link.platform
              && r.value.socialLinks[i].url == link.url
              && r.value.socialLinks[i].active == p.socialLinks[i].active
              && (forall j :: 0 <= j < |p.socialLinks| && j != i ==> r.value.socialLinks[j] == p.socialLinks[j])
              && r.value.(socialLinks := p.socialLinks) == p
  {
    if !InRange(index, |p.socialLinks|) then Failure(LinkNotFound(index))
    else
      var i := index.value;
      Success(p.(socialLinks := p.socialLinks[i := p.socialLinks[i].(platform := link.platform, url := link.url)]))
  }

  /** The corrected operations agree with the code as written on every integer index. */
  lemma CorrectedAgreesOnIntegers(p: Profile, n: int, link: LinkFields)
    ensures RemoveLink(p, Int(n)) == RemoveLinkAsWritten(p, Int(n))
    ensures UpdateLink(p, Int(n), link) == UpdateLinkAsWritten(p, Int(n), link)
  {
  }

  class ProfileService {
    /** The `profile` collection in natural order. */
    var docs: seq<Profile>

    constructor(initial: seq<Profile>)
      ensures docs == initial
    {
      docs := initial;
    }

    /** `create`: `new profileModel(dto).save()` under the generated id `newId`. */
    method Create(newId: string, input: ProfileInput) returns (r: Result<Profile, ServiceError>)
      modifies this
      ensures NewProfile(newId, input).Failure? ==> r == Failure(SaveFailed) && docs == old(docs)
      ensures NewProfile(newId, input).Success? ==>
                r == Success(NewProfile(newId, input).value) && docs == old(docs) + [r.value]
    {
      var created := NewProfile(newId, input);
      if created.Failure? {
        return Failure(SaveFailed);
      }
      docs := docs + [created.value];
      r := Success(created.value);
    }

    /** `findOne`: the first document with `id`, or NotFound when there is none. */
    method FindOne(id: string) returns (r: Result<Profile, ServiceError>)
      ensures r.Failure? <==> forall j :: 0 <= j < |docs| ==> docs[j].id != id
      ensures r.Failure? ==> r.error == ProfileNotFound(id)
      ensures r.Success? ==> r.value.id == id
      ensures r.Success? ==>
                exists k :: 0 <= k < |docs| && docs[k] == r.value && forall j :: 0 <= j < k ==> docs[j].id != id
    {
      var found := FirstIndex(docs, WithId(id));
      if found.None? {
        return Failure(ProfileNotFound(id));
      }
      r := Success(docs[found.value]);
    }

    /** `findActive`: the first active profile, or null when none is active. */
    method FindActive() returns (r: Option<Profile>)
      ensures r.None? <==> forall j :: 0 <= j < |docs| ==> !docs[j].active
      ensures r.Some? ==> r.value.active
      ensures r.Some? ==>
                exists k :: 0 <= k < |docs| && docs[k] == r.value && forall j :: 0 <= j < k ==> !docs[j].active
    {
      var found := FirstIndex(docs, IsActive);
      if found.None? {
        return None;
      }
      r := Some(docs[found.value]);
    }

    /** `findByIdAndUpdate(id, change, { new: true })` followed by the NotFound check. */
    method FindByIdAndUpdate(id: string, change: Profile -> Profile) returns (r: Result<Profile, ServiceError>)
      modifies this
      ensures FirstIndex(old(docs), WithId(id)).None? ==> r == Failure(ProfileNotFound(id)) && docs == old(docs)
      ensures FirstIndex(old(docs), WithId(id)).Some? ==>
                var k := FirstIndex(old(docs), WithId(id)).value;
                docs == old(docs)[k := change(old(docs)[k])] && r == Success(docs[k])
    {
      var found := FirstIndex(docs, WithId(id));
      if found.None? {
        return Failure(ProfileNotFound(id));
      }
      var k := found.value;
      docs := docs[k := change(docs[k])];
      r := Success(docs[k]);
    }

    /** `update`: the body's fields replace those of the first document with `id`. */
    method Update(id: string, input: ProfileInput) returns (r: Result<Profile, ServiceError>)
      modifies this
      ensures FirstIndex(old(docs), WithId(id)).None? ==> r == Failure(ProfileNotFound(id)) && docs == old(docs)
      ensures FirstIndex(old(docs), WithId(id)).Some? ==>
                var k := FirstIndex(old(docs), WithId(id)).value;
                && |docs| == |old(docs)| && r == Success(docs[k]) && docs[k].id == id
                && docs[k].name == input.name && docs[k].highlightedText == input.highlightedText
                && docs[k].description == input.description
                && docs[k].socialLinks == (if input.socialLinks.Some? then NewSocialLinks(input.socialLinks.value) else old(docs)[k].socialLinks)
                && docs[k].active == input.active.GetOr(old(docs)[k].active)
                && (forall j :: 0 <= j < |docs| && j != k ==> docs[j] == old(docs)[j])
    {
      r := FindByIdAndUpdate(id, ApplyUpdate(input));
    }

    /** `remove`: `deleteOne({ _id: id })` deletes the first document with `id`; a
        deleted count of zero is NotFound. */
    method Remove(id: string) returns (r: Result<(), ServiceError>)
      modifies this
      ensures FirstIndex(old(docs), WithId(id)).None? ==> r == Failure(ProfileNotFound(id)) && docs == old(docs)
      ensures FirstIndex(old(docs), WithId(id)).Some? ==>
                r.Success? && docs == RemoveAt(old(docs), FirstIndex(old(docs), WithId(id)).value)
    {
      var found := FirstIndex(docs, WithId(id));
      if found.None? {
        return Failure(ProfileNotFound(id));
      }
      docs := RemoveAt(docs, found.value);
      r := Success(());
    }

    /** `profile.save()` of a loaded document at position `k`: validated, then
        written back in place. */
    method Save(k: nat, p: Profile) returns (r: Result<Profile, ServiceError>)
      requires k < |docs|
      modifies this
      ensures Savable(p) ==> r == Success(p) && docs == old(docs)[k := p]
      ensures !Savable(p) ==> r == Failure(SaveFailed) && docs == old(docs)
    {
      if !Savable(p) {
        return Failure(SaveFailed);
      }
      docs := docs[k := p];
      r := Success(p);
    }

    /** `addSocialLink`: load, append the link with `active` true, save. */
    method AddSocialLink(id: string, link: LinkFields) returns (r: Result<Profile, ServiceError>)
      modifies this
      ensures FirstIndex(old(docs), WithId(id)).None? ==> r == Failure(ProfileNotFound(id)) && docs == old(docs)
      ensures FirstIndex(old(docs), WithId(id)).Some? ==>
                var k := FirstIndex(old(docs), WithId(id)).value;
                var p := AddLink(old(docs)[k], link);
                && (Savable(p) ==> r == Success(p) && docs == old(docs)[k := p])
                && (!Savable(p) ==> r == Failure(SaveFailed) && docs == old(docs))
    {
      var found := FirstIndex(docs, WithId(id));
      if found.None? {
        return Failure(ProfileNotFound(id));
      }
      r := Save(found.value, AddLink(docs[found.value], link));
    }

    /** `removeSocialLink`: load, check the position, remove that link, save. */
    method RemoveSocialLink(id: string, index: JsIndex) returns (r: Result<Profile, ServiceError>)
      modifies this
      ensures FirstIndex(old(docs), WithId(id)).None? ==> r == Failure(ProfileNotFound(id)) && docs == old(docs)
      ensures FirstIndex(old(docs), WithId(id)).Some? ==>
                var k := FirstIndex(old(docs), WithId(id)).value;
                var changed := RemoveLink(old(docs)[k], index);
                && (changed.Failure? ==> r == changed && docs == old(docs))
                && (changed.Success? && Savable(changed.value) ==> r == changed && docs == old(docs)[k := changed.value])
                && (changed.Success? && !Savable(changed.value) ==> r == Failure(SaveFailed) && docs == old(docs))
    {
      var found := FirstIndex(docs, WithId(id));
      if found.None? {
        return Failure(ProfileNotFound(id));
      }
      var changed := RemoveLink(docs[found.value], index);
      if changed.Failure? {
        return changed;
      }
      r := Save(found.value, changed.value);
    }

    /** `updateSocialLink`: load, check the position, overwrite that link's platform
        and url, save. */
    method UpdateSocialLink(id: string, index: JsIndex, link: LinkFields) returns (r: Result<Profile, ServiceError>)
      modifies this
      ensures FirstIndex(old(docs), WithId(id)).None? ==> r == Failure(ProfileNotFound(id)) && docs == old(docs)
      ensures FirstIndex(old(docs), WithId(id)).Some? ==>
                var k := FirstIndex(old(docs), WithId(id)).value;
                var changed := UpdateLink(old(docs)[k], index, link);
                && (changed.Failure? ==> r == changed && docs == old(docs))
                && (changed.Success? && Savable(changed.value) ==> r == changed && docs == old(docs)[k := changed.value])
                && (changed.Success? && !Savable(changed.value) ==> r == Failure(SaveFailed) && docs == old(docs))
    {
      var found := FirstIndex(docs, WithId(id));
      if found.None? {
        return Failure(ProfileNotFound(id));
      }
      var changed := UpdateLink(docs[found.value], index, link);
      if changed.Failure? {
        return changed;
      }
      r := Save(found.value, changed.value);
    }

    /** `setActive`: deactivate every profile, then activate the first one with `id`.
        On success exactly that profile is active; an unknown id throws after the
        deactivation, leaving no profile active. */
    method SetActive(id: string) returns (r: Result<Profile, ServiceError>)
      modifies this
      ensures |docs| == |old(docs)|
      ensures forall j :: 0 <= j < |docs| ==> docs[j].(active := false) == old(docs)[j].(active := false)
      ensures r.Success? <==> FirstIndex(old(docs), WithId(id)).Some?
      ensures r.Success? ==> var k := FirstIndex(old(docs), WithId(id)).value;
                OnlyActiveAt(docs, k) && r.value == docs[k] && r.value.id == id
      ensures r.Failure? ==> r == Failure(ProfileNotFound(id)) && forall j :: 0 <= j < |docs| ==> !docs[j].active
    {
      docs := DeactivateAll(docs);
      assert FirstIndex(docs, WithId(id)) == FirstIndex(old(docs), WithId(id)) by {
        FirstIndexSameIds(old(docs), docs, id);
      }
      r := FindByIdAndUpdate(id, Activate);
    }
  }

  /** Changing only `active` flags does not move the first profile with a given id. */
  lemma {:induction false} FirstIndexSameIds(a: seq<Profile>, b: seq<Profile>, id: string)
    requires |a| == |b|
    requires forall j :: 0 <= j < |a| ==> a[j].id == b[j].id
    ensures FirstIndex(a, WithId(id)) == FirstIndex(b, WithId(id))
  {
    if |a| > 0 {
      FirstIndexSameIds(a[1..], b[1..], id);
    }
  }
}
