# portfolio-dart: the About and Profile core, modelled in Dafny

portfolio-dart is a personal portfolio. A NestJS API stores two kinds of
singleton-like records in MongoDB, **About** (a career summary with skills,
education and experience) and **Profile** (the hero text and its social links).
Next.js front-ends read and edit those records.

At most one record of each kind should be `active` at a time. The API keeps
this by a two-step "deactivate everything, then activate one" sequence. The
front-ends mirror the records through a generic CRUD client. That client falls
back to an in-memory mock store when the API answers 404.

This project models that core and proves what it promises:

- **Schemas and DTOs.** `AboutSchema`, `ProfileSchema`, `AboutDto` and `ProfileDto`
  model the stored documents, Mongoose defaults, required-path rules and the
  class-validator rules on request bodies.
- **API services.** `AboutService` and `ProfileService` are classes over the
  collection (`seq` of documents).
  - Mongo's `findById`, `findByIdAndUpdate` and `deleteOne` act on the first
    matching document.
  - `updateMany` maps over every document.
  - `$push` appends to a list and `$pull` filters it.
  - Every embedded About skill, education and experience entry is a
    sub-document with Mongoose's default `_id`. An entry written without one is
    given a generated id, which is what the `remove…` calls address.
- **Front-end data layer.** `CrudAbstract` is the generic client with its
  mock-mode switch and shared mock store, and `ClientProfileService` holds the
  Profile-specific calls.
- **Next.js API routes.**
  - `AdminAboutRoute` is the admin app's in-memory About route.
  - `PortfolioAboutRoute` is the portfolio app's forwarding route.
  - `Routing` holds the last-path-segment dispatch shared by both.
- **Admin pages and forms.** `AboutPage`, `ProfilePage`, `NewAboutPage`,
  `ProfileForm` and `ProjectForm` are state machines over the React state. The
  network outcome of each handler is a parameter.
- **`Middleware`** is the admin app's login redirect.

JavaScript values the routes and the mock store handle are `Json` values. An
object spread is a map union, `||` is truthiness (`Json.OrElse`), and `===` is
`Json.StrictEquals`. Client-side records have `Option` fields where the
TypeScript type has an optional property. `dbId` stands for `_id`.

Behaviour of the code worth knowing before reading the table:
- The client `findOne` switches to mock mode only when the 404's message names
  the endpoint; any other 404 answers null.
- The client `findAll` always asks the API, even in mock mode.
- The default About description and the new-About page's error strings are
  stored with literal escape text (`informau00e7u00f5es`,
  `O tu00edtulo u00e9 obrigatu00f3rio`), and the model keeps them as written.
- The `socialLinks` path of a Profile declares its own inline element type, so
  the `SocialLink` class's `required` and `default` rules do not reach stored
  links. The Profile service class is modelled with those rules applied and
  with a strict index check; both departures from the code are Findings below,
  each with an as-written member beside the corrected one.

## Model

| member | source | states |
|---|---|---|
| Seqs.FirstIndex | api/src/profile/profile.service.ts:23 | the index found satisfies the query and no earlier document does; none is found iff no document matches (Mongo `findById`/`findOne`, JS `findIndex`) |
| Seqs.Find | frontend/apps/admin/src/app/api/about/route.ts:60 | `Array.find`: absent iff no element matches, otherwise an element at some index matching with none before it |
| Seqs.Filter | frontend/apps/admin/src/app/api/about/route.ts:173 | the kept elements all satisfy the predicate and come from the input, every satisfying element is kept, and the length never grows; with `FilterAppend` this fixes one element at a time, so the kept elements keep their order and multiplicity |
| Seqs.FilterAppend | frontend/apps/admin/src/components/projects/ProjectForm.tsx:75 | filtering distributes over concatenation |
| Seqs.FilterKeepsAll | frontend/apps/admin/src/components/projects/ProjectForm.tsx:75 | filtering a list whose elements all pass changes nothing |
| Seqs.FilterIdempotent | api/src/about/about.service.ts:94-102 | applying the same `$pull` twice is applying it once |
| Seqs.RemoveAt | api/src/profile/profile.service.ts:70 | `splice(i, 1)`: one shorter, the prefix kept, the suffix shifted down by one, and the removed element is the only multiset difference |
| Text.TrimStart | frontend/apps/admin/src/components/projects/ProjectForm.tsx:65 | the result is a suffix with no leading whitespace and everything dropped is whitespace |
| Text.TrimEnd | frontend/apps/admin/src/components/projects/ProjectForm.tsx:65 | the result is a prefix with no trailing whitespace and everything dropped is whitespace |
| Text.Trim | frontend/apps/admin/src/components/projects/ProjectForm.tsx:65 | `String.trim`: the middle of the input between an all-whitespace prefix and an all-whitespace suffix, with neither end whitespace |
| Text.TrimStartOfBlank | frontend/apps/admin/src/components/projects/ProjectForm.tsx:96 | trimming an all-whitespace string from the left leaves nothing |
| Text.TrimEmptyIffBlank | frontend/apps/admin/src/components/projects/ProjectForm.tsx:96 | `!s.trim()` holds exactly when every character is whitespace |
| Text.TrimIdempotent | frontend/apps/admin/src/components/projects/ProjectForm.tsx:65-67 | trimming a trimmed string changes nothing, so a stored tag re-trims to itself |
| Text.LastSegment | frontend/apps/portfolio/src/app/api/about/route.ts:12-13 | `split('/')` then the last part: contains no '/', is a suffix of the path, and is preceded by '/' whenever shorter than the path |
| Json.Get | frontend/apps/admin/src/app/api/about/route.ts:114 | a property read is present iff the key is in the object, with the stored value |
| Json.OrElse | frontend/apps/admin/src/app/api/about/route.ts:86-90 | `data.k \|\| fallback`: the stored value when it is truthy, the fallback otherwise |
| AboutSchema.MissingPaths | api/src/about/schemas/about.schema.ts:9-13 | `title` / `description` are reported missing exactly when empty; nothing is missing iff both are present |
| AboutSchema.StampSkill | api/src/about/schemas/about.schema.ts:15-16 | a skill cast as a sub-document always has an `_id`: its own if sent, else the generated one; no other field changes |
| AboutSchema.StampEducation | api/src/about/schemas/about.schema.ts:18-37 | the same for an education entry |
| AboutSchema.StampExperience | api/src/about/schemas/about.schema.ts:39-60 | an experience entry gets its `_id` the same way, and a missing `technologies` takes the array default `[]`; no other field changes |
| AboutSchema.StampSkills | api/src/about/schemas/about.schema.ts:15-16 | a cast skill list keeps its length and order; every element has an `_id`, a sent one is kept, and the `i`-th element without one gets the `i`-th generated id |
| AboutSchema.StampEducations | api/src/about/schemas/about.schema.ts:18-37 | the same for the education list |
| AboutSchema.StampExperiences | api/src/about/schemas/about.schema.ts:39-60 | the same for the experience list, with every entry's `technologies` present and `[]` where none was sent |
| AboutSchema.Cast | api/src/about/schemas/about.schema.ts:15-60 | a cast input differs from the sent one only in its three lists, which are the stamped lists with ids drawn in document order; every embedded entry has an `_id` and every experience its `technologies`; the required-path check is unaffected; an input already in that shape is unchanged |
| AboutSchema.CastIdempotent | api/src/about/schemas/about.schema.ts:15-60 | casting an already cast input again changes nothing |
| AboutSchema.NewAbout | api/src/about/schemas/about.schema.ts:9-83 | `save()` succeeds iff title and description are non-empty; the saved document carries every supplied field under the new id, with each embedded entry cast, given an `_id` and (for experience) its `technologies`, and is active iff `active: true` was sent (default false) |
| AboutDto.EncodeStrings | api/src/about/dto/about.dto.ts:59-62 | a list of strings becomes a JSON array of the same strings, position by position |
| AboutDto.EncodeList | api/src/about/dto/about.dto.ts:94-107 | a list of sub-documents becomes a JSON array of their encodings, position by position |
| AboutDto.EncodedSkillValid | api/src/about/dto/about.dto.ts:4-14 | every skill the schema can hold passes SkillDto |
| AboutDto.EncodedEducationValid | api/src/about/dto/about.dto.ts:16-36 | every education entry passes EducationDto |
| AboutDto.EncodedExperienceValid | api/src/about/dto/about.dto.ts:38-63 | every experience entry passes ExperienceDto |
| AboutDto.EncodedSocialLinksValid | api/src/about/dto/about.dto.ts:65-85 | a social-links block passes SocialLinksDto iff every present link is a URL |
| AboutDto.EncodedListsValid | api/src/about/dto/about.dto.ts:94-107 | the three nested arrays of an encoded input all pass their element DTOs |
| AboutDto.EncodedAboutValid | api/src/about/dto/about.dto.ts:87-121 | an encoded About input passes CreateAboutDto iff its social links are URLs |
| AboutDto.EmptyTitlePassesDtoButNotSchema | api/src/about/dto/about.dto.ts:88-89 | an empty title passes the DTO (`@IsString` only) but `save()` refuses it |
| ProfileSchema.NewSocialLink | api/src/profile/schema/profile.schema.ts:5-14 | a stored link keeps platform and url, and is inactive only when `active: false` was sent |
| ProfileSchema.NewSocialLinks | api/src/profile/schema/profile.schema.ts:27-28 | the stored links correspond one-to-one with the supplied ones |
| ProfileSchema.NewProfile | api/src/profile/schema/profile.schema.ts:17-32 | `save()` succeeds iff name, highlightedText, description and every link's platform and url are non-empty; links default to `[]`, `active` to true |
| ProfileSchema.CreatedIsSavable | api/src/profile/schema/profile.schema.ts:17-32 | a created profile passes the re-validation of a later `save()`, and a refused input has no savable document with its fields |
| ProfileSchema.NewSocialLinkAsWritten | api/src/profile/schema/profile.schema.ts:27 | under the inline element type a link sent without `active` is stored without it, where the class default gives `true` |
| ProfileSchema.MissingPathsAsWritten | api/src/profile/schema/profile.schema.ts:18-27 | under the inline element type only the Profile's own three strings are checked; it agrees with the corrected rule exactly when every link is accepted |
| ProfileSchema.InlineLinkTypeDropsRules | api/src/profile/schema/profile.schema.ts:5-14 | a link without `active` is stored flagless, and a blank link is saved as written but refused by the SocialLink rules |
| ProfileDto.EncodeLinks | api/src/profile/dto/profile.dto.ts:31-34 | links become a JSON array of their encodings, position by position |
| ProfileDto.EncodedLinkValid | api/src/profile/dto/profile.dto.ts:4-16 | an encoded link passes SocialLinkDto iff the schema accepts it |
| ProfileDto.EncodedProfileValid | api/src/profile/dto/profile.dto.ts:18-41 | an encoded input passes CreateProfileDto iff it has a link list and the schema accepts it |
| ProfileDto.ValidBodyIsSaved | api/src/profile/dto/profile.dto.ts:18-41 | every body the DTO admits is saved by `create` |
| ProfileDto.EncodedAddLinkValid | api/src/profile/dto/profile.dto.ts:43-51 | an add-link body passes AddSocialLinkDto iff platform and url are non-empty |
| AboutService.DeactivateAll | api/src/about/about.service.ts:39 | `updateMany({}, {active:false})`: same length, nothing active, every other field unchanged |
| AboutService.DeactivateAllInactive | api/src/about/about.service.ts:39 | deactivating a collection with nothing active changes nothing |
| AboutService.AboutService.constructor | api/src/about/about.service.ts:9-11 | the service starts over the given collection |
| AboutService.AboutService.FindByIdAndUpdate | api/src/about/about.service.ts:26-30 | unknown id: null and no change; otherwise only the first document with the id changes and the new version is returned |
| AboutService.AboutService.Create | api/src/about/about.service.ts:21-24 | a refused input throws and changes nothing; an accepted one is appended and returned, its embedded entries carrying generated `_id`s |
| AboutService.AboutService.Update | api/src/about/about.service.ts:26-30 | the first document with the id takes every supplied field, its lists cast with generated `_id`s, `avatar`, `socialLinks` and `active` only when sent, and keeps its id; the others are unchanged |
| AboutService.AboutService.Remove | api/src/about/about.service.ts:32-34 | the first document with the id is removed and returned, the rest keep their order; unknown id is null |
| AboutService.AboutService.SetActive | api/src/about/about.service.ts:37-51 | only `active` flags change; success iff the id exists, and then exactly that document is active; an unknown id throws a plain `Error` (`UnknownId`, answered with status 500) and leaves nothing active |
| AboutService.AboutService.GetCurrentAbout | api/src/about/about.service.ts:54-81 | always answers: the first active document; else the first document, now the only active one; else a new active default record |
| AboutService.AboutService.AddSkill | api/src/about/about.service.ts:84-92 | `$push`: the first document with the id gains the skill at the end, with the generated `_id` unless it has one, and nothing else changes |
| AboutService.AboutService.RemoveSkill | api/src/about/about.service.ts:94-102 | `$pull`: every skill with that sub-id is removed from the first document with the id |
| AboutService.AboutService.AddEducation | api/src/about/about.service.ts:105-113 | the education entry is appended to the first document with the id, with the generated `_id` unless it has one |
| AboutService.AboutService.RemoveEducation | api/src/about/about.service.ts:115-123 | education entries with that sub-id are removed |
| AboutService.AboutService.AddExperience | api/src/about/about.service.ts:126-134 | the experience entry is appended to the first document with the id, with the generated `_id` unless it has one |
| AboutService.AboutService.RemoveExperience | api/src/about/about.service.ts:136-144 | experience entries with that sub-id are removed |
| AboutService.SkillPullUndoesPush | api/src/about/about.service.ts:84-102 | a skill pushed without an `_id` is removed by `$pull` on its generated `_id`, which restores the document |
| AboutService.EducationPullUndoesPush | api/src/about/about.service.ts:105-123 | the same for an education entry |
| AboutService.ExperiencePullUndoesPush | api/src/about/about.service.ts:126-144 | the same for an experience entry |
| AboutService.FirstIndexSameIds | api/src/about/about.service.ts:39-44 | a step that keeps every id finds the same first match, so deactivating first does not change which document `findByIdAndUpdate` activates |
| ProfileService.DeactivateAll | api/src/profile/profile.service.ts:91 | same length, nothing active, every other field unchanged |
| ProfileService.AddLink | api/src/profile/profile.service.ts:55-58 | the link is appended with `active: true`; earlier links and every other field are unchanged |
| ProfileService.ChecksAgreeOnIntegers | api/src/profile/profile.service.ts:66 | on integer indices the written bounds test and `InRange` agree; NaN passes the written test and fails `InRange` |
| ProfileService.RemoveLinkAsWritten | api/src/profile/profile.service.ts:66-71 | as written: fails iff the written bounds test fires, and on an integer index removes that link |
| ProfileService.NaNIndexRemovesFirstLink | api/src/profile/profile.controller.ts:65 | a non-numeric index (NaN) removes the first link as written; the corrected check refuses it |
| ProfileService.RemoveLink | api/src/profile/profile.service.ts:63-72 | succeeds iff the index is an integer in range, then removes exactly that link; otherwise LinkNotFound |
| ProfileService.UpdateLinkAsWritten | api/src/profile/profile.service.ts:77-86 | as written: fails iff the written bounds test fires, and a NaN index changes nothing |
| ProfileService.NaNIndexUpdatesNothing | api/src/profile/profile.controller.ts:74 | a NaN index answers success without changing a link as written; the corrected check refuses it |
| ProfileService.UpdateLink | api/src/profile/profile.service.ts:74-87 | succeeds iff in range; the indexed link takes the sent platform and url and keeps its `active`; the others are unchanged |
| ProfileService.CorrectedAgreesOnIntegers | api/src/profile/profile.service.ts:63-87 | on every integer index the corrected operations give exactly the as-written results |
| ProfileService.ProfileService.constructor | api/src/profile/profile.service.ts:9-11 | the service starts over the given collection |
| ProfileService.ProfileService.Create | api/src/profile/profile.service.ts:13-16 | a refused input fails and changes nothing; an accepted one is appended and returned, under the corrected link rules and index check of Findings 1-3 |
| ProfileService.ProfileService.FindOne | api/src/profile/profile.service.ts:22-28 | NotFound iff no document has the id, otherwise the first one with it |
| ProfileService.ProfileService.FindActive | api/src/profile/profile.service.ts:30-32 | null iff nothing is active, otherwise the first active document |
| ProfileService.ProfileService.FindByIdAndUpdate | api/src/profile/profile.service.ts:34-44 | unknown id: NotFound and no change; otherwise only the first match changes and is returned |
| ProfileService.ProfileService.Update | api/src/profile/profile.service.ts:34-44 | the first match takes the sent fields without validation, keeping id and unsent optional fields, under the corrected link rules and index check of Findings 1-3 |
| ProfileService.ProfileService.Remove | api/src/profile/profile.service.ts:46-51 | NotFound iff nothing was deleted; otherwise exactly the first match is removed |
| ProfileService.ProfileService.Save | api/src/profile/profile.service.ts:60 | `save()` writes the document iff it passes re-validation, and otherwise changes nothing, under the corrected link rules and index check of Findings 1-3 |
| ProfileService.ProfileService.AddSocialLink | api/src/profile/profile.service.ts:53-61 | the first match gains the link with `active: true`, saved under re-validation, under the corrected link rules and index check of Findings 1-3 |
| ProfileService.ProfileService.RemoveSocialLink | api/src/profile/profile.service.ts:63-72 | an unknown profile is NotFound; a bad index is LinkNotFound with no change; otherwise the link is spliced out and saved, under the corrected link rules and index check of Findings 1-3 |
| ProfileService.ProfileService.UpdateSocialLink | api/src/profile/profile.service.ts:74-87 | as for removal, with the indexed link merged with the sent fields, under the corrected link rules and index check of Findings 1-3 |
| ProfileService.ProfileService.SetActive | api/src/profile/profile.service.ts:89-103 | only `active` flags change; success iff the id exists, then exactly that profile is active; otherwise NotFound with nothing active |
| ProfileService.FirstIndexSameIds | api/src/profile/profile.service.ts:91-96 | deactivating keeps every id, so the profile activated is the first with the id |
| CrudAbstract.Init | frontend/lib/abstracts/crud.abstract.ts:41-45 | the endpoint gets a list, an existing list is kept, other endpoints are untouched, and re-initialising changes nothing |
| CrudAbstract.Created | frontend/lib/abstracts/crud.abstract.ts:52-57 | the new item is the sent data with a fresh `id` and both timestamps, every other field as sent |
| CrudAbstract.Merged | frontend/lib/abstracts/crud.abstract.ts:191-195 | sent fields override stored ones, unsent fields are kept, `updatedAt` is refreshed |
| CrudAbstract.SliceIndex | frontend/lib/abstracts/crud.abstract.ts:116 | a `slice` bound is clamped into the list and an in-range bound is kept |
| CrudAbstract.Slice | frontend/lib/abstracts/crud.abstract.ts:116 | `Array.slice(start, end)` on non-negative bounds is the clamped subsequence between them |
| CrudAbstract.SliceFromEnd | frontend/lib/abstracts/crud.abstract.ts:116 | a negative `slice` bound counts back from the end of the list, clamped at its start |
| CrudAbstract.CeilDiv | frontend/lib/abstracts/crud.abstract.ts:126 | `Math.ceil(total / limit)`: for a positive limit the least number of pages of `limit` that holds `total`, and for a negative one the ceiling of the negative quotient (never positive) |
| CrudAbstract.OrDefault | frontend/lib/abstracts/crud.abstract.ts:109-110 | `options.page \|\| 1`: a given non-zero value is kept; an absent or zero value takes the default |
| CrudAbstract.MockPage | frontend/lib/abstracts/crud.abstract.ts:107-129 | page and limit default to 1 and 10, `total` is the list length, `totalPages` is the ceiling, and the items are that page; page and limit are never 0; a negative page is a block counted back from the end; with a negative limit page 1 drops the last `-limit` items and every other page is empty |
| CrudAbstract.NegativePageFromEnd | frontend/lib/abstracts/crud.abstract.ts:114-116 | the slice taken for page 0 is empty, and for a negative page it is the run of at most `limit` items ending `-page * limit` before the end |
| CrudAbstract.NegativeLimit | frontend/lib/abstracts/crud.abstract.ts:114-116 | with a negative limit the slice of page 1 is the list without its last `-limit` items, and that of any other page is empty |
| CrudAbstract.PageOfIsRun | frontend/lib/abstracts/crud.abstract.ts:114-116 | page `n` is the clamped run from `(n - 1) * limit` to `n * limit` |
| CrudAbstract.PageOf | frontend/lib/abstracts/crud.abstract.ts:114-116 | a page holds at most `limit` items and is non-empty whenever it starts inside the list |
| CrudAbstract.FirstPagesArePrefix | frontend/lib/abstracts/crud.abstract.ts:114-116 | the first n pages, concatenated, are the list's prefix of n·limit items |
| CrudAbstract.PagesCoverAll | frontend/lib/abstracts/crud.abstract.ts:114-126 | walking pages 1..totalPages returns every item once, in order |
| CrudAbstract.MockStorage.constructor | frontend/lib/abstracts/crud.abstract.ts:27 | the module-level mock store starts empty |
| CrudAbstract.CrudService.constructor | frontend/lib/abstracts/crud.abstract.ts:34-38 | a service starts against the real API |
| CrudAbstract.CrudService.InitMockStorage | frontend/lib/abstracts/crud.abstract.ts:41-45 | the shared store is initialised for the endpoint |
| CrudAbstract.CrudService.Create | frontend/lib/abstracts/crud.abstract.ts:47-81 | mock mode sticks once on and is entered on a 404; in mock mode the created item is appended to the endpoint's list; otherwise the API answer or its error is passed on |
| CrudAbstract.CrudService.FindAll | frontend/lib/abstracts/crud.abstract.ts:83-104 | always asks the API; a null body throws reading its `length`, which is not an axios error and is rethrown; any axios error switches to mock mode and answers a copy of the stored list; any other error is rethrown |
| CrudAbstract.CrudService.FindAllPaginated | frontend/lib/abstracts/crud.abstract.ts:106-153 | in mock mode answers `MockPage` of the stored list; a 404 switches; other errors are rethrown |
| CrudAbstract.CrudService.FindOne | frontend/lib/abstracts/crud.abstract.ts:155-179 | switches only on a 404 whose message names the endpoint; any other 404 answers null; mock mode answers the first item with the id |
| CrudAbstract.CrudService.Update | frontend/lib/abstracts/crud.abstract.ts:181-216 | in mock mode the first item with the id is merged, or an error if none; a 404 switches; other errors are rethrown |
| CrudAbstract.CrudService.Delete | frontend/lib/abstracts/crud.abstract.ts:218-245 | in mock mode the first item with the id is spliced out (none: no change, no error); a 404 switches; other errors are rethrown |
| Routing.ErrorResponse | frontend/apps/admin/src/app/api/about/route.ts:62 | an error answer is `{error: message}` with the given status |
| Routing.ClassifyGet | frontend/apps/admin/src/app/api/about/route.ts:58-75 | 'current' and 'about' select their branches exactly; any other last segment is an id without '/' that is neither keyword |
| Routing.LastSegmentOfJoin | frontend/apps/portfolio/src/app/api/about/route.ts:12-13 | the last segment of `base + "/" + id` is `id` whenever `id` has no '/' |
| Routing.RequestedIdReachesById | frontend/apps/portfolio/src/app/api/about/route.ts:27-30 | a request for `/…/id` reaches the by-id branch iff the id is not one of the two keywords |
| PortfolioAboutRoute.AnswerLookup | frontend/apps/portfolio/src/app/api/about/route.ts:16-38 | 200 with the record iff the lookup resolved to a truthy value; a falsy one is 404, a throw is 500 |
| PortfolioAboutRoute.Get | frontend/apps/portfolio/src/app/api/about/route.ts:8-43 | the list is delegated iff the last segment is 'about'; 'current' asks `findActive`, any other segment `findOne` with that segment, each with its own messages |
| PortfolioAboutRoute.PutDispatch | frontend/apps/portfolio/src/app/api/about/route.ts:49-72 | 'activate' with a truthy body `id` activates that id, without one is 400; any other segment updates that id |
| PortfolioAboutRoute.AnswerActivate | frontend/apps/portfolio/src/app/api/about/route.ts:63-68 | the activation result is passed on, a throw is 500 'Falha ao ativar about' |
| PortfolioAboutRoute.DeleteTarget | frontend/apps/portfolio/src/app/api/about/route.ts:74-80 | DELETE addresses the last path segment, which holds no '/' |
| PortfolioAboutRoute.DeleteTargetsRequestedId | frontend/apps/portfolio/src/app/api/about/route.ts:74-80 | DELETE on `/…/id` deletes exactly `id` |
| PortfolioAboutRoute.PutTargetsRequestedId | frontend/apps/portfolio/src/app/api/about/route.ts:49-72 | PUT on `/…/id` updates exactly `id` unless the id is 'activate' |
| AdminAboutRoute.Deactivated | frontend/apps/admin/src/app/api/about/route.ts:121-124 | `{...about, active: false}`: the flag is false and every other field kept |
| AdminAboutRoute.DeactivateAll | frontend/apps/admin/src/app/api/about/route.ts:121-124 | every record is deactivated, in place and in order |
| AdminAboutRoute.DeactivateKeepsFirstId | frontend/apps/admin/src/app/api/about/route.ts:121-127 | deactivating does not change which record `findIndex` finds for an id |
| AdminAboutRoute.NewRecord | frontend/apps/admin/src/app/api/about/route.ts:83-93 | the POSTed record keeps every sent field, gets a new `_id` and timestamps, and the five defaults apply exactly when the sent value is falsy |
| AdminAboutRoute.AsJson | frontend/apps/admin/src/app/api/about/route.ts:75 | the list answer holds every record, in order |
| AdminAboutRoute.MockAboutRoute.constructor | frontend/apps/admin/src/app/api/about/route.ts:5-47 | the route starts with the single seed record, which is the only active one |
| AdminAboutRoute.MockAboutRoute.Get | frontend/apps/admin/src/app/api/about/route.ts:49-76 | 'current' is the first truthy-active record or 404, 'about' the whole list, any other segment the first record with that `_id` or 404 |
| AdminAboutRoute.MockAboutRoute.Post | frontend/apps/admin/src/app/api/about/route.ts:78-104 | the defaulted record is appended and answered |
| AdminAboutRoute.MockAboutRoute.Activate | frontend/apps/admin/src/app/api/about/route.ts:112-136 | no truthy id: 400 and no change; unknown id: 404 with everything left deactivated; otherwise exactly the first record with the id is active |
| AdminAboutRoute.MockAboutRoute.Update | frontend/apps/admin/src/app/api/about/route.ts:139-154 | the first record with the id takes the sent fields over its own with a fresh `updatedAt`; unknown id is 404 and no change |
| AdminAboutRoute.MockAboutRoute.Put | frontend/apps/admin/src/app/api/about/route.ts:106-159 | 'activate' carries `Activate`'s whole outcome (400 without an id; 404 after deactivating everything; otherwise exactly the first match active) and any other segment carries `Update`'s (merge over the first `_id` match, or 404 and no change); the list length never changes |
| AdminAboutRoute.MockAboutRoute.Delete | frontend/apps/admin/src/app/api/about/route.ts:161-181 | unknown id: 404 and no change; otherwise every record with the id is removed, the rest keep their order, and none with the id remains |
| ClientTypes.IdOrDbId | frontend/apps/admin/src/app/about/page.tsx:85-86 | `id \|\| _id`: a non-empty `id` wins, otherwise `_id` |
| ClientProfileService.CleanLink | frontend/lib/services/profile.service.ts:66-70 | a sent link keeps platform and url and always carries a boolean `active`, false only when it was false |
| ClientProfileService.Cleaned | frontend/lib/services/profile.service.ts:62-72 | missing strings become '', missing links `[]`, each link is cleaned, and `active` defaults to true |
| ClientProfileService.UpdatePayload | frontend/lib/services/profile.service.ts:62-79 | the PUT body has exactly the five DTO keys and a boolean `active` |
| ClientProfileService.PayloadAcceptedIff | frontend/lib/services/profile.service.ts:59-80 | the API's UpdateProfileDto accepts the cleaned body iff the three strings and every link's platform and url are non-empty |
| ClientProfileService.WrapList | frontend/lib/services/profile.service.ts:23 | an array answer is returned as is, any other answer as a one-element list |
| ClientProfileService.FindActive | frontend/lib/services/profile.service.ts:31-49 | the API's answer is passed on; a 404 or 500 becomes null; any other error is rethrown |
| AboutPage.SelectOnLoad | frontend/apps/admin/src/app/about/page.tsx:47-58 | the first active About if any, else the first one, else the empty form; active whenever some record is |
| AboutPage.Reconciled | frontend/apps/admin/src/app/about/page.tsx:84-95 | the record whose key matches the result becomes the result, active; every other record is deactivated |
| AboutPage.ReconciledAtMostOneActive | frontend/apps/admin/src/app/about/page.tsx:82-96 | with distinct keys, at most one record is active afterwards, and it is the one matching the result |
| AboutPage.ReconciledWithoutIdsActivatesBoth | frontend/apps/admin/src/app/about/page.tsx:85-88 | two records without `id` or `_id` both match a result without them, so both become active |
| AboutPage.AboutPageState.constructor | frontend/apps/admin/src/app/about/page.tsx:20-26 | the page starts loading, empty, with no error |
| AboutPage.AboutPageState.FetchAbouts | frontend/apps/admin/src/app/about/page.tsx:39-66 | success stores the list, the active record and the selection; failure sets 'Falha ao carregar dados do About' and selects the empty form |
| AboutPage.AboutPageState.HandleSetActive | frontend/apps/admin/src/app/about/page.tsx:71-115 | success reconciles the list and sets the active record; failure leaves the list and ends with the generic message |
| ProfilePage.SelectOnLoad | frontend/apps/admin/src/app/profile/page.tsx:46-57 | the first active Profile if any, else the first one, else the empty form |
| ProfilePage.StoredId | frontend/apps/admin/src/app/profile/page.tsx:89 | the id of a stored selection is its non-empty `id \|\| _id` |
| ProfilePage.Completed | frontend/apps/admin/src/app/profile/page.tsx:76-85 | missing strings become '' and links `[]`; a new profile is sent inactive, an existing one keeps its flag |
| ProfilePage.Replaced | frontend/apps/admin/src/app/profile/page.tsx:95-97 | every entry that shares `id` or `_id` with the result is replaced by it, the rest are kept |
| ProfilePage.ReplacedWithoutIdsReplacesAll | frontend/apps/admin/src/app/profile/page.tsx:96 | when no entry and not the result has an `id`, every entry is replaced |
| ProfilePage.Reconciled | frontend/apps/admin/src/app/profile/page.tsx:154-165 | the matching profile becomes the result, active; every other one is deactivated |
| ProfilePage.ReconciledOnlyMatchActive | frontend/apps/admin/src/app/profile/page.tsx:152-166 | with distinct keys and a match at k, exactly entry k is active afterwards |
| ProfilePage.ProfilePageState.constructor | frontend/apps/admin/src/app/profile/page.tsx:19-25 | the page starts loading, empty, with no error |
| ProfilePage.ProfilePageState.FetchProfiles | frontend/apps/admin/src/app/profile/page.tsx:38-65 | success stores the list, the active profile and the selection; failure sets 'Failed to load profile data' and selects the empty form |
| ProfilePage.ProfilePageState.HandleSave | frontend/apps/admin/src/app/profile/page.tsx:70-139 | a stored selection sends an update of the cleaned payload to its id, otherwise a create; success replaces or appends the result; failure ends with 'An error occurred while saving the profile' |
| ProfilePage.ProfilePageState.HandleSetActive | frontend/apps/admin/src/app/profile/page.tsx:141-185 | success reconciles the list and sets the active profile; failure ends with 'An error occurred while setting the profile as active' |
| ProfilePage.ProfilePageState.HandleCreateNew | frontend/apps/admin/src/app/profile/page.tsx:187-189 | the empty, unstored form is selected and nothing else changes |
| ProfileForm.WithField | frontend/apps/admin/src/components/profile/ProfileForm.tsx:54-60 | only the named field takes the typed value |
| ProfileForm.Appended | frontend/apps/admin/src/components/profile/ProfileForm.tsx:75-78 | the new active link is appended after the existing ones (none: `[]`) |
| ProfileForm.WithoutIndex | frontend/apps/admin/src/components/profile/ProfileForm.tsx:88 | an in-range index removes exactly that link; any other index changes nothing |
| ProfileForm.RemoveUndoesAdd | frontend/apps/admin/src/components/profile/ProfileForm.tsx:66-90 | removing the link just added restores the list |
| ProfileForm.WithUrl | frontend/apps/admin/src/components/profile/ProfileForm.tsx:96-100 | the indexed link takes the new url and keeps platform and flag; others are unchanged |
| ProfileForm.ProfileFormState.constructor | frontend/apps/admin/src/components/profile/ProfileForm.tsx:43-52 | the form starts from the given profile with empty inputs and nothing being edited |
| ProfileForm.ProfileFormState.HandleChange | frontend/apps/admin/src/components/profile/ProfileForm.tsx:54-60 | the named field takes the value and the link inputs are untouched |
| ProfileForm.ProfileFormState.SetNewLinkInputs | frontend/apps/admin/src/components/profile/ProfileForm.tsx:62-64 | the new-link inputs take the typed values |
| ProfileForm.ProfileFormState.SetEditUrl | frontend/apps/admin/src/components/profile/ProfileForm.tsx:249-250 | the url being edited takes the typed value |
| ProfileForm.ProfileFormState.HandleAddSocialLink | frontend/apps/admin/src/components/profile/ProfileForm.tsx:66-83 | with both inputs filled the link is appended and the inputs cleared; otherwise nothing changes |
| ProfileForm.ProfileFormState.HandleRemoveSocialLink | frontend/apps/admin/src/components/profile/ProfileForm.tsx:85-90 | the links become `WithoutIndex` of the old ones |
| ProfileForm.ProfileFormState.HandleEditSocialLink | frontend/apps/admin/src/components/profile/ProfileForm.tsx:92-115 | a second click on the edited index saves a non-empty url and stops editing; a click elsewhere starts editing with that link's url |
| ProfileForm.ProfileFormState.HandleSubmit | frontend/apps/admin/src/components/profile/ProfileForm.tsx:117-120 | the form data is handed to `onSave` unchanged |
| ProjectForm.WithTech | frontend/apps/admin/src/components/projects/ProjectForm.tsx:64-72 | a non-blank trimmed tag not yet present is appended; a blank or present one changes nothing |
| ProjectForm.WithTechKeepsNoDuplicates | frontend/apps/admin/src/components/projects/ProjectForm.tsx:66-67 | adding a tag keeps the list free of duplicates |
| ProjectForm.WithoutTech | frontend/apps/admin/src/components/projects/ProjectForm.tsx:74-76 | exactly the tags of the input other than the removed one remain |
| ProjectForm.WithoutTechAppend | frontend/apps/admin/src/components/projects/ProjectForm.tsx:74-76 | removal keeps order: a tag appended to the input is kept at the end of the result unless it is the removed one |
| ProjectForm.FilterKeepsNoDuplicates | frontend/apps/admin/src/components/projects/ProjectForm.tsx:75 | filtering a duplicate-free list keeps it duplicate-free |
| ProjectForm.WithoutTechKeepsNoDuplicates | frontend/apps/admin/src/components/projects/ProjectForm.tsx:74-76 | removing a tag keeps the list free of duplicates |
| ProjectForm.Payload | frontend/apps/admin/src/components/projects/ProjectForm.tsx:114-123 | the payload carries the form fields and the tags, with `createdAt` defaulting to today |
| ProjectForm.Submit | frontend/apps/admin/src/components/projects/ProjectForm.tsx:89-133 | blank title, description or image url is refused with its message, in that order; otherwise an update when the project has an id, else a create |
| ProjectForm.ProjectFormState.constructor | frontend/apps/admin/src/components/projects/ProjectForm.tsx:53-58 | the form starts with the project's tags or none |
| ProjectForm.ProjectFormState.SetTechInput | frontend/apps/admin/src/components/projects/ProjectForm.tsx:58 | the tag input takes the typed value |
| ProjectForm.ProjectFormState.HandleAddTech | frontend/apps/admin/src/components/projects/ProjectForm.tsx:64-72 | tags become `WithTech`, and the input is cleared unless it was blank |
| ProjectForm.ProjectFormState.HandleRemoveTech | frontend/apps/admin/src/components/projects/ProjectForm.tsx:74-76 | tags become `WithoutTech` |
| ProjectForm.ProjectFormState.HandleSubmit | frontend/apps/admin/src/components/projects/ProjectForm.tsx:83-140 | sends `Submit`'s request; a refused form shows its message, a failed save the retry message, a successful one clears the error |
| NewAboutPage.WithField | frontend/apps/admin/src/app/about/new/page.tsx:28-34 | only the named field takes the typed value |
| NewAboutPage.Validate | frontend/apps/admin/src/app/about/new/page.tsx:42-52 | accepted iff title and description are non-blank; a blank title is reported first |
| NewAboutPage.HandleSave | frontend/apps/admin/src/app/about/new/page.tsx:36-74 | navigates to the list iff valid and created; an invalid form shows its message, a failed create the generic one |
| NewAboutPage.EmptyAboutIsRefused | frontend/apps/admin/src/app/about/new/page.tsx:11-18 | the initial empty form is refused for its title |
| NewAboutPage.PageCheckImpliesSchema | frontend/apps/admin/src/app/about/new/page.tsx:42-52 | every form the page sends is accepted by the About schema, while a whitespace title the schema would accept is stopped by the page |
| Middleware.Decide | frontend/apps/admin/src/middleware.ts:4-24 | no token off the auth pages goes to '/login', a token on them to '/dashboard', anything else passes |
| Middleware.NoRedirectLoop | frontend/apps/admin/src/middleware.ts:4-24 | a redirect's target page is passed through for the same token, so no request loops |

## Left out

- Request parsing, HTTP framing, Nest controllers and guards, authentication, logging and the React rendering are not modelled. A body that is not valid JSON (the 500 branches of the admin route) is not modelled either.
- Clocks, generated ids, `Date.now()` and `toISOString()` are parameters. This includes the `_id` Mongoose generates for each About skill, education and experience entry (`AboutSchema.IdSource`, and `newSubId` on the `add…` methods). The `createdAt`/`updatedAt` timestamps Mongoose adds to API documents are not modelled.
- CrudAbstract.Created and AdminAboutRoute.NewRecord: both timestamps come from one clock parameter `now`, where the code reads the clock twice; that the two readings can differ by a tick is not modelled.
- The `_id` Mongoose gives each Profile social link is not modelled, because the code addresses links by position only.
- Network outcomes are parameters: the axios reply of each `CrudAbstract` call, the `findActive`/`findOne`/`setActive` outcome of the portfolio route's service, and the outcome of each page handler's `subscribe`.
- ClientProfileService: `getProfile`, `getAllProfiles`, `updateProfile`'s transport and the social-link, set-active and create calls go through `getById`, `getList`, `put`, `post`, `patch` and an Observable `create`. The CRUD base class does not define these, so only the payload they send is modelled. Its `updateSocialLink` sends PUT to `…/social/:index` (frontend/lib/services/profile.service.ts:87), while the API declares that route as PATCH (api/src/profile/profile.controller.ts:68); that call is not modelled.
- The portfolio route's list, create, update and delete handlers delegate to an `ApiRouteAdapter`, which is not part of this model. Only the dispatch to it is modelled.
- AboutService.findAll, ProfileService.findAll and the controllers' routing are plain pass-throughs and are not modelled separately.
- JSON numbers are integers. Floating point, and NaN outside the social-link index, are not modelled.
- URL validation (`@IsUrl`) is a parameter predicate.
- Mongo ObjectId casting is not modelled. A malformed id behaves like an unknown one.
- Concurrency between the two steps of `setActive` is not modelled. Each method runs to completion.
- Ids are not assumed unique, so the "only one active" results are stated about the first matching document.
- The `profile` block of the client About type is not modelled, because no modelled code reads it.
- ProfileForm.ProfileFormState.HandleRemoveSocialLink: requires a present link list, because the source throws on a missing one.
- ProfileForm.ProfileFormState.HandleEditSocialLink: requires a present list and an in-range index, because the source throws reading `socialLinks[index].url` otherwise.
- The ProfileForm `useEffect` that reloads the form when its `profile` prop changes is the constructor again, and is not modelled as a separate step.
- AboutPage.ReconciledAtMostOneActive: holds only for lists whose `id || _id` keys are distinct. `ReconciledWithoutIdsActivatesBoth` shows why.
- ProfileService.ProfileService.Create: stores a link sent without `active` as active and refuses a blank link, following the SocialLink class's rules (Finding 3); the code stores no flag and accepts the link (`NewSocialLinkAsWritten`, `MissingPathsAsWritten`).
- ProfileService.ProfileService.Update: gives a link sent without `active` the flag `true` (Finding 3); the code stores it without one.
- ProfileService.ProfileService.Save: re-validates every link's platform and url (Finding 3), so it refuses a document holding a blank link that the code would save.
- ProfileService.ProfileService.AddSocialLink: saves through the same link re-validation as `Save` (Finding 3).
- ProfileService.ProfileService.RemoveSocialLink: refuses a NaN index with LinkNotFound (Finding 1); the code removes the first link and saves (`RemoveLinkAsWritten`).
- ProfileService.ProfileService.UpdateSocialLink: refuses a NaN index with LinkNotFound (Finding 2); the code saves with no link changed and answers success (`UpdateLinkAsWritten`). It also reads the link merge as a plain-object spread, as `UpdateLink` does.
- ProfileService.UpdateLinkAsWritten: reads `{ ...profile.socialLinks[index], ...updateDto }` as a merge of plain objects that keeps the link's `active`. `findById` returns a hydrated Mongoose document, whose spread copies internal properties and not the link's fields, so the stored link may lose `active` (and take a new `_id`). What Mongoose then stores depends on its version and is not modelled.
- ProfileService.UpdateLink: states the same plain-object merge, the evident intent of the code, not what a spread over a hydrated sub-document gives.

## Findings

| source | as written | input that shows it | evidently intended | confidence | as-written member | corrected member |
|---|---|---|---|---|---|---|
| api/src/profile/profile.service.ts:66-71 | `index < 0 \|\| index >= length` lets NaN through, and `splice(NaN, 1)` removes link 0 | DELETE `/profile/:id/social/abc` on a profile with links; `parseInt` at profile.controller.ts:65 gives NaN | a non-integer index is refused with LinkNotFound | medium, not executed | ProfileService.NaNIndexRemovesFirstLink | ProfileService.RemoveLink |
| api/src/profile/profile.service.ts:77-86 | the same test lets NaN through; `socialLinks[NaN] = …` changes no link and the save answers success | PATCH `/profile/:id/social/abc`; `parseInt` at profile.controller.ts:74 gives NaN | a non-integer index is refused with LinkNotFound | medium, not executed | ProfileService.NaNIndexUpdatesNothing | ProfileService.UpdateLink |
| api/src/profile/schema/profile.schema.ts:27 | `socialLinks` declares an inline element type, so the SocialLink class's `required` platform/url and `active` default never apply | create a profile with `socialLinks: [{platform: 'github', url: 'https://github.com/ana'}]`; the stored link has no `active` | links take the SocialLink class's rules (lines 5-14) | medium, not executed | ProfileSchema.InlineLinkTypeDropsRules | ProfileSchema.NewProfile |
