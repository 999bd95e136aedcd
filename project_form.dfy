/** The admin ProjectForm: a technology-tag list kept free of duplicates, and a
    submit that checks the required fields in a fixed order before it creates or
    updates the project. The form's inputs, "today" and the service's outcome are
    parameters. */
module ProjectForm {
  import opened Wrappers
  import opened Seqs
  import opened Text

  /** No tag occurs twice. */
  predicate NoDuplicates(tags: seq<string>) {
    forall i, j :: 0 <= i < j < |tags| ==> tags[i] != tags[j]
  }

  /** `handleAddTech`'s list: the trimmed input is appended unless it is empty or
      already present. */
  function WithTech(tags: seq<string>, input: string): (r: seq<string>)
    ensures Trim(input) == "" || Trim(input) in tags ==> r == tags
    ensures Trim(input) != "" && Trim(input) !in tags ==> r == tags + [Trim(input)]
    ensures Trim(input) != "" ==> Trim(input) in r
  {
    var tag := Trim(input);
    if tag == "" || tag in tags then tags else tags + [tag]
  }

  /** Adding never introduces a duplicate. */
  lemma WithTechKeepsNoDuplicates(tags: seq<string>, input: string)
    requires NoDuplicates(tags)
    ensures NoDuplicates(WithTech(tags, input))
  {
  }

  function IsNot(tag: string): string -> bool {
    (t: string) => t != tag
  }

  /** `handleRemoveTech`'s list: every occurrence of `tag` goes, the rest keep
      their order. */
  function WithoutTech(tags: seq<string>, tag: string): (r: seq<string>)
    ensures tag !in r
    ensures forall t :: t in tags && t != tag ==> t in r
    ensures forall t :: t in r ==> t in tags && t != tag
    ensures |r| <= |tags|
  {
    Filter(tags, IsNot(tag))
  }

  /** Removal keeps order: removing from a list with one more tag at the end is
      removing from the list, then keeping that tag unless it is the one removed. */
  lemma WithoutTechAppend(tags: seq<string>, t: string, tag: string)
    ensures WithoutTech(tags + [t], tag) == WithoutTech(tags, tag) + (if t != tag then [t] else [])
  {
    FilterAppend(tags, [t], IsNot(tag));
  }

  /** Removing keeps a duplicate-free list duplicate-free. */
  lemma {:induction false} FilterKeepsNoDuplicates(tags: seq<string>, p: string -> bool)
    requires NoDuplicates(tags)
    ensures NoDuplicates(Filter(tags, p))
  {
    if |tags| > 0 {
      FilterKeepsNoDuplicates(tags[1..], p);
      var rest := Filter(tags[1..], p);
      assert forall j :: 0 <= j < |rest| ==> rest[j] in tags[1..];
      assert tags[0] !in tags[1..];
    }
  }

  lemma WithoutTechKeepsNoDuplicates(tags: seq<string>, tag: string)
    requires NoDuplicates(tags)
    ensures NoDuplicates(WithoutTech(tags, tag))
  {
    FilterKeepsNoDuplicates(tags, IsNot(tag));
  }

  /** The named inputs of the form, as `FormData` reads them. */
  datatype FormFields = FormFields(
    title: string, description: string, imageUrl: string,
    githubUrl: string, liveUrl: string, createdAt: string)

  /** The object `handleSubmit` hands to the service. */
  datatype ProjectPayload = ProjectPayload(
    title: string, description: string, imageUrl: string, technologies: seq<string>,
    githubUrl: string, liveUrl: string, createdAt: string)

  /** What submit does: report the first missing field, or create, or update. */
  datatype Submission =
    | Invalid(message: string)
    | CreateProject(payload: ProjectPayload)
    | UpdateProject(id: string, payload: ProjectPayload)

  /** The payload: the inputs untrimmed, the tag list, `createdAt || today`. */
  function Payload(form: FormFields, tags: seq<string>, today: string): (r: ProjectPayload)
    ensures r.title == form.title && r.description == form.description && r.imageUrl == form.imageUrl
    ensures r.technologies == tags
    ensures r.githubUrl == form.githubUrl && r.liveUrl == form.liveUrl
    ensures r.createdAt == (if form.createdAt == "" then today else form.createdAt)
  {
    ProjectPayload(form.title, form.description, form.imageUrl, tags, form.githubUrl, form.liveUrl,
                   if form.createdAt == "" then today else form.createdAt)
  }

  /** The checks of `handleSubmit` in their order, then update when the project
      has an id and create otherwise. */
  function Submit(projectId: Option<string>, form: FormFields, tags: seq<string>, today: string): (r: Submission)
    ensures IsBlank(form.title) ==> r == Invalid("O título do projeto é obrigatório")
    ensures !IsBlank(form.title) && IsBlank(form.description) ==> r == Invalid("A descrição do projeto é obrigatória")
    ensures !IsBlank(form.title) && !IsBlank(form.description) && IsBlank(form.imageUrl) ==>
              r == Invalid("A URL da imagem é obrigatória")
    ensures r.Invalid? <==> IsBlank(form.title) || IsBlank(form.description) || IsBlank(form.imageUrl)
    ensures r.UpdateProject? <==> !r.Invalid? && projectId.Some? && projectId.value != ""
    ensures r.UpdateProject? ==> r.id == projectId.value && r.payload == Payload(form, tags, today)
    ensures r.CreateProject? ==> r.payload == Payload(form, tags, today)
  {
    TrimEmptyIffBlank(form.title);
    TrimEmptyIffBlank(form.description);
    TrimEmptyIffBlank(form.imageUrl);
    if Trim(form.title) == "" then Invalid("O título do projeto é obrigatório")
    else if Trim(form.description) == "" then Invalid("A descrição do projeto é obrigatória")
    else if Trim(form.imageUrl) == "" then Invalid("A URL da imagem é obrigatória")
    else if projectId.Some? && projectId.value != "" then UpdateProject(projectId.value, Payload(form, tags, today))
    else CreateProject(Payload(form, tags, today))
  }

  class ProjectFormState {
    var technologies: seq<string>
    var techInput: string
    var loading: bool
    var error: string

    /** The tag list starts as the project's (`project?.technologies || []`). */
    constructor(initial: Option<seq<string>>)
      ensures technologies == initial.GetOr([]) && techInput == "" && !loading && error == ""
    {
      technologies := initial.GetOr([]);
      techInput := "";
      loading := false;
      error := "";
    }

    method SetTechInput(input: string)
      modifies this
      ensures techInput == input && technologies == old(technologies)
      ensures loading == old(loading) && error == old(error)
    {
      techInput := input;
    }

    /** `handleAddTech`: a blank input changes nothing; otherwise the trimmed tag is
        added when new and the input is cleared either way. */
    method HandleAddTech()
      modifies this
      ensures technologies == WithTech(old(technologies), old(techInput))
      ensures techInput == (if Trim(old(techInput)) == "" then old(techInput) else "")
      ensures loading == old(loading) && error == old(error)
    {
      var tag := Trim(techInput);
      if tag != "" {
        if tag !in technologies {
          technologies := technologies + [tag];
        }
        techInput := "";
      }
    }

    /** `handleRemoveTech`. */
    method HandleRemoveTech(tag: string)
      modifies this
      ensures technologies == WithoutTech(old(technologies), tag)
      ensures techInput == old(techInput) && loading == old(loading) && error == old(error)
    {
      technologies := Filter(technologies, IsNot(tag));
    }

    /** `handleSubmit` with the service's outcome (`failed`): an invalid form shows
        its message and calls nothing; a failed call shows the retry message; a
        successful one calls `onSuccess`. */
    method HandleSubmit(projectId: Option<string>, form: FormFields, today: string, failed: bool)
      returns (sent: Submission, succeeded: bool)
      modifies this
      ensures sent == Submit(projectId, form, old(technologies), today)
      ensures !loading && technologies == old(technologies) && techInput == old(techInput)
      ensures sent.Invalid? ==> error == sent.message && !succeeded
      ensures !sent.Invalid? && failed ==> error == "Falha ao salvar o projeto. Por favor, tente novamente." && !succeeded
      ensures !sent.Invalid? && !failed ==> error == "" && succeeded
    {
      loading := true;
      error := "";
      sent := Submit(projectId, form, technologies, today);
      succeeded := false;
      if sent.Invalid? {
        error := sent.message;
        loading := false;
        return;
      }
      if failed {
        error := "Falha ao salvar o projeto. Por favor, tente novamente.";
      } else {
        succeeded := true;
      }
      loading := false;
    }
  }
}
