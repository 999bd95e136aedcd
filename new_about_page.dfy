/** The admin "new About" page: a blank record the user fills in, and a save that
    refuses a blank title or description before it calls `create`. */
module NewAboutPage {
  import opened Wrappers
  import opened Text
  import opened AboutSchema
  import opened ClientTypes

  /** `emptyAbout` of this page: like the list page's, but explicitly inactive. */
  const EmptyAbout := ClientAbout(None, None, "", "", [], [], [], None, None, Some(false))

  /** The inputs `handleChange` serves, by their `name` attribute. */
  datatype Field = Title | Description

  /** `{ ...prev, [name]: value }`. */
  function WithField(a: ClientAbout, field: Field, value: string): (r: ClientAbout)
    ensures field == Title ==> r.title == value && r.(title := a.title) == a
    ensures field == Description ==> r.description == value && r.(description := a.description) == a
  {
    match field
    case Title => a.(title := value)
    case Description => a.(description := value)
  }

  /** The title message, as the source file spells it. */
  const TitleRequired := "O tu00edtulo u00e9 obrigatu00f3rio"
  const DescriptionRequired := "A descriu00e7u00e3o u00e9 obrigatu00f3ria"

  /** The checks of `handleSave`: the title first, then the description; when both
      pass, `create` receives the record exactly as typed, untrimmed. */
  function Validate(a: ClientAbout): (r: Result<ClientAbout, string>)
    ensures r.Success? <==> !IsBlank(a.title) && !IsBlank(a.description)
    ensures IsBlank(a.title) ==> r == Failure(TitleRequired)
    ensures !IsBlank(a.title) && IsBlank(a.description) ==> r == Failure(DescriptionRequired)
    ensures r.Success? ==> r.value == a
  {
    TrimEmptyIffBlank(a.title);
    TrimEmptyIffBlank(a.description);
    if Trim(a.title) == "" then Failure(TitleRequired)
    else if Trim(a.description) == "" then Failure(DescriptionRequired)
    else Success(a)
  }

  /** Where `handleSave` ends up. */
  datatype SaveOutcome = NavigateToList | ShowError(message: string)

  /** `handleSave` with `create`'s outcome: a refused record shows its message; a
      failed call ends on the catch block's message; success goes to '/about'. */
  function HandleSave(a: ClientAbout, created: bool): (r: SaveOutcome)
    ensures r == NavigateToList <==> Validate(a).Success? && created
    ensures Validate(a).Failure? ==> r == ShowError(Validate(a).error)
    ensures Validate(a).Success? && !created ==> r == ShowError("Ocorreu um erro ao criar o about")
  {
    match Validate(a)
    case Failure(message) => ShowError(message)
    case Success(_) => if created then NavigateToList else ShowError("Ocorreu um erro ao criar o about")
  }

  /** The blank record cannot be saved as it is. */
  lemma EmptyAboutIsRefused()
    ensures HandleSave(EmptyAbout, true) == ShowError(TitleRequired)
  {
  }

  /** The input the API's schema sees for a record the page sends. */
  function AsInput(a: ClientAbout): AboutInput {
    AboutInput(a.title, a.description, a.skills, a.education, a.experience, a.avatar, a.socialLinks, a.active)
  }

  /** The page's check is stricter than the schema's: whatever it lets through
      the schema stores, while a title of spaces passes the schema but not the
      page. */
  lemma PageCheckImpliesSchema(a: ClientAbout, id: string, subIds: IdSource)
    ensures Validate(a).Success? ==> NewAbout(id, subIds, AsInput(a)).Success?
    ensures a.title == " " && a.description == "x" ==> NewAbout(id, subIds, AsInput(a)).Success? && Validate(a).Failure?
  {
    if a.title == " " {
      assert IsWhitespace(a.title[0]);
      assert IsBlank(a.title);
    }
  }
}
