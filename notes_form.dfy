/** The note editor of components/notes/notes-form.tsx: four pieces of component state, the
    submit handler and the summarize handler, which validate in a fixed order and report the
    first problem in `error`, and the conditions that enable the submit button and show the
    summarize button. */
module NotesForm {
  import opened Wrappers
  import opened Text
  import NotesRepository
  import SummarizeClient

  const TitleRequired := "Title is required"
  const ContentRequired := "Content is required"
  const NeedContent := "Please add some content before summarizing"
  const FormFallback := "Failed to summarize your note. Please try again."
  const UpdateLabel := "Update Note"
  const CreateLabel := "Create Note"

  /** The fields of `initialData` (a `Partial<Note>`) that the form reads. */
  datatype InitialData = InitialData(id: Option<string>, title: Option<string>,
                                     content: Option<string>, summary: Option<string>)

  /** `initialData?.<field> || ""`. */
  function InitialField(initialData: Option<InitialData>, field: InitialData -> Option<string>): (s: string)
    ensures initialData.None? ==> s == ""
    ensures initialData.Some? && field(initialData.value).Some? ==> s == field(initialData.value).value
    ensures initialData.Some? && field(initialData.value).None? ==> s == ""
  {
    if initialData.None? then "" else field(initialData.value).GetOr("")
  }

  /** The checks of `handleSubmit`, title first: the message to show, or `None` when both pass. */
  function Validate(title: string, content: string): (r: Option<string>)
    ensures r.None? <==> !IsBlank(title) && !IsBlank(content)
    ensures IsBlank(title) ==> r == Some(TitleRequired)
    ensures !IsBlank(title) && IsBlank(content) ==> r == Some(ContentRequired)
  {
    TrimEmptyIffBlank(title);
    TrimEmptyIffBlank(content);
    if Trim(title) == "" then Some(TitleRequired)
    else if Trim(content) == "" then Some(ContentRequired)
    else None
  }

  /** `error.message || "Failed to summarize your note. Please try again."`. */
  function DisplayedError(message: string): (m: string)
    ensures m != ""
    ensures Truthy(message) ==> m == message
    ensures !Truthy(message) ==> m == FormFallback
  {
    if Truthy(message) then message else FormFallback
  }

  /** With the summarize wrapper of this application every rejection carries a non-empty
      message, so the form shows that message and never its own fallback text. */
  lemma FallbackNeverDisplayed(reply: SummarizeClient.Reply)
    ensures var r := SummarizeClient.Resolve(reply);
            r.Err? ==> DisplayedError(r.error) == r.error
  {
  }

  class NoteForm {
    var title: string
    var content: string
    var summary: string
    /** `null` in the source is `None`. */
    var error: Option<string>
    /** The `isSubmitting` prop, which the parent changes between renders. */
    var isSubmitting: bool
    /** `initialData?.id`, which selects the button label. */
    const initialId: Option<string>

    constructor (initialData: Option<InitialData>, isSubmitting: bool)
      ensures title == InitialField(initialData, (d: InitialData) => d.title)
      ensures content == InitialField(initialData, (d: InitialData) => d.content)
      ensures summary == InitialField(initialData, (d: InitialData) => d.summary)
      ensures error == None && this.isSubmitting == isSubmitting
      ensures initialId == if initialData.Some? then initialData.value.id else None
    {
      title := InitialField(initialData, (d: InitialData) => d.title);
      content := InitialField(initialData, (d: InitialData) => d.content);
      summary := InitialField(initialData, (d: InitialData) => d.summary);
      error := None;
      this.isSubmitting := isSubmitting;
      initialId := if initialData.Some? then initialData.value.id else None;
    }

    /** The inputs' `onChange` handlers and a new `isSubmitting` prop. */
    method SetTitle(value: string)
      modifies this`title
      ensures title == value
    {
      title := value;
    }

    method SetContent(value: string)
      modifies this`content
      ensures content == value
    {
      content := value;
    }

    method SetSummary(value: string)
      modifies this`summary
      ensures summary == value
    {
      summary := value;
    }

    method SetSubmitting(value: bool)
      modifies this`isSubmitting
      ensures isSubmitting == value
    {
      isSubmitting := value;
    }

    /** `handleSubmit`: clears the error, then reports the first failed check; when both pass it
        hands the untrimmed title and content and the current summary to `onSubmit`, whose
        argument is the result here. */
    method Submit() returns (submitted: Option<NotesRepository.NoteInput>)
      modifies this`error
      ensures error == Validate(title, content)
      ensures submitted.Some? <==> error.None?
      ensures submitted.Some? ==> submitted.value == NotesRepository.NoteInput(title, content, Some(summary))
    {
      error := None;
      if Trim(title) == "" {
        error := Some(TitleRequired);
        return None;
      }
      if Trim(content) == "" {
        error := Some(ContentRequired);
        return None;
      }
      submitted := Some(NotesRepository.NoteInput(title, content, Some(summary)));
    }

    /** `handleSummarize`: blank content is reported without a request; otherwise the error is
        cleared, the content is sent, and the outcome either replaces the summary or sets the
        error and leaves the summary as it was. `reply` is how the request settles. */
    method Summarize(reply: SummarizeClient.Reply) returns (request: Option<SummarizeClient.ApiRequest>)
      modifies this`error, this`summary
      ensures IsBlank(content) ==> request.None? && error == Some(NeedContent) && summary == old(summary)
      ensures !IsBlank(content) ==>
                request.Some? && request.value.path == SummarizeClient.ApiPath && request.value.text == content
      ensures !IsBlank(content) && SummarizeClient.Resolve(reply).Ok? ==>
                summary == SummarizeClient.Resolve(reply).value && error.None?
      ensures !IsBlank(content) && SummarizeClient.Resolve(reply).Err? ==>
                summary == old(summary) && error == Some(DisplayedError(SummarizeClient.Resolve(reply).error))
    {
      TrimEmptyIffBlank(content);
      if Trim(content) == "" {
        error := Some(NeedContent);
        return None;
      }
      error := None;
      request := Some(SummarizeClient.Request(content));
      var result := SummarizeClient.Resolve(reply);
      match result
      case Ok(s) =>
        summary := s;
      case Err(m) =>
        error := Some(DisplayedError(m));
    }

    /** `disabled={isSubmitting || !title.trim() || !content.trim()}`, negated. */
    function SubmitEnabled(): (r: bool)
      reads this
      ensures r <==> !isSubmitting && Validate(title, content).None?
    {
      TrimEmptyIffBlank(title);
      TrimEmptyIffBlank(content);
      !isSubmitting && Trim(title) != "" && Trim(content) != ""
    }

    /** `content.trim().length > 0`: the summarize button is shown exactly when summarizing
        would send a request. */
    function SummarizeVisible(): (r: bool)
      reads this
      ensures r <==> !IsBlank(content)
    {
      TrimEmptyIffBlank(content);
      |Trim(content)| > 0
    }

    /** The submit button's label: "Update Note" exactly when the form edits a note with an id. */
    function SubmitLabel(): (r: string)
      reads this
      ensures r == UpdateLabel <==> initialId.Some? && Truthy(initialId.value)
      ensures r == UpdateLabel || r == CreateLabel
    {
      if initialId.Some? && Truthy(initialId.value) then UpdateLabel else CreateLabel
    }
  }
}
