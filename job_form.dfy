/**
 * The job form shared by the add page and the edit dialog: every input's
 * current value, and the handlers that replace one of them.
 */
module JobForm {
  import opened Types

  /** The text inputs, by their `name` attribute. */
  datatype TextField = CompanyNameInput | JobTitleInput | JobLinkInput | ResumeTextInput | NotesInput

  /** The form state. The date input is held as the midnight of the day it
      shows; the status select as the status it shows. */
  datatype FormData = FormData(
    companyName: string,
    jobTitle: string,
    dateApplied: int,
    jobLink: string,
    status: JobStatus,
    resumeText: string,
    notes: string)

  /** The string a text input shows. */
  function TextValue(f: FormData, field: TextField): string {
    match field
    case CompanyNameInput => f.companyName
    case JobTitleInput => f.jobTitle
    case JobLinkInput => f.jobLink
    case ResumeTextInput => f.resumeText
    case NotesInput => f.notes
  }

  /** `{ ...prev, [name]: value }`: the named input takes the typed value,
      every other input keeps its own. */
  function SetText(f: FormData, field: TextField, value: string): (r: FormData)
    ensures TextValue(r, field) == value
    ensures forall other :: other != field ==> TextValue(r, other) == TextValue(f, other)
    ensures r.dateApplied == f.dateApplied && r.status == f.status
  {
    match field
    case CompanyNameInput => f.(companyName := value)
    case JobTitleInput => f.(jobTitle := value)
    case JobLinkInput => f.(jobLink := value)
    case ResumeTextInput => f.(resumeText := value)
    case NotesInput => f.(notes := value)
  }

  /** Typing into an input twice leaves the later value; retyping what an
      input already shows changes nothing. */
  lemma SetTextLaterWins(f: FormData, field: TextField, v: string, w: string)
    ensures SetText(SetText(f, field, v), field, w) == SetText(f, field, w)
    ensures SetText(f, field, TextValue(f, field)) == f
  {
  }

  /** Inputs of different names do not interfere: the order of two edits
      to different inputs does not matter. */
  lemma SetTextCommutes(f: FormData, a: TextField, v: string, b: TextField, w: string)
    requires a != b
    ensures SetText(SetText(f, a, v), b, w) == SetText(SetText(f, b, w), a, v)
  {
  }
}
