/**
 * One application's card: the shortened link it shows, the edit dialog's
 * form and the record an edit submits, and the delete button.
 */
module JobCard {
  import opened Wrappers
  import opened Types
  import opened Text
  import opened JobForm
  import opened AddJobForm

  /** The longest link shown in full. */
  const LINK_LIMIT: nat := 40

  /** The link text: short links as they are, longer ones cut to their
      first forty characters followed by an ellipsis. */
  function LinkText(link: string): (r: string)
    ensures |link| <= LINK_LIMIT ==> r == link
    ensures |link| > LINK_LIMIT ==> |r| == LINK_LIMIT + 3 && r[..LINK_LIMIT] == link[..LINK_LIMIT] && r[LINK_LIMIT..] == "..."
    ensures |r| <= LINK_LIMIT + 3
  {
    if |link| > LINK_LIMIT then link[..LINK_LIMIT] + "..." else link
  }

  /** The link line appears only for a set, non-empty link. */
  function ShownLink(job: Job): (r: Option<string>)
    ensures r.Some? <==> job.jobLink.Some? && job.jobLink.value != ""
    ensures r.Some? ==> r.value == LinkText(job.jobLink.value)
  {
    if job.jobLink.Some? && job.jobLink.value != "" then Some(LinkText(job.jobLink.value)) else None
  }

  /** The edit form as first shown: the job's values, an absent optional
      field as the empty string, the date as the midnight of its day. */
  function EditFormOf(job: Job): FormData {
    FormData(job.companyName, job.jobTitle, DayStart(job.dateApplied), job.jobLink.GetOr(""),
             job.status, job.resumeText.GetOr(""), job.notes.GetOr(""))
  }

  /** The record an edit submits: the job with the form's values laid over
      it (names trimmed), last updated at `now`. */
  function EditedJob(job: Job, form: FormData, now: int): Job {
    job.(companyName := Trim(form.companyName), jobTitle := Trim(form.jobTitle),
         dateApplied := form.dateApplied, jobLink := Some(form.jobLink), status := form.status,
         resumeText := Some(form.resumeText), notes := Some(form.notes), lastUpdated := now)
  }

  /** What an edit keeps and what it takes from the form, as a card mounted
      on the edited record shows it: names trimmed, the date at midnight.
      The card that submitted the edit stays mounted and keeps the form as
      typed (`Card.SubmitEdit` leaves `editForm` alone). */
  lemma EditedJobFields(job: Job, form: FormData, now: int)
    ensures EditedJob(job, form, now).id == job.id
    ensures EditedJob(job, form, now).followUpDate == job.followUpDate
    ensures EditFormOf(EditedJob(job, form, now)) ==
      form.(companyName := Trim(form.companyName), jobTitle := Trim(form.jobTitle),
            dateApplied := DayStart(form.dateApplied))
  {
  }

  /** A card mounted on the edited record opens on the edited values, names
      trimmed; submitting that form again changes nothing more than the time
      stamp. */
  lemma {:induction false} EditReopens(job: Job, form: FormData, now: int, later: int)
    requires DayStart(form.dateApplied) == form.dateApplied
    ensures EditedJob(EditedJob(job, form, now), EditFormOf(EditedJob(job, form, now)), later) ==
      EditedJob(job, form, later)
  {
    TrimIdempotent(form.companyName);
    TrimIdempotent(form.jobTitle);
  }

  /** Submitting the dialog untouched gives back the job itself, stamped
      `now`, when its names are already trimmed, its optional text fields
      are set and it is dated at midnight. */
  lemma UntouchedEdit(job: Job, now: int)
    requires Trim(job.companyName) == job.companyName && Trim(job.jobTitle) == job.jobTitle
    requires job.jobLink.Some? && job.resumeText.Some? && job.notes.Some?
    requires DayStart(job.dateApplied) == job.dateApplied
    ensures EditedJob(job, EditFormOf(job), now) == job.(lastUpdated := now)
  {
  }

  /** A name of nothing but white space is saved as the empty string: the
      edit, unlike the add form, has no required-name check. */
  lemma BlankNameSavedEmpty(job: Job, form: FormData, now: int)
    requires AllWhitespace(form.companyName)
    ensures EditedJob(job, form, now).companyName == ""
  {
  }

  /** A job made by the add form opens in the edit dialog showing the very
      form it was made from. */
  lemma AddedJobReopens(form: FormData, clock: nat, now: int)
    requires DayStart(form.dateApplied) == form.dateApplied
    ensures EditFormOf(NewJob(form, clock, now)) == form
  {
  }

  /** The card's state: its job, the edit form and the two dialogs. */
  class Card {
    const job: Job
    var editForm: FormData
    var showEditDialog: bool
    var showViewDialog: bool

    constructor(job: Job)
      ensures this.job == job && editForm == EditFormOf(job)
      ensures !showEditDialog && !showViewDialog
    {
      this.job := job;
      editForm := EditFormOf(job);
      showEditDialog := false;
      showViewDialog := false;
    }

    /** The edit and view buttons and the dialogs' open-state changes. */
    method SetEditDialog(open: bool)
      modifies this
      ensures showEditDialog == open
      ensures editForm == old(editForm) && showViewDialog == old(showViewDialog)
    {
      showEditDialog := open;
    }

    method SetViewDialog(open: bool)
      modifies this
      ensures showViewDialog == open
      ensures editForm == old(editForm) && showEditDialog == old(showEditDialog)
    {
      showViewDialog := open;
    }

    /** Typing into one of the dialog's text inputs. */
    method EditText(field: TextField, value: string)
      modifies this
      ensures editForm == SetText(old(editForm), field, value)
      ensures showEditDialog == old(showEditDialog) && showViewDialog == old(showViewDialog)
    {
      editForm := SetText(editForm, field, value);
    }

    /** Picking a day in the dialog's date input. */
    method EditDate(day: int)
      modifies this
      ensures editForm == old(editForm).(dateApplied := DayStart(day))
      ensures showEditDialog == old(showEditDialog) && showViewDialog == old(showViewDialog)
    {
      editForm := editForm.(dateApplied := DayStart(day));
    }

    /** Picking a status in the dialog. */
    method EditStatus(s: JobStatus)
      modifies this
      ensures editForm == old(editForm).(status := s)
      ensures showEditDialog == old(showEditDialog) && showViewDialog == old(showViewDialog)
    {
      editForm := editForm.(status := s);
    }

    /** The dialog's submit: the record handed once to `onEdit`, then the
        dialog closes; the form keeps what was typed. */
    method SubmitEdit(now: int) returns (edited: Job)
      modifies this
      ensures edited == EditedJob(job, old(editForm), now)
      ensures edited.id == job.id
      ensures !showEditDialog
      ensures editForm == old(editForm) && showViewDialog == old(showViewDialog)
    {
      edited := EditedJob(job, editForm, now);
      showEditDialog := false;
    }

    /** The delete button: the id handed to `onDelete`. */
    method Delete() returns (id: string)
      ensures id == job.id
    {
      id := job.id;
    }
  }
}
