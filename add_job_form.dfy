/**
 * The add-application form: a blank form dated today, handlers that edit
 * one input at a time, and the submit that either reports the missing
 * names or builds the new application record.
 */
module AddJobForm {
  import opened Wrappers
  import opened Types
  import opened Decimal
  import opened JobForm

  /** The error the submit reports when a required name is empty. */
  const REQUIRED_MESSAGE: string := "Company name and job title are required."

  /** `job-${Date.now()}`. */
  function NewJobId(clock: nat): string {
    "job-" + NatToString(clock)
  }

  /** Submits at different clock readings give different ids. */
  lemma NewJobIdInjective(a: nat, b: nat)
    ensures NewJobId(a) == NewJobId(b) <==> a == b
  {
    PrefixedNumeralInjective("job-", a, b);
  }

  /** `{ id, ...formData, lastUpdated }`: the form's fields copied as they
      are (the optional text fields present even when empty), no follow-up
      date, last updated at `now`. */
  function NewJob(form: FormData, clock: nat, now: int): Job {
    Job(NewJobId(clock), form.companyName, form.jobTitle, form.dateApplied,
        Some(form.jobLink), Some(form.resumeText), form.status, Some(form.notes),
        None, now)
  }

  /** The add form's state. */
  class Form {
    var formData: FormData

    /** The blank form: empty inputs, status interested, dated today. */
    constructor(now: int)
      ensures formData == FormData("", "", DayStart(now), "", Interested, "", "")
    {
      formData := FormData("", "", DayStart(now), "", Interested, "", "");
    }

    /** `handleInputChange` for a text input. */
    method HandleInputChange(field: TextField, value: string)
      modifies this
      ensures formData == SetText(old(formData), field, value)
    {
      formData := SetText(formData, field, value);
    }

    /** `handleInputChange` for the date input, given the day it now shows. */
    method HandleDateChange(day: int)
      modifies this
      ensures formData == old(formData).(dateApplied := DayStart(day))
    {
      formData := formData.(dateApplied := DayStart(day));
    }

    /** `handleStatusChange`: only the status changes. */
    method HandleStatusChange(s: JobStatus)
      modifies this
      ensures formData == old(formData).(status := s)
    {
      formData := formData.(status := s);
    }

    /** `handleSubmit`: refused, with the error, when a name is empty (only
        emptiness is tested); otherwise the record handed to `onAddJob`. */
    method HandleSubmit(clock: nat, now: int) returns (r: Result<Job, string>)
      ensures r.Failure? <==> formData.companyName == "" || formData.jobTitle == ""
      ensures r.Failure? ==> r.error == REQUIRED_MESSAGE
      ensures r.Success? ==> r.value == NewJob(formData, clock, now)
      ensures r.Success? ==> r.value.id == NewJobId(clock) && r.value.lastUpdated == now
    {
      if formData.companyName == "" || formData.jobTitle == "" {
        return Failure(REQUIRED_MESSAGE);
      }
      r := Success(NewJob(formData, clock, now));
    }
  }
}
