/**
 * The creation form of src/components/NewIncidentForm.tsx: three fields set
 * by the inputs, and a submit handler that checks them, hands a draft to
 * the page and clears them. The draft handed over is the handler's result
 * (`None` when `onSubmit` is not called); the current time is a parameter.
 */
module NewIncidentForm {
  import opened Wrappers
  import opened IncidentTypes
  import JsString

  /** The guard of line 30: `!title.trim() || !description.trim()`. */
  predicate Rejects(title: string, description: string) {
    JsString.Trim(title) == [] || JsString.Trim(description) == []
  }

  /** A field that is empty or only white space fails the check; any other text passes. */
  lemma RejectsIffBlank(title: string, description: string)
    ensures Rejects(title, description) <==> JsString.Blank(title) || JsString.Blank(description)
  {
    JsString.TrimEmptyIffBlank(title);
    JsString.TrimEmptyIffBlank(description);
  }

  class Form {
    var title: string
    var description: string
    var severity: Severity

    /** The initial state of lines 23-25. */
    constructor ()
      ensures title == "" && description == "" && severity == Low
    {
      title, description, severity := "", "", Low;
    }

    /** `setTitle`, from the title input. */
    method SetTitle(t: string)
      modifies this
      ensures title == t && description == old(description) && severity == old(severity)
    {
      title := t;
    }

    /** `setDescription`, from the description input. */
    method SetDescription(d: string)
      modifies this
      ensures description == d && title == old(title) && severity == old(severity)
    {
      description := d;
    }

    /** `setSeverity`, from the severity selector. */
    method SetSeverity(v: Severity)
      modifies this
      ensures severity == v && title == old(title) && description == old(description)
    {
      severity := v;
    }

    /**
     * `handleSubmit` (lines 27-55). A rejected submission emits nothing and
     * leaves the fields as they were; an accepted one emits exactly one
     * draft (no id, the fields untrimmed, `reported_at` the current time,
     * no optional field) and then resets the fields.
     */
    method HandleSubmit(now: int) returns (submitted: Option<Draft>)
      modifies this
      ensures Rejects(old(title), old(description)) ==>
                submitted == None &&
                title == old(title) && description == old(description) && severity == old(severity)
      ensures !Rejects(old(title), old(description)) ==>
                submitted == Some(Draft(old(title), old(description), old(severity), now,
                                        None, None, None, None, None, None)) &&
                title == "" && description == "" && severity == Low
    {
      if JsString.Trim(title) == [] || JsString.Trim(description) == [] {
        return None;
      }
      var newIncident := Draft(title, description, severity, now, None, None, None, None, None, None);
      submitted := Some(newIncident);
      title := "";
      description := "";
      severity := Low;
    }
  }
}
