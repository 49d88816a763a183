/**
 * The report dialog (components/ReportModal.tsx): a reason field whose
 * submission is refused while it is blank.
 */
module ReportModal {
  import opened Types
  import Text

  /** The dialog's heading, or None: a closed dialog renders nothing. */
  function Heading(isOpen: bool, kind: ContentKind): (h: Option<string>)
    ensures h.None? <==> !isOpen
    ensures h.Some? ==> Text.StartsWith(h.value, "Report ")
  {
    if isOpen then Some("Report " + KindName(kind)) else None
  }

  class Dialog {
    var reason: string

    constructor ()
      ensures reason == ""
      ensures SubmitDisabled()
    {
      reason := "";
    }

    /** The textarea's `onChange`. */
    method SetReason(text: string)
      modifies this
      ensures reason == text
      ensures SubmitDisabled() <==> Text.IsBlank(text)
    {
      reason := text;
    }

    /**
     * The submit button is disabled exactly while the trimmed reason is
     * empty: an empty field keeps it disabled, and an enabled button means
     * the reason holds a visible character.
     */
    function SubmitDisabled(): (d: bool)
      reads this
      ensures reason == "" ==> d
      ensures !d <==> exists i :: 0 <= i < |reason| && !Text.IsSpace(reason[i])
    {
      Text.IsBlank(reason)
    }

    /**
     * `handleSubmit`: a reason that is not blank is passed on untrimmed
     * (returned here as what `onSubmit` receives) and the field is cleared;
     * a blank one is neither passed on nor cleared.
     */
    method Submit() returns (submitted: Option<string>)
      modifies this
      ensures submitted.Some? <==> !old(SubmitDisabled())
      ensures submitted.Some? ==> submitted.value == old(reason) && reason == ""
      ensures submitted.None? ==> reason == old(reason)
      ensures submitted.Some? ==> SubmitDisabled()
    {
      if !Text.IsBlank(reason) {
        submitted := Some(reason);
        reason := "";
      } else {
        submitted := None;
      }
    }
  }
}
