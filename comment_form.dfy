/** The comment form: a text area and a submit button, with the guard that
    refuses a submission by a signed-out user, of blank text, or while an
    earlier submission is in flight. */
module CommentFormModel {
  import opened Wrappers
  import opened Strings
  import opened CommentsCache

  class CommentForm {
    var content: string
    var isSubmitting: bool

    constructor ()
      ensures content == "" && !isSubmitting
    {
      content := "";
      isSubmitting := false;
    }

    /** The submit button's `disabled`: signed out, submitting, or text of
        white space alone. */
    function SubmitDisabled(signedIn: bool): (d: bool)
      reads this
      ensures d <==> !signedIn || isSubmitting || AllWhiteSpace(content)
    {
      TrimEmptyIff(content);
      !signedIn || isSubmitting || Trim(content) == ""
    }

    /** The text area's `disabled`: blank text does not lock it, and it is
        never locked while the button is enabled. */
    function TextareaDisabled(signedIn: bool): (d: bool)
      reads this
      ensures d ==> SubmitDisabled(signedIn)
      ensures signedIn && !isSubmitting ==> !d
    {
      !signedIn || isSubmitting
    }

    /** Typing into the text area. */
    method Edit(text: string)
      modifies this
      ensures content == text && isSubmitting == old(isSubmitting)
    {
      content := text;
    }

    /** The first half of `handleSubmit`: when the guard lets it through, the
        form is marked as submitting and the trimmed text is handed to
        `onSubmit`. It goes through exactly when the button is enabled, and
        what it hands on is never blank and never padded. */
    method BeginSubmit(signedIn: bool) returns (sent: Option<string>)
      modifies this
      ensures sent.Some? <==> !old(SubmitDisabled(signedIn))
      ensures sent.None? ==> content == old(content) && isSubmitting == old(isSubmitting)
      ensures sent.Some? ==>
                && sent.value == Trim(old(content))
                && sent.value != "" && !IsWhiteSpace(sent.value[0]) && !IsWhiteSpace(sent.value[|sent.value| - 1])
                && content == old(content) && isSubmitting
    {
      if !signedIn || Trim(content) == "" || isSubmitting {
        return None;
      }
      isSubmitting := true;
      sent := Some(Trim(content));
    }

    /** The second half, the `finally` included: the text is cleared only
        when `onSubmit` reports success, and the form leaves the submitting
        state whatever happened, even when `onSubmit` threw (`None`). */
    method FinishSubmit(result: Option<Outcome>)
      modifies this
      ensures !isSubmitting
      ensures result == Some(Success) ==> content == ""
      ensures result != Some(Success) ==> content == old(content)
    {
      if result == Some(Success) {
        content := "";
      }
      isSubmitting := false;
    }
  }

  /** A text of white space alone is refused even though it is not empty. */
  lemma BlankTextIsRefused(form: CommentForm, signedIn: bool)
    requires AllWhiteSpace(form.content)
    ensures form.SubmitDisabled(signedIn)
  {
    TrimEmptyIff(form.content);
  }
}
