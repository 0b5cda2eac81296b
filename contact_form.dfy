/** The client side of the contact pipeline: the form controller. Its schema
    is checked before the submit callback runs; the callback marks the form as
    submitting, posts the four values, and on a 2xx reply shows a success
    notification and resets the fields, otherwise shows a failure notification
    and keeps them; in every case it clears the submitting flag. */
module ContactForm {
  import opened Contact

  // ---------------------------------------------------------------------------
  // Client schema and defaults
  // ---------------------------------------------------------------------------

  const ClientMinName := 2
  const ClientMinSubject := 3
  const ClientMinMessage := 10

  /** The constraints of the client schema on the four field values. */
  predicate ClientAccepts(v: Submission, isEmail: EmailPredicate): (ok: bool)
    ensures ok <==> |v.name| >= 2 && isEmail(v.email) && |v.subject| >= 3 && |v.message| >= 10
  {
    && |v.name| >= ClientMinName
    && isEmail(v.email)
    && |v.subject| >= ClientMinSubject
    && |v.message| >= ClientMinMessage
  }

  /** The values the form starts with and is reset to. */
  const DefaultValues := Submission("", "", "", "")

  /** The default values are not submittable: the schema rejects them, so an
      untouched or freshly reset form never posts. */
  lemma DefaultsRejected(isEmail: EmailPredicate)
    ensures !ClientAccepts(DefaultValues, isEmail)
  {
  }

  // ---------------------------------------------------------------------------
  // Fetch outcome and notifications
  // ---------------------------------------------------------------------------

  /** The result of posting to the contact endpoint: an HTTP status, or a
      fetch that threw. */
  datatype FetchOutcome = Responded(status: int) | FetchFailed

  /** `response.ok` held. */
  predicate Succeeded(outcome: FetchOutcome) {
    outcome.Responded? && IsOk(outcome.status)
  }

  datatype Toast = Toast(title: string, description: string, destructive: bool)

  const SentToast := Toast("Message sent", "We\U{2019}ll be in touch shortly.", false)
  const FailedToast := Toast("Something went wrong", "Please try again or email " + Inbox + ".", true)

  /** The failure notification is the destructive one and names the fallback inbox. */
  lemma FailedToastNamesInbox()
    ensures FailedToast.destructive && !SentToast.destructive
    ensures IsInfix(Inbox, FailedToast.description)
  {
    InfixAtStart(Inbox, ".");
    InfixAfterPrefix(Inbox, "Please try again or email ", Inbox + ".");
    assert FailedToast.description == "Please try again or email " + (Inbox + ".");
  }

  /** The four input fields of the form. */
  datatype Field = Name | Email | Subject | Message

  /** `v` with one field replaced. */
  function WithField(v: Submission, f: Field, text: string): (r: Submission)
    ensures f == Name ==> r == v.(name := text)
    ensures f == Email ==> r == v.(email := text)
    ensures f == Subject ==> r == v.(subject := text)
    ensures f == Message ==> r == v.(message := text)
  {
    match f
    case Name => v.(name := text)
    case Email => v.(email := text)
    case Subject => v.(subject := text)
    case Message => v.(message := text)
  }

  // ---------------------------------------------------------------------------
  // The form controller
  // ---------------------------------------------------------------------------

  /** The state of one rendered contact form: its field values, the
      submitting flag, the notifications shown and the bodies posted. */
  class Form {
    var values: Submission
    var isSubmitting: bool
    var toasts: seq<Toast>
    var posted: seq<Json>

    constructor ()
      ensures values == DefaultValues && !isSubmitting
      ensures toasts == [] && posted == []
    {
      values := DefaultValues;
      isSubmitting := false;
      toasts := [];
      posted := [];
    }

    /** The submit button is disabled exactly while a submission is in flight. */
    predicate SubmitDisabled(): (disabled: bool)
      reads this
      ensures disabled <==> isSubmitting
    {
      isSubmitting
    }

    /** The user types into one field; typing is possible while submitting. */
    method Edit(f: Field, text: string)
      modifies this
      ensures values == WithField(old(values), f, text)
      ensures isSubmitting == old(isSubmitting) && toasts == old(toasts) && posted == old(posted)
    {
      values := WithField(values, f, text);
    }

    /** The user presses the submit button. A disabled button does nothing;
        values the client schema rejects show inline errors and post nothing;
        otherwise the callback starts: the form is marked submitting and the
        four values are posted as JSON. */
    method Press(isEmail: EmailPredicate) returns (started: bool)
      modifies this
      ensures started <==> !old(isSubmitting) && ClientAccepts(old(values), isEmail)
      ensures started ==> isSubmitting && posted == old(posted) + [Encode(old(values))]
      ensures !started ==> isSubmitting == old(isSubmitting) && posted == old(posted)
      ensures values == old(values) && toasts == old(toasts)
    {
      if SubmitDisabled() || !ClientAccepts(values, isEmail) {
        return false;
      }
      isSubmitting := true;
      posted := posted + [Encode(values)];
      started := true;
    }

    /** The callback resumes once the post has an outcome. On a 2xx reply the
        success notification is shown and the fields are reset to their
        defaults; on any other reply or a failed fetch the failure
        notification is shown and the fields are kept. Either way the
        submitting flag is cleared. */
    method Settle(outcome: FetchOutcome)
      modifies this
      ensures !isSubmitting
      ensures Succeeded(outcome) ==> values == DefaultValues && toasts == old(toasts) + [SentToast]
      ensures !Succeeded(outcome) ==> values == old(values) && toasts == old(toasts) + [FailedToast]
      ensures posted == old(posted)
    {
      if Succeeded(outcome) {
        toasts := toasts + [SentToast];
        values := DefaultValues;
      } else {
        toasts := toasts + [FailedToast];
      }
      isSubmitting := false;
    }

    /** A whole submission without edits while it is in flight: press, and if
        the callback started, settle with the outcome. The button is disabled
        while the post is in flight, and enabled again afterwards. */
    method Submit(outcome: FetchOutcome, isEmail: EmailPredicate) returns (started: bool)
      modifies this
      ensures started <==> !old(isSubmitting) && ClientAccepts(old(values), isEmail)
      ensures started ==> && !isSubmitting && !SubmitDisabled()
                          && posted == old(posted) + [Encode(old(values))]
                          && values == (if Succeeded(outcome) then DefaultValues else old(values))
                          && toasts == old(toasts) + [if Succeeded(outcome) then SentToast else FailedToast]
      ensures !started ==> && values == old(values) && isSubmitting == old(isSubmitting)
                           && toasts == old(toasts) && posted == old(posted)
    {
      started := Press(isEmail);
      if started {
        assert SubmitDisabled();
        Settle(outcome);
      }
    }
  }
}
