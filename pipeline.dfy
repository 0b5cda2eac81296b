/** The two halves together: what the client lets through, the server accepts,
    and how the server's answer drives the form. */
module Pipeline {
  import opened Contact
  import opened Route
  import opened ContactForm

  /** The client schema is at least as strict as the server's: every set of
      values the form lets through passes server validation, and the server
      parses the posted JSON back to exactly those values. */
  lemma ClientValidIsServerValid(v: Submission, isEmail: EmailPredicate)
    requires ClientAccepts(v, isEmail)
    ensures ServerAccepts(v, isEmail)
    ensures ServerParse(Encode(v), isEmail) == Some(v)
  {
    DecodeEncode(v);
  }

  /** The converse fails: the server accepts a two-letter subject and a
      five-letter message that the form would refuse. */
  lemma ServerLooserThanClient(isEmail: EmailPredicate, email: string)
    requires isEmail(email)
    ensures ServerAccepts(Submission("Jo", email, "Hi", "Hello"), isEmail)
    ensures !ClientAccepts(Submission("Jo", email, "Hi", "Hello"), isEmail)
  {
  }

  /** A post from the form never gets 400: what the client sends always
      passes the server schema, so the request reaches the configuration
      check, and with configuration present it reaches the provider exactly
      once with the form's values; the answer is 2xx exactly when the
      provider's is. */
  lemma ClientPostOutcome(v: Submission, isEmail: EmailPredicate, env: Env, reply: ProviderReply)
    requires ClientAccepts(v, isEmail)
    ensures var h := Post(Parsed(Encode(v)), env, isEmail, reply);
      && h.response.status != 400
      && (LoadConfig(env).None? ==> h.response == Response(500, ErrorMessage(ConfigError)) && h.calls == [])
      && (LoadConfig(env).Some? ==>
            && h.calls == [ProviderCall(SendUrl, LoadConfig(env).value.apiKey, LoadConfig(env).value.apiSecret,
                                         Compose(v, LoadConfig(env).value))]
            && (IsOk(h.response.status) <==> reply.Reply? && IsOk(reply.status)))
  {
    ClientValidIsServerValid(v, isEmail);
    var h := Post(Parsed(Encode(v)), env, isEmail, reply);
    assert IsOk(h.response.status) <==> h.response.status == 200;
  }

  /** One round trip through both halves: the form posts its values, the
      handler answers, and the form settles on that answer. The fields are
      reset exactly when the submission was valid, configuration was present
      and the provider accepted the batch; otherwise they are kept. */
  method RoundTrip(form: Form, env: Env, isEmail: EmailPredicate, reply: ProviderReply)
      returns (answer: Option<Handled>)
    modifies form
    ensures answer.Some? <==> !old(form.isSubmitting) && ClientAccepts(old(form.values), isEmail)
    ensures answer.Some? ==> answer.value == Post(Parsed(Encode(old(form.values))), env, isEmail, reply)
    ensures answer.Some? ==> !form.isSubmitting && form.posted == old(form.posted) + [Encode(old(form.values))]
    ensures answer.Some? ==> form.values == if LoadConfig(env).Some? && reply.Reply? && IsOk(reply.status)
                                            then DefaultValues else old(form.values)
    ensures answer.Some? ==> form.toasts == old(form.toasts) + [if LoadConfig(env).Some? && reply.Reply? && IsOk(reply.status)
                                                               then SentToast else FailedToast]
    ensures answer.None? ==> && form.values == old(form.values) && form.posted == old(form.posted)
                             && form.isSubmitting == old(form.isSubmitting) && form.toasts == old(form.toasts)
  {
    var sent := form.values;
    var started := form.Press(isEmail);
    if !started {
      return None;
    }
    var h := Post(Parsed(Encode(sent)), env, isEmail, reply);
    ClientPostOutcome(sent, isEmail, env, reply);
    form.Settle(Responded(h.response.status));
    answer := Some(h);
  }
}
