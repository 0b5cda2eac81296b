/** The data shared by the two halves of the contact pipeline: the submission
    entity, the abstract JSON value that carries it over HTTP, and the small
    string and status helpers both sides use. */
module Contact {

  datatype Option<+T> = None | Some(value: T)

  /** One contact-form submission: the four text fields both schemas describe. */
  datatype Submission = Submission(name: string, email: string, subject: string, message: string)

  /** A JSON value as far as the pipeline looks at it: strings and objects are
      told apart, every other JSON value (number, boolean, null, array) is one
      opaque kind. */
  datatype Json = JString(s: string) | JObject(fields: map<string, Json>) | JOther

  /** The email-address grammar of the validation library. It is not visible
      here, so both schemas take it as a parameter and agree on it. */
  type EmailPredicate = string -> bool

  /** The keys of a serialised submission. */
  const FieldKeys: set<string> := {"name", "email", "subject", "message"}

  /** The fixed company inbox: recipient of the notification email and the
      fallback address named to the user when sending fails. */
  const Inbox := "info@avunculargroup.com"

  /** `response.ok` of the Fetch standard: the status is in the 2xx range. */
  predicate IsOk(status: int) {
    200 <= status <= 299
  }

  /** `needle` occurs as a contiguous piece of `hay`. */
  ghost predicate IsInfix(needle: string, hay: string) {
    exists k :: OccursAt(needle, hay, k)
  }

  /** `needle` occurs in `hay` starting at index `k`. */
  predicate OccursAt(needle: string, hay: string, k: int) {
    0 <= k <= |hay| - |needle| && hay[k..k + |needle|] == needle
  }

  /** A string is an infix of itself followed by anything. */
  lemma InfixAtStart(needle: string, rest: string)
    ensures IsInfix(needle, needle + rest)
  {
    assert OccursAt(needle, needle + rest, 0);
  }

  /** An infix stays an infix when text is put in front. */
  lemma InfixAfterPrefix(needle: string, prefix: string, hay: string)
    requires IsInfix(needle, hay)
    ensures IsInfix(needle, prefix + hay)
  {
    var k :| OccursAt(needle, hay, k);
    assert (prefix + hay)[|prefix| + k..|prefix| + k + |needle|] == hay[k..k + |needle|];
    assert OccursAt(needle, prefix + hay, |prefix| + k);
  }

  /** The JSON object the client serialises its four field values to. */
  function Encode(v: Submission): (j: Json)
    ensures j.JObject? && j.fields.Keys == FieldKeys
    ensures forall k :: k in j.fields ==> j.fields[k].JString?
  {
    JObject(map["name" := JString(v.name), "email" := JString(v.email),
                "subject" := JString(v.subject), "message" := JString(v.message)])
  }

  /** The string held under `key`, if there is one. */
  function StringField(fields: map<string, Json>, key: string): Option<string>
  {
    if key in fields && fields[key].JString? then Some(fields[key].s) else None
  }

  /** The shape part of an object schema of four string fields: the value must
      be an object whose four keys hold strings; other keys are dropped. */
  function Decode(j: Json): (r: Option<Submission>)
    ensures r.Some? <==> j.JObject? && forall k :: k in FieldKeys ==> StringField(j.fields, k).Some?
    ensures r.Some? ==>
      && r.value.name == j.fields["name"].s && r.value.email == j.fields["email"].s
      && r.value.subject == j.fields["subject"].s && r.value.message == j.fields["message"].s
  {
    if j.JObject? then
      match (StringField(j.fields, "name"), StringField(j.fields, "email"),
             StringField(j.fields, "subject"), StringField(j.fields, "message"))
      case (Some(n), Some(e), Some(s), Some(m)) => Some(Submission(n, e, s, m))
      case _ => None
    else None
  }

  /** Decoding what the client encodes gives back the four values. */
  lemma DecodeEncode(v: Submission)
    ensures Decode(Encode(v)) == Some(v)
  {
    var f := Encode(v).fields;
    assert StringField(f, "name") == Some(v.name);
    assert StringField(f, "email") == Some(v.email);
    assert StringField(f, "subject") == Some(v.subject);
    assert StringField(f, "message") == Some(v.message);
  }

  /** Decoding keeps exactly the four known fields: re-encoding the decoded
      submission gives the input object with every unknown key removed. */
  lemma EncodeDecodeStrips(j: Json)
    requires Decode(j).Some?
    ensures Encode(Decode(j).value) == JObject(map k | k in j.fields && k in FieldKeys :: j.fields[k])
  {
    var e := Encode(Decode(j).value).fields;
    var kept := map k | k in j.fields && k in FieldKeys :: j.fields[k];
    forall k | k in FieldKeys
      ensures StringField(j.fields, k).Some?
    {
    }
    assert e.Keys == kept.Keys;
    forall k | k in e
      ensures e[k] == kept[k]
    {
      assert StringField(j.fields, k).Some?;
    }
  }
}
