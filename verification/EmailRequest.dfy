/** From an authorized action to a provider request (email/service.py:131-159, email/models.py:46-66). */
module EmailRequest {
  import opened Wrappers
  import opened Text
  import opened CanonicalJson
  import opened JsonLoads
  import opened CanonicalRoundTrip
  import opened Broker
  import opened BrokerRuns
  import EmailStore

  datatype RequestError = FingerprintDiffers | PayloadNotCanonical | PayloadInvalid | MessageInvalid

  /** A text field of the payload contract. */
  function TextField(entries: seq<PyEntry>, key: string, max: nat): Option<string> {
    match Lookup(entries, key)
    case Some(PyStr(text)) => if 1 <= |Trim(text)| <= max then Some(Trim(text)) else None
    case _ => None
  }

  predicate OnlyKeys(entries: seq<PyEntry>, keys: set<string>) {
    forall k :: 0 <= k < |entries| ==> entries[k].key.StrKey? && entries[k].key.s in keys
  }

  const SUBJECT_LIMIT := 998
  const BODY_LIMIT := 100_000

  /** `ApprovedEmailPayload.model_validate`: exactly three text fields, one mailbox, one subject line. */
  function ValidatePayload(normalize: string -> Option<string>, raw: PyValue, sender: string)
    : Option<EmailStore.EmailMessage>
  {
    match raw
    case PyDict(entries) =>
      (match (Lookup(entries, "to"), TextField(entries, "subject", SUBJECT_LIMIT),
              TextField(entries, "body", BODY_LIMIT))
       case (Some(PyStr(to)), Some(subject), Some(body)) =>
         if OnlyKeys(entries, {"to", "subject", "body"}) && normalize(Trim(to)).Some?
         && '\r' !in subject && '\n' !in subject
         then
           Some(EmailStore.EmailMessage(sender, normalize(Trim(to)).value, subject, body))
         else None
       case _ => None)
    case _ => None
  }

  /** The message contract normalizes both mailboxes once more; its refusal is an error of its own. */
  function WithMessage(normalize: string -> Option<string>, action: AuthorizedAction,
                       payload: Option<EmailStore.EmailMessage>)
    : Result<EmailStore.DispatchRequest, RequestError>
  {
    match payload
    case None => Err(PayloadInvalid)
    case Some(message) =>
      match (normalize(message.sender), normalize(message.recipient))
      case (Some(sender), Some(recipient)) =>
        Ok(EmailStore.DispatchRequest(action.intent.id, action.intent.idempotencyKey, action.intent.fingerprint,
                                      action.intent.createdAt, message.(sender := sender, recipient := recipient)))
      case _ => Err(MessageInvalid)
  }

  /** `_request`. */
  function BuildRequest(env: Env, normalize: string -> Option<string>, sender: string, action: AuthorizedAction)
    : Result<EmailStore.DispatchRequest, RequestError>
  {
    if env.sha(action.canonicalPayload) != action.intent.fingerprint then Err(FingerprintDiffers)
    else
      match Loads(action.canonicalPayload)
      case None => Err(PayloadInvalid)
      case Some(raw) =>
        match Canonical(raw)
        case Err(_) => Err(PayloadInvalid)
        case Ok(text) =>
          if text != action.canonicalPayload then Err(PayloadNotCanonical)
          else WithMessage(normalize, action, ValidatePayload(normalize, raw, sender))
  }

  // ----- Payloads of the broker -----

  /** For an action bound to canonical bytes, the fingerprint and canonicality checks never refuse:
      only the contents of the approved value decide. */
  lemma {:induction false} BoundActionReachesValidation(env: Env, normalize: string -> Option<string>, sender: string,
                                                        action: AuthorizedAction, payload: PyValue)
    requires Canonical(payload) == Ok(action.canonicalPayload)
    requires action.intent.fingerprint == env.sha(action.canonicalPayload)
    ensures Normalize(payload, "$").Ok?
    ensures BuildRequest(env, normalize, sender, action)
         == WithMessage(normalize, action,
                        ValidatePayload(normalize, ToPy(SortDeep(Normalize(payload, "$").value)), sender))
  {
    LoadsCanonical(payload);
    CanonicalIsIdempotent(payload);
  }

  /** So the sink accepts every action the broker authorizes, up to the mailbox contract. */
  lemma {:induction false} BrokerActionIsBound(env: Env, normalize: string -> Option<string>, sender: string,
                                               h: History, a: nat)
    requires IsHistory(env, h) && a < |h.ops| && h.ops[a].AuthorizeOp?
    requires Authorizes(env, h.states[a], h.ops[a], h.ops[a].permitId)
    ensures var built := BuildRequest(env, normalize, sender, ActionOf(env, h.states[a], h.ops[a]));
            built.Ok? || built == Err(PayloadInvalid) || built == Err(MessageInvalid)
    ensures exists payload :: Canonical(payload) == Ok(ActionOf(env, h.states[a], h.ops[a]).canonicalPayload)
  {
    var i := AuthorizedBytes(env, h, a, h.ops[a].permitId);
    var action := ActionOf(env, h.states[a], h.ops[a]);
    assert SinkAccepts(action.canonicalPayload);
    SinkAcceptsExactlyCanonical(action.canonicalPayload);
    hide IsHistory, Authorizes, ActionOf, ValidatePayload;
    var payload :| Canonical(payload) == Ok(action.canonicalPayload);
    BoundActionReachesValidation(env, normalize, sender, action, payload);
  }

  /** The payload `edit_proposal` builds (integration/service.py:483-487). */
  function EditedPayload(recipient: string, subject: string, body: string): PyValue {
    PyDict([PyEntry(StrKey("to"), PyStr(recipient)), PyEntry(StrKey("subject"), PyStr(subject)),
            PyEntry(StrKey("body"), PyStr(body))])
  }

  lemma {:induction false} NormalizeTextEntry(key: string, text: string, rest: seq<PyEntry>, done: seq<Field>)
    requires forall k :: 0 <= k < |done| ==> done[k].key != key
    ensures NormalizeEntries([PyEntry(StrKey(key), PyStr(text))] + rest, "$", done)
         == NormalizeEntries(rest, "$", done + [Field(key, JStr(text))])
  {
    var entries := [PyEntry(StrKey(key), PyStr(text))] + rest;
    assert entries[1..] == rest;
    assert Normalize(PyStr(text), "$" + "." + key) == Ok(JStr(text));
    assert NormalizeEntry(entries[0], "$") == Ok(JStr(text));
    PutAppends(done, key, JStr(text));
  }

  lemma NormalizeNoEntry(done: seq<Field>)
    ensures NormalizeEntries([], "$", done) == Ok(done)
  {}

  function EditedFields(recipient: string, subject: string, body: string): seq<Field> {
    [Field("body", JStr(body)), Field("subject", JStr(subject)), Field("to", JStr(recipient))]
  }

  lemma {:induction false} EditedPayloadSorted(recipient: string, subject: string, body: string)
    ensures Normalize(EditedPayload(recipient, subject, body), "$").Ok?
    ensures SortDeep(Normalize(EditedPayload(recipient, subject, body), "$").value)
         == JObj(EditedFields(recipient, subject, body))
  {
    hide SortFields, SortValues, NormalizeEntries;
    var to, sub, bod :=
      PyEntry(StrKey("to"), PyStr(recipient)), PyEntry(StrKey("subject"), PyStr(subject)),
      PyEntry(StrKey("body"), PyStr(body));
    var f, g, h := Field("to", JStr(recipient)), Field("subject", JStr(subject)), Field("body", JStr(body));
    NormalizeTextEntry("to", recipient, [sub, bod], []);
    NormalizeTextEntry("subject", subject, [bod], [f]);
    NormalizeTextEntry("body", body, [], [f, g]);
    NormalizeNoEntry([f, g, h]);
    assert [to] + [sub, bod] == [to, sub, bod] && [sub] + [bod] == [sub, bod] && [bod] + [] == [bod];
    assert [] + [f] == [f] && [f] + [g] == [f, g] && [f, g] + [h] == [f, g, h];
    SortsToEdited(f, g, h);
  }

  lemma {:induction false} SortsToEdited(f: Field, g: Field, h: Field)
    requires f.key == "to" && g.key == "subject" && h.key == "body" && f.value.JStr? && g.value.JStr? && h.value.JStr?
    ensures SortFields(SortValues([f, g, h])) == [h, g, f]
  {
    hide SortFields;
    assert SortValues([f, g, h]) == [f, g, h];
    var sorted := [h, g, f];
    assert Below("body", "subject") && Below("subject", "to") && Below("body", "to");
    assert SortedFields(sorted);
    assert DistinctFields([f, g, h]);
    SortFieldsOk([f, g, h]);
    SortedUnique(SortFields([f, g, h]), sorted);
  }

  lemma {:induction false} LookupStep(key: string, value: PyValue, rest: seq<PyEntry>, sought: string)
    ensures Lookup([PyEntry(StrKey(key), value)] + rest, sought) == if key
         == sought then Some(value) else Lookup(rest, sought)
  {
    assert ([PyEntry(StrKey(key), value)] + rest)[1..] == rest;
  }

  lemma {:induction false} LookupEdited(recipient: string, subject: string, body: string)
      returns (entries: seq<PyEntry>)
    ensures ToPy(JObj(EditedFields(recipient, subject, body))) == PyDict(entries)
    ensures Lookup(entries, "to") == Some(PyStr(recipient))
    ensures Lookup(entries, "subject") == Some(PyStr(subject))
    ensures Lookup(entries, "body") == Some(PyStr(body))
    ensures OnlyKeys(entries, {"to", "subject", "body"})
  {
    var bod, sub, to :=
      PyEntry(StrKey("body"), PyStr(body)), PyEntry(StrKey("subject"), PyStr(subject)),
      PyEntry(StrKey("to"), PyStr(recipient));
    var fields := EditedFields(recipient, subject, body);
    assert fields[1..] == [fields[1], fields[2]] && [fields[1], fields[2]][1..] == [fields[2]];
    assert [fields[2]][1..] == [];
    assert ToPy(JStr(body)) == PyStr(body) && ToPy(JStr(subject)) == PyStr(subject);
    assert ToPy(JStr(recipient)) == PyStr(recipient);
    assert ToPyEntry(fields[0]) == bod && ToPyEntry(fields[1]) == sub && ToPyEntry(fields[2]) == to;
    assert ToPyFields([fields[2]]) == [to] + [];
    assert ToPyFields([fields[1], fields[2]]) == [sub] + [to];
    entries := [bod] + ([sub] + ([to] + []));
    assert ToPyFields(fields) == entries;
    LookupStep("body", PyStr(body), [sub] + ([to] + []), "body");
    LookupStep("body", PyStr(body), [sub] + ([to] + []), "subject");
    LookupStep("body", PyStr(body), [sub] + ([to] + []), "to");
    LookupStep("subject", PyStr(subject), [to] + [], "subject");
    LookupStep("subject", PyStr(subject), [to] + [], "to");
    LookupStep("to", PyStr(recipient), [], "to");
  }

  /** An edited proposal is dispatched with exactly the edited fields, trimmed, to the normalized
      mailbox; it is refused exactly when a trimmed field breaks the mailbox contract. */
  lemma {:induction false} EditedPayloadRequest(env: Env, normalize: string -> Option<string>, sender: string,
                                                action: AuthorizedAction, recipient: string, subject: string,
                                                body: string)
    requires Canonical(EditedPayload(recipient, subject, body)) == Ok(action.canonicalPayload)
    requires action.intent.fingerprint == env.sha(action.canonicalPayload)
    ensures BuildRequest(env, normalize, sender, action)
         == EditedRequest(normalize, sender, action, recipient, Trim(subject), Trim(body))
  {
    BoundActionReachesValidation(env, normalize, sender, action, EditedPayload(recipient, subject, body));
    EditedPayloadSorted(recipient, subject, body);
    hide BuildRequest, Normalize, SortDeep, Canonical, Lookup, OnlyKeys, EditedFields, ToPy, Trim, EditedPayload,
         ValidatePayload, TextField;
    var entries := LookupEdited(recipient, subject, body);
    ValidateEdited(normalize, sender, entries, recipient, subject, body);
  }

  lemma {:induction false} ValidateEdited(normalize: string -> Option<string>, sender: string, entries: seq<PyEntry>,
                                          recipient: string, subject: string, body: string)
    requires Lookup(entries, "to") == Some(PyStr(recipient)) && Lookup(entries, "subject") == Some(PyStr(subject))
    requires Lookup(entries, "body") == Some(PyStr(body)) && OnlyKeys(entries, {"to", "subject", "body"})
    ensures ValidatePayload(normalize, PyDict(entries), sender)
         == var s, t := Trim(subject), Trim(body);
            if 1 <= |s| <= SUBJECT_LIMIT && 1 <= |t| <= BODY_LIMIT && normalize(Trim(recipient)).Some?
            && '\r' !in s && '\n' !in s
            then Some(EmailStore.EmailMessage(sender, normalize(Trim(recipient)).value, s, t)) else None
  {
    hide Lookup, OnlyKeys, Trim;
  }

  function EditedRequest(normalize: string -> Option<string>, sender: string, action: AuthorizedAction,
                         recipient: string, subject: string, body: string)
    : Result<EmailStore.DispatchRequest, RequestError>
  {
    var valid := 1 <= |subject| <= SUBJECT_LIMIT && 1 <= |body| <= BODY_LIMIT && normalize(Trim(recipient)).Some?
                 && '\r' !in subject && '\n' !in subject;
    WithMessage(normalize, action,
                if valid then Some(EmailStore.EmailMessage(sender, normalize(Trim(recipient)).value, subject, body))
                else None)
  }
}
