/** Which authorized actions become provider requests, and with what contents (email/service.py:131-159,
    email/models.py:46-110). */
module EmailRequestFacts {
  import opened Wrappers
  import opened Text
  import opened CanonicalJson
  import opened JsonLoads
  import opened Broker
  import opened BrokerPolicy
  import opened EmailRequest
  import EmailStore

  /** The text under the first entry of the key. */
  ghost predicate TextAt(entries: seq<PyEntry>, key: string, text: string) {
    exists k: nat :: FirstAt(entries, key, k) && entries[k].value == PyStr(text)
  }

  lemma {:induction false} TextIsLookup(entries: seq<PyEntry>, key: string, text: string)
    ensures TextAt(entries, key, text) <==> Lookup(entries, key) == Some(PyStr(text))
  {
    if k: nat :| FirstAt(entries, key, k) && entries[k].value == PyStr(text) { LookupFirst(entries, key, k); }
    if Lookup(entries, key) == Some(PyStr(text)) {
      var k := LookupAt(entries, key);
      LookupFirst(entries, key, k);
    }
  }

  /** The payload is an object of exactly the three text fields: a mailbox, a subject of one line and at most 998
      characters, and a body of at most 100000, surrounding white space not counted. */
  ghost predicate IsMail(normalize: string -> Option<string>, entries: seq<PyEntry>, to: string, subject: string,
                         body: string) {
    && TextAt(entries, "to", to) && TextAt(entries, "subject", subject) && TextAt(entries, "body", body)
    && (forall k :: 0 <= k < |entries| ==>
          entries[k].key in {StrKey("to"), StrKey("subject"), StrKey("body")})
    && normalize(Trim(to)).Some? && 1 <= |Trim(subject)| <= 998 && 1 <= |Trim(body)| <= 100_000
    && '\r' !in Trim(subject) && '\n' !in Trim(subject)
  }

  lemma {:induction false} FieldIs(entries: seq<PyEntry>, key: string, max: nat, text: string)
    requires TextAt(entries, key, text)
    ensures TextField(entries, key, max) == if 1 <= |Trim(text)| <= max then Some(Trim(text)) else None
  {
    TextIsLookup(entries, key, text);
    hide TextAt, Lookup;
  }

  lemma {:induction false} FieldHasText(entries: seq<PyEntry>, key: string, max: nat) returns (text: string)
    requires TextField(entries, key, max).Some?
    ensures TextAt(entries, key, text)
  {
    hide TextAt, Lookup;
    text := Lookup(entries, key).value.s;
    TextIsLookup(entries, key, text);
  }

  lemma {:induction false} KeysAre(entries: seq<PyEntry>)
    ensures OnlyKeys(entries, {"to", "subject", "body"})
       <==> forall k :: 0 <= k < |entries| ==> entries[k].key in {StrKey("to"), StrKey("subject"), StrKey("body")}
  {}

  lemma {:induction false} ValidIfMail(normalize: string -> Option<string>, entries: seq<PyEntry>, sender: string,
                                       to: string, subject: string, body: string)
    requires IsMail(normalize, entries, to, subject, body)
    ensures ValidatePayload(normalize, PyDict(entries), sender)
         == Some(EmailStore.EmailMessage(sender, normalize(Trim(to)).value, Trim(subject), Trim(body)))
  {
    TextIsLookup(entries, "to", to);
    FieldIs(entries, "subject", SUBJECT_LIMIT, subject);
    FieldIs(entries, "body", BODY_LIMIT, body);
    KeysAre(entries);
    hide TextAt, Lookup, TextField, OnlyKeys, Trim;
  }

  lemma {:induction false} MailIfValid(normalize: string -> Option<string>, entries: seq<PyEntry>, sender: string)
      returns (to: string, subject: string, body: string)
    requires ValidatePayload(normalize, PyDict(entries), sender).Some?
    ensures IsMail(normalize, entries, to, subject, body)
  {
    hide TextAt, Trim;
    to := Lookup(entries, "to").value.s;
    TextIsLookup(entries, "to", to);
    subject := FieldHasText(entries, "subject", SUBJECT_LIMIT);
    FieldIs(entries, "subject", SUBJECT_LIMIT, subject);
    body := FieldHasText(entries, "body", BODY_LIMIT);
    FieldIs(entries, "body", BODY_LIMIT, body);
    KeysAre(entries);
  }

  /** The text of the action is the canonical one of such a payload, both mailboxes are accepted once more, and the
      request carries the identifiers of the intent and the trimmed contents. */
  ghost predicate Contents(normalize: string -> Option<string>, sender: string, action: AuthorizedAction,
                           request: EmailStore.DispatchRequest, entries: seq<PyEntry>, to: string, subject: string,
                           body: string)
  {
    && Loads(action.canonicalPayload) == Some(PyDict(entries))
    && Canonical(PyDict(entries)) == Ok(action.canonicalPayload)
    && IsMail(normalize, entries, to, subject, body)
    && normalize(sender).Some? && normalize(normalize(Trim(to)).value).Some?
    && request.intentId == action.intent.id && request.idempotencyKey == action.intent.idempotencyKey
    && request.payloadFingerprint == action.intent.fingerprint && request.authorizedAt == action.intent.createdAt
    && request.message.sender == normalize(sender).value
    && request.message.recipient == normalize(normalize(Trim(to)).value).value
    && request.message.subject == Trim(subject) && request.message.textBody == Trim(body)
  }

  lemma {:induction false} RequestHasContents(env: Env, normalize: string -> Option<string>, sender: string,
                                              action: AuthorizedAction, request: EmailStore.DispatchRequest)
      returns (entries: seq<PyEntry>, to: string, subject: string, body: string)
    requires BuildRequest(env, normalize, sender, action) == Ok(request)
    ensures env.sha(action.canonicalPayload) == action.intent.fingerprint
    ensures Contents(normalize, sender, action, request, entries, to, subject, body)
  {
    hide Loads, Canonical, IsMail, ValidatePayload, Trim;
    var raw := Loads(action.canonicalPayload).value;
    PayloadIsObject(normalize, raw, sender);
    entries := raw.entries;
    to, subject, body := MailIfValid(normalize, entries, sender);
    MailNormalizes(normalize, entries, to, subject, body);
    ValidIfMail(normalize, entries, sender, to, subject, body);
  }

  lemma {:induction false} ContentsMakeRequest(env: Env, normalize: string -> Option<string>, sender: string,
                                               action: AuthorizedAction, request: EmailStore.DispatchRequest,
                                               entries: seq<PyEntry>, to: string, subject: string, body: string)
    requires env.sha(action.canonicalPayload) == action.intent.fingerprint
    requires Contents(normalize, sender, action, request, entries, to, subject, body)
    ensures BuildRequest(env, normalize, sender, action) == Ok(request)
  {
    hide Loads, Canonical, IsMail, ValidatePayload, Trim;
    MailNormalizes(normalize, entries, to, subject, body);
    ValidIfMail(normalize, entries, sender, to, subject, body);
  }

  /** An action becomes a request exactly when its fingerprint is that of its text and these are its contents. */
  lemma {:induction false} BuildsExactly(env: Env, normalize: string -> Option<string>, sender: string,
                                         action: AuthorizedAction, request: EmailStore.DispatchRequest)
    ensures BuildRequest(env, normalize, sender, action) == Ok(request) <==>
              && env.sha(action.canonicalPayload) == action.intent.fingerprint
              && exists entries, to, subject, body ::
                   Contents(normalize, sender, action, request, entries, to, subject, body)
  {
    hide BuildRequest, Contents;
    if BuildRequest(env, normalize, sender, action) == Ok(request) {
      var entries, to, subject, body := RequestHasContents(env, normalize, sender, action, request);
    }
    if env.sha(action.canonicalPayload) == action.intent.fingerprint {
      if entries, to, subject, body :| Contents(normalize, sender, action, request, entries, to, subject, body) {
        ContentsMakeRequest(env, normalize, sender, action, request, entries, to, subject, body);
      }
    }
  }

  lemma PayloadIsObject(normalize: string -> Option<string>, raw: PyValue, sender: string)
    ensures ValidatePayload(normalize, raw, sender).Some? ==> raw.PyDict?
  {}

  lemma MailNormalizes(normalize: string -> Option<string>, entries: seq<PyEntry>, to: string, subject: string,
                       body: string)
    requires IsMail(normalize, entries, to, subject, body)
    ensures normalize(Trim(to)).Some?
  {
    hide Trim, TextAt;
  }
}
