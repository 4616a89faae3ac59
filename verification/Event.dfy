/** The event envelope (crates/common/src/event.rs) and the JSON values its parts
    are stored as. */
module Event {
  import opened Common

  datatype Json =
    | JNull
    | JNumber(number: int)
    | JString(text: string)
    | JArray(items: seq<Json>)
    | JObject(fields: map<string, Json>)

  datatype FromOverride = FromOverride(email: Email, name: Option<string>)

  datatype AttachmentRef = AttachmentRef(
    url: string, filename: string, contentType: string,
    fetchToken: Option<string>, maxAgeSecs: Option<nat>)

  datatype SendMode = Individual | Group
  datatype GroupRetryMode = RetryWhole | RetryIndividually
  datatype RetryPolicy = Retry | NoRetry

  datatype EmailOptions = EmailOptions(
    sendMode: SendMode, groupRetryMode: GroupRetryMode, retryPolicy: RetryPolicy,
    recipients: seq<Recipient>, cc: seq<Recipient>, bcc: seq<Recipient>,
    fromOverride: Option<FromOverride>, attachments: seq<AttachmentRef>,
    senderAccount: Option<string>, sendAt: Option<Time>)

  datatype NotificationEvent = NotificationEvent(
    id: EventId, timestamp: Time, eventType: string, payload: Json,
    email: Option<EmailOptions>)

  datatype ResolvedAttachment = ResolvedAttachment(filename: string, contentType: string, data: seq<nat>)

  /** CC and BCC lists after the event-level filter. */
  datatype EffectiveCcBcc = EffectiveCcBcc(cc: seq<Recipient>, bcc: seq<Recipient>)

  function SendModeText(m: SendMode): string {
    if m.Group? then "group" else "individual"
  }

  function GroupRetryModeText(m: GroupRetryMode): string {
    if m.RetryWhole? then "whole" else "individual"
  }

  // ── Encoding ──────────────────────────────────────────────────────────────

  function EncodeText(o: Option<string>): Json {
    if o.Some? then JString(o.value) else JNull
  }

  function EncodeRecipient(r: Recipient): Json {
    JObject(map["email" := JString(r.email), "name" := EncodeText(r.name)])
  }

  function EncodeFromOverride(o: FromOverride): Json {
    JObject(map["email" := JString(o.email), "name" := EncodeText(o.name)])
  }

  function EncodeAttachment(a: AttachmentRef): Json {
    JObject(map[
      "url" := JString(a.url), "filename" := JString(a.filename),
      "content_type" := JString(a.contentType),
      "fetch_token" := EncodeText(a.fetchToken),
      "max_age_secs" := if a.maxAgeSecs.Some? then JNumber(a.maxAgeSecs.value) else JNull])
  }

  function EncodeRecipients(rs: seq<Recipient>): Json {
    JArray(seq(|rs|, i requires 0 <= i < |rs| => EncodeRecipient(rs[i])))
  }

  function EncodeAttachments(rs: seq<AttachmentRef>): Json {
    JArray(seq(|rs|, i requires 0 <= i < |rs| => EncodeAttachment(rs[i])))
  }

  // ── Decoding ──────────────────────────────────────────────────────────────

  function TextField(j: Json, key: string): Option<string> {
    if j.JObject? && key in j.fields && j.fields[key].JString? then Some(j.fields[key].text) else None
  }

  /** A nullable text field: absent and null both read as `None`. */
  function OptionalText(j: Json, key: string): Result<Option<string>, string> {
    if !j.JObject? then Err("not an object")
    else if key !in j.fields || j.fields[key].JNull? then Ok(None)
    else if j.fields[key].JString? then Ok(Some(j.fields[key].text))
    else Err(key)
  }

  function DecodeRecipient(j: Json): Result<Recipient, string> {
    match (TextField(j, "email"), OptionalText(j, "name"))
    case (Some(e), Ok(n)) => Ok(Recipient(e, n))
    case _ => Err("recipient")
  }

  function DecodeFromOverride(j: Json): Result<FromOverride, string> {
    match (TextField(j, "email"), OptionalText(j, "name"))
    case (Some(e), Ok(n)) => Ok(FromOverride(e, n))
    case _ => Err("from_override")
  }

  function DecodeMaxAge(j: Json): Result<Option<nat>, string> {
    if !j.JObject? then Err("not an object")
    else if "max_age_secs" !in j.fields || j.fields["max_age_secs"].JNull? then Ok(None)
    else if j.fields["max_age_secs"].JNumber? && j.fields["max_age_secs"].number >= 0
    then Ok(Some(j.fields["max_age_secs"].number))
    else Err("max_age_secs")
  }

  function DecodeAttachment(j: Json): Result<AttachmentRef, string> {
    match (TextField(j, "url"), TextField(j, "filename"), TextField(j, "content_type"),
           OptionalText(j, "fetch_token"), DecodeMaxAge(j))
    case (Some(u), Some(f), Some(c), Ok(t), Ok(m)) => Ok(AttachmentRef(u, f, c, t, m))
    case _ => Err("attachment")
  }

  function DecodeRecipients(j: Json): Result<seq<Recipient>, string> {
    if j.JArray? && (forall x :: x in j.items ==> DecodeRecipient(x).Ok?) then
      Ok(seq(|j.items|, i requires 0 <= i < |j.items| => DecodeRecipient(j.items[i]).value))
    else Err("recipients")
  }

  function DecodeAttachments(j: Json): Result<seq<AttachmentRef>, string> {
    if j.JArray? && (forall x :: x in j.items ==> DecodeAttachment(x).Ok?) then
      Ok(seq(|j.items|, i requires 0 <= i < |j.items| => DecodeAttachment(j.items[i]).value))
    else Err("attachments")
  }

  // ── What decoding accepts ─────────────────────────────────────────────────

  /** The field is absent or null for none, and holds the text otherwise. */
  predicate ReadsAs(fields: map<string, Json>, key: string, text: Option<string>) {
    match text
    case None => key in fields ==> fields[key] == JNull
    case Some(t) => key in fields && fields[key] == JString(t)
  }

  lemma RecipientReadsIff(j: Json, r: Recipient)
    ensures DecodeRecipient(j) == Ok(r) <==>
              && j.JObject? && "email" in j.fields && j.fields["email"] == JString(r.email)
              && ReadsAs(j.fields, "name", r.name)
  {
  }

  lemma AttachmentReadsIff(j: Json, a: AttachmentRef)
    ensures DecodeAttachment(j) == Ok(a) <==>
              && j.JObject? && "url" in j.fields && j.fields["url"] == JString(a.url)
              && "filename" in j.fields && j.fields["filename"] == JString(a.filename)
              && "content_type" in j.fields && j.fields["content_type"] == JString(a.contentType)
              && ReadsAs(j.fields, "fetch_token", a.fetchToken)
              && match a.maxAgeSecs
                 case None => "max_age_secs" in j.fields ==> j.fields["max_age_secs"] == JNull
                 case Some(n) => "max_age_secs" in j.fields && j.fields["max_age_secs"] == JNumber(n)
  {
  }

  /** A list decodes exactly if each of its entries does, to the entries in their order. */
  lemma ListsReadIff(j: Json, rs: seq<Recipient>, refs: seq<AttachmentRef>)
    ensures DecodeRecipients(j) == Ok(rs) <==>
              j.JArray? && |j.items| == |rs| && forall i :: 0 <= i < |rs| ==> DecodeRecipient(j.items[i]) == Ok(rs[i])
    ensures DecodeAttachments(j) == Ok(refs) <==>
              && j.JArray? && |j.items| == |refs|
              && forall i :: 0 <= i < |refs| ==> DecodeAttachment(j.items[i]) == Ok(refs[i])
  {
    if j.JArray? {
      if |j.items| == |rs| && forall i :: 0 <= i < |rs| ==> DecodeRecipient(j.items[i]) == Ok(rs[i]) {
        assert DecodeRecipients(j).value == rs;
      }
      if |j.items| == |refs| && forall i :: 0 <= i < |refs| ==> DecodeAttachment(j.items[i]) == Ok(refs[i]) {
        assert DecodeAttachments(j).value == refs;
      }
    }
  }

  // ── Round trips ───────────────────────────────────────────────────────────

  lemma RecipientsRoundTrip(rs: seq<Recipient>)
    ensures DecodeRecipients(EncodeRecipients(rs)) == Ok(rs)
  {
    var items := EncodeRecipients(rs).items;
    forall i | 0 <= i < |rs| ensures DecodeRecipient(items[i]) == Ok(rs[i]) {
      assert items[i] == EncodeRecipient(rs[i]);
    }
    var decoded := DecodeRecipients(EncodeRecipients(rs)).value;
    assert forall i :: 0 <= i < |rs| ==> decoded[i] == rs[i];
    assert decoded == rs;
  }

  lemma FromOverrideRoundTrip(o: FromOverride)
    ensures DecodeFromOverride(EncodeFromOverride(o)) == Ok(o)
    ensures TextField(EncodeFromOverride(o), "email") == Some(o.email)
  {
  }

  lemma AttachmentRoundTrip(a: AttachmentRef)
    ensures DecodeAttachment(EncodeAttachment(a)) == Ok(a)
  {
  }

  lemma AttachmentsRoundTrip(rs: seq<AttachmentRef>)
    ensures DecodeAttachments(EncodeAttachments(rs)) == Ok(rs)
  {
    var items := EncodeAttachments(rs).items;
    forall i | 0 <= i < |rs| ensures DecodeAttachment(items[i]) == Ok(rs[i]) {
      assert items[i] == EncodeAttachment(rs[i]);
      AttachmentRoundTrip(rs[i]);
    }
    var decoded := DecodeAttachments(EncodeAttachments(rs)).value;
    assert forall i :: 0 <= i < |rs| ==> decoded[i] == rs[i];
    assert decoded == rs;
  }
}
