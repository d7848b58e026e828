/**
 * The HTTP endpoints the app posts to (go/smsq/main.go `handleV1SMS`, `handleRetired`): the
 * order in which a request is rejected, and the hand-over to `deliver`. JSON decoding,
 * base64 and the hybrid decryption are supplied by the caller as partial functions.
 */
module Api {
  import opened Basics
  import opened Database
  import opened Telegram
  import opened Delivery
  import Utf8
  import ServerConfig

  /** An HTTP request: its method and body. */
  datatype Request = Request(httpMethod: string, body: seq<byte>)

  /** The decoded `smsRequest` envelope. */
  datatype SmsRequest = SmsRequest(payload: string, version: int)

  /**
   * What the client gets: a 404 or 400 error page, a 200 with a `deliveryResult`, or nothing
   * at all because the handler panicked (net/http recovers and drops the connection).
   */
  datatype Response = NotFound | HttpBadRequest | Answer(result: DeliveryResult) | Panic

  /** The decoders the handler relies on; `None` is a decoding or decryption error. */
  datatype Decoders = Decoders(
    request: seq<byte> -> Option<SmsRequest>,   // json.Decode into smsRequest
    decrypt: string -> Option<seq<byte>>,       // base64 then hybrid decryption
    sms: seq<byte> -> Option<Sms>)              // json.Decode into sms

  /** A request handled: the response, the users table after it and the messages sent. */
  datatype Handled = Handled(response: Response, users: Table, sent: seq<Outgoing>)

  /** `utf8.ValidString` on the four text fields, applied to their UTF-8 bytes. */
  predicate ValidText(s: Sms) {
    && Utf8.Valid(Utf8.Encode(s.text))
    && Utf8.Valid(Utf8.Encode(s.carrier))
    && Utf8.Valid(Utf8.Encode(s.sim))
    && Utf8.Valid(Utf8.Encode(s.sender))
  }

  /**
   * The UTF-8 check never fails: `encoding/json` replaces invalid bytes by U+FFFD while
   * decoding, so every decoded string is a sequence of characters, and their encoding is valid.
   */
  lemma DecodedTextIsValid(s: Sms)
    ensures ValidText(s)
  {
    Utf8.EncodeValid(s.text);
    Utf8.EncodeValid(s.carrier);
    Utf8.EncodeValid(s.sim);
    Utf8.EncodeValid(s.sender);
  }

  /** `handleRetired`: every POST to the old endpoint learns that the API is retired. */
  function HandleRetired(req: Request): (r: Response)
    ensures r == NotFound <==> req.httpMethod != "POST"
    ensures r != NotFound ==> r == Answer(ApiRetired)
  {
    if req.httpMethod != "POST" then NotFound else Answer(ApiRetired)
  }

  /** The checks after the envelope: decryption, the SMS record, its text, then delivery. */
  function HandlePayload(t: Table, cfg: ServerConfig.Config, dec: Decoders, payload: string,
                         format: Formatter, outcome: SendOutcome): (h: Handled)
    requires Wf(t)
    ensures Wf(h.users)
    ensures !h.response.Answer? ==> h.users == t && h.sent == []
    ensures h.response != Panic && h.response != NotFound
    ensures dec.decrypt(payload).None? || dec.sms(dec.decrypt(payload).value).None? ==>
              h == Handled(HttpBadRequest, t, [])
    ensures (&& dec.decrypt(payload).Some? && dec.sms(dec.decrypt(payload).value).Some?
             && !ValidText(dec.sms(dec.decrypt(payload).value).value)) ==>
              h == Handled(Answer(BadRequest), t, [])
  {
    match dec.decrypt(payload)
    case None => Handled(HttpBadRequest, t, [])
    case Some(plain) =>
      match dec.sms(plain)
      case None => Handled(HttpBadRequest, t, [])
      case Some(s) =>
        if !ValidText(s) then Handled(Answer(BadRequest), t, [])
        else
          var d := Deliver(t, cfg, s, format, outcome);
          Handled(Answer(d.result), d.users, d.sent)
  }

  /**
   * `handleV1SMS` as intended: a request with a version other than 1 is answered with a 400,
   * like the other malformed requests.
   */
  function HandleV1(t: Table, cfg: ServerConfig.Config, dec: Decoders, req: Request,
                    format: Formatter, outcome: SendOutcome): (h: Handled)
    requires Wf(t)
    ensures Wf(h.users)
    ensures h.response != Panic
    ensures req.httpMethod != "POST" ==> h == Handled(NotFound, t, [])
    ensures req.httpMethod == "POST" ==> h.response != NotFound
    ensures req.httpMethod == "POST" && (dec.request(req.body).None? || dec.request(req.body).value.version != 1) ==>
              h == Handled(HttpBadRequest, t, [])
    ensures !h.response.Answer? ==> h.users == t && h.sent == []
  {
    if req.httpMethod != "POST" then Handled(NotFound, t, [])
    else match dec.request(req.body)
      case None => Handled(HttpBadRequest, t, [])
      case Some(r) =>
        if r.version != 1 then Handled(HttpBadRequest, t, [])
        else HandlePayload(t, cfg, dec, r.payload, format, outcome)
  }

  /**
   * `handleV1SMS` as written: for a version other than 1 it formats the decode error, which
   * is nil at that point, so the handler panics instead of answering.
   */
  function HandleV1AsWritten(t: Table, cfg: ServerConfig.Config, dec: Decoders, req: Request,
                             format: Formatter, outcome: SendOutcome): (h: Handled)
    requires Wf(t)
    ensures Wf(h.users)
  {
    if req.httpMethod != "POST" then Handled(NotFound, t, [])
    else match dec.request(req.body)
      case None => Handled(HttpBadRequest, t, [])
      case Some(r) =>
        if r.version != 1 then Handled(Panic, t, [])
        else HandlePayload(t, cfg, dec, r.payload, format, outcome)
  }

  /**
   * The discrepancy: a well-formed envelope with version 2 makes the handler as written panic,
   * where the intended handler answers 400. On every other request the two agree.
   */
  lemma VersionMismatchPanics(t: Table, cfg: ServerConfig.Config, dec: Decoders, req: Request,
                              format: Formatter, outcome: SendOutcome)
    requires Wf(t)
    ensures req.httpMethod == "POST" && dec.request(req.body).Some? && dec.request(req.body).value.version != 1 ==>
              && HandleV1AsWritten(t, cfg, dec, req, format, outcome).response == Panic
              && HandleV1(t, cfg, dec, req, format, outcome).response == HttpBadRequest
    ensures HandleV1AsWritten(t, cfg, dec, req, format, outcome).response != Panic ==>
              HandleV1AsWritten(t, cfg, dec, req, format, outcome) == HandleV1(t, cfg, dec, req, format, outcome)
  {
  }

  /** A concrete request that exhibits the panic: an empty payload with version 2. */
  lemma VersionTwoExample(t: Table, cfg: ServerConfig.Config, format: Formatter, outcome: SendOutcome)
    requires Wf(t)
    ensures var dec := Decoders(_ => Some(SmsRequest("", 2)), _ => None, _ => None);
            var req := Request("POST", []);
            HandleV1AsWritten(t, cfg, dec, req, format, outcome).response == Panic
            && HandleV1(t, cfg, dec, req, format, outcome).response == HttpBadRequest
  {
  }

  /**
   * Only a request that passes every check reaches `deliver`, and then the response is what
   * `deliver` returns. The `badRequest` answer of the UTF-8 check never occurs.
   */
  lemma HandleV1Delivers(t: Table, cfg: ServerConfig.Config, dec: Decoders, req: Request,
                         format: Formatter, outcome: SendOutcome)
    requires Wf(t)
    ensures var h := HandleV1(t, cfg, dec, req, format, outcome);
            h.response.Answer? <==>
              && req.httpMethod == "POST"
              && dec.request(req.body).Some? && dec.request(req.body).value.version == 1
              && dec.decrypt(dec.request(req.body).value.payload).Some?
              && dec.sms(dec.decrypt(dec.request(req.body).value.payload).value).Some?
    ensures var h := HandleV1(t, cfg, dec, req, format, outcome);
            h.response.Answer? ==>
              var s := dec.sms(dec.decrypt(dec.request(req.body).value.payload).value).value;
              var d := Deliver(t, cfg, s, format, outcome);
              h == Handled(Answer(d.result), d.users, d.sent) && d.result != BadRequest
  {
    if req.httpMethod == "POST" && dec.request(req.body).Some? {
      var payload := dec.request(req.body).value.payload;
      if dec.decrypt(payload).Some? && dec.sms(dec.decrypt(payload).value).Some? {
        DecodedTextIsValid(dec.sms(dec.decrypt(payload).value).value);
      }
    }
  }
}
