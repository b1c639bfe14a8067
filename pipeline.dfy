/** The envelope pipeline of base.go (repeated in template/event.go) as
    functions over the state of an event, generic in the fields of the
    resource kind: decode the body into the event, validate it, record
    failures in the error message and re-encode the body.

    The JSON package is an external collaborator and is represented by a
    `Codec`: a pair of total functions. Only the `Payload` of an event is ever
    encoded or decoded; the subject, the body and the crypto key are tagged
    `json:"-"` in the source and therefore live outside it. */
module Pipeline {
  import opened Common

  /** What encoding/json sees of an event: the "error" field and the fields
      of the resource kind (`()` for kinds that have none). */
  datatype Payload<P> = Payload(errorMessage: string, fields: P)

  /** `encode` is json.Marshal of a payload; `decode(body, current)` is
      json.Unmarshal of `body` into an event whose payload is `current`
      (fields absent from the body keep their current values). */
  datatype Codec<!P> = Codec(encode: Payload<P> -> Bytes,
                            decode: (Bytes, Payload<P>) -> Result<Payload<P>>)

  /** The whole state of an event: its payload and the three excluded fields. */
  datatype Envelope<P> = Envelope(payload: Payload<P>, subject: string, body: Bytes, cryptoKey: string)

  /** The event a constructor `New(subject, body, cryptoKey)` builds: every
      other field has its zero value. */
  function Fresh<P>(zero: P, subject: string, body: Bytes, cryptoKey: string): (e: Envelope<P>)
    ensures e.payload.errorMessage == "" && e.payload.fields == zero
    ensures e.subject == subject && e.body == body && e.cryptoKey == cryptoKey
  {
    Envelope(Payload("", zero), subject, body, cryptoKey)
  }

  /** GetBody: the body becomes the encoding of the event. */
  function Refreshed<P>(c: Codec<P>, e: Envelope<P>): (r: Envelope<P>)
    ensures r.body == c.encode(r.payload)
    ensures r.payload == e.payload && r.subject == e.subject && r.cryptoKey == e.cryptoKey
  {
    e.(body := c.encode(e.payload))
  }

  /** Error(err): the error message becomes `text` and the body the encoding
      of the event that carries it. */
  function Failed<P>(c: Codec<P>, e: Envelope<P>, text: string): (r: Envelope<P>)
    ensures r.payload.errorMessage == text && r.payload.fields == e.payload.fields
    ensures r.body == c.encode(r.payload)
    ensures r.subject == e.subject && r.cryptoKey == e.cryptoKey
  {
    var marked := e.(payload := e.payload.(errorMessage := text));
    marked.(body := c.encode(marked.payload))
  }

  /** Process: decode the body into the event; on failure apply Error with the
      decoder's error and return it; otherwise validate the decoded payload and
      do the same with a validation error. */
  function Processed<P>(c: Codec<P>, validate: Payload<P> -> Option<string>, e: Envelope<P>): (r: Outcome<Envelope<P>>)
    ensures r.state.subject == e.subject && r.state.cryptoKey == e.cryptoKey
    ensures r.err.Some? ==> r.state.payload.errorMessage == r.err.value && r.state.body == c.encode(r.state.payload)
    ensures r.err.None? ==> r.state.body == e.body && c.decode(e.body, e.payload) == Ok(r.state.payload)
  {
    match c.decode(e.body, e.payload)
    case Failure(text) => Outcome(Failed(c, e, text), Some(text))
    case Ok(p) =>
      var decoded := e.(payload := p);
      match validate(p)
      case Some(text) => Outcome(Failed(c, decoded, text), Some(text))
      case None => Outcome(decoded, None)
  }

  /** A failed decode applies Error with the decoder's error and returns that
      error; the validator is never consulted, so any two give the same outcome. */
  lemma DecodeFailureStopsPipeline<P>(c: Codec<P>, v: Payload<P> -> Option<string>,
                                      w: Payload<P> -> Option<string>, e: Envelope<P>)
    requires c.decode(e.body, e.payload).Failure?
    ensures Processed(c, v, e) == Processed(c, w, e)
    ensures Processed(c, v, e) == Outcome(Failed(c, e, c.decode(e.body, e.payload).text),
                                          Some(c.decode(e.body, e.payload).text))
  {
  }

  /** A failed validation applies Error with the validation error to the
      decoded event and returns that error. */
  lemma ValidationFailureIsRecorded<P>(c: Codec<P>, v: Payload<P> -> Option<string>, e: Envelope<P>)
    requires c.decode(e.body, e.payload).Ok?
    requires v(c.decode(e.body, e.payload).value).Some?
    ensures var p := c.decode(e.body, e.payload).value;
            Processed(c, v, e) == Outcome(Failed(c, e.(payload := p), v(p).value), v(p))
  {
  }

  /** Process succeeds exactly when decoding and validation both succeed; the
      event then holds the decoded payload (the error message included) and
      its subject, body and crypto key are untouched. */
  lemma ProcessSuccess<P>(c: Codec<P>, v: Payload<P> -> Option<string>, e: Envelope<P>)
    ensures Processed(c, v, e).err.None? <==>
              c.decode(e.body, e.payload).Ok? && v(c.decode(e.body, e.payload).value).None?
    ensures Processed(c, v, e).err.None? ==>
              Processed(c, v, e).state == e.(payload := c.decode(e.body, e.payload).value)
  {
  }

  /** Whatever happens, Process keeps the subject and the crypto key, and a
      failure leaves the returned error's text in the error message. */
  lemma ProcessKeepsRouting<P>(c: Codec<P>, v: Payload<P> -> Option<string>, e: Envelope<P>)
    ensures Processed(c, v, e).state.subject == e.subject
    ensures Processed(c, v, e).state.cryptoKey == e.cryptoKey
    ensures Processed(c, v, e).err.Some? ==>
              Processed(c, v, e).state.payload.errorMessage == Processed(c, v, e).err.value
  {
  }

  /** The body is excluded from the encoding, so a second GetBody with
      nothing changed in between yields the same bytes and the same event. */
  lemma GetBodyIsStable<P>(c: Codec<P>, e: Envelope<P>)
    ensures Refreshed(c, Refreshed(c, e)) == Refreshed(c, e)
  {
  }

  /** Error already leaves the body encoded, so a GetBody straight after it
      changes nothing. */
  lemma GetBodyAfterError<P>(c: Codec<P>, e: Envelope<P>, text: string)
    ensures Refreshed(c, Failed(c, e, text)) == Failed(c, e, text)
  {
  }
}
