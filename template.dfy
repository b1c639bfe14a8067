/** The placeholder resource kind of template/event.go: an event with only the
    envelope fields, carrying its own copy of the base pipeline, whose five
    lifecycle operations all report that the subject is not supported. */
module Template {
  import opened Common
  import opened Pipeline

  /** Validate: every template event is accepted. */
  function Validate(p: Payload<()>): (err: Option<string>)
    ensures err == None
  {
    None
  }

  /** Validate never objects, so Process fails exactly when decoding fails,
      and then it has already applied Error with the decoder's message. */
  lemma ProcessFailsOnlyOnDecode(c: Codec<()>, e: Envelope<()>)
    ensures Processed(c, Validate, e).err.Some? <==> c.decode(e.body, e.payload).Failure?
    ensures Processed(c, Validate, e).err.Some? ==>
              Processed(c, Validate, e).state == Failed(c, e, c.decode(e.body, e.payload).text)
  {
  }

  class Event {
    const codec: Codec<()>
    var errorMessage: string
    var subject: string
    var body: Bytes
    var cryptoKey: string

    ghost function State(): Envelope<()>
      reads this
    {
      Envelope(Payload(errorMessage, ()), subject, body, cryptoKey)
    }

    /** New(subject, body, cryptoKey); the codec stands for encoding/json. */
    constructor New(subject: string, body: Bytes, cryptoKey: string, codec: Codec<()>)
      ensures this.codec == codec
      ensures State() == Fresh((), subject, body, cryptoKey)
    {
      this.codec := codec;
      this.subject, this.body, this.cryptoKey := subject, body, cryptoKey;
      errorMessage := "";
    }

    method GetBody() returns (b: Bytes)
      modifies this
      ensures State() == Refreshed(codec, old(State()))
      ensures b == body
    {
      body := codec.encode(Payload(errorMessage, ()));
      b := body;
    }

    method GetSubject() returns (s: string)
      ensures s == subject
    {
      s := subject;
    }

    method Error(text: string)
      modifies this
      ensures State() == Failed(codec, old(State()), text)
    {
      errorMessage := text;
      body := codec.encode(Payload(errorMessage, ()));
    }

    method Process() returns (err: Option<string>)
      modifies this
      ensures Outcome(State(), err) == Processed(codec, Validate, old(State()))
    {
      match codec.decode(body, Payload(errorMessage, ())) {
        case Failure(text) =>
          Error(text);
          return Some(text);
        case Ok(p) =>
          assert p.fields == ();
          errorMessage := p.errorMessage;
      }
      err := Validate(Payload(errorMessage, ()));
      if err.Some? {
        // Validate accepts every event, so the source's Error call here is
        // unreachable; an Error call in its place is checked under the
        // contradiction and draws a warning.
        assert false;
      }
    }

    method Find() returns (err: Option<string>)
      ensures err == Some(NotSupported(subject))
    {
      err := Some(subject + " not supported");
    }

    method Create() returns (err: Option<string>)
      ensures err == Some(NotSupported(subject))
    {
      err := Some(subject + " not supported");
    }

    method Update() returns (err: Option<string>)
      ensures err == Some(NotSupported(subject))
    {
      err := Some(subject + " not supported");
    }

    method Delete() returns (err: Option<string>)
      ensures err == Some(NotSupported(subject))
    {
      err := Some(subject + " not supported");
    }

    method Get() returns (err: Option<string>)
      ensures err == Some(NotSupported(subject))
    {
      err := Some(subject + " not supported");
    }
  }
}
