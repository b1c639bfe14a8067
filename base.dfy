/** The common event container of base.go (package ernestazure): the
    envelope fields and the pipeline methods that every event kind shares. */
module Ernestazure {
  import opened Common
  import opened Pipeline

  /** base.go's Validate: every event is accepted. */
  function Validate(p: Payload<()>): (err: Option<string>)
    ensures err == None
  {
    None
  }

  /** Because Validate accepts everything, Process on a `Base` fails exactly
      when decoding fails. */
  lemma ProcessFailsOnlyOnDecode(c: Codec<()>, e: Envelope<()>)
    ensures Processed(c, Validate, e).err.Some? <==> c.decode(e.body, e.payload).Failure?
  {
  }

  /** `Base`, the common event container of base.go: an event kind with no
      fields of its own beyond the envelope. */
  class Base {
    const codec: Codec<()>
    var errorMessage: string
    var subject: string
    var body: Bytes
    var cryptoKey: string

    ghost function State(): Envelope<()>
      reads this
    {
      Envelope(Payload(errorMessage, ()), subject, body, cryptoKey)
    }

    /** The zero value of `Base`. */
    constructor (codec: Codec<()>)
      ensures this.codec == codec
      ensures State() == Fresh((), "", [], "")
    {
      this.codec := codec;
      errorMessage, subject, body, cryptoKey := "", "", [], "";
    }

    method GetBody() returns (b: Bytes)
      modifies this
      ensures State() == Refreshed(codec, old(State()))
      ensures b == body
    {
      body := codec.encode(Payload(errorMessage, ()));
      b := body;
    }

    method GetSubject() returns (s: string)
      ensures s == subject
    {
      s := subject;
    }

    method Error(text: string)
      modifies this
      ensures State() == Failed(codec, old(State()), text)
    {
      errorMessage := text;
      body := codec.encode(Payload(errorMessage, ()));
    }

    method Process() returns (err: Option<string>)
      modifies this
      ensures Outcome(State(), err) == Processed(codec, Validate, old(State()))
    {
      match codec.decode(body, Payload(errorMessage, ())) {
        case Failure(text) =>
          Error(text);
          return Some(text);
        case Ok(p) =>
          assert p.fields == ();
          errorMessage := p.errorMessage;
      }
      err := Validate(Payload(errorMessage, ()));
      if err.Some? {
        // Validate accepts every event, so the source's Error call here is
        // unreachable; an Error call in its place is checked under the
        // contradiction and draws a warning.
        assert false;
      }
    }
  }
}
