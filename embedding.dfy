/** How the virtual-network event answers as the code is written.

    virtualnetwork.Event embeds Base and also declares its own ErrorMessage,
    Subject, Body and CryptoKey (virtualnetwork/entity.go:19, 34-37). It
    declares no Process, Error, GetSubject or GetBody, so the handler calls
    Base's: they act on the embedded Base, whose fields `New` never sets
    (virtualnetwork/entity.go:47-51). The body Base decodes is therefore
    empty, and the subject it answers with is empty. The rest of the model
    runs the pipeline on the event's own fields instead (VirtualNetwork.Event),
    which is what the handler evidently intends. */
module Embedding {
  import opened Common
  import opened Pipeline
  import Remote
  import Reconciler
  import Ernestazure
  import Handler

  /** A virtual-network event as the source lays it out: its own envelope
      and fields, and the embedded Base's separate envelope. */
  datatype Layout = Layout(own: Reconciler.Event, embedded: Envelope<()>)

  /** New(subject, body, cryptoKey) as written: the composite literal sets the
      event's own Subject, Body and CryptoKey; the embedded Base keeps its
      zero value. */
  function NewAsWritten(subject: string, body: Bytes, cryptoKey: string): (ev: Layout)
    ensures ev.own.subject == subject && ev.own.body == body && ev.own.cryptoKey == cryptoKey
    ensures ev.own.payload == Payload("", Reconciler.Zero)
    ensures ev.embedded.subject == "" && ev.embedded.body == [] && ev.embedded.cryptoKey == ""
    ensures ev.embedded.payload == Payload("", ())
  {
    Layout(Fresh(Reconciler.Zero, subject, body, cryptoKey), Fresh((), "", [], ""))
  }

  /** The answer handler.go gives when Process fails, with Process, GetSubject
      and GetBody bound to the embedded Base (`c` is the codec of Base);
      `None` when Process succeeds. */
  function PromotedFailureReply(c: Codec<()>, ev: Layout): (r: Option<(string, Bytes)>)
    ensures r.Some? <==> Processed(c, Ernestazure.Validate, ev.embedded).err.Some?
    ensures r.Some? ==> r.value.0 == ev.embedded.subject + ".error"
    ensures r.Some? ==> r.value.1 == c.encode(Processed(c, Ernestazure.Validate, ev.embedded).state.payload)
  {
    var o := Processed(c, Ernestazure.Validate, ev.embedded);
    if o.err.Some? then Some((o.state.subject + ".error", Refreshed(c, o.state).body)) else None
  }

  /** As written, when the decoder rejects empty input (as json.Unmarshal
      does), every virtual-network event built by New is answered with the
      bare subject ".error" and a body holding only the decoder's error: the
      reply is the same whatever subject, body and crypto key the request
      came with. */
  lemma PromotedPipelineLosesSubject(c: Codec<()>, subject: string, body: Bytes, cryptoKey: string,
                                     subject': string, body': Bytes, cryptoKey': string)
    requires c.decode([], Payload("", ())).Failure?
    ensures var text := c.decode([], Payload("", ())).text;
            PromotedFailureReply(c, NewAsWritten(subject, body, cryptoKey)) ==
              Some((".error", c.encode(Payload(text, ()))))
    ensures PromotedFailureReply(c, NewAsWritten(subject, body, cryptoKey)) ==
              PromotedFailureReply(c, NewAsWritten(subject', body', cryptoKey'))
  {
    var text := c.decode([], Payload("", ())).text;
    var ev := NewAsWritten(subject, body, cryptoKey);
    assert ev.embedded == Fresh((), "", [], "");
    var o := Processed(c, Ernestazure.Validate, ev.embedded);
    assert o.state.payload.fields == ();
    assert o.state.subject + ".error" == ".error";
    assert o.state.payload == Payload(text, ());
    assert NewAsWritten(subject', body', cryptoKey').embedded == ev.embedded;
  }

  /** With the pipeline run on the event's own fields, the answer to an event
      built by New carries the request's own subject followed by ".error" or
      ".done", and ".error" whenever Process fails. */
  lemma OwnPipelineKeepsSubject(nc: Codec<Reconciler.Network>, subject: string, body: Bytes,
                                cryptoKey: string, store: Remote.Store)
    requires Handler.CanHandle(Handler.NetworkSnap(nc, Reconciler.World(NewAsWritten(subject, body, cryptoKey).own, store)))
    ensures var k := Handler.NetworkSnap(nc, Reconciler.World(NewAsWritten(subject, body, cryptoKey).own, store));
            (Handler.Respond(k).subject == subject + ".error" || Handler.Respond(k).subject == subject + ".done") &&
            (Handler.Process(k).err.Some? ==> Handler.Respond(k).subject == subject + ".error")
  {
    var k := Handler.NetworkSnap(nc, Reconciler.World(NewAsWritten(subject, body, cryptoKey).own, store));
    assert Handler.Subject(k) == subject;
    Handler.ReplySubject(k);
  }
}
