/** The virtual-network event of virtualnetwork/entity.go: an object whose
    lifecycle methods update its fields in place while calling the remote
    provider. Each method is proved against the function of the same name in
    Reconciler. The envelope methods (GetBody, GetSubject, Error, Process) are
    the ones base.go provides, applied to this event's own fields. */
module VirtualNetwork {
  import opened Common
  import opened Pipeline
  import opened Remote
  import Reconciler

  type Network = Reconciler.Network

  class Event {
    const codec: Codec<Network>
    var errorMessage: string
    var subject: string
    var body: Bytes
    var cryptoKey: string

    var id: string
    var name: string
    var addressSpace: seq<string>
    var dnsServerNames: seq<string>
    var subnets: seq<Reconciler.Subnet>
    var location: string
    var resourceGroupName: string
    var tags: map<string, string>

    function Fields(): Network
      reads this
    {
      Reconciler.Network(id, name, addressSpace, dnsServerNames, subnets, location, resourceGroupName, tags)
    }

    ghost function State(): Reconciler.Event
      reads this
    {
      Envelope(Payload(errorMessage, Fields()), subject, body, cryptoKey)
    }

    /** New(subject, body, cryptoKey); the codec stands for encoding/json. */
    constructor New(subject: string, body: Bytes, cryptoKey: string, codec: Codec<Network>)
      ensures this.codec == codec
      ensures State() == Fresh(Reconciler.Zero, subject, body, cryptoKey)
    {
      this.codec := codec;
      this.subject, this.body, this.cryptoKey := subject, body, cryptoKey;
      errorMessage := "";
      id, name, addressSpace, dnsServerNames := "", "", [], [];
      subnets, location, resourceGroupName, tags := [], "", "", map[];
    }

    method GetBody() returns (b: Bytes)
      modifies this
      ensures State() == Refreshed(codec, old(State()))
      ensures b == body
    {
      body := codec.encode(Payload(errorMessage, Fields()));
      b := body;
    }

    method GetSubject() returns (s: string)
      ensures s == subject
    {
      s := subject;
    }

    method Error(text: string)
      modifies this
      ensures State() == Failed(codec, old(State()), text)
    {
      errorMessage := text;
      body := codec.encode(Payload(errorMessage, Fields()));
    }

    method Process() returns (err: Option<string>)
      modifies this
      ensures Outcome(State(), err) == Processed(codec, Reconciler.Validate, old(State()))
    {
      match codec.decode(body, Payload(errorMessage, Fields())) {
        case Failure(text) =>
          Error(text);
          return Some(text);
        case Ok(p) =>
          var n := p.fields;
          errorMessage := p.errorMessage;
          id, name, addressSpace, dnsServerNames := n.id, n.name, n.addressSpace, n.dnsServerNames;
          subnets, location, resourceGroupName, tags := n.subnets, n.location, n.resourceGroupName, n.tags;
      }
      err := Reconciler.Validate(Payload(errorMessage, Fields()));
      if err.Some? {
        // Validate accepts every event, so the source's Error call here is
        // unreachable; an Error call in its place is checked under the
        // contradiction and draws a warning.
        assert false;
      }
    }

    method Find() returns (err: Option<string>)
      ensures err == Some(subject + " not supported")
    {
      err := Some(subject + " not supported");
    }

    method Get(p: Provider) returns (err: Option<string>)
      modifies this, p
      ensures Outcome(Reconciler.World(State(), p.State()), err) ==
                Reconciler.Get(Reconciler.World(old(State()), old(p.State())))
    {
      var resGroup := resourceGroupName;
      var nm := name;
      var resp := p.Get(resGroup, nm);
      match resp {
        case ReadFailed(text) =>
          return Some(Reconciler.ReadError(nm, text));
        case NotFound =>
          id := "";
          return None;
        case Found(r) =>
          name := r.name;
          location := r.location;
          addressSpace := r.addressPrefixes;
          var dnses: seq<string> := [];
          var i := 0;
          while i < |r.dnsServers|
            invariant 0 <= i <= |r.dnsServers|
            invariant dnses == r.dnsServers[..i]
          {
            dnses := dnses + [r.dnsServers[i]];
            i := i + 1;
          }
          assert dnses == r.dnsServers;
          dnsServerNames := dnses;
          tags := r.tags;
          assert resp == Read(old(p.State()), Reconciler.KeyOf(old(State())));
          assert Fields() == Reconciler.Adopt(old(Fields()), r);
          return None;
      }
    }

    method Create(p: Provider) returns (err: Option<string>)
      modifies this, p
      ensures Outcome(Reconciler.World(State(), p.State()), err) ==
                Reconciler.Create(Reconciler.World(old(State()), old(p.State())))
    {
      var resGroup := resourceGroupName;
      err := p.CreateOrUpdate(resGroup, name, location, tags);
      if err.Some? {
        return;
      }
      var read := p.Get(resGroup, name);
      if read.ReadFailed? {
        return Some(read.text);
      }
      if IdOf(read).None? {
        return Some(Reconciler.MissingIdError(name, resGroup));
      }
      id := IdOf(read).value;
      err := Get(p);
    }

    method Update(p: Provider) returns (err: Option<string>)
      modifies this, p
      ensures Outcome(Reconciler.World(State(), p.State()), err) ==
                Reconciler.Create(Reconciler.World(old(State()), old(p.State())))
    {
      err := Create(p);
    }

    method Delete(p: Provider) returns (err: Option<string>)
      modifies p
      ensures Outcome(Reconciler.World(State(), p.State()), err) ==
                Reconciler.Delete(Reconciler.World(State(), old(p.State())))
    {
      var resGroup := resourceGroupName;
      var nm := name;
      err := p.Delete(resGroup, nm);
    }
  }
}
