/** The lifecycle of a virtual network (virtualnetwork/entity.go) as functions
    over a `World`: the event's state together with the remote store. The
    class in VirtualNetwork performs these steps in place and is proved
    against the functions here; the properties of the lifecycle are lemmas
    about them. */
module Reconciler {
  import opened Common
  import opened Pipeline
  import opened Remote

  datatype Subnet = Subnet(name: string, addressPrefix: string, securityGroup: string)

  /** The fields of a virtual-network event that encoding/json sees besides
      "error". The four credential fields are not among them: they all carry
      the JSON name "azure_subscription_id", and encoding/json ignores fields
      whose names collide at the same depth. */
  datatype Network = Network(id: string, name: string, addressSpace: seq<string>,
                             dnsServerNames: seq<string>, subnets: seq<Subnet>,
                             location: string, resourceGroupName: string,
                             tags: map<string, string>)

  type Event = Envelope<Network>

  /** The zero value of the fields, as `New` leaves them. */
  const Zero := Network("", "", [], [], [], "", "", map[])

  datatype World = World(event: Event, store: Store)

  function FieldsOf(e: Event): Network { e.payload.fields }

  function WithFields(e: Event, n: Network): (r: Event)
    ensures r.payload.fields == n && r.payload.errorMessage == e.payload.errorMessage
    ensures r.subject == e.subject && r.body == e.body && r.cryptoKey == e.cryptoKey
  {
    e.(payload := e.payload.(fields := n))
  }

  /** The remote key an event addresses: its resource group and its name. */
  function KeyOf(e: Event): Key
  {
    Key(e.payload.fields.resourceGroupName, e.payload.fields.name)
  }

  /** Validate: every virtual-network event is accepted. */
  function Validate(p: Payload<Network>): (err: Option<string>)
    ensures err == None
  {
    None
  }

  const ReadErrorPrefix := "Error making Read request on Azure virtual network "

  /** The error Get returns when the remote read fails. */
  function ReadError(name: string, text: string): (m: string)
    ensures |m| >= |ReadErrorPrefix + name| && m[..|ReadErrorPrefix + name|] == ReadErrorPrefix + name
  {
    ReadErrorPrefix + name + ": " + text
  }

  /** The error Create returns when the read-back carries no identifier. */
  function MissingIdError(name: string, resourceGroup: string): (m: string)
    ensures var head := "Cannot read Virtual Network " + name + " (resource group ";
            |m| == |head| + |resourceGroup| + 4 && m[..|head|] == head &&
            m[|head|..|head| + |resourceGroup|] == resourceGroup && m[|m| - 4..] == ") ID"
  {
    "Cannot read Virtual Network " + name + " (resource group " + resourceGroup + ") ID"
  }

  /** The fields a successful read overwrites: name, location, address
      space, DNS servers (in the remote order) and tags. */
  function Adopt(n: Network, r: Record): (m: Network)
    ensures m.name == r.name && m.location == r.location && m.tags == r.tags
    ensures m.addressSpace == r.addressPrefixes && m.dnsServerNames == r.dnsServers
    ensures m.id == n.id && m.subnets == n.subnets && m.resourceGroupName == n.resourceGroupName
  {
    n.(name := r.name, location := r.location, addressSpace := r.addressPrefixes,
       dnsServerNames := r.dnsServers, tags := r.tags)
  }

  /** Find: unsupported for this kind; nothing changes. */
  function Find(w: World): (r: Outcome<World>)
    ensures r.state == w && r.err.Some?
  {
    Outcome(w, Some(NotSupported(w.event.subject)))
  }

  /** Get: read the network by (resource group, name); on not-found clear
      the identifier; otherwise adopt the remote values. */
  function Get(w: World): (r: Outcome<World>)
    ensures r.state.store == AfterRead(w.store)
    ensures r.state.event.subject == w.event.subject && r.state.event.cryptoKey == w.event.cryptoKey
    ensures r.err.None? <==> NextReadFault(w.store).None?
  {
    var n := FieldsOf(w.event);
    var read := Read(w.store, KeyOf(w.event));
    var after := w.(store := AfterRead(w.store));
    match read
    case ReadFailed(text) => Outcome(after, Some(ReadError(n.name, text)))
    case NotFound => Outcome(after.(event := WithFields(w.event, n.(id := ""))), None)
    case Found(r) => Outcome(after.(event := WithFields(w.event, Adopt(n, r))), None)
  }

  /** Create: upsert the name, location and tags; read the network back; fail
      if the read fails or carries no identifier; otherwise record the
      identifier and finish with Get. Update is the same operation. */
  function Create(w: World): (r: Outcome<World>)
    ensures r.state.event.subject == w.event.subject && r.state.event.cryptoKey == w.event.cryptoKey
    ensures r.state.store.upsertFault == w.store.upsertFault && r.state.store.deleteFault == w.store.deleteFault
  {
    var n := FieldsOf(w.event);
    var up := Upsert(w.store, KeyOf(w.event), n.location, n.tags);
    if up.err.Some? then Outcome(w, up.err)
    else
      var read := Read(up.state, KeyOf(w.event));
      var written := w.(store := AfterRead(up.state));
      if read.ReadFailed? then Outcome(written, Some(read.text))
      else if IdOf(read).None? then Outcome(written, Some(MissingIdError(n.name, n.resourceGroupName)))
      else Get(written.(event := WithFields(w.event, n.(id := IdOf(read).value))))
  }

  /** Delete: delete by (resource group, name); the event is left alone. */
  function Delete(w: World): (r: Outcome<World>)
    ensures r.state.event == w.event && r.err == w.store.deleteFault
  {
    var rm := Remove(w.store, KeyOf(w.event));
    Outcome(w.(store := rm.state), rm.err)
  }

  /** Find fails with "<subject> not supported" and changes nothing. */
  lemma FindIsUnsupported(w: World)
    ensures Find(w).state == w
    ensures Find(w).err == Some(w.event.subject + " not supported")
  {
  }

  /** Get changes no stored network and uses up one read. It keeps the
      envelope, the subnets and the resource group. A failed read is reported
      with the read-error prefix and changes no field; not-found clears only
      the identifier and succeeds; a found record overwrites exactly the
      adopted fields and succeeds. */
  lemma GetContract(w: World)
    ensures Get(w).state.store.networks == w.store.networks
    ensures var e, e' := w.event, Get(w).state.event;
            e'.payload.errorMessage == e.payload.errorMessage && e'.subject == e.subject &&
            e'.body == e.body && e'.cryptoKey == e.cryptoKey
    ensures var n, n' := FieldsOf(w.event), FieldsOf(Get(w).state.event);
            n'.subnets == n.subnets && n'.resourceGroupName == n.resourceGroupName
    ensures Read(w.store, KeyOf(w.event)).ReadFailed? ==>
              Get(w) == Outcome(w.(store := AfterRead(w.store)),
                                Some(ReadError(FieldsOf(w.event).name, Read(w.store, KeyOf(w.event)).text)))
    ensures Read(w.store, KeyOf(w.event)).NotFound? ==>
              Get(w).err.None? && FieldsOf(Get(w).state.event) == FieldsOf(w.event).(id := "")
    ensures Read(w.store, KeyOf(w.event)).Found? ==>
              var r, n' := Read(w.store, KeyOf(w.event)).record, FieldsOf(Get(w).state.event);
              Get(w).err.None? && n'.id == FieldsOf(w.event).id &&
              n'.name == r.name && n'.location == r.location && n'.addressSpace == r.addressPrefixes &&
              n'.dnsServerNames == r.dnsServers && n'.tags == r.tags
  {
  }

  /** Create's outcomes, one per exit of the source. A failed upsert is
      returned as it is, with no read and nothing changed. A failed read-back
      is returned as it is, and a read-back without identifier fails with the
      "Cannot read" error; on these three the event is unchanged. Otherwise
      the identifier is the remote one and the outcome is that of Get, so a
      closing Get whose read fails returns the read error with the identifier
      already recorded. */
  lemma CreateContract(w: World)
    ensures w.store.upsertFault.Some? ==> Create(w) == Outcome(w, w.store.upsertFault)
    ensures var n, k := FieldsOf(w.event), KeyOf(w.event);
            var s := Upsert(w.store, k, n.location, n.tags).state;
            var read := Read(s, k);
            w.store.upsertFault.None? ==>
              (read.ReadFailed? ==> Create(w) == Outcome(w.(store := AfterRead(s)), Some(read.text))) &&
              (!read.ReadFailed? && IdOf(read).None? ==>
                 Create(w) == Outcome(w.(store := AfterRead(s)), Some(MissingIdError(n.name, n.resourceGroupName)))) &&
              (IdOf(read).Some? ==>
                 Create(w) == Get(World(WithFields(w.event, n.(id := IdOf(read).value)), AfterRead(s))))
    ensures var n, k := FieldsOf(w.event), KeyOf(w.event);
            var s := Upsert(w.store, k, n.location, n.tags).state;
            w.store.upsertFault.Some? || Read(s, k).ReadFailed? || IdOf(Read(s, k)).None? ==>
              Create(w).err.Some? && Create(w).state.event == w.event
    ensures var n, k := FieldsOf(w.event), KeyOf(w.event);
            var s := Upsert(w.store, k, n.location, n.tags).state;
            var closing := NextReadFault(AfterRead(s));
            w.store.upsertFault.None? && IdOf(Read(s, k)).Some? && closing.Some? ==>
              Create(w).err == Some(ReadError(n.name, closing.value)) &&
              FieldsOf(Create(w).state.event) == n.(id := IdOf(Read(s, k)).value)
  {
  }

  /** After a successful upsert the read-back finds the network, unless the
      read itself fails: it is never "not found". */
  lemma UpsertThenReadFinds(w: World)
    requires w.store.upsertFault.None? && NextReadFault(w.store).None?
    ensures var n := FieldsOf(w.event);
            var s := Upsert(w.store, KeyOf(w.event), n.location, n.tags).state;
            Read(s, KeyOf(w.event)) == Found(Upserted(w.store, KeyOf(w.event), n.location, n.tags))
  {
  }

  /** Delete targets (resource group, name), leaves the event alone and, when
      it succeeds, removes exactly that key from the store. */
  lemma DeleteContract(w: World)
    ensures Delete(w).state.event == w.event
    ensures Delete(w).err == w.store.deleteFault
    ensures Delete(w).err.None? ==>
              Delete(w).state.store.networks == w.store.networks - {KeyOf(w.event)}
    ensures Delete(w).err.Some? ==> Delete(w).state == w
  {
  }

  /** Every store record sits under its own name. */
  ghost predicate Consistent(s: Store)
  {
    forall k :: k in s.networks ==> s.networks[k].name == k.name
  }

  /** Upsert and delete keep every record under its own name. */
  lemma {:induction false} WritesKeepConsistent(s: Store, k: Key, location: string, tags: map<string, string>)
    requires Consistent(s)
    ensures Consistent(Upsert(s, k, location, tags).state)
    ensures Consistent(Remove(s, k).state)
  {
    var u := Upsert(s, k, location, tags).state;
    forall k' | k' in u.networks
      ensures u.networks[k'].name == k'.name
    {
      if k' != k {
        assert u.networks[k'] == s.networks[k'];
      }
    }
  }

  /** Create is idempotent: once it has succeeded, running it again on the
      event it produced succeeds, gives the same identifier and changes
      neither the event nor any stored network, provided its two reads do
      not fail. */
  lemma {:induction false} CreateIsIdempotent(w: World)
    requires Create(w).err.None?
    requires var s := Create(w).state.store;
             NextReadFault(s).None? && NextReadFault(AfterRead(s)).None?
    ensures var done := Create(w).state;
            Create(done) == Outcome(done.(store := AfterRead(AfterRead(done.store))), None)
  {
    var n := FieldsOf(w.event);
    var k := KeyOf(w.event);
    var s := Upsert(w.store, k, n.location, n.tags).state;
    var r := Upserted(w.store, k, n.location, n.tags);
    assert Read(s, k).Found? && Read(s, k).record == r;
    var withId := WithFields(w.event, n.(id := r.id.value));
    assert KeyOf(withId) == k;
    var s1 := AfterRead(s);
    assert Read(s1, k) == Found(r);
    var s2 := AfterRead(s1);
    var done := World(WithFields(withId, Adopt(n.(id := r.id.value), r)), s2);
    assert Create(w) == Outcome(done, None);
    var n2 := FieldsOf(done.event);
    assert KeyOf(done.event) == k;
    assert s2.networks[k] == r;
    UpsertOfSameRecordIsNoChange(s2, k);
    assert Upsert(s2, k, n2.location, n2.tags) == Outcome(s2, None);
    assert Read(s2, k) == Found(r);
    assert n2.(id := r.id.value) == n2;
    assert Read(AfterRead(s2), k) == Found(r);
    assert Adopt(n2, r) == n2;
  }

  /** The same create request sent twice: once a Create has succeeded,
      sending the original event again against the store it left succeeds,
      arrives at the same event and changes no stored network, provided its
      two reads do not fail. */
  lemma {:induction false} CreateReplayIsNoChange(w: World)
    requires Create(w).err.None?
    requires var s := Create(w).state.store;
             NextReadFault(s).None? && NextReadFault(AfterRead(s)).None?
    ensures var done := Create(w).state;
            Create(World(w.event, done.store)) == Outcome(done.(store := AfterRead(AfterRead(done.store))), None)
  {
    var n := FieldsOf(w.event);
    var k := KeyOf(w.event);
    var s := Upsert(w.store, k, n.location, n.tags).state;
    var r := Upserted(w.store, k, n.location, n.tags);
    assert Read(s, k).Found? && Read(s, k).record == r;
    var s2 := AfterRead(AfterRead(s));
    assert Read(AfterRead(s), k) == Found(r);
    assert Create(w).state.store == s2;
    assert s2.networks[k] == r;
    assert Upserted(s2, k, n.location, n.tags) == r;
    assert s2.networks[k := r] == s2.networks;
    assert Upsert(s2, k, n.location, n.tags) == Outcome(s2, None);
    assert Read(s2, k) == Found(r);
    assert Read(AfterRead(s2), k) == Found(r);
  }

  /** After a successful Delete, Get succeeds and clears the identifier
      (absence is not an error), provided the read itself does not fail. */
  lemma GetAfterDelete(w: World)
    requires Delete(w).err.None? && NextReadFault(w.store).None?
    ensures Get(Delete(w).state) ==
              Outcome(World(WithFields(w.event, FieldsOf(w.event).(id := "")), AfterRead(Delete(w).state.store)), None)
  {
  }

  /** On a consistent store Get is idempotent: when neither of two reads
      fails, the second Get reads the same key and changes no field. */
  lemma {:induction false} GetIsIdempotent(w: World)
    requires Consistent(w.store)
    requires NextReadFault(w.store).None? && NextReadFault(AfterRead(w.store)).None?
    ensures Get(Get(w).state) == Outcome(Get(w).state.(store := AfterRead(Get(w).state.store)), None)
  {
    var k := KeyOf(w.event);
    match Read(w.store, k)
    case ReadFailed(_) =>
    case NotFound =>
      assert KeyOf(Get(w).state.event) == k;
    case Found(r) =>
      assert r.name == k.name;
      assert KeyOf(Get(w).state.event) == k;
  }
}
