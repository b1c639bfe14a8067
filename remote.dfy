/** The remote provider the virtual-network operations talk to, as an abstract
    store of virtual networks keyed by resource group and name.

    Each of the three calls the source makes (CreateOrUpdate, Get, Delete)
    either fails with an error text or acts on the store. CreateOrUpdate and
    Delete are made at most once per operation, and a fault setting of the
    provider decides whether they fail. Get can be made twice in one operation
    (Create reads back, then finishes with Get), so each read takes the next
    entry of a schedule of read faults; once the schedule is used up, reads do
    not fail. A read of an absent key answers "not found". What the provider
    assigns on creation (the identifier) is a setting of the provider too;
    `None` stands for a response without an ID. */
module Remote {
  import opened Common

  datatype Key = Key(resourceGroup: string, name: string)

  /** What the provider holds for one virtual network. */
  datatype Record = Record(id: Option<string>, name: string, location: string,
                           addressPrefixes: seq<string>, dnsServers: seq<string>,
                           tags: map<string, string>)

  datatype Store = Store(networks: map<Key, Record>,
                         upsertFault: Option<string>, readFaults: seq<Option<string>>,
                         deleteFault: Option<string>, newId: Option<string>)

  /** The three answers a read can give. */
  datatype Reading = ReadFailed(text: string) | NotFound | Found(record: Record)

  /** The identifier a reading carries, if any (a not-found answer has none). */
  function IdOf(r: Reading): (id: Option<string>)
    ensures id.Some? <==> r.Found? && r.record.id.Some?
  {
    if r.Found? then r.record.id else None
  }

  /** The fault of the next read, if it fails. */
  function NextReadFault(s: Store): Option<string>
  {
    if |s.readFaults| == 0 then None else s.readFaults[0]
  }

  /** The store after a read: the read has used its entry of the fault
      schedule, and nothing else changes. */
  function AfterRead(s: Store): (t: Store)
    ensures t.networks == s.networks && t.newId == s.newId
    ensures t.upsertFault == s.upsertFault && t.deleteFault == s.deleteFault
    ensures |s.readFaults| > 0 ==> t.readFaults == s.readFaults[1..]
    ensures |s.readFaults| == 0 ==> t.readFaults == []
  {
    s.(readFaults := if |s.readFaults| == 0 then [] else s.readFaults[1..])
  }

  /** Get(resourceGroup, name): what the read answers. */
  function Read(s: Store, k: Key): (r: Reading)
    ensures r.ReadFailed? <==> NextReadFault(s).Some?
    ensures r.ReadFailed? ==> r.text == NextReadFault(s).value
    ensures r.NotFound? <==> NextReadFault(s).None? && k !in s.networks
    ensures r.Found? ==> k in s.networks && r.record == s.networks[k]
  {
    match NextReadFault(s)
    case Some(text) => ReadFailed(text)
    case None => if k in s.networks then Found(s.networks[k]) else NotFound
  }

  /** The record CreateOrUpdate leaves at a key: the name, location and tags
      of the request over what was there, or over a new record carrying the
      identifier the provider assigns. */
  function Upserted(s: Store, k: Key, location: string, tags: map<string, string>): Record
  {
    var base := if k in s.networks then s.networks[k] else Record(s.newId, "", "", [], [], map[]);
    base.(name := k.name, location := location, tags := tags)
  }

  /** CreateOrUpdate(resourceGroup, name, {name, location, tags}). */
  function Upsert(s: Store, k: Key, location: string, tags: map<string, string>): (o: Outcome<Store>)
    ensures o.err == s.upsertFault
    ensures o.err.Some? ==> o.state == s
    ensures o.err.None? ==> o.state == s.(networks := s.networks[k := Upserted(s, k, location, tags)])
  {
    if s.upsertFault.Some? then Outcome(s, s.upsertFault)
    else Outcome(s.(networks := s.networks[k := Upserted(s, k, location, tags)]), None)
  }

  /** Delete(resourceGroup, name). */
  function Remove(s: Store, k: Key): (o: Outcome<Store>)
    ensures o.err == s.deleteFault
    ensures o.err.Some? ==> o.state == s
    ensures o.err.None? ==> o.state == s.(networks := s.networks - {k})
  {
    if s.deleteFault.Some? then Outcome(s, s.deleteFault)
    else Outcome(s.(networks := s.networks - {k}), None)
  }

  /** An upsert that repeats a record's own location and tags under its own
      name leaves the store as it was. */
  lemma {:induction false} UpsertOfSameRecordIsNoChange(s: Store, k: Key)
    requires s.upsertFault.None? && k in s.networks && s.networks[k].name == k.name
    ensures Upsert(s, k, s.networks[k].location, s.networks[k].tags) == Outcome(s, None)
  {
    var r := s.networks[k];
    assert Upserted(s, k, r.location, r.tags) == r;
    assert s.networks[k := r] == s.networks;
  }

  /** The provider's client, holding the store; the fault settings of the
      writes and the identifier it assigns are fixed for its lifetime, and
      each read uses up one entry of the read-fault schedule. */
  class Provider {
    var networks: map<Key, Record>
    var readFaults: seq<Option<string>>
    const upsertFault: Option<string>
    const deleteFault: Option<string>
    const newId: Option<string>

    function State(): Store
      reads this
    {
      Store(networks, upsertFault, readFaults, deleteFault, newId)
    }

    constructor (s: Store)
      ensures State() == s
    {
      networks, readFaults := s.networks, s.readFaults;
      upsertFault, deleteFault, newId := s.upsertFault, s.deleteFault, s.newId;
    }

    method CreateOrUpdate(resourceGroup: string, name: string, location: string, tags: map<string, string>)
      returns (err: Option<string>)
      modifies this
      ensures Outcome(State(), err) == Upsert(old(State()), Key(resourceGroup, name), location, tags)
    {
      err := upsertFault;
      if err.None? {
        var k := Key(resourceGroup, name);
        networks := networks[k := Upserted(State(), k, location, tags)];
      }
    }

    method Get(resourceGroup: string, name: string) returns (r: Reading)
      modifies this
      ensures r == Read(old(State()), Key(resourceGroup, name))
      ensures State() == AfterRead(old(State()))
    {
      var k := Key(resourceGroup, name);
      var fault: Option<string> := None;
      if |readFaults| > 0 {
        fault := readFaults[0];
        readFaults := readFaults[1..];
      }
      if fault.Some? {
        r := ReadFailed(fault.value);
      } else if k in networks {
        r := Found(networks[k]);
      } else {
        r := NotFound;
      }
    }

    method Delete(resourceGroup: string, name: string) returns (err: Option<string>)
      modifies this
      ensures Outcome(State(), err) == Remove(old(State()), Key(resourceGroup, name))
    {
      err := deleteFault;
      if err.None? {
        networks := networks - {Key(resourceGroup, name)};
      }
    }
  }
}
