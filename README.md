# ernestazure message-handling core, modelled in Dafny

ernestazure answers messages that ask for a lifecycle action (create, update,
delete, get, find) on an Azure resource. A message is an event. It has a
routing subject such as `virtual_network.create` and a JSON body. The core in
this model has four parts:

- **Handler** (`Handle`): runs the event's pipeline. It takes the action from
  the second `.`-separated piece of the subject and calls at most one
  lifecycle operation. It answers with the subject plus `.done` or `.error`,
  together with the re-encoded body.
- **Envelope pipeline** (`Base`, repeated in the template kind): `Process`
  decodes, then validates. `Error` records a failure in the error message and
  re-encodes the body. `GetBody` and `GetSubject` are accessors.
- **Template kind**: a placeholder. All five of its lifecycle operations fail
  with `"<subject> not supported"`.
- **Virtual-network kind**: create is an upsert, then a read-back that must
  carry an identifier, then get. Update is create. Get clears the identifier
  on not-found and otherwise adopts the remote values. Find is unsupported.
  Delete deletes by name.

Layout:

- `common.dfy` (`Common`): bytes, Go's `error` as `Option<string>`, and
  `Outcome`.
- `pipeline.dfy` (`Pipeline`): the shared pipeline as functions, generic in
  each kind's own fields, with its lemmas. JSON is a `Codec`, a pair of total
  functions. The subject, body and crypto key sit outside the encoded
  `Payload`, just as their `json:"-"` tags keep them out of the source's
  encoding.
- `base.dfy` (`Ernestazure`): class `Base`.
- `template.dfy` (`Template`): class `Event`.
- `remote.dfy` (`Remote`): the remote provider as an abstract store. It is a
  map from (resource group, name) to a record, plus fault settings. A fixed
  setting decides whether CreateOrUpdate fails, and another whether Delete
  fails. Each read takes the next entry of a schedule of read faults, so the
  read-back and the closing Get of Create can fail independently. Class
  `Provider` holds the store.
- `reconciler.dfy` (`Reconciler`): the virtual-network lifecycle as functions
  over a `World` (the event plus the store), with its lemmas.
- `virtualnetwork.dfy` (`VirtualNetwork`): class `Event`. Its fields are
  updated in place, and each method is proved equal to its `Reconciler`
  function.
- `handler.dfy` (`Handler`): `strings.Split` and its inverse. The resource
  kinds form a closed union: `Snapshot` holds their states as values and
  `Target` holds the live objects. `Respond` is the handler as a function, and
  `Handle` is the method proved against it.
- `embedding.dfy` (`Embedding`): what the virtual-network kind answers as the
  code is written (see Findings).

External collaborators are parameters:

- The JSON codec is a `const` of each event class.
- The Azure client is a `Provider` argument of the virtual-network
  operations.

## Model

| member | source | states |
|---|---|---|
| `Ernestazure.Base.GetBody` | base.go:17-23 | the body becomes the encoding of the event, which is returned; nothing else changes |
| `Pipeline.Refreshed` | base.go:17-23 | GetBody's state change: the body is the encoding of the payload; payload, subject and crypto key are kept |
| `Pipeline.GetBodyIsStable` | base.go:11-23 | Body, Subject and CryptoKey are not encoded, so a second GetBody with no change in between yields the same bytes and state |
| `Ernestazure.Base.GetSubject` | base.go:26-28 | returns Subject and changes nothing |
| `Ernestazure.Base.Process` | base.go:31-43 | the new state and the returned error are those of the decode-then-validate pipeline |
| `Pipeline.Fresh` | virtualnetwork/entity.go:47-51 | the event a constructor builds: the given subject, body and crypto key, an empty error message and zero fields |
| `Pipeline.Processed` | base.go:31-43 | Process as a function: it keeps the subject and crypto key. On failure the error message is the returned text and the body is re-encoded. On success the body is kept and the payload is what the decoder produced |
| `Pipeline.DecodeFailureStopsPipeline` | base.go:32-35 | a failed decode applies Error with the decoder's error and returns it; the validator is never reached (any two validators give the same outcome) |
| `Pipeline.ValidationFailureIsRecorded` | base.go:37-40 | a failed validation applies Error to the decoded event and returns the validation error |
| `Pipeline.ProcessSuccess` | base.go:31-43 | Process succeeds iff decoding and validation both do; the event then holds the decoded payload and its body, subject and crypto key are untouched |
| `Pipeline.ProcessKeepsRouting` | base.go:31-43 | Process never changes the subject or the crypto key; on failure the error message is the returned error's text |
| `Ernestazure.Base.Error` | base.go:46-51 | the error message becomes the text and the body becomes the encoding of the updated event |
| `Pipeline.Failed` | base.go:46-51 | Error's state change: the message is set, the fields are kept, and the body is the encoding of the new payload |
| `Pipeline.GetBodyAfterError` | handler.go:35-36 | GetBody straight after Error changes nothing |
| `Ernestazure.Base.constructor` | base.go:9-14 | a Base starts with every field at its zero value |
| `Ernestazure.Validate` | base.go:54-56 | validation always returns nil |
| `Ernestazure.ProcessFailsOnlyOnDecode` | base.go:31-56 | because Validate accepts everything, Process fails iff decoding fails |
| `Template.Event.New` | template/event.go:24-28 | sets Subject, Body and CryptoKey as given; ErrorMessage is empty |
| `Template.Event.GetBody` | template/event.go:31-37 | as Base's GetBody, on the template event |
| `Template.Event.GetSubject` | template/event.go:40-42 | returns Subject and changes nothing |
| `Template.Event.Process` | template/event.go:45-57 | as Base's Process, with the template's Validate |
| `Template.Event.Error` | template/event.go:60-65 | the error message becomes the text and the body is re-encoded |
| `Template.Validate` | template/event.go:68-70 | validation always succeeds |
| `Template.ProcessFailsOnlyOnDecode` | template/event.go:45-70 | Process fails iff decoding fails, and then Error with the decoder's message has already been applied |
| `Common.NotSupported` | template/event.go:74 | the unsupported error is the subject followed by " not supported" |
| `Template.Event.Find` | template/event.go:73-75 | returns the error "<Subject> not supported" and modifies nothing |
| `Template.Event.Create` | template/event.go:78-80 | returns the error "<Subject> not supported" and modifies nothing |
| `Template.Event.Update` | template/event.go:83-85 | returns the error "<Subject> not supported" and modifies nothing |
| `Template.Event.Delete` | template/event.go:88-90 | returns the error "<Subject> not supported" and modifies nothing |
| `Template.Event.Get` | template/event.go:93-95 | returns the error "<Subject> not supported" and modifies nothing |
| `VirtualNetwork.Event.New` | virtualnetwork/entity.go:47-51 | sets Subject, Body and CryptoKey as given; every other field has its zero value |
| `VirtualNetwork.Event.GetBody` | base.go:17-23 | GetBody on the virtual-network event's own fields |
| `VirtualNetwork.Event.GetSubject` | base.go:26-28 | returns Subject and changes nothing |
| `VirtualNetwork.Event.Error` | base.go:46-51 | Error on the virtual-network event's own fields |
| `VirtualNetwork.Event.Process` | base.go:31-43 | Process on the event's own fields, with the virtual network's Validate |
| `Reconciler.Validate` | virtualnetwork/entity.go:60-63 | validation always returns nil |
| `VirtualNetwork.Event.Find` | virtualnetwork/entity.go:66-68 | returns the error "<Subject> not supported" and modifies nothing |
| `Reconciler.Find` | virtualnetwork/entity.go:66-68 | Find as a function: it fails and changes nothing |
| `Reconciler.Get` | virtualnetwork/entity.go:118-145 | Get as a function: it uses up one read and keeps the subject and crypto key; it fails exactly when its read fails |
| `Reconciler.Create` | virtualnetwork/entity.go:71-100 | Create as a function (upsert, read-back, ID check, Get): it keeps the subject, the crypto key and the write fault settings |
| `Reconciler.Delete` | virtualnetwork/entity.go:108-115 | Delete as a function: the event is unchanged and the error is the provider's delete fault |
| `Remote.Read` | virtualnetwork/entity.go:122-126 | the answer of the SDK's Get: it fails iff the next scheduled read fault is set, with that text. Otherwise it is not-found iff the key is absent, else the stored record |
| `Remote.IdOf` | virtualnetwork/entity.go:93 | a reading carries an ID iff it found a record that has one |
| `Remote.Upsert` | virtualnetwork/entity.go:84 | the SDK's CreateOrUpdate: it fails with the upsert fault and changes nothing, or writes the upserted record at the key and nothing else |
| `Remote.Remove` | virtualnetwork/entity.go:112 | the SDK's Delete: it fails with the delete fault and changes nothing, or removes exactly that key |
| `Remote.Provider.CreateOrUpdate` | virtualnetwork/entity.go:84 | the provider's new store and error are those of `Upsert` |
| `Remote.Provider.Get` | virtualnetwork/entity.go:89 | the answer is `Read` of the store before the call; the call uses up one read-fault entry and changes nothing else |
| `Remote.Provider.Delete` | virtualnetwork/entity.go:112 | the provider's new store and error are those of `Remove` |
| `Reconciler.FindIsUnsupported` | virtualnetwork/entity.go:66-68 | Find fails with "<Subject> not supported" and changes neither event nor store |
| `VirtualNetwork.Event.Create` | virtualnetwork/entity.go:71-100 | the new event, new store and error are those of the create lifecycle |
| `Reconciler.CreateContract` | virtualnetwork/entity.go:84-99 | a failed upsert is returned as is, with no read and no change. A failed read-back is returned as is. A read-back with no ID fails with "Cannot read Virtual Network <Name> (resource group <RG>) ID". On these three errors the event is unchanged. Otherwise ID is set to the remote ID and the result is that of Get. So when the closing Get's read fails, Create returns "Error making Read request on Azure virtual network <Name>: …" with ID already equal to the read-back ID |
| `Reconciler.UpsertThenReadFinds` | virtualnetwork/entity.go:84-93 | after a successful upsert, a read-back that does not fail finds the upserted record (it is never not-found) |
| `Reconciler.CreateIsIdempotent` | virtualnetwork/entity.go:71-100 | once Create has succeeded, Create again on its result succeeds when its two reads do not fail. It changes neither the event (ID included) nor any stored network; it only uses up its two reads |
| `Reconciler.CreateReplayIsNoChange` | virtualnetwork/entity.go:71-100 | sending the same create request again, against the store a successful Create left, succeeds when its two reads do not fail. It arrives at the same event and changes no stored network |
| `Remote.UpsertOfSameRecordIsNoChange` | virtualnetwork/entity.go:78-84 | upserting a record's own name, location and tags leaves the store as it was |
| `Reconciler.WritesKeepConsistent` | virtualnetwork/entity.go:78-84 | upsert (which names the record after the key) and delete keep every stored record under its own name |
| `VirtualNetwork.Event.Update` | virtualnetwork/entity.go:103-105 | exactly the effects and result of Create |
| `VirtualNetwork.Event.Delete` | virtualnetwork/entity.go:108-115 | the new store and error are those of delete-by-(resource group, name); no field of the event changes |
| `Reconciler.DeleteContract` | virtualnetwork/entity.go:108-115 | Delete targets (ResourceGroupName, Name) and leaves the event alone. On success exactly that key leaves the store; on failure nothing changes |
| `Reconciler.GetAfterDelete` | virtualnetwork/entity.go:108-129 | after a successful Delete, Get succeeds and only clears the ID (provided its read does not fail) |
| `VirtualNetwork.Event.Get` | virtualnetwork/entity.go:118-145 | the new event and error are those of the get lifecycle; the DNS list is copied element by element in the remote order |
| `Reconciler.GetContract` | virtualnetwork/entity.go:118-145 | Get never changes a stored network, the envelope fields, Subnets or ResourceGroupName. A failed read returns the "Error making Read request on Azure virtual network <Name>: " error and changes nothing. Not-found sets only ID to "" and succeeds. Found overwrites Name, Location, AddressSpace, DNSServerNames (same order) and Tags, keeps ID, and succeeds |
| `Reconciler.MissingIdError` | virtualnetwork/entity.go:94 | the error for a read-back without ID: "Cannot read Virtual Network " + Name + " (resource group " + the resource group + ") ID" |
| `Reconciler.ReadError` | virtualnetwork/entity.go:124 | the read error starts with "Error making Read request on Azure virtual network " + Name |
| `Reconciler.Adopt` | virtualnetwork/entity.go:131-142 | the fields a found record overwrites, and the ones it leaves (ID, Subnets, ResourceGroupName) |
| `Reconciler.GetIsIdempotent` | virtualnetwork/entity.go:118-145 | on a store whose records sit under their own names, when neither read fails, a second Get succeeds and changes no field |
| `Handler.Split` | handler.go:20 | strings.Split on ".": one piece more than the subject has separators, and no piece contains one |
| `Handler.JoinSplit` | handler.go:20 | joining the pieces with the separator gives back the subject |
| `Handler.SplitAtFirst` | handler.go:20 | the text before the first separator is the first piece, and the rest is split on its own |
| `Handler.FirstPiece` | handler.go:20 | a separator-free word followed by nothing or by a separator is the first piece |
| `Handler.ActionIsSecondPiece` | handler.go:20-21 | for the subject "<kind>.<action>[.<more>]" the switched-on piece is the action |
| `Handler.ActionNamed` | handler.go:21-32 | a recognised word is the word of the action it selects |
| `Handler.ActionNamedInvertsWord` | handler.go:21-32 | each of create, update, delete, get and find selects its own action; every other word selects none |
| `Handler.FindFailsForEveryKind` | handler.go:30-31 | find fails with "<Subject> not supported" and changes nothing, for either kind |
| `Handler.StepsKeepSubject` | handler.go:16-39 | no step of the handler (Process, any operation, Error, GetBody) changes the subject |
| `Handler.ReplySubject` | handler.go:16-39 | the answer is the original subject plus exactly one of ".error" or ".done", and it is ".error" iff Process or the selected operation failed |
| `Handler.ProcessFailureReply` | handler.go:16-18 | if Process fails, the answer is Subject + ".error" with the processed event re-encoded; the error message holds the failure; no operation runs, so the store is untouched |
| `Handler.DispatchReply` | handler.go:21-39 | a recognised action runs exactly the operation of that name, once; the answer is built from its outcome alone |
| `Handler.UnknownActionReply` | handler.go:21-39 | an unrecognised action runs no operation, leaves err nil and answers Subject + ".done" |
| `Handler.OperationErrorReply` | handler.go:34-37 | when the operation fails, Error is applied, so ErrorMessage equals the error text, and the answer ends in ".error" |
| `Handler.FailThenRefresh` | handler.go:35-36 | after Error and GetBody the error message is the recorded text |
| `Handler.FindRequestIsUnsupported` | handler.go:20-37 | a "<kind>.find[...]" request that passes Process is answered ".error" with the message "<Subject> not supported", for either kind |
| `Handler.TemplateActionsAreUnsupported` | handler.go:21-37 | a template event with a recognised action is always answered ".error" with "<Subject> not supported" |
| `Handler.Count` | handler.go:20 | the number of separators is positive iff the subject contains one |
| `Handler.ActionOf` | handler.go:20-21 | the piece switched on is `parts[1]`, which exists once the subject has a separator; a recognised action's word is that piece, and no action's word is the piece when none is recognised |
| `Handler.Perform` | handler.go:21-32 | the operation an action names, as a function: it keeps the subject and the kind; on a template it fails and changes nothing |
| `Handler.Respond` | handler.go:12-40 | Handle as a function: the answer subject is the event's subject plus ".error" or ".done", and the answer body is the final event's body |
| `Handler.ProcessTarget` | handler.go:16 | Process on the live objects, equal to `Process` of their state |
| `Handler.SubjectOf` | handler.go:17 | GetSubject on the live event returns its subject |
| `Handler.BodyOf` | handler.go:17 | GetBody on the live event, equal to `Refresh` of its state; returns the new body |
| `Handler.FailTarget` | handler.go:35 | Error on the live event, equal to `Fail` of its state |
| `Handler.PerformTarget` | handler.go:21-32 | calls the selected operation on the live event (and provider); the result is that of the operation's function |
| `Handler.Handle` | handler.go:12-40 | the answer and the new state of the event (and store) are those of `Respond` |
| `Embedding.NewAsWritten` | virtualnetwork/entity.go:47-51 | New as written: it sets the event's own subject, body and crypto key, leaves its fields zero, and leaves the embedded Base at its zero value (empty subject, body and key) |
| `Embedding.PromotedFailureReply` | handler.go:16-17 | the answer when Base's promoted Process fails: the embedded Base's subject plus ".error" and the encoding of the embedded Base's payload. There is an answer iff that Process fails |
| `Embedding.PromotedPipelineLosesSubject` | base.go:26-35 | as written, New sets only the event's own envelope, and the promoted Process decodes the embedded Base's empty body. Every virtual-network event built by New is then answered with the bare subject ".error" and the decoder's error. The reply is the same for every subject, body and crypto key given to New |
| `Embedding.OwnPipelineKeepsSubject` | handler.go:16-39 | with the pipeline on the event's own fields, the answer to an event built by New is its own subject plus ".error" or ".done", and ".error" when Process fails |

## Left out

- credentials/credentials.go is not part of this model. It decrypts
  credentials (an external AES collaborator), resolves the OAuth
  configuration and builds the SDK client. At virtualnetwork/entity.go:54-57
  the client is built on every call, and its error is ignored. The model
  replaces all of this with the `Provider` argument. So a credential failure
  (which would dereference a nil client) is not modelled. Nor is line 60 of
  credentials.go, which writes through a nil `client`.
- The four credential fields of the virtual-network event (ClientID,
  ClientSecret, TenantID, SubscriptionID) are not modelled: only the client
  constructor reads them. All four carry the JSON name
  "azure_subscription_id", so encoding/json ignores them in both directions.
- instance/entity.go declares types only and is not part of this model. The
  security-group convergence and the locked shared-document create path are
  not in the code, so they are not modelled.
- JSON syntax is not modelled: `Codec.decode` and `Codec.encode` are
  parameters. Encoding is total, since json.Marshal cannot fail on these field
  types. A failed decode leaves the event unchanged. json.Unmarshal can
  assign some fields before it reports a type mismatch; the model does not
  capture that.
- The Azure SDK calls are modelled only as the abstract store, with three
  outcomes: failure (the fault setting of the call, or the next entry of the
  read-fault schedule), not-found and found. Not
  modelled: HTTP status codes other than not-found, the asynchronous polling,
  and the cancel channels. What the provider stores on an upsert is the
  model's own choice. It writes the request's name, location and tags over
  the existing record, or over a new one carrying the provider's `newId`.
- Get dereferences the remote record's Name, Location, AddressSpace and its
  AddressPrefixes, DhcpOptions and its DNSServers, and Tags
  (virtualnetwork/entity.go:132-142). A nil pointer there would panic; the
  model's records always have these fields. Tag values are `*string` in the source and plain
  strings here, so nil tag values are not modelled.
- Logging (`log.Printf`, `log.Println`) has no behavioural effect and is
  left out.
- `Handler.Handle`: requires `CanHandle`, which holds when Process fails or
  the subject contains a `.`. Otherwise `parts[1]` is out of range and the
  source panics.
- In the dead branch after a validation failure, the methods' `Process` holds
  `assert false` instead of the source's `Error` call, because every Validate
  returns nil. An `Error` call there is checked under contradictory facts,
  and the verifier warns about it. The generic `Pipeline.Processed` models
  that branch for any validator.
- Only the request's own calls change the store: no other writer acts
  between Create's upsert, its read-back and its closing Get. This is what
  makes `Reconciler.UpsertThenReadFinds` never answer not-found. It also
  rules out a source path: with a concurrent delete, the closing Get reads
  not-found and Create succeeds with ID "" (virtualnetwork/entity.go:99,
  126-128). Callers are expected to serialise operations on one network.
- Create returns the upsert and read-back errors unwrapped, with no added
  context (virtualnetwork/entity.go:84-91); the model does the same.
- A not-found Get clears only the ID and leaves the other fields as they
  were (virtualnetwork/entity.go:126-129); the model does the same.

## Findings

| source | as written | input that shows it | evidently intended | confidence | as-written member | corrected member |
|---|---|---|---|---|---|---|
| virtualnetwork/entity.go:19-51 with base.go:26-43 | the virtual-network event redeclares ErrorMessage, Subject, Body and CryptoKey next to its embedded Base, and New sets only its own copies; the handler's Process, GetSubject and GetBody are Base's, which work on the embedded Base's empty copies, so Process decodes an empty body, fails, and the answer subject is ".error" | `New("virtual_network.create", body, "")` with any body: answered ".error" with body `{"error":"unexpected end of JSON input"}` | the pipeline runs on the event's own fields and answers "virtual_network.create.done" or "virtual_network.create.error" | high (not executed) | `Embedding.PromotedPipelineLosesSubject` | `Embedding.OwnPipelineKeepsSubject` |
