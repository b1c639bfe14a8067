/** The message handler of handler.go: run the event's pipeline, take the
    action from the second `.`-separated component of the subject, run at most
    one lifecycle operation and answer with the subject followed by ".done" or
    ".error" and the re-encoded body.

    The handler works on any resource kind. The kinds of this model form a
    closed union: the template placeholder and the virtual network (with the
    remote provider it talks to). `Snapshot` is the state of either as a
    value and `Respond` the handler's effect on it; `Target` holds the live
    objects and `Handle` is proved against `Respond`. */
module Handler {
  import opened Common
  import opened Pipeline
  import opened Remote
  import Reconciler
  import Template
  import VirtualNetwork

  // ---------------------------------------------------------------- strings.Split

  /** The number of occurrences of `sep` in `s`. */
  function Count(s: string, sep: char): (n: nat)
    ensures n > 0 <==> sep in s
  {
    if s == [] then 0 else (if s[0] == sep then 1 else 0) + Count(s[1..], sep)
  }

  /** strings.Split with a one-character separator: the pieces of `s` between
      the occurrences of `sep`, one more piece than there are separators. */
  function Split(s: string, sep: char): (parts: seq<string>)
    ensures |parts| == Count(s, sep) + 1
    ensures forall i :: 0 <= i < |parts| ==> sep !in parts[i]
  {
    if s == [] then [""]
    else
      var rest := Split(s[1..], sep);
      if s[0] == sep then [""] + rest
      else [[s[0]] + rest[0]] + rest[1..]
  }

  /** strings.Join, the inverse of Split. */
  function Join(parts: seq<string>, sep: char): string
    requires |parts| > 0
  {
    if |parts| == 1 then parts[0] else parts[0] + [sep] + Join(parts[1..], sep)
  }

  /** Joining the pieces with the separator gives back the subject. */
  lemma {:induction false} JoinSplit(s: string, sep: char)
    ensures Join(Split(s, sep), sep) == s
  {
    if s != [] {
      var rest := Split(s[1..], sep);
      JoinSplit(s[1..], sep);
      if s[0] == sep {
        assert Split(s, sep)[1..] == rest;
      } else {
        var parts := Split(s, sep);
        assert parts[0] == [s[0]] + rest[0];
        if |rest| > 1 {
          assert parts[1..] == rest[1..];
          assert Join(rest, sep) == rest[0] + [sep] + Join(rest[1..], sep);
        }
      }
    }
  }

  /** The text before the first separator is the first piece, and the rest
      is split on its own. */
  lemma {:induction false} SplitAtFirst(a: string, b: string, sep: char)
    requires sep !in a
    ensures Split(a + [sep] + b, sep) == [a] + Split(b, sep)
  {
    if a == [] {
      assert a + [sep] + b == [sep] + b;
      assert ([sep] + b)[1..] == b;
    } else {
      SplitAtFirst(a[1..], b, sep);
      assert (a + [sep] + b)[1..] == a[1..] + [sep] + b;
      assert [a[0]] + a[1..] == a;
    }
  }

  /** A word free of separators followed by nothing or by a separator is the
      first piece. */
  lemma {:induction false} FirstPiece(w: string, rest: string, sep: char)
    requires sep !in w && (rest == [] || rest[0] == sep)
    ensures Split(w + rest, sep)[0] == w
  {
    if w == [] {
      assert w + rest == rest;
    } else {
      FirstPiece(w[1..], rest, sep);
      assert (w + rest)[1..] == w[1..] + rest;
      assert [w[0]] + w[1..] == w;
    }
  }

  /** For a subject "<kind>.<action>[.<more>]" the second piece is the action. */
  lemma ActionIsSecondPiece(kind: string, action: string, rest: string)
    requires '.' !in kind && '.' !in action && (rest == [] || rest[0] == '.')
    ensures Split(kind + "." + action + rest, '.')[1] == action
  {
    assert kind + "." + action + rest == kind + ['.'] + (action + rest);
    SplitAtFirst(kind, action + rest, '.');
    FirstPiece(action, rest, '.');
  }

  // ---------------------------------------------------------------- actions

  datatype Action = Create | Update | Delete | Get | Find

  /** The subject word that names each action. */
  function Word(a: Action): string
  {
    match a
    case Create => "create"
    case Update => "update"
    case Delete => "delete"
    case Get => "get"
    case Find => "find"
  }

  /** The switch of Handle: the action a word names, if any. */
  function ActionNamed(w: string): (a: Option<Action>)
    ensures a.Some? ==> Word(a.value) == w
  {
    if w == "create" then Some(Create)
    else if w == "update" then Some(Update)
    else if w == "delete" then Some(Delete)
    else if w == "get" then Some(Get)
    else if w == "find" then Some(Find)
    else None
  }

  /** Every action is recognised by its own word, and only the five words
      are recognised. */
  lemma ActionNamedInvertsWord(a: Action, w: string)
    ensures ActionNamed(Word(a)) == Some(a)
    ensures ActionNamed(w).None? <==>
              w != "create" && w != "update" && w != "delete" && w != "get" && w != "find"
  {
  }

  // ---------------------------------------------------------------- the kinds

  /** The state of an event of either kind, with the codec of its kind. */
  datatype Snapshot =
    | TemplateSnap(tc: Codec<()>, template: Envelope<()>)
    | NetworkSnap(nc: Codec<Reconciler.Network>, world: Reconciler.World)

  function Subject(k: Snapshot): string
  {
    match k
    case TemplateSnap(_, e) => e.subject
    case NetworkSnap(_, w) => w.event.subject
  }

  function ErrorMessage(k: Snapshot): string
  {
    match k
    case TemplateSnap(_, e) => e.payload.errorMessage
    case NetworkSnap(_, w) => w.event.payload.errorMessage
  }

  function Body(k: Snapshot): Bytes
  {
    match k
    case TemplateSnap(_, e) => e.body
    case NetworkSnap(_, w) => w.event.body
  }

  /** Process, with the kind's own Validate. */
  function Process(k: Snapshot): Outcome<Snapshot>
  {
    match k
    case TemplateSnap(c, e) =>
      var o := Processed(c, Template.Validate, e);
      Outcome(TemplateSnap(c, o.state), o.err)
    case NetworkSnap(c, w) =>
      var o := Processed(c, Reconciler.Validate, w.event);
      Outcome(NetworkSnap(c, w.(event := o.state)), o.err)
  }

  /** Error(err). */
  function Fail(k: Snapshot, text: string): Snapshot
  {
    match k
    case TemplateSnap(c, e) => TemplateSnap(c, Failed(c, e, text))
    case NetworkSnap(c, w) => NetworkSnap(c, w.(event := Failed(c, w.event, text)))
  }

  /** GetBody. */
  function Refresh(k: Snapshot): Snapshot
  {
    match k
    case TemplateSnap(c, e) => TemplateSnap(c, Refreshed(c, e))
    case NetworkSnap(c, w) => NetworkSnap(c, w.(event := Refreshed(c, w.event)))
  }

  /** The lifecycle operation an action names, for the kind of the event. */
  function Perform(k: Snapshot, a: Action): (r: Outcome<Snapshot>)
    ensures Subject(r.state) == Subject(k) && r.state.TemplateSnap? == k.TemplateSnap?
    ensures k.TemplateSnap? ==> r.state == k && r.err.Some?
    ensures k.NetworkSnap? ==> r.state.nc == k.nc
  {
    match k
    case TemplateSnap(_, e) => Outcome(k, Some(NotSupported(e.subject)))
    case NetworkSnap(c, w) =>
      var o := match a
               case Create => Reconciler.Create(w)
               case Update => Reconciler.Create(w)
               case Delete => Reconciler.Delete(w)
               case Get => Reconciler.Get(w)
               case Find => Reconciler.Find(w);
      Outcome(NetworkSnap(c, o.state), o.err)
  }

  /** No step of the handler changes the subject. */
  lemma StepsKeepSubject(k: Snapshot, a: Action, text: string)
    ensures Subject(Process(k).state) == Subject(k)
    ensures Subject(Perform(k, a).state) == Subject(k)
    ensures Subject(Fail(k, text)) == Subject(k)
    ensures Subject(Refresh(k)) == Subject(k)
  {
    if k.NetworkSnap? && (a == Create || a == Update) {
      Reconciler.CreateContract(k.world);
    }
  }

  // ---------------------------------------------------------------- Handle

  datatype Reply = Reply(after: Snapshot, subject: string, body: Bytes)

  /** Handle indexes the second piece of the subject only after a successful
      Process; a subject without a separator there is out of range. */
  predicate CanHandle(k: Snapshot)
  {
    Process(k).err.Some? || '.' in Subject(Process(k).state)
  }

  /** The action of a processed event whose subject has a separator. */
  function ActionOf(k: Snapshot): (a: Option<Action>)
    requires '.' in Subject(k)
    ensures |Split(Subject(k), '.')| >= 2
    ensures a.Some? ==> Word(a.value) == Split(Subject(k), '.')[1]
    ensures a.None? ==> forall b: Action :: Word(b) != Split(Subject(k), '.')[1]
  {
    ActionNamed(Split(Subject(k), '.')[1])
  }

  /** What Handle does to an event and what it answers. */
  function Respond(k: Snapshot): (r: Reply)
    requires CanHandle(k)
    ensures r.subject == Subject(k) + ".error" || r.subject == Subject(k) + ".done"
    ensures Subject(r.after) == Subject(k) && r.body == Body(r.after)
  {
    var processed := Process(k);
    if processed.err.Some? then
      var answered := Refresh(processed.state);
      Reply(answered, Subject(processed.state) + ".error", Body(answered))
    else
      var n := processed.state;
      var op := match ActionOf(n)
                case None => Outcome(n, None)
                case Some(a) => Perform(n, a);
      if op.err.Some? then
        var failed := Fail(op.state, op.err.value);
        var answered := Refresh(failed);
        Reply(answered, Subject(failed) + ".error", Body(answered))
      else
        var answered := Refresh(op.state);
        Reply(answered, Subject(op.state) + ".done", Body(answered))
  }

  /** The answered subject is the original subject followed by exactly one of
      ".error" and ".done", and it is ".error" exactly when Process failed or
      the operation the action names failed. */
  lemma ReplySubject(k: Snapshot)
    requires CanHandle(k)
    ensures Respond(k).subject == Subject(k) + ".error" || Respond(k).subject == Subject(k) + ".done"
    ensures Respond(k).subject == Subject(k) + ".error" <==>
              Process(k).err.Some? ||
              (ActionOf(Process(k).state).Some? &&
               Perform(Process(k).state, ActionOf(Process(k).state).value).err.Some?)
  {
    var n := Process(k).state;
    StepsKeepSubject(k, Create, "");
    if Process(k).err.None? && ActionOf(n).Some? {
      var o := Perform(n, ActionOf(n).value);
      StepsKeepSubject(n, ActionOf(n).value, "");
      if o.err.Some? {
        StepsKeepSubject(o.state, Create, o.err.value);
      }
    }
  }

  /** If Process fails, the answer is the ".error" subject and the event as
      Process left it (its error message holding the failure), re-encoded;
      no lifecycle operation runs, so the store is untouched. */
  lemma ProcessFailureReply(k: Snapshot)
    requires Process(k).err.Some?
    ensures CanHandle(k)
    ensures Respond(k) == Reply(Refresh(Process(k).state), Subject(k) + ".error", Body(Refresh(Process(k).state)))
    ensures ErrorMessage(Respond(k).after) == Process(k).err.value
    ensures k.NetworkSnap? ==> Respond(k).after.world.store == k.world.store
  {
    StepsKeepSubject(k, Create, "");
    if k.NetworkSnap? {
      ProcessKeepsRouting(k.nc, Reconciler.Validate, k.world.event);
    } else {
      ProcessKeepsRouting(k.tc, Template.Validate, k.template);
    }
  }

  /** A recognised action runs exactly the operation of that name, once: the
      answer is built from that operation's outcome alone. */
  lemma DispatchReply(k: Snapshot, a: Action)
    requires Process(k).err.None? && '.' in Subject(k)
    requires ActionOf(Process(k).state) == Some(a)
    ensures CanHandle(k)
    ensures var o := Perform(Process(k).state, a);
            Respond(k) == if o.err.Some?
                          then Reply(Refresh(Fail(o.state, o.err.value)), Subject(k) + ".error",
                                     Body(Refresh(Fail(o.state, o.err.value))))
                          else Reply(Refresh(o.state), Subject(k) + ".done", Body(Refresh(o.state)))
  {
    StepsKeepSubject(k, a, "");
    var o := Perform(Process(k).state, a);
    StepsKeepSubject(Process(k).state, a, "");
    if o.err.Some? {
      StepsKeepSubject(o.state, a, o.err.value);
    }
  }

  /** An action that names no operation runs nothing, leaves the error nil
      and answers ".done" with the processed event re-encoded. */
  lemma UnknownActionReply(k: Snapshot)
    requires Process(k).err.None? && '.' in Subject(k)
    requires ActionOf(Process(k).state).None?
    ensures CanHandle(k)
    ensures Respond(k) == Reply(Refresh(Process(k).state), Subject(k) + ".done", Body(Refresh(Process(k).state)))
    ensures k.NetworkSnap? ==> Respond(k).after.world.store == k.world.store
  {
    StepsKeepSubject(k, Create, "");
  }

  /** When the operation fails, Error records its text in the error message
      and the answer is the ".error" subject. */
  lemma OperationErrorReply(k: Snapshot, a: Action)
    requires Process(k).err.None? && '.' in Subject(k)
    requires ActionOf(Process(k).state) == Some(a)
    requires Perform(Process(k).state, a).err.Some?
    ensures CanHandle(k)
    ensures Respond(k).subject == Subject(k) + ".error"
    ensures ErrorMessage(Respond(k).after) == Perform(Process(k).state, a).err.value
  {
    DispatchReply(k, a);
  }

  /** Find fails with "<subject> not supported" and changes nothing, for
      either kind. */
  lemma FindFailsForEveryKind(k: Snapshot)
    ensures Perform(k, Find) == Outcome(k, Some(Subject(k) + " not supported"))
  {
  }

  /** After Error and GetBody the error message is the recorded text. */
  lemma FailThenRefresh(k: Snapshot, text: string)
    ensures ErrorMessage(Refresh(Fail(k, text))) == text
  {
  }

  /** A "<kind>.find[.<more>]" request that passes the pipeline is answered
      ".error" with the message "<subject> not supported", for either kind. */
  lemma FindRequestIsUnsupported(k: Snapshot, kind: string, rest: string)
    requires Subject(k) == kind + ".find" + rest
    requires '.' !in kind && (rest == [] || rest[0] == '.')
    requires Process(k).err.None?
    ensures CanHandle(k)
    ensures Respond(k).subject == Subject(k) + ".error"
    ensures ErrorMessage(Respond(k).after) == Subject(k) + " not supported"
  {
    var n := Process(k).state;
    StepsKeepSubject(k, Find, "");
    ActionIsSecondPiece(kind, "find", rest);
    assert kind + ".find" + rest == kind + "." + "find" + rest;
    assert ActionOf(n) == Some(Find);
    FindFailsForEveryKind(n);
    DispatchReply(k, Find);
    FailThenRefresh(n, Subject(k) + " not supported");
  }

  /** A template event never reaches ".done" through a recognised action: it
      is answered ".error" with the message "<subject> not supported". */
  lemma TemplateActionsAreUnsupported(k: Snapshot)
    requires k.TemplateSnap? && Process(k).err.None? && '.' in Subject(k)
    requires ActionOf(Process(k).state).Some?
    ensures CanHandle(k)
    ensures Respond(k).subject == Subject(k) + ".error"
    ensures ErrorMessage(Respond(k).after) == Subject(k) + " not supported"
  {
    StepsKeepSubject(k, Create, "");
    DispatchReply(k, ActionOf(Process(k).state).value);
  }

  // ---------------------------------------------------------------- the live objects

  /** The objects behind an event of either kind. */
  datatype Target =
    | TemplateTarget(template: Template.Event)
    | NetworkTarget(network: VirtualNetwork.Event, provider: Provider)

  function Objects(t: Target): set<object>
  {
    match t
    case TemplateTarget(e) => {e}
    case NetworkTarget(e, p) => {e, p}
  }

  ghost function Snap(t: Target): Snapshot
    reads Objects(t)
  {
    match t
    case TemplateTarget(e) => TemplateSnap(e.codec, e.State())
    case NetworkTarget(e, p) => NetworkSnap(e.codec, Reconciler.World(e.State(), p.State()))
  }

  method ProcessTarget(t: Target) returns (err: Option<string>)
    modifies Objects(t)
    ensures Outcome(Snap(t), err) == Process(old(Snap(t)))
  {
    match t
    case TemplateTarget(e) => err := e.Process();
    case NetworkTarget(e, p) => err := e.Process();
  }

  method SubjectOf(t: Target) returns (s: string)
    ensures s == Subject(Snap(t))
  {
    match t
    case TemplateTarget(e) => s := e.GetSubject();
    case NetworkTarget(e, p) => s := e.GetSubject();
  }

  method BodyOf(t: Target) returns (b: Bytes)
    modifies Objects(t)
    ensures Snap(t) == Refresh(old(Snap(t)))
    ensures b == Body(Snap(t))
  {
    match t
    case TemplateTarget(e) => b := e.GetBody();
    case NetworkTarget(e, p) => b := e.GetBody();
  }

  method FailTarget(t: Target, text: string)
    modifies Objects(t)
    ensures Snap(t) == Fail(old(Snap(t)), text)
  {
    match t
    case TemplateTarget(e) => e.Error(text);
    case NetworkTarget(e, p) => e.Error(text);
  }

  method PerformTarget(t: Target, a: Action) returns (err: Option<string>)
    modifies Objects(t)
    ensures Outcome(Snap(t), err) == Perform(old(Snap(t)), a)
  {
    match t
    case TemplateTarget(e) =>
      match a {
        case Create => err := e.Create();
        case Update => err := e.Update();
        case Delete => err := e.Delete();
        case Get => err := e.Get();
        case Find => err := e.Find();
      }
    case NetworkTarget(e, p) =>
      match a {
        case Create => err := e.Create(p);
        case Update => err := e.Update(p);
        case Delete => err := e.Delete(p);
        case Get => err := e.Get(p);
        case Find => err := e.Find();
      }
  }

  /** Handle(ev): the answer subject and body, with the event (and for a
      virtual network the remote store) left as Respond says. */
  method Handle(t: Target) returns (subject: string, body: Bytes)
    requires CanHandle(Snap(t))
    modifies Objects(t)
    ensures Reply(Snap(t), subject, body) == Respond(old(Snap(t)))
  {
    var err := ProcessTarget(t);
    if err.Some? {
      subject := SubjectOf(t);
      subject := subject + ".error";
      body := BodyOf(t);
      return;
    }
    var s := SubjectOf(t);
    var parts := Split(s, '.');
    match ActionNamed(parts[1]) {
      case None =>
      case Some(a) => err := PerformTarget(t, a);
    }
    if err.Some? {
      FailTarget(t, err.value);
      subject := SubjectOf(t);
      subject := subject + ".error";
      body := BodyOf(t);
      return;
    }
    subject := SubjectOf(t);
    subject := subject + ".done";
    body := BodyOf(t);
  }
}
