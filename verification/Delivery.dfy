/**
 The task that drives one model installer and reports to the interface: progress events cross a
 bounded channel, in any interleaving with the installer's own progress and with the interface
 closing; one terminal message follows.
 */
module Delivery {
  import opened Common
  import opened Wizards

  datatype Event = FileProgress(name: string, bytes: nat, total: nat, filesDone: nat, filesTotal: nat)

  datatype DeliveryError =
    | StoreMissing | StoreBusy | TrustPolicy | Plan | Network | TransferLimit | Integrity
    | Filesystem | CatalogUpdate | FinalCheck | Interrupted

  datatype Outcome = Installed(dir: string) | Errored(error: DeliveryError)

  // The channel's buffer, and the slot its one sender adds.
  const EVENT_SLOTS: nat := 65

  function MapArtifact(name: string): Option<Artifact> {
    if name == "tokenizer" then Some(Tokenizer)
    else if name == "onnx-model" then Some(OnnxModel)
    else None
  }

  function MapDeliveryError(error: DeliveryError): Failure {
    match error
    case StoreMissing => StoreUnavailable
    case StoreBusy => StoreUnavailable
    case Network => Connection
    case TrustPolicy => Verification
    case Plan => Verification
    case TransferLimit => Verification
    case Integrity => Verification
    case FinalCheck => Verification
    case Filesystem => LocalStorage
    case CatalogUpdate => LocalStorage
    case Interrupted => Stopped
  }

  function Terminal(outcome: Outcome): Message {
    match outcome
    case Installed(dir) => DownloadAllComplete(dir)
    case Errored(error) => DownloadEndedBadly(MapDeliveryError(error))
  }

  // What a failure says about the error behind it.
  predicate Tells(error: DeliveryError, failure: Failure) {
    match failure
    case StoreUnavailable => error in {StoreMissing, StoreBusy}
    case Connection => error == Network
    case Verification => error in {TrustPolicy, Plan, TransferLimit, Integrity, FinalCheck}
    case LocalStorage => error in {Filesystem, CatalogUpdate}
    case Stopped => error == Interrupted
    case InternalState => false
  }

  predicate Recognised(e: Event) {
    MapArtifact(e.name).Some?
  }

  function Report(e: Event): Message
    requires Recognised(e)
  {
    DownloadFileProgress(Progress(MapArtifact(e.name), e.bytes, e.total, e.filesDone, e.filesTotal))
  }

  /** The progress messages of the recognised events, in order. */
  ghost function Reports(events: seq<Event>): seq<Message> {
    if events == [] then []
    else Reports(events[..|events| - 1]) + if Recognised(events[|events| - 1]) then [Report(events[|events| - 1])] else []
  }

  lemma ReportsAppend(events: seq<Event>, e: Event)
    ensures Reports(events + [e]) == Reports(events) + if Recognised(e) then [Report(e)] else []
  {
    assert (events + [e])[..|events|] == events;
  }

  lemma {:induction false} ReportsConcat(a: seq<Event>, b: seq<Event>)
    ensures Reports(a + b) == Reports(a) + Reports(b)
  {
    if b == [] {
      assert a + b == a;
    } else {
      var b' := b[..|b| - 1];
      assert (a + b)[..|a + b| - 1] == a + b';
      ReportsConcat(a, b');
    }
  }

  /** Each recognised event is reported exactly once, between the reports of the events before it
      and those after it; any other event leaves no trace. */
  lemma ReportedInPlace(events: seq<Event>, k: nat)
    requires k < |events|
    ensures Reports(events) == Reports(events[..k]) + (if Recognised(events[k]) then [Report(events[k])] else [])
                               + Reports(events[k + 1..])
  {
    SplitAt(events, k);
    ReportsConcat(events[..k] + [events[k]], events[k + 1..]);
    ReportsAppend(events[..k], events[k]);
  }

  // What an open interface has received when it closes: any part from the start.
  ghost predicate SoFar(received: seq<Message>, open: bool, all: seq<Message>) {
    received <= all && (open ==> received == all)
  }

  class Delivering {
    var left: seq<Event>          // what the installer will still send
    var queue: seq<Event>         // sent, not yet taken
    ghost var taken: seq<Event>
    var interfaceOpen: bool       // the receiving end of the interface's channel
    ghost var received: seq<Message>

    constructor (events: seq<Event>)
      ensures left == events && queue == [] && taken == [] && received == []
    {
      left, queue, taken, received := events, [], [], [];
      interfaceOpen := *;
    }

    ghost predicate Valid(events: seq<Event>)
      reads this
    {
      events == taken + queue + left && |queue| <= EVENT_SLOTS
    }

    // The window may be gone at any time; it never comes back.
    method MaybeClose()
      modifies `interfaceOpen
      ensures interfaceOpen ==> old(interfaceOpen)
    {
      var gone: bool := *;
      interfaceOpen := interfaceOpen && !gone;
    }

    method Send(message: Message) returns (ok: bool)
      modifies `interfaceOpen, `received
      ensures ok == interfaceOpen && (interfaceOpen ==> old(interfaceOpen))
      ensures received == if ok then old(received) + [message] else old(received)
    {
      MaybeClose();
      ok := interfaceOpen;
      if ok {
        received := received + [message];
      }
    }

    method ForwardEvent(uiOpen: bool, e: Event) returns (stillOpen: bool)
      requires SoFar(received, uiOpen, Reports(taken)) && (interfaceOpen ==> uiOpen)
      modifies `interfaceOpen, `received, `taken
      ensures taken == old(taken) + [e]
      ensures SoFar(received, stillOpen, Reports(taken))
      ensures interfaceOpen ==> stillOpen
      // Two artifacts are told by their names, with the numbers of the event; any other is passed over.
      ensures stillOpen && e.name == "tokenizer" ==>
                received == old(received) + [DownloadFileProgress(Progress(Some(Tokenizer), e.bytes, e.total, e.filesDone, e.filesTotal))]
      ensures stillOpen && e.name == "onnx-model" ==>
                received == old(received) + [DownloadFileProgress(Progress(Some(OnnxModel), e.bytes, e.total, e.filesDone, e.filesTotal))]
      ensures e.name != "tokenizer" && e.name != "onnx-model" ==> received == old(received) && stillOpen == uiOpen
    {
      ReportsAppend(taken, e);
      taken := taken + [e];
      stillOpen := uiOpen;
      var artifact := MapArtifact(e.name);
      if artifact.Some? && uiOpen {
        stillOpen := Send(DownloadFileProgress(Progress(artifact, e.bytes, e.total, e.filesDone, e.filesTotal)));
      }
    }

    // The installer sends its next event, when the channel has room.
    method Emit(ghost events: seq<Event>)
      requires Valid(events) && left != [] && |queue| < EVENT_SLOTS
      modifies `left, `queue
      ensures Valid(events) && |left| == old(|left|) - 1 && |queue| == old(|queue|) + 1
    {
      assert taken + queue + left == taken + (queue + [left[0]]) + left[1..];
      queue, left := queue + [left[0]], left[1..];
    }

    method Take(ghost events: seq<Event>, uiOpen: bool) returns (stillOpen: bool)
      requires Valid(events) && queue != [] && SoFar(received, uiOpen, Reports(taken)) && (interfaceOpen ==> uiOpen)
      modifies this
      ensures Valid(events) && SoFar(received, stillOpen, Reports(taken)) && (interfaceOpen ==> stillOpen)
      ensures left == old(left) && |queue| == old(|queue|) - 1
    {
      var e := queue[0];
      assert taken + queue + left == (taken + [e]) + queue[1..] + left;
      queue := queue[1..];
      stillOpen := ForwardEvent(uiOpen, e);
    }

    // Until the installer resolves: it does so only with nothing left to send.
    method Select(events: seq<Event>) returns (uiOpen: bool)
      requires left == events && queue == [] && taken == [] && received == []
      modifies this
      ensures Valid(events) && left == []
      ensures SoFar(received, uiOpen, Reports(taken)) && (interfaceOpen ==> uiOpen)
    {
      uiOpen := true;
      var eventsOpen, resolved := true, false;
      while !resolved
        invariant Valid(events) && SoFar(received, uiOpen, Reports(taken)) && (interfaceOpen ==> uiOpen)
        invariant (resolved ==> left == []) && (!eventsOpen ==> queue == [] && left == [])
        decreases 2 * |left| + |queue|, eventsOpen, !resolved
      {
        MaybeClose();
        if {
          case left != [] && |queue| < EVENT_SLOTS => Emit(events);
          case queue != [] && eventsOpen => uiOpen := Take(events, uiOpen);
          case queue == [] && left == [] && eventsOpen => eventsOpen := false;
          case left == [] => resolved := true;
        }
      }
    }

    // What was sent before the end still counts.
    method DrainQueue(ghost events: seq<Event>, before: bool) returns (uiOpen: bool)
      requires Valid(events) && left == []
      requires SoFar(received, before, Reports(taken)) && (interfaceOpen ==> before)
      modifies this
      ensures left == [] && taken == events
      ensures SoFar(received, uiOpen, Reports(events)) && (interfaceOpen ==> uiOpen)
    {
      uiOpen := before;
      while queue != []
        invariant Valid(events) && left == []
        invariant SoFar(received, uiOpen, Reports(taken)) && (interfaceOpen ==> uiOpen)
        decreases |queue|
      {
        uiOpen := Take(events, uiOpen);
      }
    }

    /** Whatever the interleaving: the installer runs to its end, every event it sent is taken, and
        the interface is sent the recognised ones in order and then one terminal message, which
        depends on the outcome alone; an interface that closes misses the rest. */
    method RunWithInstaller(events: seq<Event>, outcome: Outcome) returns (terminal: Message)
      requires left == events && queue == [] && taken == [] && received == []
      modifies this
      ensures left == [] && taken == events && terminal == Terminal(outcome)
      // What the user is told: where the model is, or which of six things went wrong.
      ensures outcome.Installed? ==> terminal == DownloadAllComplete(outcome.dir)
      ensures outcome.Errored? ==> terminal.DownloadEndedBadly? && Tells(outcome.error, terminal.failure)
      ensures SoFar(received, interfaceOpen, Reports(events) + [Terminal(outcome)])
    {
      var uiOpen := Select(events);
      uiOpen := DrainQueue(events, uiOpen);
      match outcome {
        case Installed(dir) => terminal := DownloadAllComplete(dir);
        case Errored(error) =>
          terminal := DownloadEndedBadly(if error.Interrupted? then Stopped else MapDeliveryError(error));
      }
      if uiOpen {
        var _ := Send(terminal);
      }
    }
  }
}
