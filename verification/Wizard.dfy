/**
 The model wizard: what each model-lifecycle message does to the application state, and which
 backend work it asks for. `Reduced` and `Updated` say it as functions, with what follows for every
 message and every sequence of messages; `AppState` is the mutable state the program keeps.
 */
module Wizards {
  import opened Common

  const MAX_ID: nat := 0xFFFF_FFFF_FFFF_FFFF

  type ReadyId = nat
  type AttemptId = nat

  datatype Capability = KeywordOnly | Hybrid
  datatype Provenance = UserSupplied | AppManaged
  datatype Persistence = Idle | InFlight(attempt: AttemptId) | SaveFailed | LoadFailed(attempt: AttemptId)
  datatype Failure = StoreUnavailable | Connection | Verification | LocalStorage | InternalState | Stopped
  datatype Artifact = Tokenizer | OnnxModel
  datatype Progress = Progress(artifact: Option<Artifact>, bytes: nat, total: nat, filesDone: nat, filesTotal: nat)

  // The reviewed download offer, and the setup page it was opened from.
  datatype Offer = Offer(destination: string, terms: string)
  datatype ReturnTo = ToNotConfigured | ToFileMissing(previousDir: string)

  datatype Wizard =
    | NotConfigured
    | FileMissing(previousDir: string)
    | DownloadConsent(offer: Offer, returnTo: ReturnTo)
    | Checked(dir: string, allOk: bool)
    | Ready(id: ReadyId, dir: string, provenance: Provenance, persistence: Persistence)
    | Downloading(reserved: ReadyId, dest: string, offer: Offer, returnTo: ReturnTo, progress: Progress, cancelling: bool)
    | DownloadFailed(offer: Offer, returnTo: ReturnTo, failure: Failure)

  datatype Message =
    | ConfirmModelDownload
    | CancelDownloadInProgress
    | WizardChecked(dir: string, allOk: bool)
    | WizardAccept
    | PersistenceCompleted(id: ReadyId, attempt: AttemptId, dir: string, provenance: Provenance, saved: bool)
    | WizardRetryModelLoad
    | ActivationCompleted(id: ReadyId, attempt: AttemptId, activated: bool)
    | DownloadFileProgress(progress: Progress)
    | DownloadAllComplete(dest: string)
    | DownloadEndedBadly(failure: Failure)
    | RetryModelDownload
    // Not the controller's: applied by the general update.
    | WizardBack
    | WizardSkip
    | DismissOverlay(overlayOpen: bool)
    | DownloadModel
    | CancelModelDownload

  datatype Effect =
    | NoEffect
    | StartManagedDownload
    | CancelManagedDownload
    | PersistReady(id: ReadyId, attempt: AttemptId, dir: string, provenance: Provenance)
    | ActivateModel(id: ReadyId, attempt: AttemptId)

  /** The part of the application state these messages concern. An exhausted id space is `None`. */
  datatype App = App(
    wizard: Option<Wizard>,
    capability: Capability,
    provenance: Option<Provenance>,
    nextReady: Option<nat>,
    nextAttempt: Option<nat>,
    offer: Option<Offer>)

  // Ids are handed out once each, then no more.
  function After(next: nat): Option<nat> {
    if next < MAX_ID then Some(next + 1) else None
  }

  function ReturnFrom(wizard: Option<Wizard>): Option<ReturnTo> {
    match wizard
    case Some(NotConfigured) => Some(ToNotConfigured)
    case Some(FileMissing(dir)) => Some(ToFileMissing(dir))
    case _ => None
  }

  function Reopened(to: ReturnTo): Wizard {
    match to
    case ToNotConfigured => NotConfigured
    case ToFileMissing(dir) => FileMissing(dir)
  }

  // ---- The controller ---------------------------------------------------------------------

  function Confirmed(app: App): (App, Effect) {
    match app.wizard
    case Some(DownloadConsent(offer, returnTo)) =>
      (match app.nextReady
       case None => (app.(wizard := Some(DownloadFailed(offer, returnTo, InternalState))), NoEffect)
       case Some(id) =>
         (app.(nextReady := After(id),
               wizard := Some(Downloading(id, offer.destination, offer, returnTo, Progress(None, 0, 0, 0, 0), false))),
          StartManagedDownload))
    case _ => (app, NoEffect)
  }

  function Cancelled(app: App): (App, Effect) {
    if app.wizard.Some? && app.wizard.value.Downloading? && !app.wizard.value.cancelling
    then (app.(wizard := Some(app.wizard.value.(cancelling := true))), CancelManagedDownload)
    else (app, NoEffect)
  }

  function Checks(app: App, dir: string, allOk: bool): App {
    if allOk && app.nextReady.Some?
    then app.(nextReady := After(app.nextReady.value),
              wizard := Some(Ready(app.nextReady.value, dir, UserSupplied, Idle)))
    else app.(wizard := Some(Checked(dir, allOk)))
  }

  function Accepted(app: App): (App, Effect) {
    match app.wizard
    case Some(Ready(id, dir, provenance, persistence)) =>
      if persistence.InFlight? then (app, NoEffect)
      else
        (match app.nextAttempt
         case None => (app.(wizard := Some(Ready(id, dir, provenance, SaveFailed))), NoEffect)
         case Some(attempt) =>
           (app.(nextAttempt := After(attempt), wizard := Some(Ready(id, dir, provenance, InFlight(attempt)))),
            PersistReady(id, attempt, dir, provenance)))
    case _ => (app, NoEffect)
  }

  function Persisted(app: App, id: ReadyId, attempt: AttemptId, dir: string, provenance: Provenance, saved: bool): (App, Effect) {
    if app.wizard != Some(Ready(id, dir, provenance, InFlight(attempt))) then (app, NoEffect)
    else if saved then (app, ActivateModel(id, attempt))
    else (app.(wizard := Some(Ready(id, dir, provenance, SaveFailed))), NoEffect)
  }

  function LoadRetried(app: App): (App, Effect) {
    match app.wizard
    case Some(Ready(id, dir, provenance, LoadFailed(attempt))) =>
      (app.(wizard := Some(Ready(id, dir, provenance, InFlight(attempt)))), ActivateModel(id, attempt))
    case _ => (app, NoEffect)
  }

  function Activated(app: App, id: ReadyId, attempt: AttemptId, activated: bool): App {
    match app.wizard
    case Some(Ready(active, dir, provenance, InFlight(running))) =>
      if active != id || running != attempt then app
      else if activated then app.(provenance := Some(provenance), capability := Hybrid, wizard := None)
      else app.(wizard := Some(Ready(id, dir, provenance, LoadFailed(attempt))))
    case _ => app
  }

  function Completed(app: App, dest: string): App {
    match app.wizard
    case Some(Downloading(reserved, _, _, _, _, _)) => app.(wizard := Some(Ready(reserved, dest, AppManaged, Idle)))
    case _ => app
  }

  function EndedBadly(app: App, failure: Failure): App {
    match app.wizard
    case Some(Downloading(_, _, offer, returnTo, _, cancelling)) =>
      app.(wizard := Some(if cancelling then DownloadConsent(offer, returnTo) else DownloadFailed(offer, returnTo, failure)))
    case _ => app
  }

  /** What the controller does with a message; `None` for a message it does not own. */
  function Reduced(app: App, message: Message): Option<(App, Effect)> {
    match message
    case ConfirmModelDownload => Some(Confirmed(app))
    case CancelDownloadInProgress => Some(Cancelled(app))
    case WizardChecked(dir, allOk) => Some((Checks(app, dir, allOk), NoEffect))
    case WizardAccept => Some(Accepted(app))
    case PersistenceCompleted(id, attempt, dir, provenance, saved) => Some(Persisted(app, id, attempt, dir, provenance, saved))
    case WizardRetryModelLoad => Some(LoadRetried(app))
    case ActivationCompleted(id, attempt, activated) => Some((Activated(app, id, attempt, activated), NoEffect))
    case DownloadFileProgress(progress) =>
      Some((if app.wizard.Some? && app.wizard.value.Downloading?
            then app.(wizard := Some(app.wizard.value.(progress := progress))) else app, NoEffect))
    case DownloadAllComplete(dest) => Some((Completed(app, dest), NoEffect))
    case DownloadEndedBadly(failure) => Some((EndedBadly(app, failure), NoEffect))
    case RetryModelDownload =>
      Some((if app.wizard.Some? && app.wizard.value.DownloadFailed?
            then app.(wizard := Some(DownloadConsent(app.wizard.value.offer, app.wizard.value.returnTo))) else app, NoEffect))
    case _ => None
  }

  // ---- The general update -----------------------------------------------------------------

  function Skipped(app: App): App {
    app.(capability := KeywordOnly, provenance := None, wizard := None)
  }

  // The pages Escape gives up on.
  predicate CanGiveUp(w: Wizard) {
    || w.NotConfigured? || w.FileMissing? || w.Checked? || w.DownloadFailed?
    || (w.Ready? && (w.persistence.SaveFailed? || w.persistence.LoadFailed?))
  }

  function Dismissed(app: App): App {
    if app.wizard.None? then app
    else if CanGiveUp(app.wizard.value) then Skipped(app)
    else if app.wizard.value.DownloadConsent? then app.(wizard := Some(Reopened(app.wizard.value.returnTo)))
    else app
  }

  function Updated(app: App, message: Message): App {
    match message
    case WizardBack => app.(wizard := Some(NotConfigured))
    case WizardSkip => Skipped(app)
    case DismissOverlay(overlayOpen) => if overlayOpen then app else Dismissed(app)
    case DownloadModel =>
      (match (app.offer, ReturnFrom(app.wizard))
       case (Some(offer), Some(returnTo)) => app.(wizard := Some(DownloadConsent(offer, returnTo)))
       case _ => app)
    case CancelModelDownload =>
      // Takes the wizard away whatever it shows; only the consent page is put back.
      app.(wizard := if app.wizard.Some? && app.wizard.value.DownloadConsent?
                     then Some(Reopened(app.wizard.value.returnTo)) else None)
    case _ => app
  }

  /** One routed message: the controller's if it owns it, the general update's otherwise. */
  function React(app: App, message: Message): (App, Effect) {
    match Reduced(app, message)
    case Some(result) => result
    case None => (Updated(app, message), NoEffect)
  }

  // ---- What any message can bring about ---------------------------------------------------

  predicate Unused(next: Option<nat>, id: nat) {
    next.Some? && id >= next.value
  }

  // A model is ready and nothing is being done with it.
  predicate Settled(app: App) {
    app.wizard.Some? && app.wizard.value.Ready? && !app.wizard.value.persistence.InFlight?
  }

  // The wizard waits for a save or an activation of this attempt.
  predicate Awaits(app: App, id: ReadyId, attempt: AttemptId) {
    app.wizard.Some? && app.wizard.value.Ready? && app.wizard.value.id == id && app.wizard.value.persistence == InFlight(attempt)
  }

  predicate OnConsent(app: App) {
    app.wizard.Some? && app.wizard.value.DownloadConsent?
  }

  predicate OnDownloading(app: App) {
    app.wizard.Some? && app.wizard.value.Downloading?
  }

  /** Backend work is asked for only where it is due. A save: of the settled model shown, under an
      attempt number not used before, and the wizard then waits for it. An activation: of the attempt
      whose save has just succeeded, or whose activation failed. A download: of the offer consented
      to, under an id not used before. A cancel: once for a download. */
  predicate Due(app: App, effect: Effect, after: App) {
    match effect
    case NoEffect => true
    case PersistReady(id, attempt, dir, provenance) =>
      && Settled(app) && Unused(app.nextAttempt, attempt) && !Unused(after.nextAttempt, attempt)
      && after == app.(nextAttempt := after.nextAttempt, wizard := Some(Ready(id, dir, provenance, InFlight(attempt))))
      && app.wizard == Some(Ready(id, dir, provenance, app.wizard.value.persistence))
    case ActivateModel(id, attempt) =>
      && Awaits(after, id, attempt)
      && (app == after || app == after.(wizard := Some(after.wizard.value.(persistence := LoadFailed(attempt)))))
    case StartManagedDownload =>
      && OnConsent(app) && OnDownloading(after)
      && after.wizard.value.offer == app.wizard.value.offer && after.wizard.value.returnTo == app.wizard.value.returnTo
      && after.wizard.value.dest == app.wizard.value.offer.destination && !after.wizard.value.cancelling
      && Unused(app.nextReady, after.wizard.value.reserved) && !Unused(after.nextReady, after.wizard.value.reserved)
    case CancelManagedDownload =>
      && OnDownloading(app) && !app.wizard.value.cancelling
      && after == app.(wizard := Some(app.wizard.value.(cancelling := true)))
  }

  lemma OnlyDueEffects(app: App, message: Message)
    ensures Due(app, React(app, message).1, React(app, message).0)
  {
  }

  /** The wizard is asked to save, whatever its page, exactly by accepting a settled model while
      attempt numbers last. */
  lemma SavesExactly(app: App, message: Message)
    ensures React(app, message).1.PersistReady? <==> message.WizardAccept? && Settled(app) && app.nextAttempt.Some?
  {
  }

  /** Search turns hybrid only by a successful activation of the attempt the wizard waits for, and
      then with the provenance of the model that was shown. */
  lemma HybridOnlyWhenAwaited(app: App, message: Message)
    requires app.capability.KeywordOnly? && React(app, message).0.capability.Hybrid?
    ensures message.ActivationCompleted? && message.activated && Awaits(app, message.id, message.attempt)
    ensures React(app, message).0 == app.(capability := Hybrid, wizard := None, provenance := Some(app.wizard.value.provenance))
  {
  }

  // The completion of exactly what the wizard waits for, unless it is a save that succeeded.
  predicate Ends(app: App, message: Message) {
    || (message.PersistenceCompleted? && !message.saved && Awaits(app, message.id, message.attempt)
        && message.dir == app.wizard.value.dir && message.provenance == app.wizard.value.provenance)
    || (message.ActivationCompleted? && Awaits(app, message.id, message.attempt))
  }

  // The messages that take any page away.
  predicate TakesAway(message: Message) {
    message.WizardChecked? || message.WizardBack? || message.WizardSkip? || message.CancelModelDownload?
  }

  /** Work that is waited for cannot be walked away from, with Escape or by accident: the page changes
      exactly when the work ends, or by one of four messages. */
  lemma WaitingIsKept(app: App, message: Message)
    requires app.wizard.Some? && app.wizard.value.Ready? && app.wizard.value.persistence.InFlight?
    ensures React(app, message).0.wizard == app.wizard <==> !Ends(app, message) && !TakesAway(message)
  {
  }

  /** Escape and Skip leave keyword search, and Escape leaves no page that work depends on. */
  lemma GivingUp(app: App, overlayOpen: bool)
    ensures var after := React(app, DismissOverlay(overlayOpen)).0;
            after.wizard.None? && app.wizard.Some? ==> after == React(app, WizardSkip).0 && !overlayOpen
    ensures OnDownloading(app) ==> React(app, DismissOverlay(overlayOpen)).0 == app
    ensures app.wizard.Some? && app.wizard.value.Ready? && (app.wizard.value.persistence.Idle? || app.wizard.value.persistence.InFlight?)
            ==> React(app, DismissOverlay(overlayOpen)).0 == app
    ensures React(app, WizardSkip).0.wizard.None? && React(app, WizardSkip).0.capability.KeywordOnly?
            && React(app, WizardSkip).0.provenance.None?
  {
  }

  // ---- Sequences of messages --------------------------------------------------------------

  ghost function Through(app: App, messages: seq<Message>): App {
    if messages == [] then app
    else React(Through(app, messages[..|messages| - 1]), messages[|messages| - 1]).0
  }

  // What the `i`-th message asked for.
  ghost function EffectAt(app: App, messages: seq<Message>, i: nat): Effect
    requires i < |messages|
  {
    React(Through(app, messages[..i]), messages[i]).1
  }

  lemma NeverReturned(app: App, message: Message, id: nat)
    ensures Unused(React(app, message).0.nextAttempt, id) ==> Unused(app.nextAttempt, id)
    ensures Unused(React(app, message).0.nextReady, id) ==> Unused(app.nextReady, id)
  {
  }

  lemma {:induction false} UsedStaysUsed(app: App, messages: seq<Message>, i: nat, j: nat, id: nat)
    requires i <= j <= |messages| && !Unused(Through(app, messages[..i]).nextAttempt, id)
    ensures !Unused(Through(app, messages[..j]).nextAttempt, id)
  {
    if i < j {
      UsedStaysUsed(app, messages, i, j - 1, id);
      assert messages[..j][..j - 1] == messages[..j - 1];
      NeverReturned(Through(app, messages[..j - 1]), messages[j - 1], id);
    }
  }

  /** Whatever messages arrive in whatever order, no two saves are made under one attempt number: a
      completion can answer only the save it was made for. */
  lemma SavesDiffer(app: App, messages: seq<Message>, i: nat, j: nat)
    requires i < j < |messages| && EffectAt(app, messages, i).PersistReady? && EffectAt(app, messages, j).PersistReady?
    ensures EffectAt(app, messages, i).attempt != EffectAt(app, messages, j).attempt
  {
    var attempt := EffectAt(app, messages, i).attempt;
    assert messages[..i + 1][..i] == messages[..i];
    OnlyDueEffects(Through(app, messages[..i]), messages[i]);
    OnlyDueEffects(Through(app, messages[..j]), messages[j]);
    UsedStaysUsed(app, messages, i + 1, j, attempt);
  }

  // ---- The mutable state ------------------------------------------------------------------

  // Every id handed out is known, and none of them is left to hand out.
  ghost predicate HandedOut(ids: set<nat>, next: Option<nat>) {
    forall id <- ids :: !Unused(next, id)
  }

  class AppState {
    var wizard: Option<Wizard>
    var capability: Capability
    var provenance: Option<Provenance>
    var nextReady: Option<nat>
    var nextAttempt: Option<nat>
    var offer: Option<Offer>
    ghost var readyIds: set<ReadyId>    // handed out so far
    ghost var attempts: set<AttemptId>  // handed out so far

    ghost function View(): App
      reads this
    {
      App(wizard, capability, provenance, nextReady, nextAttempt, offer)
    }

    /** No id is ever handed out twice, and the wizard shows only ids that were handed out. */
    ghost predicate Valid()
      reads this
    {
      && HandedOut(readyIds, nextReady) && HandedOut(attempts, nextAttempt)
      && (wizard.Some? && wizard.value.Ready? ==>
            && wizard.value.id in readyIds
            && (wizard.value.persistence.InFlight? || wizard.value.persistence.LoadFailed? ==> wizard.value.persistence.attempt in attempts))
      && (wizard.Some? && wizard.value.Downloading? ==> wizard.value.reserved in readyIds)
    }

    constructor (initial: App)
      requires initial.wizard.None? || initial.wizard == Some(NotConfigured) || initial.wizard.value.FileMissing?
      ensures Valid() && View() == initial && readyIds == {} && attempts == {}
    {
      wizard, capability, provenance := initial.wizard, initial.capability, initial.provenance;
      nextReady, nextAttempt, offer := initial.nextReady, initial.nextAttempt, initial.offer;
      readyIds, attempts := {}, {};
    }

    method AllocateReady() returns (id: Option<ReadyId>)
      requires HandedOut(readyIds, nextReady)
      modifies `nextReady, `readyIds
      ensures HandedOut(readyIds, nextReady) && id == old(nextReady)
      ensures nextReady == if old(nextReady).Some? && old(nextReady).value < 0xFFFF_FFFF_FFFF_FFFF
                           then Some(old(nextReady).value + 1) else None
      ensures id.None? ==> readyIds == old(readyIds)
      ensures id.Some? ==> id.value !in old(readyIds) && readyIds == old(readyIds) + {id.value}
    {
      id := nextReady;
      if nextReady.Some? {
        readyIds := readyIds + {nextReady.value};
        nextReady := if nextReady.value < MAX_ID then Some(nextReady.value + 1) else None;
      }
    }

    method AllocateAttempt() returns (id: Option<AttemptId>)
      requires HandedOut(attempts, nextAttempt)
      modifies `nextAttempt, `attempts
      ensures HandedOut(attempts, nextAttempt) && id == old(nextAttempt)
      ensures nextAttempt == if old(nextAttempt).Some? && old(nextAttempt).value < 0xFFFF_FFFF_FFFF_FFFF
                             then Some(old(nextAttempt).value + 1) else None
      ensures id.None? ==> attempts == old(attempts)
      ensures id.Some? ==> id.value !in old(attempts) && attempts == old(attempts) + {id.value}
    {
      id := nextAttempt;
      if nextAttempt.Some? {
        attempts := attempts + {nextAttempt.value};
        nextAttempt := if nextAttempt.value < MAX_ID then Some(nextAttempt.value + 1) else None;
      }
    }

    method ConfirmDownload() returns (effect: Effect)
      requires Valid()
      modifies `wizard, `nextReady, `readyIds
      ensures Valid() && (View(), effect) == Confirmed(old(View())) && old(readyIds) <= readyIds
      ensures effect.StartManagedDownload? <==> OnConsent(old(View())) && old(nextReady).Some?
      ensures effect.StartManagedDownload? ==> OnDownloading(View()) && wizard.value.reserved !in old(readyIds)
    {
      effect := NoEffect;
      match wizard {
        case Some(DownloadConsent(offer, returnTo)) =>
          var reserved := AllocateReady();
          if reserved.None? {
            wizard := Some(DownloadFailed(offer, returnTo, InternalState));
            return;
          }
          wizard := Some(Downloading(reserved.value, offer.destination, offer, returnTo, Progress(None, 0, 0, 0, 0), false));
          effect := StartManagedDownload;
        case _ =>
      }
    }

    method CancelDownload() returns (effect: Effect)
      requires Valid()
      modifies `wizard
      ensures Valid() && (View(), effect) == Cancelled(old(View()))
      ensures effect.CancelManagedDownload? <==> OnDownloading(old(View())) && !old(wizard).value.cancelling
    {
      effect := NoEffect;
      if wizard.Some? && wizard.value.Downloading? {
        if wizard.value.cancelling { return; }
        wizard := Some(wizard.value.(cancelling := true));
        effect := CancelManagedDownload;
      }
    }

    method ApplyChecks(dir: string, allOk: bool)
      requires Valid()
      modifies `wizard, `nextReady, `readyIds
      ensures Valid() && View() == Checks(old(View()), dir, allOk) && old(readyIds) <= readyIds
      ensures wizard.Some? && wizard.value.Ready? ==> allOk && wizard.value.id !in old(readyIds)
    {
      if allOk {
        var id := AllocateReady();
        if id.Some? {
          wizard := Some(Ready(id.value, dir, UserSupplied, Idle));
        } else {
          wizard := Some(Checked(dir, true));
        }
      } else {
        wizard := Some(Checked(dir, false));
      }
    }

    method BeginPersistence() returns (effect: Effect)
      requires Valid()
      modifies `wizard, `nextAttempt, `attempts
      ensures Valid() && (View(), effect) == Accepted(old(View())) && old(attempts) <= attempts
      ensures effect.PersistReady? <==> Settled(old(View())) && old(nextAttempt).Some?
      ensures effect.PersistReady? ==> Awaits(View(), effect.id, effect.attempt) && effect.attempt !in old(attempts)
    {
      effect := NoEffect;
      if wizard.Some? && wizard.value.Ready? && !wizard.value.persistence.InFlight? {
        var ready := wizard.value;
        var attempt := AllocateAttempt();
        if attempt.None? {
          wizard := Some(ready.(persistence := SaveFailed));
          return;
        }
        wizard := Some(ready.(persistence := InFlight(attempt.value)));
        effect := PersistReady(ready.id, attempt.value, ready.dir, ready.provenance);
      }
    }

    method ApplyPersistenceResult(id: ReadyId, attempt: AttemptId, dir: string, from: Provenance, saved: bool)
      returns (effect: Effect)
      requires Valid()
      modifies `wizard
      ensures Valid() && (View(), effect) == Persisted(old(View()), id, attempt, dir, from, saved)
      ensures effect == ActivateModel(id, attempt) || (effect == NoEffect && (saved ==> wizard == old(wizard)))
      ensures !Awaits(old(View()), id, attempt) ==> effect == NoEffect && wizard == old(wizard)
    {
      effect := NoEffect;
      if wizard == Some(Ready(id, dir, from, InFlight(attempt))) {
        if saved {
          effect := ActivateModel(id, attempt);
        } else {
          wizard := Some(wizard.value.(persistence := SaveFailed));
        }
      }
    }

    method RetryActivation() returns (effect: Effect)
      requires Valid()
      modifies `wizard
      ensures Valid() && (View(), effect) == LoadRetried(old(View()))
      ensures effect.ActivateModel? ==> Awaits(View(), effect.id, effect.attempt) && effect.attempt in attempts
    {
      effect := NoEffect;
      if wizard.Some? && wizard.value.Ready? && wizard.value.persistence.LoadFailed? {
        var ready := wizard.value;
        wizard := Some(ready.(persistence := InFlight(ready.persistence.attempt)));
        effect := ActivateModel(ready.id, ready.persistence.attempt);
      }
    }

    method ApplyActivationResult(id: ReadyId, attempt: AttemptId, activated: bool)
      requires Valid()
      modifies `wizard, `capability, `provenance
      ensures Valid() && View() == Activated(old(View()), id, attempt, activated)
      ensures if Awaits(old(View()), id, attempt) then wizard != old(wizard) && (activated <==> wizard.None?)
              else View() == old(View())
    {
      if wizard.None? || !wizard.value.Ready? { return; }
      var ready := wizard.value;
      if ready.id != id || ready.persistence != InFlight(attempt) { return; }
      if activated {
        provenance := Some(ready.provenance);
        capability := Hybrid;
        wizard := None;
      } else {
        wizard := Some(ready.(persistence := LoadFailed(attempt)));
      }
    }

    method ApplyDownloadEnd(message: Message)
      requires Valid() && (message.DownloadAllComplete? || message.DownloadEndedBadly? || message.RetryModelDownload?)
      modifies `wizard
      ensures Valid() && Some((View(), NoEffect)) == Reduced(old(View()), message)
    {
      var prior := wizard;
      wizard := None;
      match prior {
        case Some(Downloading(reserved, _, offer, returnTo, _, cancelling)) =>
          if message.DownloadAllComplete? {
            wizard := Some(Ready(reserved, message.dest, AppManaged, Idle));
          } else if message.DownloadEndedBadly? {
            wizard := Some(if cancelling then DownloadConsent(offer, returnTo) else DownloadFailed(offer, returnTo, message.failure));
          } else {
            wizard := prior;
          }
        case Some(DownloadFailed(offer, returnTo, _)) =>
          wizard := if message.RetryModelDownload? then Some(DownloadConsent(offer, returnTo)) else prior;
        case _ => wizard := prior;
      }
    }

    // The controller.
    method Reduce(message: Message) returns (effect: Option<Effect>)
      requires Valid()
      modifies this
      ensures Valid() && old(readyIds) <= readyIds && old(attempts) <= attempts
      ensures effect.Some? && effect.value.PersistReady? ==> effect.value.attempt in attempts - old(attempts)
      ensures effect.Some? && effect.value.StartManagedDownload? ==> OnDownloading(View()) && wizard.value.reserved in readyIds - old(readyIds)
      ensures effect.None? <==> Reduced(old(View()), message).None?
      ensures effect.None? ==> View() == old(View())
      ensures effect.Some? ==> Some((View(), effect.value)) == Reduced(old(View()), message)
    {
      var e := NoEffect;
      match message {
        case ConfirmModelDownload => e := ConfirmDownload();
        case CancelDownloadInProgress => e := CancelDownload();
        case WizardChecked(dir, allOk) => ApplyChecks(dir, allOk);
        case WizardAccept => e := BeginPersistence();
        case PersistenceCompleted(id, attempt, dir, from, saved) => e := ApplyPersistenceResult(id, attempt, dir, from, saved);
        case WizardRetryModelLoad => e := RetryActivation();
        case ActivationCompleted(id, attempt, activated) => ApplyActivationResult(id, attempt, activated);
        case DownloadFileProgress(progress) =>
          if wizard.Some? && wizard.value.Downloading? {
            wizard := Some(wizard.value.(progress := progress));
          }
        case DownloadAllComplete(_) => ApplyDownloadEnd(message);
        case DownloadEndedBadly(_) => ApplyDownloadEnd(message);
        case RetryModelDownload => ApplyDownloadEnd(message);
        case _ => return None;
      }
      effect := Some(e);
    }

    method SkipWizard()
      requires Valid()
      modifies `wizard, `capability, `provenance
      ensures Valid() && View() == Skipped(old(View()))
    {
      capability := KeywordOnly;
      provenance := None;
      wizard := None;
    }

    method Update(message: Message)
      requires Valid()
      modifies `wizard, `capability, `provenance
      ensures Valid() && View() == Updated(old(View()), message)
    {
      match message {
        case WizardBack => wizard := Some(NotConfigured);
        case WizardSkip => SkipWizard();
        case DismissOverlay(overlayOpen) =>
          if !overlayOpen && wizard.Some? {
            var shown := wizard.value;
            if CanGiveUp(shown) {
              SkipWizard();
            } else if shown.DownloadConsent? {
              wizard := Some(Reopened(shown.returnTo));
            }
          }
        case DownloadModel =>
          var returnTo := ReturnFrom(wizard);
          if offer.Some? && returnTo.Some? {
            wizard := Some(DownloadConsent(offer.value, returnTo.value));
          }
        case CancelModelDownload =>
          var prior := wizard;
          wizard := None;
          if prior.Some? && prior.value.DownloadConsent? {
            wizard := Some(Reopened(prior.value.returnTo));
          }
        case _ =>
      }
    }

    // Backend work is asked for only where it is due, under ids not handed out before.
    method Route(message: Message) returns (effect: Effect)
      requires Valid()
      modifies this
      ensures Valid() && old(readyIds) <= readyIds && old(attempts) <= attempts
      ensures (View(), effect) == React(old(View()), message) && Due(old(View()), effect, View())
      ensures effect.PersistReady? ==> effect.attempt in attempts - old(attempts)
      ensures effect.StartManagedDownload? ==> wizard.value.reserved in readyIds - old(readyIds)
      ensures old(capability).KeywordOnly? && capability.Hybrid? ==>
                message.ActivationCompleted? && message.activated && Awaits(old(View()), message.id, message.attempt)
      // A checked folder is ready to be used exactly if every check passed and an id is left.
      ensures message.WizardChecked? ==>
                wizard == Some(if message.allOk && old(nextReady).Some?
                               then Ready(old(nextReady).value, message.dir, UserSupplied, Idle)
                               else Checked(message.dir, message.allOk))
    {
      OnlyDueEffects(View(), message);
      if capability.KeywordOnly? && React(View(), message).0.capability.Hybrid? { HybridOnlyWhenAwaited(View(), message); }
      var reduced := Reduce(message);
      if reduced.Some? { return reduced.value; }
      Update(message);
      effect := NoEffect;
    }
  }
}
