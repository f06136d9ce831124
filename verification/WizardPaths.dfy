/**
 Where the wizard leads: what each message does on the page it belongs to, that it does nothing on any
 other, and the ways through the wizard that end with a model in use.
 */
module WizardPaths {
  import opened Common
  import opened Wizards
  import opened ModelFlow

  // ---- Pages ------------------------------------------------------------------------------

  predicate OnReady(app: App) {
    app.wizard.Some? && app.wizard.value.Ready?
  }

  predicate OnSetup(app: App) {
    app.wizard.Some? && (app.wizard.value.NotConfigured? || app.wizard.value.FileMissing?)
  }

  // The pages a message belongs to.
  predicate Concerns(app: App, message: Message) {
    match message
    case ConfirmModelDownload => OnConsent(app)
    case CancelDownloadInProgress => OnDownloading(app) && !app.wizard.value.cancelling
    case WizardAccept => OnReady(app) && !app.wizard.value.persistence.InFlight?
    case PersistenceCompleted(id, attempt, dir, provenance, _) => app.wizard == Some(Ready(id, dir, provenance, InFlight(attempt)))
    case WizardRetryModelLoad => OnReady(app) && app.wizard.value.persistence.LoadFailed?
    case ActivationCompleted(id, attempt, _) => OnReady(app) && app.wizard.value.id == id && app.wizard.value.persistence == InFlight(attempt)
    case DownloadFileProgress(_) => OnDownloading(app)
    case DownloadAllComplete(_) => OnDownloading(app)
    case DownloadEndedBadly(_) => OnDownloading(app)
    case RetryModelDownload => app.wizard.Some? && app.wizard.value.DownloadFailed?
    case DismissOverlay(overlayOpen) => !overlayOpen && app.wizard.Some?
    case DownloadModel => OnSetup(app) && app.offer.Some?
    case CancelModelDownload => app.wizard.Some?
    case WizardChecked(_, _) => true
    case WizardBack => true
    case WizardSkip => true
  }

  /** A message that does not belong to the page shown changes nothing and starts nothing. */
  lemma NothingElsewhere(app: App, message: Message)
    requires !Concerns(app, message)
    ensures React(app, message) == (app, NoEffect)
  {
  }

  /** A folder's checks decide the page, whatever page was shown: ready with that folder, under an id of
      its own, exactly if all of them passed and an id is left. */
  lemma FolderChecked(app: App, dir: string, allOk: bool)
    ensures var (after, effect) := React(app, WizardChecked(dir, allOk));
            && effect == NoEffect
            && (OnReady(after) <==> allOk && app.nextReady.Some?)
            && (match app.nextReady
                case Some(id) =>
                  if allOk then
                    after == app.(wizard := Some(Ready(id, dir, UserSupplied, Idle)),
                                  nextReady := if id < 0xFFFF_FFFF_FFFF_FFFF then Some(id + 1) else None)
                  else after == app.(wizard := Some(Checked(dir, false)))
                case None => after == app.(wizard := Some(Checked(dir, allOk))))
  {
  }

  /** Accepting a settled model asks for its save under the next attempt, or fails if none is left; a
      failed load is tried again under its own attempt. */
  lemma Accepting(app: App)
    requires OnReady(app) && !app.wizard.value.persistence.InFlight?
    ensures var w, (after, effect) := app.wizard.value, React(app, WizardAccept);
            match app.nextAttempt
            case Some(attempt) =>
              && effect == PersistReady(w.id, attempt, w.dir, w.provenance)
              && after == app.(wizard := Some(Ready(w.id, w.dir, w.provenance, InFlight(attempt))),
                               nextAttempt := if attempt < 0xFFFF_FFFF_FFFF_FFFF then Some(attempt + 1) else None)
            case None => effect == NoEffect && after == app.(wizard := Some(Ready(w.id, w.dir, w.provenance, SaveFailed)))
    ensures var w := app.wizard.value;
            w.persistence.LoadFailed? ==>
              React(app, WizardRetryModelLoad)
              == (app.(wizard := Some(Ready(w.id, w.dir, w.provenance, InFlight(w.persistence.attempt)))),
                  ActivateModel(w.id, w.persistence.attempt))
  {
  }

  /** The consent page leads to the download it shows, under the next id, or to its failed page if no id
      is left; or back, by closing it or with Escape, to just the page it was opened from. */
  lemma Consenting(app: App)
    requires OnSetup(app) && app.offer.Some?
    ensures var (asked, effect) := React(app, DownloadModel);
            && effect == NoEffect && OnConsent(asked) && asked.wizard.value.offer == app.offer.value
            && asked == app.(wizard := asked.wizard)
            && React(asked, CancelModelDownload) == (app, NoEffect) && React(asked, DismissOverlay(false)) == (app, NoEffect)
            && var (after, start) := React(asked, ConfirmModelDownload);
               match app.nextReady
               case Some(id) =>
                 && start == StartManagedDownload
                 && after == app.(wizard := Some(Downloading(id, app.offer.value.destination, app.offer.value, asked.wizard.value.returnTo,
                                                             Progress(None, 0, 0, 0, 0), false)),
                                  nextReady := if id < 0xFFFF_FFFF_FFFF_FFFF then Some(id + 1) else None)
               case None =>
                 start == NoEffect
                 && after == app.(wizard := Some(DownloadFailed(app.offer.value, asked.wizard.value.returnTo, InternalState)))
  {
  }

  /** The failed page leads back to the consent to the same offer, opened from the same page; progress
      shows on the downloading page and changes nothing else. */
  lemma TryingAgain(app: App, progress: Progress)
    ensures app.wizard.Some? && app.wizard.value.DownloadFailed? ==>
              React(app, RetryModelDownload)
              == (app.(wizard := Some(DownloadConsent(app.wizard.value.offer, app.wizard.value.returnTo))), NoEffect)
    ensures OnDownloading(app) ==>
              React(app, DownloadFileProgress(progress)) == (app.(wizard := Some(app.wizard.value.(progress := progress))), NoEffect)
  {
  }

  /** Escape gives up the wizard exactly where nothing is under way: before a model is chosen, and after a
      check, a save, a load or a download failed. Going back always leads to the first page. */
  lemma EscapeExactly(app: App)
    requires app.wizard.Some?
    ensures var w, after := app.wizard.value, React(app, DismissOverlay(false)).0;
            after.wizard.None? <==>
              || w.NotConfigured? || w.FileMissing? || w.Checked? || w.DownloadFailed?
              || (w.Ready? && w.persistence == SaveFailed) || (w.Ready? && w.persistence.LoadFailed?)
    ensures React(app, WizardBack) == (app.(wizard := Some(NotConfigured)), NoEffect)
  {
  }

  // ---- Ways through -----------------------------------------------------------------------

  // The steps of the script can be taken one after the other and lead there.
  ghost predicate Follows(f: Flow, script: seq<Action>, f': Flow)
    decreases |script|
  {
    if script == [] then f' == f else Enabled(f, script[0]) && Follows(Apply(f, script[0]), script[1..], f')
  }

  lemma {:induction false} ThenAlso(f: Flow, s: seq<Action>, g: Flow, t: seq<Action>, h: Flow)
    requires Follows(f, s, g) && Follows(g, t, h)
    ensures Follows(f, s + t, h)
    decreases |s|
  {
    if s == [] {
      assert s + t == t;
    } else {
      assert (s + t)[1..] == s[1..] + t;
      ThenAlso(Apply(f, s[0]), s[1..], g, t, h);
    }
  }

  lemma {:induction false} FollowedReachable(f: Flow, script: seq<Action>, f': Flow)
    requires Reachable(f) && Follows(f, script, f')
    ensures Reachable(f')
    decreases |script|
  {
    if script != [] {
      Go(f, script[0]);
      FollowedReachable(Apply(f, script[0]), script[1..], f');
    }
  }

  lemma OneStep(f: Flow, a: Action)
    requires Enabled(f, a)
    ensures Follows(f, [a], Apply(f, a))
  {
    assert [a][1..] == [];
  }

  lemma TwoSteps(f: Flow, a: Action, b: Action)
    requires Enabled(f, a) && Enabled(Apply(f, a), b)
    ensures Follows(f, [a, b], Apply(Apply(f, a), b))
  {
    OneStep(f, a);
    OneStep(Apply(f, a), b);
    ThenAlso(f, [a], Apply(f, a), [b], Apply(Apply(f, a), b));
    assert [a] + [b] == [a, b];
  }

  // A ready model is accepted; its save succeeds.
  lemma Saves(f: Flow) returns (f': Flow)
    requires OnReady(f.app) && !f.app.wizard.value.persistence.InFlight? && f.app.nextAttempt.Some?
    ensures var w, attempt, n := f.app.wizard.value, f.app.nextAttempt.value, |f.tokens|;
            && Follows(f, [User(WizardAccept, true), SaveRuns(n, true)], f')
            && f' == f.(app := f'.app, tokens := f.tokens + [Saved(w.id, attempt, w.dir, w.provenance, true)])
            && f'.app == f.app.(nextAttempt := f'.app.nextAttempt, wizard := Some(w.(persistence := InFlight(attempt))))
  {
    var w, attempt, n := f.app.wizard.value, f.app.nextAttempt.value, |f.tokens|;
    Accepting(f.app);
    var g := Apply(f, User(WizardAccept, true));
    assert g.tokens == f.tokens + [Saving(w.id, attempt, w.dir, w.provenance)];
    TwoSteps(f, User(WizardAccept, true), SaveRuns(n, true));
    f' := Apply(g, SaveRuns(n, true));
    assert f'.tokens == f.tokens + [Saved(w.id, attempt, w.dir, w.provenance, true)];
  }

  // Its completion arrives, and the activation it starts finds a model.
  lemma Loads(f: Flow, tokens: seq<Token>, model: Model) returns (f': Flow)
    requires OnReady(f.app) && f.app.wizard.value.persistence.InFlight?
    requires var w := f.app.wizard.value; f.tokens == tokens + [Saved(w.id, w.persistence.attempt, w.dir, w.provenance, true)]
    ensures var w, n := f.app.wizard.value, |tokens|;
            && Follows(f, [TokenArrives(n), ActivationRuns(n, true, Some(model))], f')
            && f' == f.(cell := Some(model), tokens := tokens + [Token.Activated(w.id, w.persistence.attempt, true)])
  {
    var w, n := f.app.wizard.value, |tokens|;
    assert Without(f.tokens, n) == tokens;
    var g := Apply(f, TokenArrives(n));
    assert g == f.(tokens := tokens + [Token.Activating(w.id, w.persistence.attempt)]);
    TwoSteps(f, TokenArrives(n), ActivationRuns(n, true, Some(model)));
    f' := Apply(g, ActivationRuns(n, true, Some(model)));
    assert f'.tokens == tokens + [Token.Activated(w.id, w.persistence.attempt, true)];
  }

  // The wizard closes on it.
  lemma Closes(f: Flow, tokens: seq<Token>) returns (f': Flow)
    requires OnReady(f.app) && f.app.wizard.value.persistence.InFlight?
    requires var w := f.app.wizard.value; f.tokens == tokens + [Token.Activated(w.id, w.persistence.attempt, true)]
    ensures Follows(f, [TokenArrives(|tokens|)], f') && f'.tokens == tokens && f'.cell == f.cell
    ensures f'.app == f.app.(wizard := None, capability := Hybrid, provenance := Some(f.app.wizard.value.provenance))
  {
    assert Without(f.tokens, |tokens|) == tokens;
    OneStep(f, TokenArrives(|tokens|));
    f' := Apply(f, TokenArrives(|tokens|));
  }

  // From accepting a ready model on, if nothing fails; `n` tasks and messages were under way before.
  ghost function Accept(n: nat, model: Model): seq<Action> {
    [User(WizardAccept, true), SaveRuns(n, true)] + [TokenArrives(n), ActivationRuns(n, true, Some(model))] + [TokenArrives(n)]
  }

  /** A ready model that is accepted, saved and loaded is in use: search is hybrid, on that model, and says
      where it came from. */
  lemma ReadyIsUsed(f: Flow, model: Model) returns (f': Flow)
    requires OnReady(f.app) && !f.app.wizard.value.persistence.InFlight? && f.app.nextAttempt.Some?
    ensures Follows(f, Accept(|f.tokens|, model), f')
    ensures f'.app.wizard.None? && f'.app.capability.Hybrid? && f'.app.provenance == Some(f.app.wizard.value.provenance)
    ensures f'.cell == Some(model) && f'.tokens == f.tokens
  {
    var g := Saves(f);
    var h := Loads(g, f.tokens, model);
    f' := Closes(h, f.tokens);
    var n := |f.tokens|;
    ThenAlso(f, [User(WizardAccept, true), SaveRuns(n, true)], g, [TokenArrives(n), ActivationRuns(n, true, Some(model))], h);
    ThenAlso(f, [User(WizardAccept, true), SaveRuns(n, true)] + [TokenArrives(n), ActivationRuns(n, true, Some(model))], h, [TokenArrives(n)], f');
  }

  /** A save that fails leaves the same model ready, to be accepted again; nothing was loaded. */
  lemma SaveCanFail(f: Flow) returns (f': Flow)
    requires OnReady(f.app) && !f.app.wizard.value.persistence.InFlight? && f.app.nextAttempt.Some?
    ensures Follows(f, [User(WizardAccept, true)] + [SaveRuns(|f.tokens|, false), TokenArrives(|f.tokens|)], f')
    ensures f'.app.wizard == Some(f.app.wizard.value.(persistence := SaveFailed)) && f'.tokens == f.tokens
    ensures f'.cell == f.cell && f'.app.capability == f.app.capability && f'.app.provenance == f.app.provenance
  {
    var w, attempt, n := f.app.wizard.value, f.app.nextAttempt.value, |f.tokens|;
    Accepting(f.app);
    var g := Apply(f, User(WizardAccept, true));
    OneStep(f, User(WizardAccept, true));
    assert g.tokens == f.tokens + [Saving(w.id, attempt, w.dir, w.provenance)];
    f' := SaveFailsIn(g, f.tokens);
    ThenAlso(f, [User(WizardAccept, true)], g, [SaveRuns(n, false), TokenArrives(n)], f');
  }

  lemma SaveFailsIn(f: Flow, tokens: seq<Token>) returns (f': Flow)
    requires OnReady(f.app) && f.app.wizard.value.persistence.InFlight?
    requires var w := f.app.wizard.value; f.tokens == tokens + [Saving(w.id, w.persistence.attempt, w.dir, w.provenance)]
    ensures Follows(f, [SaveRuns(|tokens|, false), TokenArrives(|tokens|)], f')
    ensures f' == f.(app := f.app.(wizard := Some(f.app.wizard.value.(persistence := SaveFailed))), tokens := tokens)
  {
    var w, n := f.app.wizard.value, |tokens|;
    var g := Apply(f, SaveRuns(n, false));
    assert g.tokens == tokens + [Saved(w.id, w.persistence.attempt, w.dir, w.provenance, false)];
    assert Without(g.tokens, n) == tokens;
    TwoSteps(f, SaveRuns(n, false), TokenArrives(n));
    f' := Apply(g, TokenArrives(n));
  }

  /** An activation that fails leaves the same model ready, to be loaded again under the same attempt; search
      is as it was, unless the task was lost after the swap. */
  lemma LoadCanFail(f: Flow, tokens: seq<Token>, swapped: Option<Model>) returns (f': Flow)
    requires OnReady(f.app) && f.app.wizard.value.persistence.InFlight?
    requires var w := f.app.wizard.value; f.tokens == tokens + [Token.Activating(w.id, w.persistence.attempt)]
    ensures Follows(f, [ActivationRuns(|tokens|, false, swapped), TokenArrives(|tokens|)], f')
    ensures var w := f.app.wizard.value;
            f'.app == f.app.(wizard := Some(w.(persistence := LoadFailed(w.persistence.attempt)))) && f'.tokens == tokens
    ensures f'.cell == if swapped.Some? then swapped else f.cell
  {
    var w, n := f.app.wizard.value, |tokens|;
    var g := Apply(f, ActivationRuns(n, false, swapped));
    assert g.tokens == tokens + [Token.Activated(w.id, w.persistence.attempt, false)];
    assert Without(g.tokens, n) == tokens;
    TwoSteps(f, ActivationRuns(n, false, swapped), TokenArrives(n));
    f' := Apply(g, TokenArrives(n));
  }

  /** What an installer reports shows on its page. */
  lemma ProgressArrives(f: Flow, d: nat, progress: Progress)
    requires OnDownloading(f.app) && d in f.downloads && f.downloads[d].Installing?
    ensures Follows(f, [DownloadReports(d, progress)], f.(app := f.app.(wizard := Some(f.app.wizard.value.(progress := progress)))))
  {
    OneStep(f, DownloadReports(d, progress));
  }

  /** The way by a folder of one's own: from whatever page, a folder that passes its checks, accepted, is
      in use after its save and its load, as the user's. */
  lemma FolderIsUsed(f: Flow, dir: string, model: Model) returns (f': Flow)
    requires f.app.nextReady.Some? && f.app.nextAttempt.Some?
    ensures Follows(f, [User(WizardChecked(dir, true), true)] + Accept(|f.tokens|, model), f')
    ensures f'.app.wizard.None? && f'.app.capability.Hybrid? && f'.app.provenance == Some(UserSupplied)
    ensures f'.cell == Some(model) && f'.tokens == f.tokens
  {
    FolderChecked(f.app, dir, true);
    var g := Apply(f, User(WizardChecked(dir, true), true));
    OneStep(f, User(WizardChecked(dir, true), true));
    f' := ReadyIsUsed(g, model);
    ThenAlso(f, [User(WizardChecked(dir, true), true)], g, Accept(|f.tokens|, model), f');
  }

  // Consent is asked for and given.
  lemma DownloadBegins(f: Flow) returns (f': Flow)
    requires OnSetup(f.app) && f.app.offer.Some? && f.app.nextReady.Some? && f.nextDownload !in f.downloads
    ensures Follows(f, [User(DownloadModel, true), User(ConfirmModelDownload, true)], f')
    ensures OnDownloading(f'.app) && f'.app.wizard.value.dest == f.app.offer.value.destination
    ensures f'.downloads == f.downloads[f.nextDownload := Installing(false)] && f'.tokens == f.tokens && f'.app.nextAttempt == f.app.nextAttempt
  {
    Consenting(f.app);
    TwoSteps(f, User(DownloadModel, true), User(ConfirmModelDownload, true));
    f' := Apply(Apply(f, User(DownloadModel, true)), User(ConfirmModelDownload, true));
  }

  // The installer ends well, and says so.
  lemma DownloadArrives(f: Flow, d: nat, dest: string) returns (f': Flow)
    requires OnDownloading(f.app) && d in f.downloads && f.downloads[d].Installing?
    ensures Follows(f, [DownloadEnds(d, AllComplete(dest)), TerminalArrives(d)], f')
    ensures f'.app == f.app.(wizard := Some(Ready(f.app.wizard.value.reserved, dest, AppManaged, Idle))) && f'.tokens == f.tokens
  {
    TwoSteps(f, DownloadEnds(d, AllComplete(dest)), TerminalArrives(d));
    f' := Apply(Apply(f, DownloadEnds(d, AllComplete(dest))), TerminalArrives(d));
  }

  // By the managed download, if nothing fails; `d` is its number.
  ghost function Download(d: nat, dest: string): seq<Action> {
    [User(DownloadModel, true), User(ConfirmModelDownload, true)] + [DownloadEnds(d, AllComplete(dest)), TerminalArrives(d)]
  }

  /** The way by the managed download: from a setup page with an offer, once it is consented to, arrives, is
      accepted, saved and loaded, the model is in use, as the program's own. */
  lemma DownloadIsUsed(f: Flow, dest: string, model: Model) returns (f': Flow)
    requires OnSetup(f.app) && f.app.offer.Some? && f.app.nextReady.Some? && f.app.nextAttempt.Some? && f.nextDownload !in f.downloads
    ensures Follows(f, Download(f.nextDownload, dest) + Accept(|f.tokens|, model), f')
    ensures f'.app.wizard.None? && f'.app.capability.Hybrid? && f'.app.provenance == Some(AppManaged)
    ensures f'.cell == Some(model) && f'.tokens == f.tokens
  {
    var d := f.nextDownload;
    var g := DownloadBegins(f);
    var h := DownloadArrives(g, d, dest);
    ThenAlso(f, [User(DownloadModel, true), User(ConfirmModelDownload, true)], g, [DownloadEnds(d, AllComplete(dest)), TerminalArrives(d)], h);
    f' := ReadyIsUsed(h, model);
    ThenAlso(f, Download(d, dest), h, Accept(|f.tokens|, model), f');
  }

  /** A download whose store cannot be opened ends on the failed page, which says so. */
  lemma ClosedStoreFails(f: Flow) returns (f': Flow)
    requires OnConsent(f.app) && f.app.nextReady.Some? && f.nextDownload !in f.downloads
    ensures Follows(f, [User(ConfirmModelDownload, false), TerminalArrives(f.nextDownload)], f')
    ensures f'.app.wizard == Some(DownloadFailed(f.app.wizard.value.offer, f.app.wizard.value.returnTo, StoreUnavailable))
    ensures f'.downloads == f.downloads && f'.tokens == f.tokens
  {
    var d := f.nextDownload;
    TwoSteps(f, User(ConfirmModelDownload, false), TerminalArrives(d));
    f' := Apply(Apply(f, User(ConfirmModelDownload, false)), TerminalArrives(d));
    assert f.downloads[d := Ended(Badly(StoreUnavailable))] - {d} == f.downloads;
  }
}
