/** What every step of the model protocol keeps, and what follows for every run. */
module ModelFlowProof {
  import opened Common
  import opened Wizards
  import opened ModelFlow

  ghost predicate Known(f: Flow) {
    TokensOk(f) && IdsOk(f)
  }

  // ---- Deliveries that start no task ------------------------------------------------------

  // The tokens stay; the wizard stays, or stops waiting, or is one no token is for.
  lemma Quietly(f: Flow, f': Flow)
    requires Known(f) && f'.tokens == f.tokens
    requires forall id :: Unused(f'.app.nextReady, id) ==> Unused(f.app.nextReady, id)
    requires f'.app.wizard.Some? && f'.app.wizard.value.Ready? && f'.app.wizard != f.app.wizard ==>
               && !f'.app.wizard.value.persistence.InFlight? && !Unused(f'.app.nextReady, f'.app.wizard.value.id)
               && forall i :: 0 <= i < |f.tokens| ==> f.tokens[i].id != f'.app.wizard.value.id
    requires f'.app.wizard.Some? && f'.app.wizard.value.Downloading? ==>
               var r := f'.app.wizard.value.reserved;
               || (f.app.wizard.Some? && f.app.wizard.value.Downloading? && f.app.wizard.value.reserved == r)
               || (f.app.nextReady == Some(r) && !Unused(f'.app.nextReady, r))
    ensures Known(f')
  {
    if f'.app.wizard.Some? && f'.app.wizard.value.Ready? && f'.app.wizard != f.app.wizard {
      OutstandingNone(f.tokens, f'.app.wizard.value.id);
    }
  }

  // No token is for a Ready wizard that is not waiting.
  lemma NoneWhileSettled(f: Flow)
    requires TokensOk(f) && f.app.wizard.Some? && f.app.wizard.value.Ready? && !f.app.wizard.value.persistence.InFlight?
    ensures forall i :: 0 <= i < |f.tokens| ==> f.tokens[i].id != f.app.wizard.value.id
  {
  }

  // A settled Ready wizard starts waiting, for one new task.
  lemma StartsWaiting(f: Flow, f': Flow, t: Token)
    requires Known(f) && f.app.wizard.Some? && f.app.wizard.value.Ready? && !f.app.wizard.value.persistence.InFlight?
    requires f'.tokens == f.tokens + [t] && f'.app.nextReady == f.app.nextReady
    requires f'.app.wizard == Some(f.app.wizard.value.(persistence := InFlight(t.attempt))) && Answers(t, f'.app.wizard.value)
    ensures Known(f')
  {
    NoneWhileSettled(f);
    OutstandingAppend(f.tokens, t, t.id);
  }

  lemma ConfirmKnown(f: Flow, storeOpens: bool)
    requires Known(f)
    ensures Known(Delivered(f, ConfirmModelDownload, storeOpens))
  {
    Quietly(f, Delivered(f, ConfirmModelDownload, storeOpens));
  }

  lemma CheckedKnown(f: Flow, dir: string, allOk: bool)
    requires Known(f)
    ensures Known(Delivered(f, WizardChecked(dir, allOk), true))
  {
    Quietly(f, Delivered(f, WizardChecked(dir, allOk), true));
  }

  lemma AcceptKnown(f: Flow)
    requires Known(f)
    ensures Known(Delivered(f, WizardAccept, true))
  {
    var f' := Delivered(f, WizardAccept, true);
    var effect := Accepted(f.app).1;
    if effect.PersistReady? {
      StartsWaiting(f, f', Saving(effect.id, effect.attempt, effect.dir, effect.provenance));
    } else {
      if f.app.wizard.Some? && f.app.wizard.value.Ready? && !f.app.wizard.value.persistence.InFlight? { NoneWhileSettled(f); }
      Quietly(f, f');
    }
  }

  lemma RetryKnown(f: Flow)
    requires Known(f)
    ensures Known(Delivered(f, WizardRetryModelLoad, true))
  {
    var f' := Delivered(f, WizardRetryModelLoad, true);
    var effect := LoadRetried(f.app).1;
    if effect.ActivateModel? {
      StartsWaiting(f, f', Token.Activating(effect.id, effect.attempt));
    } else {
      Quietly(f, f');
    }
  }

  lemma OtherKnown(f: Flow, message: Message)
    requires Known(f)
    requires message.CancelDownloadInProgress? || message.DownloadFileProgress? || message.RetryModelDownload?
             || message.WizardBack? || message.WizardSkip? || message.DismissOverlay? || message.DownloadModel?
             || message.CancelModelDownload?
    ensures Known(Delivered(f, message, true))
  {
    Quietly(f, Delivered(f, message, true));
  }

  lemma UserKnown(f: Flow, message: Message, storeOpens: bool)
    requires Known(f) && !FromTask(message)
    ensures Known(Delivered(f, message, storeOpens))
  {
    match message
    case ConfirmModelDownload => ConfirmKnown(f, storeOpens);
    case WizardChecked(dir, allOk) => CheckedKnown(f, dir, allOk);
    case WizardAccept => AcceptKnown(f);
    case WizardRetryModelLoad => RetryKnown(f);
    case CancelDownloadInProgress => OtherKnown(f, message);
    case RetryModelDownload => OtherKnown(f, message);
    case WizardBack => OtherKnown(f, message);
    case WizardSkip => OtherKnown(f, message);
    case DismissOverlay(_) => OtherKnown(f, message);
    case DownloadModel => OtherKnown(f, message);
    case CancelModelDownload => OtherKnown(f, message);
  }

  lemma TerminalKnown(f: Flow, terminal: Terminal)
    requires Known(f)
    ensures Known(Delivered(f, TerminalMessage(terminal), true))
  {
    Quietly(f, Delivered(f, TerminalMessage(terminal), true));
  }

  // ---- Completions ------------------------------------------------------------------------

  lemma RemovedIds(f: Flow, i: nat)
    requires Known(f) && i < |f.tokens|
    ensures IdsOk(f.(tokens := Without(f.tokens, i)))
  {
    forall j | 0 <= j < |f.tokens| - 1 ensures Without(f.tokens, i)[j] == f.tokens[if j < i then j else j + 1] {
    }
  }

  // A completion for another wizard, or for none, changes nothing.
  lemma StaleIsIgnored(f: Flow, i: nat)
    requires Known(f) && Enabled(f, TokenArrives(i))
    requires !(f.app.wizard.Some? && f.app.wizard.value.Ready? && f.app.wizard.value.id == f.tokens[i].id)
    ensures Apply(f, TokenArrives(i)) == f.(tokens := Without(f.tokens, i))
    ensures Known(Apply(f, TokenArrives(i)))
  {
    var rest := Without(f.tokens, i);
    RemovedIds(f, i);
    if f.app.wizard.Some? && f.app.wizard.value.Ready? {
      OutstandingWithout(f.tokens, i, f.app.wizard.value.id);
      forall j | 0 <= j < |rest| ensures rest[j] == f.tokens[if j < i then j else j + 1] {
      }
    }
  }

  // The completion the wizard waits for is the only token of its wizard.
  lemma AwaitedIsLast(f: Flow, i: nat)
    requires Known(f) && i < |f.tokens|
    requires f.app.wizard.Some? && f.app.wizard.value.Ready? && f.app.wizard.value.id == f.tokens[i].id
    ensures Answers(f.tokens[i], f.app.wizard.value)
    ensures forall j :: 0 <= j < |f.tokens| - 1 ==> Without(f.tokens, i)[j].id != f.tokens[i].id
  {
    var id := f.tokens[i].id;
    OutstandingWithout(f.tokens, i, id);
    forall j | 0 <= j < |f.tokens| - 1 ensures Without(f.tokens, i)[j].id != id {
      if Without(f.tokens, i)[j].id == id { OutstandingWithout(Without(f.tokens, i), j, id); }
    }
  }

  lemma AwaitedKnown(f: Flow, i: nat)
    requires Known(f) && Enabled(f, TokenArrives(i))
    requires f.app.wizard.Some? && f.app.wizard.value.Ready? && f.app.wizard.value.id == f.tokens[i].id
    ensures Known(Apply(f, TokenArrives(i)))
  {
    AwaitedIsLast(f, i);
    RemovedIds(f, i);
    var t, f' := f.tokens[i], Apply(f, TokenArrives(i));
    if t.Saved? && t.ok {
      assert f'.app == f.app && f'.tokens == Without(f.tokens, i) + [Token.Activating(t.id, t.attempt)];
      OutstandingNone(Without(f.tokens, i), t.id);
      OutstandingAppend(Without(f.tokens, i), Token.Activating(t.id, t.attempt), t.id);
    } else {
      assert f'.tokens == Without(f.tokens, i);
      OutstandingNone(f'.tokens, t.id);
    }
  }

  lemma RunsKnown(f: Flow, i: nat, t: Token)
    requires Known(f) && i < |f.tokens|
    requires t.id == f.tokens[i].id && t.attempt == f.tokens[i].attempt
    requires t.Saved? ==> f.tokens[i].Saving? && t.dir == f.tokens[i].dir && t.provenance == f.tokens[i].provenance
    requires !t.Saving?
    ensures Known(f.(tokens := f.tokens[i := t]))
  {
    if f.app.wizard.Some? && f.app.wizard.value.Ready? {
      OutstandingUpdate(f.tokens, i, t, f.app.wizard.value.id);
    }
  }

  // What a step does besides the application state and the tokens does not matter to them.
  lemma SameKnown(f: Flow, f': Flow)
    requires Known(f) && f'.app == f.app && f'.tokens == f.tokens
    ensures Known(f')
  {
  }

  lemma KeepsKnown(f: Flow, a: Action)
    requires Known(f) && Enabled(f, a)
    ensures Known(Apply(f, a))
  {
    match a
    case User(message, storeOpens) => UserKnown(f, message, storeOpens);
    case SaveRuns(i, ok) =>
      var t := f.tokens[i];
      RunsKnown(f, i, Saved(t.id, t.attempt, t.dir, t.provenance, ok));
    case ActivationRuns(i, ok, swapped) =>
      RunsKnown(f, i, Token.Activated(f.tokens[i].id, f.tokens[i].attempt, ok));
      SameKnown(f.(tokens := Apply(f, a).tokens), Apply(f, a));
    case TokenArrives(i) =>
      if f.app.wizard.Some? && f.app.wizard.value.Ready? && f.app.wizard.value.id == f.tokens[i].id {
        AwaitedKnown(f, i);
      } else {
        StaleIsIgnored(f, i);
      }
    case DownloadReports(d, progress) => OtherKnown(f, DownloadFileProgress(progress));
    case DownloadEnds(_, _) => SameKnown(f, Apply(f, a));
    case TerminalArrives(d) =>
      var f1 := f.(downloads := f.downloads - {d});
      SameKnown(f, f1);
      TerminalKnown(f1, f.downloads[d].terminal);
    case Searches => SameKnown(f, Apply(f, a));
  }

  // ---- The model cell ---------------------------------------------------------------------

  // Only a successful activation report turns keyword-only into hybrid.
  lemma OnlyActivationUpgrades(app: App, message: Message)
    ensures app.capability.KeywordOnly? && React(app, message).0.capability.Hybrid? ==>
              message.ActivationCompleted? && message.activated
  {
  }

  lemma DeliveredCell(f: Flow, message: Message, storeOpens: bool)
    requires CellOk(f) && (message.ActivationCompleted? && message.activated ==> f.cell.Some?)
    ensures CellOk(Delivered(f, message, storeOpens))
  {
    OnlyActivationUpgrades(f.app, message);
    var f' := Delivered(f, message, storeOpens);
    assert f'.cell == f.cell && f'.searches == f.searches;
    assert f'.upgraded ==> f.cell.Some?;
    forall i | 0 <= i < |f'.tokens| && f'.tokens[i].Activated? ensures i < |f.tokens| && f'.tokens[i] == f.tokens[i] {
    }
  }

  lemma KeepsCell(f: Flow, a: Action)
    requires CellOk(f) && Enabled(f, a)
    ensures CellOk(Apply(f, a))
  {
    match a
    case User(message, storeOpens) => DeliveredCell(f, message, storeOpens);
    case SaveRuns(_, _) =>
    case ActivationRuns(_, _, _) =>
    case TokenArrives(i) =>
      var f1 := f.(tokens := Without(f.tokens, i));
      assert f.tokens[i].Activated? && f.tokens[i].ok ==> f.cell.Some?;
      forall j | 0 <= j < |f1.tokens| ensures f1.tokens[j] == f.tokens[if j < i then j else j + 1] {
      }
      DeliveredCell(f1, Completion(f.tokens[i]), true);
    case DownloadReports(_, progress) => DeliveredCell(f, DownloadFileProgress(progress), true);
    case DownloadEnds(_, _) =>
    case TerminalArrives(d) => DeliveredCell(f.(downloads := f.downloads - {d}), TerminalMessage(f.downloads[d].terminal), true);
    case Searches =>
  }

  // ---- Every reachable state --------------------------------------------------------------

  lemma {:induction false} RunInv(run: seq<Flow>, n: nat)
    requires Run(run) && n < |run|
    ensures Inv(run[n])
  {
    if n > 0 {
      RunInv(run, n - 1);
      assert Step(run[n - 1], run[n]);
      var a :| Enabled(run[n - 1], a) && run[n] == Apply(run[n - 1], a);
      KeepsKnown(run[n - 1], a);
      KeepsCell(run[n - 1], a);
    }
  }

  lemma ReachableInv(f: Flow)
    requires Reachable(f)
    ensures Inv(f)
  {
    var run :| Run(run) && run[|run| - 1] == f;
    RunInv(run, |run| - 1);
  }

  /** Whatever the interleaving: while the wizard waits there is exactly one task or message for it,
      tagged with the attempt it waits for; while it does not, there is none. */
  lemma OneTokenWhileWaiting(f: Flow)
    requires Reachable(f) && f.app.wizard.Some? && f.app.wizard.value.Ready?
    ensures var w := f.app.wizard.value;
            && Outstanding(f.tokens, w.id) == (if w.persistence.InFlight? then 1 else 0)
            && forall i :: 0 <= i < |f.tokens| && f.tokens[i].id == w.id ==> w.persistence == InFlight(f.tokens[i].attempt)
  {
    ReachableInv(f);
  }

  /** A completion for a wizard that is gone, or for an attempt that is over, changes nothing. */
  lemma StaleChangesNothing(f: Flow, i: nat)
    requires Reachable(f) && Enabled(f, TokenArrives(i))
    requires !(f.app.wizard.Some? && f.app.wizard.value.Ready? && f.app.wizard.value.id == f.tokens[i].id
               && f.app.wizard.value.persistence == InFlight(f.tokens[i].attempt))
    ensures Apply(f, TokenArrives(i)) == f.(tokens := Without(f.tokens, i))
  {
    ReachableInv(f);
    if f.app.wizard.Some? && f.app.wizard.value.Ready? && f.app.wizard.value.id == f.tokens[i].id {
      AwaitedIsLast(f, i);
      assert false;
    }
    StaleIsIgnored(f, i);
  }

  /** The completion the wizard waits for always counts: a save leads to an activation of the same
      attempt or to the save-failed step, an activation to hybrid search or to the load-failed step. */
  lemma AwaitedTakesEffect(f: Flow, i: nat)
    requires Reachable(f) && Enabled(f, TokenArrives(i))
    requires f.app.wizard.Some? && f.app.wizard.value.Ready? && f.app.wizard.value.id == f.tokens[i].id
    ensures var t, w, f' := f.tokens[i], f.app.wizard.value, Apply(f, TokenArrives(i));
            if t.Saved? then
              if t.ok then f'.app == f.app && f'.tokens == Without(f.tokens, i) + [Token.Activating(w.id, t.attempt)]
              else f'.app == f.app.(wizard := Some(w.(persistence := SaveFailed)))
            else if t.ok then
              f'.app == f.app.(wizard := None, capability := Hybrid, provenance := Some(w.provenance))
            else f'.app == f.app.(wizard := Some(w.(persistence := LoadFailed(t.attempt))))
  {
    ReachableInv(f);
    AwaitedIsLast(f, i);
  }

  /** Keyword-only turns hybrid only when searches are already given a model... */
  lemma UpgradeHasAModel(f: Flow, a: Action)
    requires Reachable(f) && Enabled(f, a)
    requires f.app.capability.KeywordOnly? && Apply(f, a).app.capability.Hybrid?
    ensures f.cell.Some? && Apply(f, a).cell == f.cell
  {
    ReachableInv(f);
    match a
    case User(message, _) => OnlyActivationUpgrades(f.app, message);
    case TokenArrives(i) => OnlyActivationUpgrades(f.app, Completion(f.tokens[i]));
    case DownloadReports(_, progress) => OnlyActivationUpgrades(f.app, DownloadFileProgress(progress));
    case TerminalArrives(d) => OnlyActivationUpgrades(f.app, TerminalMessage(f.downloads[d].terminal));
    case _ =>
  }

  /** ...and every search begun after that sees one. */
  lemma SearchesAfterUpgrade(f: Flow, i: nat)
    requires Reachable(f) && i < |f.searches| && f.searches[i].afterUpgrade
    ensures f.searches[i].model.Some?
  {
    ReachableInv(f);
  }
}
