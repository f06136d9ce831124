/**
 The router's part in the model flow: it applies a message to the application state and dispatches
 the effect, replacing the shared cancellation flag and spawning the tasks of `ModelFlow`. Every
 method takes steps of that protocol, so what is proved of its reachable states holds of the router.
 */
module Routers {
  import opened Common
  import opened Wizards
  import opened ModelFlow
  import opened ModelFlowProof
  import opened DownloadFlow

  // The one model cell every search takes its snapshot from.
  class SearchModel {
    var parts: Option<Model>

    constructor (initial: Option<Model>)
      ensures parts == initial
    {
      parts := initial;
    }

    method Current() returns (snapshot: Option<Model>)
      ensures snapshot == parts
    {
      snapshot := parts;
    }

    // True only once the resolved model is the current one.
    method Activate(resolved: Option<Model>) returns (done: bool)
      modifies this
      ensures done <==> resolved.Some?
      ensures parts == if resolved.Some? then resolved else old(parts)
    {
      if resolved.None? { return false; }
      parts := resolved;
      done := true;
    }
  }

  // A step from a reachable state, and what it keeps of a tidy one.
  lemma Takes(before: Flow, wasTidy: bool, a: Action)
    requires Reachable(before) && Enabled(before, a) && (wasTidy ==> Matched(before) && HonestFailure(before))
    ensures Reachable(Apply(before, a))
    ensures wasTidy && !Stray(before, a) ==> Matched(Apply(before, a)) && HonestFailure(Apply(before, a))
  {
    Go(before, a);
    if wasTidy && !Stray(before, a) {
      KeepsMatched(before, a);
      KeepsHonest(before, a);
    }
  }

  class Router {
    const app: AppState
    const searchModel: SearchModel
    var tokens: seq<Token>
    var downloads: map<nat, Download>
    var nextDownload: nat
    var activeDownloadCancel: Option<nat>  // the download whose flag the shared cell holds
    ghost var cancels: nat
    ghost var upgraded: bool
    ghost var searches: seq<Search>
    ghost var tidy: bool  // the downloading page was never left but by its download's end

    ghost function View(): Flow
      reads this, app, searchModel
    {
      Flow(app.View(), tokens, searchModel.parts, downloads, nextDownload, activeDownloadCancel, cancels, upgraded, searches)
    }

    ghost predicate Valid()
      reads this, app, searchModel
    {
      && app.Valid() && Reachable(View())
      && (tidy ==> Matched(View()) && HonestFailure(View()))
    }

    constructor (startup: App, initial: Option<Model>)
      requires startup.wizard.None? || startup.wizard == Some(NotConfigured) || startup.wizard.value.FileMissing?
      requires startup.nextReady == Some(1) && startup.nextAttempt == Some(1)
      ensures Valid() && tidy && Start(View()) && View().app == startup && View().cell == initial
      ensures fresh(app) && fresh(searchModel)
    {
      app := new AppState(startup);
      searchModel := new SearchModel(initial);
      tokens, downloads, nextDownload, activeDownloadCancel := [], map[], 0, None;
      cancels, upgraded, searches, tidy := 0, false, [], true;
      new;
      Begins(View());
    }

    // ---- Effects --------------------------------------------------------------------------

    method StartDownload(storeOpens: bool)
      modifies `downloads, `nextDownload, `activeDownloadCancel, `cancels
      ensures View() == Dispatched(old(View()), StartManagedDownload, storeOpens)
    {
      var d := nextDownload;
      nextDownload := d + 1;
      cancels := 0;
      if !storeOpens {
        downloads := downloads[d := Ended(Badly(StoreUnavailable))];
        return;
      }
      activeDownloadCancel := Some(d);
      downloads := downloads[d := Installing(false)];
    }

    method RaiseCancelFlag()
      modifies `downloads, `cancels
      ensures View() == Dispatched(old(View()), CancelManagedDownload, true)
    {
      cancels := cancels + 1;
      if activeDownloadCancel.Some? {
        var d := activeDownloadCancel.value;
        if d in downloads && downloads[d].Installing? {
          downloads := downloads[d := Installing(true)];
        }
      }
    }

    method Dispatch(effect: Effect, storeOpens: bool)
      modifies `tokens, `downloads, `nextDownload, `activeDownloadCancel, `cancels
      ensures View() == Dispatched(old(View()), effect, storeOpens)
    {
      match effect {
        case NoEffect =>
        case StartManagedDownload => StartDownload(storeOpens);
        case CancelManagedDownload => RaiseCancelFlag();
        case PersistReady(id, attempt, dir, provenance) => tokens := tokens + [Saving(id, attempt, dir, provenance)];
        case ActivateModel(id, attempt) => tokens := tokens + [Token.Activating(id, attempt)];
      }
    }

    // At most one task is begun, and only where it is due.
    method Route(message: Message, storeOpens: bool)
      requires app.Valid()
      modifies `tokens, `downloads, `nextDownload, `activeDownloadCancel, `cancels, `upgraded, app
      ensures app.Valid() && View() == Delivered(old(View()), message, storeOpens)
      ensures OneTaskMore(old(tokens), View())
    {
      DeliveredTask(View(), message, storeOpens);
      var effect := app.Route(message);
      upgraded := upgraded || (old(app.capability).KeywordOnly? && app.capability.Hybrid?);
      Dispatch(effect, storeOpens);
    }

    // ---- One step each --------------------------------------------------------------------

    // The guarantees of the download hold on as long as no message takes its page away.
    ghost predicate StepTaken(before: Flow, wasTidy: bool, a: Action)
      requires Enabled(before, a)
      reads this, app, searchModel
    {
      Valid() && View() == Apply(before, a) && tidy == (wasTidy && !Stray(before, a))
    }

    method Handle(message: Message, storeOpens: bool)
      requires Valid() && !FromTask(message)
      modifies this, app
      ensures StepTaken(old(View()), old(tidy), User(message, storeOpens))
    {
      ghost var a := User(message, storeOpens);
      Takes(View(), tidy, a);
      tidy := tidy && !Stray(View(), a);
      Route(message, storeOpens);
    }

    // The snapshot is taken here, before the search is spawned.
    method BeginSearch() returns (snapshot: Option<Model>)
      requires Valid()
      modifies `searches
      ensures StepTaken(old(View()), old(tidy), Searches) && snapshot == old(View()).cell
      ensures upgraded ==> snapshot.Some?
    {
      Takes(View(), tidy, Searches);
      ReachableInv(View());
      snapshot := searchModel.Current();
      searches := searches + [Search(snapshot, upgraded)];
    }

    // An activation task, from resolving the model to its completion message; a task that is lost
    // after the swap reports a failure.
    method RunActivation(i: nat, resolved: Option<Model>, joined: bool)
      requires Valid() && i < |tokens| && tokens[i].Activating?
      modifies `tokens, searchModel
      ensures StepTaken(old(View()), old(tidy), ActivationRuns(i, resolved.Some? && joined, resolved))
      ensures tokens[i].ok ==> searchModel.parts == resolved && resolved.Some?
    {
      Takes(View(), tidy, ActivationRuns(i, resolved.Some? && joined, resolved));
      var done := searchModel.Activate(resolved);
      tokens := tokens[i := Token.Activated(tokens[i].id, tokens[i].attempt, done && joined)];
    }

    // A save task: what the store accepted is what the completion reports, to whom it may concern.
    method RunSave(i: nat, accepted: bool)
      requires Valid() && i < |tokens| && tokens[i].Saving?
      modifies `tokens
      ensures StepTaken(old(View()), old(tidy), SaveRuns(i, accepted))
      ensures forall id :: Outstanding(tokens, id) == Outstanding(old(tokens), id)
    {
      Takes(View(), tidy, SaveRuns(i, accepted));
      var t := tokens[i];
      forall id ensures Outstanding(tokens[i := Saved(t.id, t.attempt, t.dir, t.provenance, accepted)], id) == Outstanding(tokens, id) {
        OutstandingUpdate(tokens, i, Saved(t.id, t.attempt, t.dir, t.provenance, accepted), id);
      }
      tokens := tokens[i := Saved(t.id, t.attempt, t.dir, t.provenance, accepted)];
    }

    method DeliverCompletion(i: nat)
      requires Valid() && Enabled(View(), TokenArrives(i))
      modifies this, app
      ensures StepTaken(old(View()), old(tidy), TokenArrives(i))
    {
      Takes(View(), tidy, TokenArrives(i));
      var t := tokens[i];
      tokens := Without(tokens, i);
      Route(Completion(t), true);
    }

    method ReportProgress(d: nat, progress: Progress)
      requires Valid() && Enabled(View(), DownloadReports(d, progress))
      modifies this, app
      ensures StepTaken(old(View()), old(tidy), DownloadReports(d, progress))
    {
      Takes(View(), tidy, DownloadReports(d, progress));
      Route(DownloadFileProgress(progress), true);
    }

    method EndDownload(d: nat, terminal: Terminal)
      requires Valid() && Enabled(View(), DownloadEnds(d, terminal))
      modifies `downloads
      ensures StepTaken(old(View()), old(tidy), DownloadEnds(d, terminal))
    {
      Takes(View(), tidy, DownloadEnds(d, terminal));
      downloads := downloads[d := Ended(terminal)];
    }

    method DeliverTerminal(d: nat)
      requires Valid() && Enabled(View(), TerminalArrives(d))
      modifies this, app
      ensures StepTaken(old(View()), old(tidy), TerminalArrives(d))
    {
      Takes(View(), tidy, TerminalArrives(d));
      var terminal := downloads[d].terminal;
      downloads := downloads - {d};
      Route(TerminalMessage(terminal), true);
    }

    // What the protocol can do next.
    predicate Possible(a: Action)
      reads this
    {
      match a
      case User(message, _) => !FromTask(message)
      case SaveRuns(i, _) => i < |tokens| && tokens[i].Saving?
      case ActivationRuns(i, ok, swapped) => i < |tokens| && tokens[i].Activating? && (ok ==> swapped.Some?)
      case TokenArrives(i) => i < |tokens| && (tokens[i].Saved? || tokens[i].Activated?)
      case DownloadReports(d, _) => d in downloads && downloads[d].Installing?
      case DownloadEnds(d, terminal) =>
        d in downloads && downloads[d].Installing? && (terminal == Badly(Stopped) ==> downloads[d].flag)
      case TerminalArrives(d) => d in downloads && downloads[d].Ended?
      case Searches => true
    }

    method Perform(a: Action)
      requires Valid() && Possible(a)
      modifies this, app, searchModel
      ensures StepTaken(old(View()), old(tidy), a)
    {
      match a {
        case User(message, storeOpens) => Handle(message, storeOpens);
        case SaveRuns(i, ok) => RunSave(i, ok);
        case ActivationRuns(i, ok, swapped) => RunActivation(i, swapped, ok);
        case TokenArrives(i) => DeliverCompletion(i);
        case DownloadReports(d, progress) => ReportProgress(d, progress);
        case DownloadEnds(d, terminal) => EndDownload(d, terminal);
        case TerminalArrives(d) => DeliverTerminal(d);
        case Searches => var _ := BeginSearch();
      }
    }

    // ---- Whole sessions -------------------------------------------------------------------

    // Whoever waits is answered exactly once, and nobody else is.
    ghost predicate AnsweredOnce()
      reads this, app
    {
      app.wizard.Some? && app.wizard.value.Ready? ==>
        Outstanding(tokens, app.wizard.value.id) == if app.wizard.value.persistence.InFlight? then 1 else 0
    }

    // Hybrid is what searches really are.
    ghost predicate HybridIsHonest()
      reads this, searchModel
    {
      (upgraded ==> searchModel.parts.Some?)
      && forall i :: 0 <= i < |searches| && searches[i].afterUpgrade ==> searches[i].model.Some?
    }

    // One installer, on its page, told to stop at most once, never reported as failed for it.
    ghost predicate OneAtATime()
      reads this, app, searchModel
    {
      && |downloads| <= 1 && (|downloads| == 1 <==> OnDownloadingPage(View()))
      && (OnDownloadingPage(View()) ==> cancels <= 1) && HonestFailure(View())
    }

    /** Any messages, task steps and deliveries, in any order (those that cannot happen are passed
        over): at the end, as at every step, the guarantees of the protocol hold. */
    method Run(script: seq<Action>)
      requires Valid()
      modifies this, app, searchModel
      ensures Valid() && AnsweredOnce() && HybridIsHonest() && (tidy ==> OneAtATime())
      ensures tidy ==> old(tidy)
    {
      for n := 0 to |script|
        invariant Valid() && (tidy ==> old(tidy))
      {
        if Possible(script[n]) {
          Perform(script[n]);
        }
      }
      ReachableInv(View());
      if tidy { MatchedOne(View()); }
    }
  }
}
