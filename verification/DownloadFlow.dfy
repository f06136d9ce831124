/**
 The model download composed with the wizard. Terminal messages carry no identity, so which download
 one ends is decided only by the wizard staying on the downloading page until it arrives.
 */
module DownloadFlow {
  import opened Common
  import opened Wizards
  import opened ModelFlow

  predicate OnDownloadingPage(f: Flow) {
    f.app.wizard.Some? && f.app.wizard.value.Downloading?
  }

  /** On the downloading page exactly one download is outstanding, its installer (if it still runs)
      is the one the shared flag belongs to, and it was told to stop exactly if the page says so,
      once; on any other page none is. */
  ghost predicate Matched(f: Flow) {
    if OnDownloadingPage(f) then
      var d := f.nextDownload - 1;
      && f.nextDownload > 0 && f.downloads.Keys == {d}
      && f.cancels == (if f.app.wizard.value.cancelling then 1 else 0)
      && (f.downloads[d].Installing? ==> f.shared == Some(d) && f.downloads[d].flag == f.app.wizard.value.cancelling)
      && (f.downloads[d] == Ended(Badly(Stopped)) ==> f.app.wizard.value.cancelling)
    else f.downloads == map[]
  }

  /** The messages that leave the downloading page before the download's own terminal message. */
  predicate Stray(f: Flow, a: Action) {
    && OnDownloadingPage(f) && a.User?
    && (a.message.WizardChecked? || a.message.WizardBack? || a.message.WizardSkip? || a.message.CancelModelDownload?)
  }

  lemma ConfirmMatched(f: Flow, storeOpens: bool)
    requires Matched(f)
    ensures Matched(Delivered(f, ConfirmModelDownload, storeOpens))
  {
    var f' := Delivered(f, ConfirmModelDownload, storeOpens);
    if Confirmed(f.app).1.StartManagedDownload? {
      assert f'.downloads.Keys == {f'.nextDownload - 1};
    }
  }

  lemma CancelMatched(f: Flow)
    requires Matched(f)
    ensures Matched(Delivered(f, CancelDownloadInProgress, true))
  {
  }

  // Everything else that is not stray neither enters nor leaves the downloading page.
  lemma OtherMatched(f: Flow, message: Message, storeOpens: bool)
    requires Matched(f) && !message.ConfirmModelDownload? && !message.CancelDownloadInProgress?
    requires !message.DownloadAllComplete? && !message.DownloadEndedBadly?
    requires OnDownloadingPage(f) ==>
               !message.WizardChecked? && !message.WizardBack? && !message.WizardSkip? && !message.CancelModelDownload?
    ensures Matched(Delivered(f, message, storeOpens))
  {
    var f' := Delivered(f, message, storeOpens);
    assert OnDownloadingPage(f') <==> OnDownloadingPage(f);
    assert f'.downloads == f.downloads && f'.cancels == f.cancels && f'.shared == f.shared && f'.nextDownload == f.nextDownload;
  }

  lemma UserMatched(f: Flow, a: Action)
    requires Matched(f) && Enabled(f, a) && a.User? && !Stray(f, a)
    ensures Matched(Apply(f, a))
  {
    if a.message.ConfirmModelDownload? {
      ConfirmMatched(f, a.storeOpens);
    } else if a.message.CancelDownloadInProgress? {
      CancelMatched(f);
    } else {
      OtherMatched(f, a.message, a.storeOpens);
    }
  }

  /** The terminal message that arrives is that of the download on the page, and ends it. */
  lemma TerminalEndsItsDownload(f: Flow, d: nat)
    requires Matched(f) && Enabled(f, TerminalArrives(d))
    ensures OnDownloadingPage(f) && d == f.nextDownload - 1
    ensures var f', w, terminal := Apply(f, TerminalArrives(d)), f.app.wizard.value, f.downloads[d].terminal;
            && f'.downloads == map[] && Matched(f')
            && f'.app == f.app.(wizard := Some(
                 match terminal
                 case AllComplete(dest) => Ready(w.reserved, dest, AppManaged, Idle)
                 case Badly(failure) =>
                   if w.cancelling then DownloadConsent(w.offer, w.returnTo) else DownloadFailed(w.offer, w.returnTo, failure)))
  {
    assert f.downloads - {d} == map[];
  }

  lemma InstallerMatched(f: Flow, a: Action)
    requires Matched(f) && Enabled(f, a) && (a.DownloadReports? || a.DownloadEnds?)
    ensures Matched(Apply(f, a))
  {
    if a.DownloadReports? {
      OtherMatched(f, DownloadFileProgress(a.progress), true);
    } else {
      assert f.downloads[a.d := Ended(a.terminal)].Keys == f.downloads.Keys;
    }
  }

  lemma TokenMatched(f: Flow, a: Action)
    requires Matched(f) && Enabled(f, a) && (a.SaveRuns? || a.ActivationRuns? || a.TokenArrives? || a.Searches?)
    ensures Matched(Apply(f, a))
  {
    if a.TokenArrives? { OtherMatched(f.(tokens := Without(f.tokens, a.i)), Completion(f.tokens[a.i]), true); }
  }

  lemma StrayUnmatched(f: Flow, a: Action)
    requires Matched(f) && Enabled(f, a) && Stray(f, a)
    ensures !Matched(Apply(f, a))
  {
    assert f.nextDownload - 1 in f.downloads;
    assert !OnDownloadingPage(Apply(f, a)) && Apply(f, a).downloads == f.downloads;
  }

  /** A step keeps page and download together if, and only if, it is not a stray message. */
  lemma KeepsMatched(f: Flow, a: Action)
    requires Matched(f) && Enabled(f, a)
    ensures Matched(Apply(f, a)) <==> !Stray(f, a)
  {
    if Stray(f, a) {
      StrayUnmatched(f, a);
    } else {
      match a
      case User(_, _) => UserMatched(f, a);
      case DownloadReports(_, _) => InstallerMatched(f, a);
      case DownloadEnds(_, _) => InstallerMatched(f, a);
      case TerminalArrives(d) => TerminalEndsItsDownload(f, d);
      case SaveRuns(_, _) => TokenMatched(f, a);
      case ActivationRuns(_, _, _) => TokenMatched(f, a);
      case TokenArrives(_) => TokenMatched(f, a);
      case Searches => TokenMatched(f, a);
    }
  }

  // The failed page is never about a cancellation.
  predicate HonestFailure(f: Flow) {
    f.app.wizard.Some? && f.app.wizard.value.DownloadFailed? ==> !f.app.wizard.value.failure.Stopped?
  }

  lemma DeliveredHonest(f: Flow, message: Message, storeOpens: bool)
    requires HonestFailure(f)
    requires message == DownloadEndedBadly(Stopped) && OnDownloadingPage(f) ==> f.app.wizard.value.cancelling
    ensures HonestFailure(Delivered(f, message, storeOpens))
  {
    assert Delivered(f, message, storeOpens).app == React(f.app, message).0;
  }

  lemma KeepsHonest(f: Flow, a: Action)
    requires Matched(f) && HonestFailure(f) && Enabled(f, a)
    ensures HonestFailure(Apply(f, a))
  {
    match a
    case User(message, storeOpens) => DeliveredHonest(f, message, storeOpens);
    case DownloadReports(_, progress) => DeliveredHonest(f, DownloadFileProgress(progress), true);
    case TerminalArrives(d) => TerminalEndsItsDownload(f, d);
    case TokenArrives(i) => DeliveredHonest(f.(tokens := Without(f.tokens, i)), Completion(f.tokens[i]), true);
    case DownloadEnds(_, _) =>
    case SaveRuns(_, _) =>
    case ActivationRuns(_, _, _) =>
    case Searches =>
  }

  ghost predicate TidyStep(f: Flow, f': Flow) {
    exists a :: Enabled(f, a) && !Stray(f, a) && f' == Apply(f, a)
  }

  ghost predicate TidyRun(run: seq<Flow>) {
    && run != [] && Start(run[0])
    && forall i :: 0 <= i < |run| - 1 ==> TidyStep(run[i], run[i + 1])
  }

  lemma MatchedOne(f: Flow)
    requires Matched(f)
    ensures |f.downloads| <= 1 && (|f.downloads| == 1 <==> OnDownloadingPage(f))
    ensures OnDownloadingPage(f) ==> f.cancels <= 1
  {
    if OnDownloadingPage(f) {
      assert f.downloads == map[f.nextDownload - 1 := f.downloads[f.nextDownload - 1]];
    }
  }

  /** Without stray messages: at most one installer at a time, on the downloading page exactly while
      a download is outstanding, at most one cancel effect for each download, and a cancelled
      download never ends on the failed page. */
  lemma {:induction false} OneDownload(run: seq<Flow>, n: nat)
    requires TidyRun(run) && n < |run|
    ensures Matched(run[n])
    ensures |run[n].downloads| <= 1 && (|run[n].downloads| == 1 <==> OnDownloadingPage(run[n]))
    ensures OnDownloadingPage(run[n]) ==> run[n].cancels <= 1
    ensures HonestFailure(run[n])
  {
    if n > 0 {
      OneDownload(run, n - 1);
      assert TidyStep(run[n - 1], run[n]);
      var a :| Enabled(run[n - 1], a) && !Stray(run[n - 1], a) && run[n] == Apply(run[n - 1], a);
      KeepsMatched(run[n - 1], a);
      KeepsHonest(run[n - 1], a);
    }
    MatchedOne(run[n]);
  }

  /** The cancel button reaches the installer that is running, and only the first press does. */
  lemma CancelReachesTheInstaller(f: Flow)
    requires Matched(f) && OnDownloadingPage(f) && f.downloads[f.nextDownload - 1].Installing?
    ensures var f' := Apply(f, User(CancelDownloadInProgress, true));
            if f.app.wizard.value.cancelling then f' == f
            else f'.downloads == f.downloads[f.nextDownload - 1 := Installing(true)] && f'.cancels == f.cancels + 1
  {
  }

  // ---- With a stray message ---------------------------------------------------------------

  const OFFER: Offer := Offer("models", "")

  ghost function Fresh(): (f: Flow)
    ensures Start(f)
  {
    Flow(App(Some(NotConfigured), KeywordOnly, None, Some(1), Some(1), Some(OFFER)), [], None, map[], 0, None, 0, false, [])
  }

  lemma Consent(f: Flow) returns (f': Flow)
    requires Reachable(f) && f.app.wizard == Some(NotConfigured) && f.app.offer == Some(OFFER) && f.app.nextReady.Some?
    ensures Reachable(f') && OnDownloadingPage(f') && !f'.app.wizard.value.cancelling && f'.app.offer == Some(OFFER)
    ensures f'.app.wizard.value.reserved == f.app.nextReady.value
    ensures f'.nextDownload == f.nextDownload + 1 && f'.app.nextReady == After(f.app.nextReady.value)
    ensures f'.downloads == f.downloads[f.nextDownload := Installing(false)]
  {
    Go(f, User(DownloadModel, true));
    var g := Apply(f, User(DownloadModel, true));
    assert g.app.wizard == Some(DownloadConsent(OFFER, ToNotConfigured));
    Go(g, User(ConfirmModelDownload, true));
    f' := Apply(g, User(ConfirmModelDownload, true));
  }

  // A folder picker left open is answered on the downloading page with a folder that is no model;
  // from the page that reports this the way leads back.
  lemma LateAnswer(f: Flow) returns (f': Flow)
    requires Reachable(f) && OnDownloadingPage(f)
    ensures Reachable(f') && f'.app == f.app.(wizard := Some(NotConfigured))
    ensures f'.nextDownload == f.nextDownload && f'.downloads == f.downloads
  {
    var answer := User(WizardChecked("folder", false), true);
    Go(f, answer);
    var g := Apply(f, answer);
    assert g.app == f.app.(wizard := Some(Checked("folder", false))) && g.downloads == f.downloads;
    Go(g, User(WizardBack, true));
    f' := Apply(g, User(WizardBack, true));
  }

  lemma FirstDownload() returns (f: Flow)
    ensures Reachable(f) && OnDownloadingPage(f) && f.app.offer == Some(OFFER)
    ensures f.nextDownload == 1 && f.app.nextReady == Some(2) && f.downloads == map[0 := Installing(false)]
  {
    f := Fresh();
    Begins(f);
    f := Consent(f);
  }

  // Another download is begun from there.
  lemma TwoInstallers() returns (f: Flow)
    ensures Reachable(f) && OnDownloadingPage(f) && !f.app.wizard.value.cancelling && f.app.wizard.value.reserved == 2
    ensures f.downloads == map[0 := Installing(false), 1 := Installing(false)]
  {
    f := FirstDownload();
    f := LateAnswer(f);
    f := Consent(f);
  }

  /** After a late answer of the folder picker has replaced the downloading page, and another download
      was begun, the first installer's success can make the wizard ready while the second, whose page
      it was, is still installing. */
  lemma StrayLetsOneDownloadEndAnother() returns (f: Flow)
    ensures Reachable(f)
    ensures f.app.wizard.Some? && f.app.wizard.value.Ready? && f.app.wizard.value.id == 2
    ensures 1 in f.downloads && f.downloads[1].Installing?
  {
    f := TwoInstallers();
    Go(f, DownloadEnds(0, AllComplete("first")));
    f := Apply(f, DownloadEnds(0, AllComplete("first")));
    Go(f, TerminalArrives(0));
    f := Apply(f, TerminalArrives(0));
  }
}
