/**
 Model install and activation as a protocol: the application state, the save and activation tasks
 and their completion messages, the installers and their terminal messages, and the model cell
 searches read. Any user message, any task step and any delivery may come next.
 */
module ModelFlow {
  import opened Common
  import opened Wizards

  type Model = nat

  /** A save or activation under way, or its completion waiting to be delivered. */
  datatype Token =
    | Saving(id: ReadyId, attempt: AttemptId, dir: string, provenance: Provenance)
    | Saved(id: ReadyId, attempt: AttemptId, dir: string, provenance: Provenance, ok: bool)
    | Activating(id: ReadyId, attempt: AttemptId)
    | Activated(id: ReadyId, attempt: AttemptId, ok: bool)

  // An installer with its cancellation flag, or the terminal message it left.
  datatype Download = Installing(flag: bool) | Ended(terminal: Terminal)
  datatype Terminal = AllComplete(dest: string) | Badly(failure: Failure)

  datatype Flow = Flow(
    app: App,
    tokens: seq<Token>,
    cell: Option<Model>,
    downloads: map<nat, Download>,   // installers by number, until their terminal message is delivered
    nextDownload: nat,
    shared: Option<nat>,             // whose flag the shared cancellation cell holds
    cancels: nat,                    // cancel effects since the last download started
    upgraded: bool,                  // capability went from keyword-only to hybrid in this session
    searches: seq<Search>)

  // What one search saw: the model it was given, and whether the upgrade had happened.
  datatype Search = Search(model: Option<Model>, afterUpgrade: bool)

  datatype Action =
    | User(message: Message, storeOpens: bool)
    | SaveRuns(i: nat, ok: bool)
    | ActivationRuns(i: nat, ok: bool, swapped: Option<Model>)
    | TokenArrives(i: nat)
    | DownloadReports(d: nat, progress: Progress)
    | DownloadEnds(d: nat, terminal: Terminal)
    | TerminalArrives(d: nat)
    | Searches

  // Messages only tasks send.
  predicate FromTask(m: Message) {
    m.PersistenceCompleted? || m.ActivationCompleted? || m.DownloadFileProgress? || m.DownloadAllComplete? || m.DownloadEndedBadly?
  }

  function Completion(t: Token): Message
    requires t.Saved? || t.Activated?
  {
    match t
    case Saved(id, attempt, dir, provenance, ok) => PersistenceCompleted(id, attempt, dir, provenance, ok)
    case Activated(id, attempt, ok) => ActivationCompleted(id, attempt, ok)
  }

  function TerminalMessage(t: Terminal): Message {
    match t
    case AllComplete(dest) => DownloadAllComplete(dest)
    case Badly(failure) => DownloadEndedBadly(failure)
  }

  predicate Enabled(f: Flow, a: Action) {
    match a
    case User(message, _) => !FromTask(message)
    case SaveRuns(i, _) => i < |f.tokens| && f.tokens[i].Saving?
    case ActivationRuns(i, ok, swapped) => i < |f.tokens| && f.tokens[i].Activating? && (ok ==> swapped.Some?)
    case TokenArrives(i) => i < |f.tokens| && (f.tokens[i].Saved? || f.tokens[i].Activated?)
    case DownloadReports(d, _) => d in f.downloads && f.downloads[d].Installing?
    case DownloadEnds(d, terminal) =>
      // An installer reports that it was cancelled only if it was.
      d in f.downloads && f.downloads[d].Installing? && (terminal == Badly(Stopped) ==> f.downloads[d].flag)
    case TerminalArrives(d) => d in f.downloads && f.downloads[d].Ended?
    case Searches => true
  }

  // The effect a message produced, dispatched.
  function Dispatched(f: Flow, effect: Effect, storeOpens: bool): Flow {
    match effect
    case NoEffect => f
    case StartManagedDownload =>
      var d := f.nextDownload;
      var f1 := f.(nextDownload := d + 1, cancels := 0);
      if storeOpens then f1.(downloads := f.downloads[d := Installing(false)], shared := Some(d))
      else f1.(downloads := f.downloads[d := Ended(Badly(StoreUnavailable))])
    case CancelManagedDownload =>
      var f1 := f.(cancels := f.cancels + 1);
      if f.shared.Some? && f.shared.value in f.downloads && f.downloads[f.shared.value].Installing?
      then f1.(downloads := f.downloads[f.shared.value := Installing(true)]) else f1
    case PersistReady(id, attempt, dir, provenance) => f.(tokens := f.tokens + [Saving(id, attempt, dir, provenance)])
    case ActivateModel(id, attempt) => f.(tokens := f.tokens + [Activating(id, attempt)])
  }

  function Delivered(f: Flow, message: Message, storeOpens: bool): Flow {
    var (app, effect) := React(f.app, message);
    var f1 := f.(app := app, upgraded := f.upgraded || (f.app.capability.KeywordOnly? && app.capability.Hybrid?));
    Dispatched(f1, effect, storeOpens)
  }

  function Apply(f: Flow, a: Action): Flow
    requires Enabled(f, a)
  {
    match a
    case User(message, storeOpens) => Delivered(f, message, storeOpens)
    case SaveRuns(i, ok) =>
      var t := f.tokens[i];
      f.(tokens := f.tokens[i := Saved(t.id, t.attempt, t.dir, t.provenance, ok)])
    case ActivationRuns(i, ok, swapped) =>
      var t := f.tokens[i];
      f.(tokens := f.tokens[i := Activated(t.id, t.attempt, ok)], cell := if swapped.Some? then swapped else f.cell)
    case TokenArrives(i) => Delivered(f.(tokens := Without(f.tokens, i)), Completion(f.tokens[i]), true)
    case DownloadReports(d, progress) => Delivered(f, DownloadFileProgress(progress), true)
    case DownloadEnds(d, terminal) => f.(downloads := f.downloads[d := Ended(terminal)])
    case TerminalArrives(d) => Delivered(f.(downloads := f.downloads - {d}), TerminalMessage(f.downloads[d].terminal), true)
    case Searches => f.(searches := f.searches + [Search(f.cell, f.upgraded)])
  }

  ghost predicate Step(f: Flow, f': Flow) {
    exists a :: Enabled(f, a) && f' == Apply(f, a)
  }

  /** A session begins with whatever startup found; at startup the capability may already be hybrid. */
  ghost predicate Start(f: Flow) {
    && (f.app.wizard.None? || f.app.wizard == Some(NotConfigured) || f.app.wizard.value.FileMissing?)
    && f.app.nextReady == Some(1) && f.app.nextAttempt == Some(1)
    && f.tokens == [] && f.downloads == map[] && f.shared == None && f.cancels == 0
    && !f.upgraded && f.searches == []
  }

  ghost predicate Run(run: seq<Flow>) {
    && run != [] && Start(run[0])
    && forall i :: 0 <= i < |run| - 1 ==> Step(run[i], run[i + 1])
  }

  ghost predicate Reachable(f: Flow) {
    exists run :: Run(run) && run[|run| - 1] == f
  }

  lemma Go(f: Flow, a: Action)
    requires Reachable(f) && Enabled(f, a)
    ensures Reachable(Apply(f, a))
  {
    var run :| Run(run) && run[|run| - 1] == f;
    var run' := run + [Apply(f, a)];
    forall i | 0 <= i < |run'| - 1 ensures Step(run'[i], run'[i + 1]) {
      if i < |run| - 1 {
        assert Step(run[i], run[i + 1]);
      } else {
        assert Enabled(f, a) && run'[i + 1] == Apply(f, a);
      }
    }
    assert Run(run') && run'[|run'| - 1] == Apply(f, a);
  }

  lemma Begins(f: Flow)
    requires Start(f)
    ensures Reachable(f)
  {
    assert Run([f]) && [f][|[f]| - 1] == f;
  }

  // Beside the tokens there were, at most one, for what the wizard now waits for.
  predicate OneTaskMore(before: seq<Token>, f: Flow) {
    || f.tokens == before
    || (|f.tokens| == |before| + 1 && f.tokens[..|before|] == before
        && Awaits(f.app, f.tokens[|before|].id, f.tokens[|before|].attempt))
  }

  lemma DeliveredTask(f: Flow, message: Message, storeOpens: bool)
    ensures OneTaskMore(f.tokens, Delivered(f, message, storeOpens))
  {
    OnlyDueEffects(f.app, message);
    var effect := React(f.app, message).1;
    if effect.PersistReady? || effect.ActivateModel? {
      assert Delivered(f, message, storeOpens).tokens[..|f.tokens|] == f.tokens;
    }
  }

  // ---- Tokens -----------------------------------------------------------------------------

  ghost function Outstanding(tokens: seq<Token>, id: ReadyId): nat {
    if tokens == [] then 0
    else Outstanding(tokens[..|tokens| - 1], id) + if tokens[|tokens| - 1].id == id then 1 else 0
  }

  // The token carries what the wizard, waiting for it, shows.
  predicate Answers(t: Token, w: Wizard) {
    && w.Ready? && t.id == w.id && w.persistence == InFlight(t.attempt)
    && (t.Saving? || t.Saved? ==> t.dir == w.dir && t.provenance == w.provenance)
  }

  /** While a save or activation is awaited there is exactly one task or message for that wizard,
      and it carries the awaited attempt; otherwise there is none for that wizard. */
  ghost predicate TokensOk(f: Flow) {
    && (f.app.wizard.Some? && f.app.wizard.value.Ready? ==>
          var w := f.app.wizard.value;
          && Outstanding(f.tokens, w.id) == (if w.persistence.InFlight? then 1 else 0)
          && forall i :: 0 <= i < |f.tokens| && f.tokens[i].id == w.id ==> Answers(f.tokens[i], w))
  }

  // Ids not handed out yet are nowhere; a reserved id has no token.
  ghost predicate IdsOk(f: Flow) {
    && (forall i :: 0 <= i < |f.tokens| ==> !Unused(f.app.nextReady, f.tokens[i].id))
    && (f.app.wizard.Some? && f.app.wizard.value.Ready? ==> !Unused(f.app.nextReady, f.app.wizard.value.id))
    && (f.app.wizard.Some? && f.app.wizard.value.Downloading? ==>
          var r := f.app.wizard.value.reserved;
          !Unused(f.app.nextReady, r) && forall i :: 0 <= i < |f.tokens| ==> f.tokens[i].id != r)
  }

  // ---- The model cell ---------------------------------------------------------------------

  ghost predicate CellOk(f: Flow) {
    && (f.upgraded ==> f.cell.Some?)
    && (forall i :: 0 <= i < |f.tokens| ==> f.tokens[i].Activated? && f.tokens[i].ok ==> f.cell.Some?)
    && (forall i :: 0 <= i < |f.searches| ==> f.searches[i].afterUpgrade ==> f.searches[i].model.Some?)
  }

  ghost predicate Inv(f: Flow) {
    TokensOk(f) && IdsOk(f) && CellOk(f)
  }

  lemma {:induction false} OutstandingNone(tokens: seq<Token>, id: ReadyId)
    requires forall i :: 0 <= i < |tokens| ==> tokens[i].id != id
    ensures Outstanding(tokens, id) == 0
  {
    if tokens != [] { OutstandingNone(tokens[..|tokens| - 1], id); }
  }

  lemma OutstandingAppend(tokens: seq<Token>, t: Token, id: ReadyId)
    ensures Outstanding(tokens + [t], id) == Outstanding(tokens, id) + if t.id == id then 1 else 0
  {
    assert (tokens + [t])[..|tokens|] == tokens;
  }

  lemma {:induction false} OutstandingUpdate(tokens: seq<Token>, i: nat, t: Token, id: ReadyId)
    requires i < |tokens| && t.id == tokens[i].id
    ensures Outstanding(tokens[i := t], id) == Outstanding(tokens, id)
  {
    var n := |tokens| - 1;
    if i < n {
      assert tokens[i := t][..n] == tokens[..n][i := t];
      OutstandingUpdate(tokens[..n], i, t, id);
    } else {
      assert tokens[i := t][..n] == tokens[..n];
    }
  }

  lemma {:induction false} OutstandingWithout(tokens: seq<Token>, i: nat, id: ReadyId)
    requires i < |tokens|
    ensures Outstanding(tokens, id) == Outstanding(Without(tokens, i), id) + if tokens[i].id == id then 1 else 0
  {
    var n := |tokens| - 1;
    if i < n {
      assert Without(tokens, i)[..n - 1] == Without(tokens[..n], i);
      OutstandingWithout(tokens[..n], i, id);
    } else {
      assert Without(tokens, i) == tokens[..n];
    }
  }
}
