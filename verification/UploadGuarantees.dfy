/**
 What callers can rely on when they cancel or pause an upload.

 Cancel must do nothing while a complete may still take effect on the server.
 The flag that keeps it away falls when the server reports a session lost or
 short of parts, although a complete sent earlier may still be carried out.
 Main results: the steps after which cancel is no longer safe are given exactly
 (OnlyTheseStepsUncover), cancel acts too early exactly after one of them
 (CancelActsTooEarlyExactly), and a cancelled upload can still be attached
 exactly when a complete may still take effect (CancelledIsAttachedExactly).
 */
module UploadGuarantees {
  import opened Options
  import opened UploadMachine

  // ---- What the server may still do -----------------------------------------

  /** The session is completed, or a complete that was never answered may complete it yet. */
  predicate CanComplete(r: Remote) {
    r.server == Completed || (r.server != Gone && r.unanswered > 0)
  }

  predicate MayTakeEffect(s: Session) {
    exists i :: 0 <= i < |s.remotes| && CanComplete(s.remotes[i])
  }

  predicate AnyCompleted(s: Session) {
    exists i :: 0 <= i < |s.remotes| && s.remotes[i].server == Completed
  }

  predicate Covered(s: Session) {
    MayTakeEffect(s) ==> s.completeSent
  }

  lemma AnswersOnlyHelp(s: Session, at: nat)
    ensures MayTakeEffect(ReplyIn(s, at)) ==> MayTakeEffect(s)
  {
    var t := ReplyIn(s, at);
    if i :| 0 <= i < |t.remotes| && CanComplete(t.remotes[i]) {
      assert CanComplete(s.remotes[i]);
    }
  }

  lemma TakenUpCounts(s: Session, remote: Remote)
    ensures MayTakeEffect(TakesUp(s, remote)) <==> MayTakeEffect(s) || CanComplete(remote)
  {
    var t := TakesUp(s, remote);
    hide CanComplete;
    assert t.remotes[|s.remotes|] == remote;
    assert forall i :: 0 <= i < |s.remotes| ==> t.remotes[i] == s.remotes[i];
  }

  lemma ServerOnlyCarriesOut(s: Session, e: Event)
    ensures MayTakeEffect(ServerStep(s, e)) ==> MayTakeEffect(s)
    ensures ServerStep(s, e).completeSent == s.completeSent && ServerStep(s, e).inFlight == s.inFlight
  {
    var t := ServerStep(s, e);
    if i :| 0 <= i < |t.remotes| && CanComplete(t.remotes[i]) {
      assert CanComplete(s.remotes[i]);
    }
  }

  // ---- The steps that uncover -----------------------------------------------

  /** The flag falls: the session is reported lost or short of parts, and the browser waits for no complete itself. */
  predicate Clears(stage: Stage, s: Session, news: News) {
    match stage
    case AtStatus =>
      && news.Told? && s.inFlight == 0
      && (Seen(s) == Open(false) || (Seen(s) in {Assembled, Gone} && !news.discarded))
    case AtRecheck => news.Told? && s.inFlight == 0 && Seen(s) == Open(false)
    case AtComplete =>
      news.Expired? && news.tryAgain && !news.discarded && s.inFlight <= 1 && Seen(s) in {Assembled, Gone}
    case _ => false
  }

  /** What is left to the server once the news is in. */
  function Heard(stage: Stage, s: Session): Session {
    if stage == AtComplete then ReplyIn(s, Latest(s)) else s
  }

  /** A resume record names a session that is completed, or may yet be. */
  predicate Adopts(multipart: bool, stage: Stage, s: Session, news: News) {
    && multipart && stage == AtStart && !s.open && !s.completeSent
    && news.Ready? && news.record.Some? && CanComplete(news.record.value)
  }

  predicate UncoversAt(multipart: bool, stage: Stage, s: Session, news: News) {
    Adopts(multipart, stage, s, news) || (Clears(stage, s, news) && MayTakeEffect(Heard(stage, s)))
  }

  predicate Uncovers(u: Upload, e: Event) {
    && e.GoOn? && e.run < |u.runs| && Alive(u.runs[e.run])
    && UncoversAt(u.multipart, u.runs[e.run].stage, u.session, e.news)
  }

  lemma StatusUncovers(p: Promise, s: Session, news: News)
    requires Active(AtStatus, p, s) && Covered(s) && news.Told?
    ensures !Covered(AfterStatus(p, s, news.discarded).session) <==> Clears(AtStatus, s, news) && MayTakeEffect(s)
  {
    SameRemotes(s, AfterStatus(p, s, news.discarded).session);
    hide MayTakeEffect;
  }

  lemma RecheckUncovers(p: Promise, s: Session, news: News)
    requires Active(AtRecheck, p, s) && Covered(s) && news.Told?
    ensures !Covered(AfterRecheck(p, s).session) <==> Clears(AtRecheck, s, news) && MayTakeEffect(s)
  {
    SameRemotes(s, AfterRecheck(p, s).session);
    hide MayTakeEffect;
  }

  lemma SameRemotes(s: Session, t: Session)
    ensures s.remotes == t.remotes ==> (MayTakeEffect(s) <==> MayTakeEffect(t))
  {
  }

  lemma StartUncovers(multipart: bool, p: Promise, s: Session, news: News)
    requires Active(AtStart, p, s) && Covered(s) && news.Ready?
    ensures !Covered(AfterStart(multipart, p, s, news.record).session) <==> Adopts(multipart, AtStart, s, news)
  {
    if news.record.Some? { TakenUpCounts(s, news.record.value); }
    hide MayTakeEffect, CanComplete;
  }

  lemma CreateCovers(p: Promise, s: Session)
    requires Active(AtCreate, p, s) && Covered(s)
    ensures Covered(AfterCreate(p, s).session)
  {
    TakenUpCounts(s, Remote(Open(false), 0));
    hide MayTakeEffect;
  }

  lemma CompleteUncovers(p: Promise, s: Session, news: News)
    requires Active(AtComplete, p, s) && Covered(s) && !IsFailure(news)
    ensures !Covered(AfterComplete(p, s, news).session)
       <==> Clears(AtComplete, s, news) && MayTakeEffect(ReplyIn(s, Latest(s)))
  {
    var answered := ReplyIn(s, Latest(s));
    SameRemotes(answered, AfterComplete(p, s, news).session);
    SameRemotes(s, AfterComplete(p, s, news).session);
    AnswersOnlyHelp(s, Latest(s));
    hide MayTakeEffect;
  }

  lemma FailureCovers(multipart: bool, stage: Stage, p: Promise, s: Session, news: News)
    requires Active(stage, p, s) && Covered(s) && IsFailure(news)
    ensures Covered(AfterFailure(multipart, stage, p, s, news).session)
  {
    AnswersOnlyHelp(s, Latest(s));
    SameRemotes(s, LetGo(s));
    hide MayTakeEffect;
  }

  lemma PartsCover(multipart: bool, p: Promise, s: Session, news: News)
    requires Active(AtParts, p, s) && Covered(s)
    ensures Covered(AfterParts(multipart, p, s, news).session)
  {
    hide MayTakeEffect;
  }

  lemma NextUncovers(multipart: bool, stage: Stage, p: Promise, s: Session, news: News)
    requires Active(stage, p, s) && Covered(s) && stage != Over
    ensures !Covered(Next(multipart, stage, p, s, news).session) <==> UncoversAt(multipart, stage, s, news)
  {
    hide MayTakeEffect, AfterFailure, AfterStart, AfterCreate, AfterStatus, AfterRecheck, AfterParts, AfterComplete, ReplyIn;
    if IsFailure(news) {
      FailureCovers(multipart, stage, p, s, news);
    } else {
      match stage
      case AtStart => if news.Ready? { StartUncovers(multipart, p, s, news); }
      case AtCreate => CreateCovers(p, s);
      case AtStatus => if news.Told? { StatusUncovers(p, s, news); }
      case AtRecheck => if news.Told? { RecheckUncovers(p, s, news); }
      case AtParts => PartsCover(multipart, p, s, news);
      case AtComplete => CompleteUncovers(p, s, news);
      case AtRetry =>
    }
  }

  lemma StoppedNextCovers(run: Run, cancelled: bool, s: Session, news: News)
    requires Covered(s)
    ensures Covered(StoppedNext(run, cancelled, s, news))
  {
    AnswersOnlyHelp(s, run.target);
    SameRemotes(s, LetGo(s));
    TakenUpCounts(s, Remote(Open(false), 0));
    hide MayTakeEffect;
  }

  lemma GoOnUncovers(u: Upload, r: nat, news: News)
    requires Inv(u) && Covered(u.session)
    ensures !Covered(StepGoOn(u, r, news).session) <==> Uncovers(u, GoOn(r, news))
  {
    hide Covered, UncoversAt, Next, StoppedNext, StopLast, Inv;
    if r < |u.runs| && u.runs[r].stage != Over {
      if u.runs[r].stopped {
        StoppedNextCovers(u.runs[r], u.promise.cancelled, u.session, news);
      } else {
        AliveIsActive(u, r);
        NextUncovers(u.multipart, u.runs[r].stage, u.promise, u.session, news);
      }
    }
  }

  lemma OthersKeepSession(u: Upload, e: Event)
    requires e.Start? || e.Pause? || e.Resume? || e.Cancel? || e.ComeOnline? || e.GoOffline?
    ensures Step(u, e).session.completeSent == u.session.completeSent && Step(u, e).session.remotes == u.session.remotes
    ensures Step(u, e).session.inFlight == u.session.inFlight
  {
    hide StopLast;
  }

  /**
   Cancel stops being safe in exactly these steps: a live run is told that the
   session is lost or wants parts while an unanswered complete may still be
   carried out, or takes up a session from a resume record that is completed or
   may yet be.
   */
  lemma OnlyTheseStepsUncover(u: Upload, e: Event)
    requires Inv(u) && Covered(u.session)
    ensures !Covered(Step(u, e).session) <==> Uncovers(u, e)
  {
    hide Inv, MayTakeEffect, UncoversAt, StepGoOn, StepStart, StepPause, StepResume, StepCancel, StepOnline, StepOffline, ServerStep;
    match e
    case GoOn(r, news) => GoOnUncovers(u, r, news);
    case ServerStores(_) => ServerOnlyCarriesOut(u.session, e);
    case ServerAssembles(_) => ServerOnlyCarriesOut(u.session, e);
    case ServerCompletes(_) => ServerOnlyCarriesOut(u.session, e);
    case ServerForgets(_) => ServerOnlyCarriesOut(u.session, e);
    case _ =>
      OthersKeepSession(u, e);
      SameRemotes(u.session, Step(u, e).session);
  }

  // ---- Cancelling, over whole lives -----------------------------------------

  /** While the browser waits for a complete, cancel does nothing. */
  lemma CancelRespectsWaiting(u: Upload)
    requires Inv(u) && u.session.inFlight > 0
    ensures Step(u, Cancel) == u
  {
    hide RunsOk, RetriesOk, CountInFlight, PromiseOk;
  }

  /** Where nothing uncovered it, cancel does nothing as long as a complete may take effect; elsewhere it acts. */
  lemma CancelRespectsComplete(u: Upload)
    requires MayTakeEffect(u.session) && u.promise.phase != Done && !u.promise.cancelled
    ensures Step(u, Cancel) == u <==> Covered(u.session)
  {
    hide MayTakeEffect, StopLast;
  }

  /** Some step uncovered the upload, and no complete has been sent since. */
  ghost predicate WasUncovered(u: Upload, events: seq<Event>) {
    exists k :: 0 <= k < |events| && UncoveredSince(u, events, k)
  }

  ghost predicate UncoveredSince(u: Upload, events: seq<Event>, k: nat)
    requires k < |events|
  {
    && Uncovers(Life(u, events[..k]), events[k])
    && forall j :: k < j <= |events| ==> !Life(u, events[..j]).session.completeSent
  }

  lemma {:induction false} UncoveredLife(u: Upload, events: seq<Event>)
    requires Inv(u) && Covered(u.session)
    ensures !Covered(Life(u, events).session) ==> WasUncovered(u, events)
  {
    hide Inv, Step, Uncovers, MayTakeEffect;
    if events != [] && !Covered(Life(u, events).session) {
      var n := |events| - 1;
      var front := events[..n];
      assert events[..|events|] == events;
      if Covered(Life(u, front).session) {
        LifeInv(u, front);
        OnlyTheseStepsUncover(Life(u, front), events[n]);
        assert UncoveredSince(u, events, n);
      } else {
        UncoveredLife(u, front);
        var k :| 0 <= k < |front| && UncoveredSince(u, front, k);
        assert events[..k] == front[..k];
        forall j | k < j <= |events| ensures !Life(u, events[..j]).session.completeSent {
          if j <= n { assert events[..j] == front[..j]; }
        }
        assert UncoveredSince(u, events, k);
      }
    }
  }

  /** Over every life: while a complete may take effect, cancel acts if and only if a step uncovered the upload. */
  lemma CancelActsTooEarlyExactly(multipart: bool, valid: bool, online: bool, events: seq<Event>)
    ensures var u := Life(Fresh(multipart, valid, online), events);
      MayTakeEffect(u.session) && u.promise.phase != Done && !u.promise.cancelled ==>
        (Step(u, Cancel) != u <==> WasUncovered(Fresh(multipart, valid, online), events))
  {
    var untouched := Fresh(multipart, valid, online);
    var u := Life(untouched, events);
    FreshInv(multipart, valid, online);
    UncoveredLife(untouched, events);
    hide Inv, Life, Step, MayTakeEffect, Uncovers;
    assert events[..|events|] == events;
    if MayTakeEffect(u.session) && u.promise.phase != Done && !u.promise.cancelled {
      CancelRespectsComplete(u);
    }
  }

  // ---- After a cancel -------------------------------------------------------

  /** Cancelled, with nothing left that could complete a session. */
  ghost predicate IsQuiet(u: Upload) {
    Inv(u) && u.promise.started && u.promise.phase == Failed && u.promise.cancelled && !MayTakeEffect(u.session)
  }

  lemma QuietGoesOn(u: Upload, r: nat, news: News)
    requires IsQuiet(u)
    ensures !MayTakeEffect(StepGoOn(u, r, news).session) && StepGoOn(u, r, news).promise == u.promise
  {
    hide CountInFlight, SessionOk, PromiseOk, Next, StopLast, MayTakeEffect;
    GoOnWhenOver(u, r, news);
    assert r < |u.runs| ==> !Alive(u.runs[r]);
    if r < |u.runs| {
      AnswersOnlyHelp(u.session, u.runs[r].target);
      SameRemotes(u.session, LetGo(u.session));
    }
  }

  lemma QuietStays(u: Upload, e: Event)
    requires IsQuiet(u)
    ensures IsQuiet(Step(u, e))
  {
    StepInv(u, e);
    hide Inv, MayTakeEffect, StepGoOn, StopLast, Drive, ServerStep;
    match e
    case GoOn(r, news) => QuietGoesOn(u, r, news);
    case ServerStores(_) => ServerOnlyCarriesOut(u.session, e);
    case ServerAssembles(_) => ServerOnlyCarriesOut(u.session, e);
    case ServerCompletes(_) => ServerOnlyCarriesOut(u.session, e);
    case ServerForgets(_) => ServerOnlyCarriesOut(u.session, e);
    case _ =>
      SettledForGood(u);
      SameRemotes(u.session, Step(u, e).session);
  }

  lemma SettledForGood(u: Upload)
    requires Inv(u) && u.promise.started && u.promise.phase == Failed
    ensures !u.promise.listening && !u.promise.unsettled
  {
    hide RunsOk, RetriesOk, CountInFlight, SessionOk;
  }

  lemma {:induction false} QuietForGood(u: Upload, events: seq<Event>)
    requires IsQuiet(u)
    ensures IsQuiet(Life(u, events))
  {
    hide IsQuiet, Step;
    if events != [] {
      QuietForGood(u, events[..|events| - 1]);
      QuietStays(Life(u, events[..|events| - 1]), events[|events| - 1]);
    }
  }

  /** A cancel that takes effect while no complete may: this upload never completes a session afterwards. */
  lemma CancelledIsNeverAttached(u: Upload, events: seq<Event>)
    requires Inv(u) && u.promise.started && Step(u, Cancel) != u && !MayTakeEffect(u.session)
    ensures Step(u, Cancel).promise.phase == Failed
    ensures !AnyCompleted(Life(Step(u, Cancel), events).session)
  {
    var v := Step(u, Cancel);
    StepInv(u, Cancel);
    SameRemotes(u.session, v.session);
    assert IsQuiet(v) by { hide Inv, MayTakeEffect, StopLast; }
    hide Inv, Step;
    QuietForGood(v, events);
    var t := Life(v, events).session;
    if i :| 0 <= i < |t.remotes| && t.remotes[i].server == Completed {
      assert CanComplete(t.remotes[i]);
    }
  }

  /** What the server has left to do to complete session `at`. */
  function RestOf(server: Server, at: nat): seq<Event> {
    match server
    case Open(allStored) =>
      (if allStored then [] else [ServerStores(at)]) + [ServerAssembles(at), ServerCompletes(at)]
    case Assembled => [ServerCompletes(at)]
    case _ => []
  }

  /** Each of the server's steps takes an unanswered session further. */
  lemma ServerMoves(u: Upload, at: nat)
    requires at < |u.session.remotes| && u.session.remotes[at].unanswered > 0
    ensures u.session.remotes[at].server == Open(false) ==>
      Step(u, ServerStores(at)).session.remotes == u.session.remotes[at := u.session.remotes[at].(server := Open(true))]
    ensures u.session.remotes[at].server == Open(true) ==>
      Step(u, ServerAssembles(at)).session.remotes == u.session.remotes[at := u.session.remotes[at].(server := Assembled)]
    ensures u.session.remotes[at].server == Assembled ==>
      Step(u, ServerCompletes(at)).session.remotes == u.session.remotes[at := u.session.remotes[at].(server := Completed)]
  {
    hide StepGoOn, StepStart, StepPause, StepResume, StepCancel, StepOnline, StepOffline;
  }

  lemma {:induction false} CarriedOut(u: Upload, at: nat)
    requires at < |u.session.remotes| && CanComplete(u.session.remotes[at])
    ensures AnyCompleted(Life(u, RestOf(u.session.remotes[at].server, at)).session)
    decreases |RestOf(u.session.remotes[at].server, at)|
  {
    var rest := RestOf(u.session.remotes[at].server, at);
    if rest == [] {
      assert u.session.remotes[at].server == Completed;
    } else {
      ServerMoves(u, at);
      var v := Step(u, rest[0]);
      assert rest[1..] == RestOf(v.session.remotes[at].server, at);
      hide Life, Step;
      CarriedOut(v, at);
      LifeAppend(u, [rest[0]], rest[1..]);
      LifeOfOne(u, rest[0]);
      assert [rest[0]] + rest[1..] == rest;
    }
  }

  /** After a cancel that takes effect the upload can still be attached if and only if a complete may take effect. */
  lemma CancelledIsAttachedExactly(u: Upload)
    requires Inv(u) && u.promise.started && Step(u, Cancel) != u
    ensures (exists events: seq<Event> :: AnyCompleted(Life(Step(u, Cancel), events).session)) <==> MayTakeEffect(u.session)
  {
    var v := Step(u, Cancel);
    OthersKeepSession(u, Cancel);
    hide Inv, Step, CanComplete, AnyCompleted;
    if i :| 0 <= i < |u.session.remotes| && CanComplete(u.session.remotes[i]) {
      CarriedOut(v, i);
      assert AnyCompleted(Life(v, RestOf(v.session.remotes[i].server, i)).session);
    } else {
      forall events: seq<Event> ensures !AnyCompleted(Life(v, events).session) {
        CancelledIsNeverAttached(u, events);
      }
    }
  }

  // ---- Where the promises end -----------------------------------------------

  lemma LifeOfOne(u: Upload, e: Event)
    ensures Life(u, [e]) == Step(u, e)
  {
    assert [e][..0] == [];
  }

  lemma {:induction false} LifeAppend(u: Upload, first: seq<Event>, second: seq<Event>)
    ensures Life(u, first + second) == Life(Life(u, first), second)
    decreases |second|
  {
    hide Step;
    if second == [] {
      assert first + second == first;
    } else {
      var n := |second| - 1;
      LifeAppend(u, first, second[..n]);
      assert (first + second)[..|first + second| - 1] == first + second[..n];
    }
  }

  lemma LifeOfFour(u: Upload, a: Event, b: Event, c: Event, d: Event)
    ensures Life(u, [a, b, c, d]) == Step(Step(Step(Step(u, a), b), c), d)
  {
    hide Step;
    var one, two, three, four := [a], [a, b], [a, b, c], [a, b, c, d];
    assert one[..0] == [] && two[..1] == one && three[..2] == two && four[..3] == three;
    assert Life(u, one) == Step(Life(u, []), a);
    assert Life(u, two) == Step(Life(u, one), b);
    assert Life(u, three) == Step(Life(u, two), c);
  }

  const UNTIL_STORED: seq<Event> := [Start, GoOn(0, Ready(None)), GoOn(0, Created), ServerStores(0)]
  const COMPLETE_LOST: seq<Event> := [GoOn(0, Stored), ServerAssembles(0), GoOn(0, NoNetwork), ComeOnline]
  const TOLD_GONE: seq<Event> := [GoOn(1, Ready(None)), GoOn(1, Told(false)), Cancel, ServerCompletes(0)]

  /**
   The connection drops while the server finishes the upload. Back on line the
   client is told that the session is gone, cancel is accepted, and the server
   completes the session after all.
   */
  lemma LostCompleteOutlivesCancel()
    ensures var u := Life(Fresh(true, true, true), UNTIL_STORED + COMPLETE_LOST + TOLD_GONE);
      u.promise.cancelled && u.promise.phase == Failed && u.promise.settlements == 1 && AnyCompleted(u.session)
  {
    var untouched := Fresh(true, true, true);
    LifeAppend(untouched, UNTIL_STORED + COMPLETE_LOST, TOLD_GONE);
    LifeAppend(untouched, UNTIL_STORED, COMPLETE_LOST);
    UntilStored();
    CompleteLost();
    ToldGone();
    hide Life, Step;
  }

  function Uploaded(phase: Phase, runs: seq<Run>, session: Session): Upload {
    Upload(true, true, true, Promise(phase, true, true, 0, false, true, phase == Paused), runs, session)
  }

  const STORED: Session := Session(true, false, 0, [Remote(Open(true), 0)])
  const SENT: Session := Session(true, true, 1, [Remote(Open(true), 1)])
  const ASSEMBLED: Session := Session(true, true, 1, [Remote(Assembled, 1)])
  const LET_GO: Session := Session(true, true, 0, [Remote(Assembled, 1)])
  const DROPPED: Session := Session(false, false, 0, [Remote(Assembled, 1)])

  lemma UntilStored()
    ensures Life(Fresh(true, true, true), UNTIL_STORED) == Uploaded(Uploading, [Run(false, AtParts, 0)], STORED)
  {
    hide AfterFailure, AfterStatus, AfterRecheck, AfterParts, AfterComplete, StepPause, StepResume, StepCancel, StepOnline, StepOffline;
    LifeOfFour(Fresh(true, true, true), Start, GoOn(0, Ready(None)), GoOn(0, Created), ServerStores(0));
    hide Life;
    var started := Step(Fresh(true, true, true), Start);
    assert started.runs == [Run(false, AtStart, 0)];
    var ready := Step(started, GoOn(0, Ready(None)));
    assert ready.runs == [Run(false, AtCreate, 0)] && ready.session == Session(false, false, 0, []);
    var created := Step(ready, GoOn(0, Created));
    assert created.runs == [Run(false, AtParts, 0)] && created.session == Session(true, false, 0, [Remote(Open(false), 0)]);
  }

  lemma CompleteSent()
    ensures Step(Uploaded(Uploading, [Run(false, AtParts, 0)], STORED), GoOn(0, Stored))
         == Uploaded(Finalizing, [Run(false, AtComplete, 0)], SENT)
    ensures Step(Uploaded(Finalizing, [Run(false, AtComplete, 0)], SENT), ServerAssembles(0))
         == Uploaded(Finalizing, [Run(false, AtComplete, 0)], ASSEMBLED)
  {
    hide AfterFailure, AfterStart, AfterCreate, AfterStatus, AfterRecheck, AfterComplete;
    hide StepStart, StepPause, StepResume, StepCancel, StepOnline, StepOffline;
  }

  lemma ConnectionDrops()
    ensures Step(Uploaded(Finalizing, [Run(false, AtComplete, 0)], ASSEMBLED), GoOn(0, NoNetwork))
         == Uploaded(Paused, [Run(true, Over, 0)], LET_GO)
  {
    hide AfterStart, AfterCreate, AfterStatus, AfterRecheck, AfterParts, AfterComplete, ServerStep;
    hide StepStart, StepPause, StepResume, StepCancel, StepOnline, StepOffline;
  }

  lemma BackOnline()
    ensures Step(Uploaded(Paused, [Run(true, Over, 0)], LET_GO), ComeOnline)
         == Uploaded(Preparing, [Run(true, Over, 0), Run(false, AtStart, 0)], LET_GO)
  {
    hide StepStart, StepPause, StepCancel, StepGoOn, StepOffline, ServerStep;
  }

  lemma CompleteLost()
    ensures Life(Uploaded(Uploading, [Run(false, AtParts, 0)], STORED), COMPLETE_LOST)
         == Uploaded(Preparing, [Run(true, Over, 0), Run(false, AtStart, 0)], LET_GO)
  {
    hide Life, Step;
    LifeOfFour(Uploaded(Uploading, [Run(false, AtParts, 0)], STORED), GoOn(0, Stored), ServerAssembles(0), GoOn(0, NoNetwork), ComeOnline);
    CompleteSent();
    ConnectionDrops();
    BackOnline();
  }

  lemma AsksAgain()
    ensures Step(Uploaded(Preparing, [Run(true, Over, 0), Run(false, AtStart, 0)], LET_GO), GoOn(1, Ready(None)))
         == Uploaded(Preparing, [Run(true, Over, 0), Run(false, AtStatus, 0)], LET_GO)
    ensures Step(Uploaded(Preparing, [Run(true, Over, 0), Run(false, AtStatus, 0)], LET_GO), GoOn(1, Told(false)))
         == Uploaded(Preparing, [Run(true, Over, 0), Run(false, AtCreate, 0)], DROPPED)
  {
    hide AfterFailure, AfterCreate, AfterRecheck, AfterParts, AfterComplete, ServerStep;
    hide StepStart, StepPause, StepResume, StepCancel, StepOnline, StepOffline;
  }

  lemma CancelledThenCompleted()
    ensures var cancelled := Step(Uploaded(Preparing, [Run(true, Over, 0), Run(false, AtCreate, 0)], DROPPED), Cancel);
      var completed := Step(cancelled, ServerCompletes(0));
      && cancelled.promise == completed.promise == Promise(Failed, true, false, 1, true, false, false)
      && completed.session.remotes == [Remote(Completed, 1)]
  {
    hide StepStart, StepPause, StepResume, StepGoOn, StepOnline, StepOffline;
  }

  lemma ToldGone()
    ensures var u := Life(Uploaded(Preparing, [Run(true, Over, 0), Run(false, AtStart, 0)], LET_GO), TOLD_GONE);
      u.promise.cancelled && u.promise.phase == Failed && u.promise.settlements == 1 && AnyCompleted(u.session)
  {
    hide Life, Step;
    LifeOfFour(Uploaded(Preparing, [Run(true, Over, 0), Run(false, AtStart, 0)], LET_GO),
               GoOn(1, Ready(None)), GoOn(1, Told(false)), Cancel, ServerCompletes(0));
    AsksAgain();
    CancelledThenCompleted();
    assert [Remote(Completed, 1)][0].server == Completed;
  }

  /** A session that was complete when it was taken up again can be cancelled before its status is known. */
  lemma AdoptedSessionIsCancelled()
    ensures var u := Life(Fresh(true, true, true), [Start, GoOn(0, Ready(Some(Remote(Completed, 0))))]);
      AnyCompleted(u.session) && Step(u, Cancel) != u
  {
    var untouched := Fresh(true, true, true);
    var taken := GoOn(0, Ready(Some(Remote(Completed, 0))));
    LifeAppend(untouched, [Start], [taken]);
    LifeOfOne(untouched, Start);
    LifeOfOne(Step(untouched, Start), taken);
    assert [Start] + [taken] == [Start, taken];
    hide Life;
    assert Step(Step(untouched, Start), taken).session.remotes[0].server == Completed;
  }

  lemma CancelledThenStarted()
    ensures Step(Step(Fresh(false, true, true), Cancel), Start)
         == Upload(false, true, true, Promise(Preparing, true, true, 0, true, true, false), [Run(false, AtStart, 0)], Session(false, false, 0, []))
  {
    hide StepPause, StepResume, StepGoOn, StepOnline, StepOffline, ServerStep;
    var cancelled := Step(Fresh(false, true, true), Cancel);
    assert cancelled.runs == [] && cancelled.promise == Promise(Failed, false, false, 0, true, false, false);
  }

  lemma StartedThenStored(u: Upload)
    requires !u.multipart && u.promise.started && u.promise.unsettled && u.promise.settlements == 0 && u.runs == [Run(false, AtStart, 0)]
    ensures var v := Step(Step(u, GoOn(0, Ready(None))), GoOn(0, Stored));
      v.promise.cancelled == u.promise.cancelled && v.promise.phase == Done && v.promise.settlements == 1
  {
    hide AfterFailure, AfterCreate, AfterStatus, AfterRecheck, AfterComplete;
    hide StepStart, StepPause, StepResume, StepCancel, StepOnline, StepOffline, ServerStep;
    assert Step(u, GoOn(0, Ready(None))).runs == [Run(false, AtParts, 0)];
  }

  /** Cancelling before the start does not stop a start: the upload is cancelled, and then done. */
  lemma CancelBeforeStartIsForgotten()
    ensures var u := Life(Fresh(false, true, true), [Cancel, Start, GoOn(0, Ready(None)), GoOn(0, Stored)]);
      u.promise.cancelled && u.promise.phase == Done && u.promise.settlements == 1
  {
    hide Life, Step;
    LifeOfFour(Fresh(false, true, true), Cancel, Start, GoOn(0, Ready(None)), GoOn(0, Stored));
    CancelledThenStarted();
    StartedThenStored(Step(Step(Fresh(false, true, true), Cancel), Start));
  }

  // ---- Pausing --------------------------------------------------------------

  /** A paused upload hears nothing from its runs, all of which were stopped. */
  lemma PausedGoesOn(u: Upload, r: nat, news: News)
    requires Inv(u) && u.promise.phase == Paused
    ensures StepGoOn(u, r, news).promise == u.promise
  {
    hide CountInFlight, SessionOk, PromiseOk, RetriesOk, Next, StoppedNext, StopLast;
  }

  lemma PausedStays(u: Upload, e: Event)
    requires Inv(u) && u.promise.started && u.promise.phase == Paused && e !in {Resume, Cancel}
    requires u.promise.autoResume ==> e != ComeOnline
    ensures Step(u, e).promise == u.promise
  {
    hide Inv, StepGoOn, StopLast, Drive, ServerStep;
    if e.GoOn? { PausedGoesOn(u, e.run, e.news); }
  }

  /** Nobody resumes or cancels; and the browser stays off line where that would resume. */
  predicate LeavesPaused(events: seq<Event>, autoResume: bool) {
    Resume !in events && Cancel !in events && (autoResume ==> ComeOnline !in events)
  }

  lemma {:induction false} PausedForLong(u: Upload, events: seq<Event>)
    requires Inv(u) && u.promise.started && u.promise.phase == Paused && LeavesPaused(events, u.promise.autoResume)
    ensures Life(u, events).promise == u.promise
  {
    hide Inv, Step;
    if events != [] {
      var front := events[..|events| - 1];
      assert events == front + [events[|events| - 1]];
      PausedForLong(u, front);
      LifeInv(u, front);
      PausedStays(Life(u, front), events[|events| - 1]);
    }
  }

  /** An upload paused by hand stays paused, on line or off, until somebody resumes or cancels it. */
  lemma HandPauseStays(u: Upload, events: seq<Event>)
    requires Inv(u) && u.promise.started && u.promise.phase in {Preparing, Uploading}
    requires Resume !in events && Cancel !in events
    ensures Life(Step(u, Pause), events).promise.phase == Paused
  {
    StepInv(u, Pause);
    PausedForLong(Step(u, Pause), events);
    hide Life, Inv, StopLast;
  }

  /** An upload that went off line goes on as soon as the browser is back, whatever else happened meanwhile. */
  lemma OfflinePauseEnds(u: Upload, events: seq<Event>)
    requires Inv(u) && u.promise.listening && u.valid && u.promise.phase in {Preparing, Uploading, Finalizing}
    requires LeavesPaused(events, true)
    ensures Life(Step(u, GoOffline), events).promise.phase == Paused
    ensures Step(Life(Step(u, GoOffline), events), ComeOnline).promise.phase == Preparing
  {
    var paused := Step(u, GoOffline);
    StepInv(u, GoOffline);
    ListeningIsOpen(u);
    PausedForLong(paused, events);
    KeepsFile(paused, events);
    hide Life, Inv, StopLast;
  }

  lemma ListeningIsOpen(u: Upload)
    requires Inv(u) && u.promise.listening
    ensures u.promise.started && u.promise.unsettled
  {
    hide RunsOk, RetriesOk, CountInFlight, SessionOk;
  }

  lemma {:induction false} KeepsFile(u: Upload, events: seq<Event>)
    ensures Life(u, events).valid == u.valid
  {
    if events != [] {
      KeepsFile(u, events[..|events| - 1]);
      hide Life, Next, StoppedNext, StopLast, ServerStep;
    }
  }
}
