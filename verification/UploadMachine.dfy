/**
 The life of one resumable upload: start, pause, resume, cancel, going on and
 off line, and every run of the pipeline, each going on whenever what it waits
 for arrives. Steps run to completion, as the browser's do.

 The server is part of the model as far as it matters: the sessions this upload
 has worked on, how far each has come, and how many complete requests were sent
 for it without an answer. Such a request may be carried out at any later time,
 whether or not the browser still waits for it.
 */
module UploadMachine {
  import opened Options

  datatype Phase = Preparing | Uploading | Paused | Finalizing | Done | Failed

  /** What a run waits for. */
  datatype Stage = AtStart | AtCreate | AtStatus | AtRecheck | AtParts | AtComplete | AtRetry | Over

  /** A run: whether its token was stopped, where it is, and the session its complete requests are for. */
  datatype Run = Run(stopped: bool, stage: Stage, target: nat)

  /** Assembled: the storage has put the file together, but the session is not marked completed yet. */
  datatype Server = Open(allStored: bool) | Assembled | Completed | Gone

  /** A session on the server, and the complete requests sent for it that were never answered. */
  datatype Remote = Remote(server: Server, unanswered: nat)

  /** What the caller of `start` holds, and what the browser may still do to the upload. */
  datatype Promise = Promise(phase: Phase, started: bool, unsettled: bool, settlements: nat, cancelled: bool, listening: bool, autoResume: bool)

  /** What the client knows of its session, which is the last of `remotes` while `open`, and the sessions themselves. */
  datatype Session = Session(open: bool, completeSent: bool, inFlight: nat, remotes: seq<Remote>)

  datatype Upload = Upload(multipart: bool, valid: bool, online: bool, promise: Promise, runs: seq<Run>, session: Session)

  function Fresh(multipart: bool, valid: bool, online: bool): Upload {
    Upload(multipart, valid, online, Promise(Preparing, false, false, 0, false, false, false), [], Session(false, false, 0, []))
  }

  /** What a run hears when it goes on. */
  datatype News =
    | Ready(record: Option<Remote>)   // hashed or granted; a resume record names a session in some state
    | Created                         // a session was opened
    | Told(discarded: bool)           // the server's view; `discarded` when the record was removed elsewhere
    | Stored                          // every part, or the single body, is stored
    | NotFound(tryAgain: bool)        // the storage server has no such upload
    | Replied                         // complete was answered
    | Conflict(tryAgain: bool)        // complete was refused
    | Expired(tryAgain: bool, discarded: bool)
    | Lost                            // complete's answer never came
    | Again                           // the backoff is over
    | NoNetwork
    | GaveUp
    | Refused

  datatype Event =
    | Start | Pause | Resume | Cancel
    | ComeOnline | GoOffline
    | GoOn(run: nat, news: News)
    | ServerStores(at: nat) | ServerAssembles(at: nat) | ServerCompletes(at: nat) | ServerForgets(at: nat)

  // ---- Runs -----------------------------------------------------------------

  predicate Alive(r: Run) {
    !r.stopped && r.stage != Over
  }

  function StopLast(runs: seq<Run>): seq<Run> {
    if runs == [] then runs else runs[|runs| - 1 := runs[|runs| - 1].(stopped := true)]
  }

  function PausedPromise(p: Promise, autoResume: bool): Promise {
    p.(phase := Paused, autoResume := autoResume)
  }

  function EnterPaused(u: Upload, autoResume: bool): Upload {
    u.(runs := StopLast(u.runs), promise := PausedPromise(u.promise, autoResume))
  }

  function Settled(p: Promise, phase: Phase): Promise {
    p.(phase := phase, listening := false, unsettled := false, settlements := if p.unsettled then p.settlements + 1 else p.settlements)
  }

  /** A new run, up to the first thing it waits for. */
  function Drive(u: Upload): Upload {
    var p := u.promise.(autoResume := false);
    if !u.valid then u.(runs := u.runs + [Run(false, Over, 0)], promise := Settled(p, Failed))
    else if !u.online then u.(runs := u.runs + [Run(true, Over, 0)], promise := PausedPromise(p, true))
    else u.(runs := u.runs + [Run(false, AtStart, 0)], promise := p.(phase := Preparing))
  }

  // ---- What a run does next -------------------------------------------------

  /** Where a run goes, and what becomes of the promise and the session; `pause` when it pauses the upload. */
  datatype Outcome = Outcome(stage: Stage, promise: Promise, session: Session, pause: Option<bool>)

  function Goes(stage: Stage, p: Promise, s: Session): Outcome {
    Outcome(stage, p, s, None)
  }

  /** How far the client's session has come; one it does not have is gone. */
  function Seen(s: Session): Server {
    if s.open && s.remotes != [] then s.remotes[|s.remotes| - 1].server else Gone
  }

  function Latest(s: Session): nat {
    if s.remotes == [] then 0 else |s.remotes| - 1
  }

  function Asked(remotes: seq<Remote>, at: nat): seq<Remote> {
    if at >= |remotes| then remotes else remotes[at := remotes[at].(unanswered := remotes[at].unanswered + 1)]
  }

  function Answered(remotes: seq<Remote>, at: nat): seq<Remote> {
    if at >= |remotes| || remotes[at].unanswered == 0 then remotes
    else remotes[at := remotes[at].(unanswered := remotes[at].unanswered - 1)]
  }

  function CompleteOut(s: Session): Session {
    s.(inFlight := s.inFlight + 1, remotes := Asked(s.remotes, Latest(s)))
  }

  function SendsComplete(p: Promise, s: Session): Outcome {
    Goes(AtComplete, p.(phase := Finalizing), CompleteOut(s).(completeSent := true))
  }

  function Fails(p: Promise, s: Session): Outcome {
    Goes(Over, Settled(p, Failed), s)
  }

  function Finishes(p: Promise, s: Session): Outcome {
    Goes(Over, Settled(p, Done), s)
  }

  function Sends(p: Promise, s: Session): Outcome {
    Goes(AtParts, p.(phase := Uploading), s)
  }

  /** The browser stops waiting for a complete request, answered or not. */
  function LetGo(s: Session): Session {
    s.(inFlight := if s.inFlight > 0 then s.inFlight - 1 else 0)
  }

  function ReplyIn(s: Session, at: nat): Session {
    LetGo(s).(remotes := Answered(s.remotes, at))
  }

  predicate IsAnswer(news: News) {
    news.Replied? || news.Conflict? || news.Expired? || news.Refused?
  }

  function CompleteEnds(s: Session, at: nat, news: News): Session {
    if IsAnswer(news) then ReplyIn(s, at) else LetGo(s)
  }

  /** The flag that keeps cancel away falls unless the browser itself still waits for a complete. */
  function Unflagged(s: Session): Session {
    s.(completeSent := s.completeSent && s.inFlight > 0)
  }

  function DropSession(s: Session): Session {
    Unflagged(s).(open := false)
  }

  function AfterLoss(p: Promise, s: Session, discarded: bool): Outcome {
    if discarded then Fails(p, s.(open := false)) else Goes(AtCreate, p, DropSession(s))
  }

  function TakesUp(s: Session, remote: Remote): Session {
    s.(open := true, remotes := s.remotes + [remote])
  }

  function NewSession(s: Session): Session {
    TakesUp(s, Remote(Open(false), 0))
  }

  function AfterStart(multipart: bool, p: Promise, s: Session, record: Option<Remote>): Outcome {
    if !multipart then Sends(p, s)
    else if s.open then Goes(AtStatus, p, s)
    else match record
      case Some(remote) => Goes(AtStatus, p, TakesUp(s, remote))
      case None => Goes(AtCreate, p, s)
  }

  /** A session made for a cancelled upload is deleted again, and the run asks once more. */
  function AfterCreate(p: Promise, s: Session): Outcome {
    if s.open then Sends(p, s) else if p.cancelled then Goes(AtCreate, p, s) else Sends(p, NewSession(s))
  }

  function AfterStatus(p: Promise, s: Session, discarded: bool): Outcome {
    match Seen(s)
    case Completed => SendsComplete(p, s)
    case Open(allStored) => Sends(p, if allStored then s else Unflagged(s))
    case _ => AfterLoss(p, s, discarded)
  }

  /** After a refused complete: parts missing, a conflict to report, or a session to ask for once more. */
  function AfterRecheck(p: Promise, s: Session): Outcome {
    match Seen(s)
    case Open(allStored) => if allStored then Fails(p, s) else Sends(p, Unflagged(s))
    case Completed => Fails(p, s)
    case _ => Goes(AtStatus, p, s)
  }

  function AfterParts(multipart: bool, p: Promise, s: Session, news: News): Outcome {
    match news
    case Stored => if multipart then SendsComplete(p, s) else Finishes(p, s)
    case NotFound(tryAgain) => if multipart && tryAgain then Goes(AtStatus, p, s) else Fails(p, s)
    case _ => Goes(AtParts, p, s)
  }

  function AfterComplete(p: Promise, s: Session, news: News): Outcome {
    match news
    case Replied => if Seen(s) == Completed then Finishes(p, ReplyIn(s, Latest(s))) else Goes(AtComplete, p, s)
    case Lost => Goes(AtRetry, p, LetGo(s))
    case Conflict(tryAgain) => if tryAgain then Goes(AtRecheck, p, ReplyIn(s, Latest(s))) else Fails(p, ReplyIn(s, Latest(s)))
    case Expired(tryAgain, discarded) =>
      if Seen(s) !in {Assembled, Gone} then Goes(AtComplete, p, s)
      else if tryAgain then AfterLoss(p, ReplyIn(s, Latest(s)), discarded)
      else Fails(p, ReplyIn(s, Latest(s)))
    case _ => Goes(AtComplete, p, s)
  }

  predicate IsFailure(news: News) {
    news.NoNetwork? || news.GaveUp? || news.Refused?
  }

  /** Off line and out of retries pause (a single upload has nothing to resume), anything else fails. */
  function AfterFailure(multipart: bool, stage: Stage, p: Promise, s: Session, news: News): Outcome {
    var t := if stage == AtComplete then CompleteEnds(s, Latest(s), news) else s;
    match news
    case NoNetwork => Outcome(Over, PausedPromise(p, true), t, Some(true))
    case GaveUp => if multipart then Outcome(Over, PausedPromise(p, false), t, Some(false)) else Fails(p, t)
    case _ => Fails(p, t)
  }

  /** An alive run goes on; news it does not wait for changes nothing. */
  function Next(multipart: bool, stage: Stage, p: Promise, s: Session, news: News): Outcome {
    if IsFailure(news) then AfterFailure(multipart, stage, p, s, news)
    else match stage
      case AtStart => if news.Ready? then AfterStart(multipart, p, s, news.record) else Goes(stage, p, s)
      case AtCreate => if news.Created? then AfterCreate(p, s) else Goes(stage, p, s)
      case AtStatus => if news.Told? then AfterStatus(p, s, news.discarded) else Goes(stage, p, s)
      case AtRecheck => if news.Told? then AfterRecheck(p, s) else Goes(stage, p, s)
      case AtParts => AfterParts(multipart, p, s, news)
      case AtComplete => AfterComplete(p, s, news)
      case AtRetry => if news.Again? then Goes(AtComplete, p, CompleteOut(s)) else Goes(stage, p, s)
      case Over => Goes(stage, p, s)
  }

  /** A stopped run: nothing but what its pending request still does on its own. */
  function StoppedNext(run: Run, cancelled: bool, s: Session, news: News): Session {
    if run.stage == AtComplete then CompleteEnds(s, run.target, news)
    else if run.stage == AtCreate && news.Created? && !cancelled && !s.open then NewSession(s)
    else s
  }

  function Moved(run: Run, o: Outcome): Run {
    run.(stage := o.stage, target := if o.stage == AtComplete then Latest(o.session) else run.target)
  }

  function StepGoOn(u: Upload, r: nat, news: News): Upload {
    if r >= |u.runs| || u.runs[r].stage == Over then u
    else if u.runs[r].stopped then
      u.(runs := u.runs[r := u.runs[r].(stage := Over)], session := StoppedNext(u.runs[r], u.promise.cancelled, u.session, news))
    else
      var o := Next(u.multipart, u.runs[r].stage, u.promise, u.session, news);
      var runs := u.runs[r := Moved(u.runs[r], o)];
      u.(runs := if o.pause.Some? then StopLast(runs) else runs, promise := o.promise, session := o.session)
  }

  // ---- Callers and the browser ----------------------------------------------

  function StepStart(u: Upload): Upload {
    if u.promise.started then u else Drive(u.(promise := u.promise.(started := true, unsettled := true, listening := true)))
  }

  function StepPause(u: Upload): Upload {
    if u.promise.phase in {Preparing, Uploading} then EnterPaused(u, false) else u
  }

  function StepResume(u: Upload): Upload {
    if u.promise.phase == Paused && u.promise.unsettled then Drive(u) else u
  }

  function StepCancel(u: Upload): Upload {
    if u.promise.phase == Done || u.promise.cancelled || u.session.completeSent then u
    else u.(runs := StopLast(u.runs), promise := Settled(u.promise.(cancelled := true), Failed), session := u.session.(open := false))
  }

  function StepOnline(u: Upload): Upload {
    var v := u.(online := true);
    if v.promise.listening && v.promise.phase == Paused && v.promise.autoResume then StepResume(v) else v
  }

  function StepOffline(u: Upload): Upload {
    var v := u.(online := false);
    if v.promise.listening && v.promise.phase in {Preparing, Uploading, Finalizing} then EnterPaused(v, true) else v
  }

  /** What the server does on its own: it carries out, in two steps, any complete that was not answered. */
  function RemoteStep(r: Remote, e: Event): Remote {
    match e
    case ServerStores(_) => if r.server == Open(false) then r.(server := Open(true)) else r
    case ServerAssembles(_) => if r.server == Open(true) && r.unanswered > 0 then r.(server := Assembled) else r
    case ServerCompletes(_) => if r.server == Assembled && r.unanswered > 0 then r.(server := Completed) else r
    case ServerForgets(_) => if r.server.Open? then r.(server := Gone) else r
    case _ => r
  }

  function ServerStep(s: Session, e: Event): Session {
    match e
    case ServerStores(i) => RemoteMoves(s, i, e)
    case ServerAssembles(i) => RemoteMoves(s, i, e)
    case ServerCompletes(i) => RemoteMoves(s, i, e)
    case ServerForgets(i) => RemoteMoves(s, i, e)
    case _ => s
  }

  function RemoteMoves(s: Session, at: nat, e: Event): Session {
    if at >= |s.remotes| then s else s.(remotes := s.remotes[at := RemoteStep(s.remotes[at], e)])
  }

  function Step(u: Upload, e: Event): Upload {
    match e
    case Start => StepStart(u)
    case Pause => StepPause(u)
    case Resume => StepResume(u)
    case Cancel => StepCancel(u)
    case ComeOnline => StepOnline(u)
    case GoOffline => StepOffline(u)
    case GoOn(r, news) => StepGoOn(u, r, news)
    case _ => u.(session := ServerStep(u.session, e))
  }

  function Life(u: Upload, events: seq<Event>): Upload {
    if events == [] then u else Step(Life(u, events[..|events| - 1]), events[|events| - 1])
  }

  // ---- What every step keeps ------------------------------------------------

  function CountInFlight(runs: seq<Run>): nat {
    if runs == [] then 0 else CountInFlight(runs[..|runs| - 1]) + if runs[|runs| - 1].stage == AtComplete then 1 else 0
  }

  /** Only the last run can be alive, and it is not while paused or when everything is over. */
  ghost predicate RunsOk(runs: seq<Run>, phase: Phase, started: bool) {
    && (forall i :: 0 <= i < |runs| - 1 ==> runs[i].stopped)
    && (phase in {Paused, Done, Failed} ==> forall i :: 0 <= i < |runs| ==> !Alive(runs[i]))
    && (phase == Paused ==> forall i :: 0 <= i < |runs| ==> runs[i].stopped)
    && (!started ==> runs == [])
  }

  /** A run that will send complete again has said that it did. */
  ghost predicate RetriesOk(runs: seq<Run>, completeSent: bool) {
    forall i :: 0 <= i < |runs| && Alive(runs[i]) && runs[i].stage == AtRetry ==> completeSent
  }

  /** The promise is open from the start until the upload is done or has failed, and settles once. */
  predicate PromiseOk(p: Promise) {
    && (p.unsettled <==> p.started && p.phase !in {Done, Failed})
    && p.settlements == (if p.started && !p.unsettled then 1 else 0)
    && (!p.started ==> p.phase in {Preparing, Paused, Failed} && !p.listening)
    && (p.listening ==> p.phase !in {Done, Failed})
    && (p.cancelled && !p.started ==> p.phase == Failed)
  }

  /** While the browser waits for a complete, `completeSent` says so. */
  predicate SessionOk(s: Session) {
    s.inFlight > 0 ==> s.completeSent
  }

  ghost predicate Inv(u: Upload) {
    && RunsOk(u.runs, u.promise.phase, u.promise.started) && RetriesOk(u.runs, u.session.completeSent)
    && PromiseOk(u.promise) && SessionOk(u.session)
    && u.session.inFlight == CountInFlight(u.runs)
  }

  lemma FreshInv(multipart: bool, valid: bool, online: bool)
    ensures Inv(Fresh(multipart, valid, online))
  {
  }

  // ---- Runs -----------------------------------------------------------------

  lemma {:induction false} CountChanged(runs: seq<Run>, r: nat, run: Run)
    requires r < |runs|
    ensures CountInFlight(runs[r := run]) + (if runs[r].stage == AtComplete then 1 else 0)
         == CountInFlight(runs) + (if run.stage == AtComplete then 1 else 0)
  {
    var last := |runs| - 1;
    if r == last {
      assert runs[r := run][..last] == runs[..last];
    } else {
      CountChanged(runs[..last], r, run);
      assert runs[r := run][..last] == runs[..last][r := run];
    }
  }

  lemma {:induction false} InFlightCounts(runs: seq<Run>, r: nat)
    requires r < |runs| && runs[r].stage == AtComplete
    ensures CountInFlight(runs) > 0
  {
    if r < |runs| - 1 { InFlightCounts(runs[..|runs| - 1], r); }
  }

  /** An alive run moves, with the phase and the flag it leaves. */
  lemma MovedRuns(runs: seq<Run>, phase: Phase, completeSent: bool, r: nat, run: Run, after: Phase, sent: bool)
    requires RunsOk(runs, phase, true) && r < |runs| && Alive(runs[r])
    requires after in {Done, Failed} ==> run.stage == Over
    requires after != Paused && (run.stage == AtRetry ==> sent)
    ensures RunsOk(runs[r := run], after, true) && RetriesOk(runs[r := run], sent)
  {
    var moved := runs[r := run];
    assert r == |runs| - 1;
    forall i | 0 <= i < |moved| && i != r ensures moved[i] == runs[i] {
    }
  }

  /** A stopped run comes to its end. */
  lemma EndedRuns(runs: seq<Run>, phase: Phase, started: bool, completeSent: bool, r: nat)
    requires RunsOk(runs, phase, started) && RetriesOk(runs, completeSent) && r < |runs| && runs[r].stopped
    ensures RunsOk(runs[r := runs[r].(stage := Over)], phase, started) && RetriesOk(runs[r := runs[r].(stage := Over)], completeSent)
  {
  }

  /** Stopping the last run leaves none alive. */
  lemma StoppedRuns(runs: seq<Run>, phase: Phase, started: bool, sent: bool)
    requires RunsOk(runs, phase, started)
    ensures RunsOk(StopLast(runs), Paused, started) && RunsOk(StopLast(runs), Failed, started) && RetriesOk(StopLast(runs), sent)
    ensures CountInFlight(StopLast(runs)) == CountInFlight(runs)
  {
    if runs != [] { CountChanged(runs, |runs| - 1, runs[|runs| - 1].(stopped := true)); }
    hide CountInFlight;
  }

  lemma AppendedRuns(runs: seq<Run>, run: Run, phase: Phase, sent: bool)
    requires RunsOk(runs, Paused, true)
    requires run.stage in {AtStart, Over}
    requires phase in {Paused, Done, Failed} ==> run.stage == Over
    requires phase == Paused ==> run.stopped
    ensures RunsOk(runs + [run], phase, true) && RetriesOk(runs + [run], sent)
    ensures CountInFlight(runs + [run]) == CountInFlight(runs)
  {
    assert (runs + [run])[..|runs + [run]| - 1] == runs;
    forall i | 0 <= i < |runs| ensures (runs + [run])[i] == runs[i] {
    }
  }

  // ---- Callers and the browser keep it --------------------------------------

  lemma PausedInv(u: Upload, autoResume: bool)
    requires Inv(u) && u.promise.phase !in {Done, Failed}
    ensures Inv(EnterPaused(u, autoResume))
  {
    hide RunsOk, RetriesOk, CountInFlight, StopLast;
    StoppedRuns(u.runs, u.promise.phase, u.promise.started, u.session.completeSent);
  }

  /** A drive from a state in which no run is alive. */
  lemma DriveInv(u: Upload)
    requires RunsOk(u.runs, Paused, true) && u.promise.started && u.promise.unsettled && u.promise.settlements == 0
    requires u.session.inFlight == CountInFlight(u.runs) && SessionOk(u.session)
    ensures Inv(Drive(u))
  {
    hide RunsOk, RetriesOk, CountInFlight, SessionOk;
    if !u.valid {
      AppendedRuns(u.runs, Run(false, Over, 0), Failed, u.session.completeSent);
    } else if !u.online {
      AppendedRuns(u.runs, Run(true, Over, 0), Paused, u.session.completeSent);
    } else {
      AppendedRuns(u.runs, Run(false, AtStart, 0), Preparing, u.session.completeSent);
    }
  }

  lemma StartInv(u: Upload)
    requires Inv(u)
    ensures Inv(StepStart(u))
  {
    if !u.promise.started {
      assert RunsOk(u.runs, Paused, true);
      hide RunsOk, RetriesOk, CountInFlight, SessionOk, Drive;
      DriveInv(u.(promise := u.promise.(started := true, unsettled := true, listening := true)));
    }
  }

  lemma ResumeInv(u: Upload)
    requires Inv(u)
    ensures Inv(StepResume(u))
  {
    hide RetriesOk, CountInFlight, SessionOk, Drive;
    if u.promise.phase == Paused && u.promise.unsettled {
      DriveInv(u);
    }
  }

  lemma CancelInv(u: Upload)
    requires Inv(u)
    ensures Inv(StepCancel(u))
  {
    hide RunsOk, RetriesOk, CountInFlight, StopLast;
    StoppedRuns(u.runs, u.promise.phase, u.promise.started, u.session.completeSent);
  }

  lemma NetworkInv(u: Upload, online: bool)
    requires Inv(u)
    ensures Inv(u.(online := online))
  {
    hide RunsOk, RetriesOk, CountInFlight, SessionOk, PromiseOk;
  }

  lemma BrowserInv(u: Upload)
    requires Inv(u)
    ensures Inv(StepOffline(u)) && Inv(StepOnline(u)) && Inv(StepPause(u))
  {
    hide Inv, EnterPaused, StepResume;
    NetworkInv(u, false);
    NetworkInv(u, true);
    if u.promise.phase !in {Done, Failed} {
      PausedInv(u, false);
      PausedInv(u.(online := false), true);
    }
    ResumeInv(u.(online := true));
  }

  // ---- A run going on keeps it ----------------------------------------------

  /** The promise and the session of an upload with an alive run at `stage`. */
  predicate Active(stage: Stage, p: Promise, s: Session) {
    && p.started && p.unsettled && p.phase !in {Paused, Done, Failed} && PromiseOk(p) && SessionOk(s)
    && (stage == AtRetry ==> s.completeSent) && (stage == AtComplete ==> s.inFlight > 0)
  }

  function Waiting(stage: Stage): int {
    if stage == AtComplete then 1 else 0
  }

  predicate GoodOutcome(stage: Stage, p: Promise, s: Session, o: Outcome) {
    && o.promise.started && PromiseOk(o.promise) && SessionOk(o.session)
    && o.session.inFlight == s.inFlight - Waiting(stage) + Waiting(o.stage)
    && (o.stage == AtRetry ==> o.session.completeSent)
    && (if o.pause.Some? then o.stage == Over && o.promise.phase == Paused
        else o.promise.phase != Paused && (o.promise.phase in {Done, Failed} ==> o.stage == Over))
  }

  lemma FailureIsGood(multipart: bool, stage: Stage, p: Promise, s: Session, news: News)
    requires Active(stage, p, s)
    ensures GoodOutcome(stage, p, s, AfterFailure(multipart, stage, p, s, news))
  {
  }

  lemma StartIsGood(multipart: bool, p: Promise, s: Session, record: Option<Remote>)
    requires Active(AtStart, p, s)
    ensures GoodOutcome(AtStart, p, s, AfterStart(multipart, p, s, record))
  {
  }

  lemma CreateIsGood(p: Promise, s: Session)
    requires Active(AtCreate, p, s)
    ensures GoodOutcome(AtCreate, p, s, AfterCreate(p, s))
  {
  }

  lemma LossIsGood(stage: Stage, p: Promise, s: Session, discarded: bool)
    requires stage == AtStatus && Active(stage, p, s)
    ensures GoodOutcome(stage, p, s, AfterLoss(p, s, discarded))
  {
  }

  lemma StatusIsGood(p: Promise, s: Session, discarded: bool)
    requires Active(AtStatus, p, s)
    ensures GoodOutcome(AtStatus, p, s, AfterStatus(p, s, discarded))
  {
    LossIsGood(AtStatus, p, s, discarded);
    hide AfterLoss;
  }

  lemma RecheckIsGood(p: Promise, s: Session)
    requires Active(AtRecheck, p, s)
    ensures GoodOutcome(AtRecheck, p, s, AfterRecheck(p, s))
  {
  }

  lemma PartsAreGood(multipart: bool, p: Promise, s: Session, news: News)
    requires Active(AtParts, p, s)
    ensures GoodOutcome(AtParts, p, s, AfterParts(multipart, p, s, news))
  {
  }

  lemma CompleteIsGood(p: Promise, s: Session, news: News)
    requires Active(AtComplete, p, s)
    ensures GoodOutcome(AtComplete, p, s, AfterComplete(p, s, news))
  {
  }

  /** Whatever an alive run hears, it leaves promise, session and count in order. */
  lemma NextIsGood(multipart: bool, stage: Stage, p: Promise, s: Session, news: News)
    requires Active(stage, p, s) && stage != Over
    ensures GoodOutcome(stage, p, s, Next(multipart, stage, p, s, news))
  {
    hide AfterFailure, AfterStart, AfterCreate, AfterStatus, AfterRecheck, AfterParts, AfterComplete;
    if IsFailure(news) {
      FailureIsGood(multipart, stage, p, s, news);
    } else {
      match stage
      case AtStart => if news.Ready? { StartIsGood(multipart, p, s, news.record); }
      case AtCreate => CreateIsGood(p, s);
      case AtStatus => if news.Told? { StatusIsGood(p, s, news.discarded); }
      case AtRecheck => RecheckIsGood(p, s);
      case AtParts => PartsAreGood(multipart, p, s, news);
      case AtComplete => CompleteIsGood(p, s, news);
      case AtRetry =>
    }
  }

  lemma StoppedNextIsGood(run: Run, cancelled: bool, s: Session, news: News)
    requires SessionOk(s) && (run.stage == AtComplete ==> s.inFlight > 0)
    ensures var t := StoppedNext(run, cancelled, s, news);
      SessionOk(t) && t.inFlight == s.inFlight - Waiting(run.stage) && t.completeSent == s.completeSent
  {
  }

  lemma AliveIsActive(u: Upload, r: nat)
    requires Inv(u) && r < |u.runs| && Alive(u.runs[r])
    ensures Active(u.runs[r].stage, u.promise, u.session) && r == |u.runs| - 1
  {
    hide CountInFlight, SessionOk;
    if u.runs[r].stage == AtComplete { InFlightCounts(u.runs, r); }
  }

  lemma GoOnInv(u: Upload, r: nat, news: News)
    requires Inv(u)
    ensures Inv(StepGoOn(u, r, news))
  {
    hide CountInFlight, RunsOk, RetriesOk, SessionOk, PromiseOk, Next, StoppedNext, StopLast;
    if r < |u.runs| && u.runs[r].stage != Over {
      if u.runs[r].stopped {
        StoppedRunInv(u, r, news);
      } else {
        AliveRunInv(u, r, news);
      }
    }
  }

  lemma StoppedRunInv(u: Upload, r: nat, news: News)
    requires Inv(u) && r < |u.runs| && u.runs[r].stage != Over && u.runs[r].stopped
    ensures Inv(StepGoOn(u, r, news))
  {
    hide CountInFlight, RunsOk, RetriesOk, SessionOk, PromiseOk, StoppedNext, Next;
    CountChanged(u.runs, r, u.runs[r].(stage := Over));
    EndedRuns(u.runs, u.promise.phase, u.promise.started, u.session.completeSent, r);
    if u.runs[r].stage == AtComplete { InFlightCounts(u.runs, r); }
    StoppedNextIsGood(u.runs[r], u.promise.cancelled, u.session, news);
  }

  lemma AliveRunInv(u: Upload, r: nat, news: News)
    requires Inv(u) && r < |u.runs| && Alive(u.runs[r])
    ensures Inv(StepGoOn(u, r, news))
  {
    hide CountInFlight, RunsOk, RetriesOk, SessionOk, PromiseOk, Next, StoppedNext, StopLast;
    AliveIsActive(u, r);
    NextIsGood(u.multipart, u.runs[r].stage, u.promise, u.session, news);
    var o := Next(u.multipart, u.runs[r].stage, u.promise, u.session, news);
    var moved := Moved(u.runs[r], o);
    CountChanged(u.runs, r, moved);
    if o.pause.Some? {
      MovedRuns(u.runs, u.promise.phase, u.session.completeSent, r, moved, Failed, o.session.completeSent);
      StoppedRuns(u.runs[r := moved], Failed, true, o.session.completeSent);
    } else {
      MovedRuns(u.runs, u.promise.phase, u.session.completeSent, r, moved, o.promise.phase, o.session.completeSent);
    }
  }

  lemma ServerInv(u: Upload, e: Event)
    requires Inv(u)
    ensures Inv(u.(session := ServerStep(u.session, e)))
  {
    hide CountInFlight, RunsOk, RetriesOk, PromiseOk;
  }

  /** Every step of every party keeps the invariant. */
  lemma StepInv(u: Upload, e: Event)
    requires Inv(u)
    ensures Inv(Step(u, e))
  {
    hide Inv, StepStart, StepPause, StepResume, StepCancel, StepOnline, StepOffline, StepGoOn, ServerStep;
    match e
    case Start => StartInv(u);
    case Resume => ResumeInv(u);
    case Cancel => CancelInv(u);
    case GoOn(r, news) => GoOnInv(u, r, news);
    case _ =>
      BrowserInv(u);
      ServerInv(u, e);
  }

  lemma {:induction false} LifeInv(u: Upload, events: seq<Event>)
    requires Inv(u)
    ensures Inv(Life(u, events))
  {
    hide Inv, Step;
    if events != [] {
      LifeInv(u, events[..|events| - 1]);
      StepInv(Life(u, events[..|events| - 1]), events[|events| - 1]);
    }
  }

  // ---- What callers can rely on ---------------------------------------------

  /** The promise settles at most once, and exactly when a started upload is done or has failed. */
  lemma SettlesOnce(multipart: bool, valid: bool, online: bool, events: seq<Event>)
    ensures var p := Life(Fresh(multipart, valid, online), events).promise;
      p.settlements <= 1 && (p.settlements == 1 <==> p.started && p.phase in {Done, Failed})
  {
    FreshInv(multipart, valid, online);
    LifeInv(Fresh(multipart, valid, online), events);
    hide Life, RunsOk, RetriesOk, SessionOk, CountInFlight;
  }

  /** Of all runs ever started, at most one has a token that was not stopped. */
  lemma OneLiveToken(multipart: bool, valid: bool, online: bool, events: seq<Event>)
    ensures var runs := Life(Fresh(multipart, valid, online), events).runs;
      forall i, j :: 0 <= i < |runs| && 0 <= j < |runs| && !runs[i].stopped && !runs[j].stopped ==> i == j
  {
    FreshInv(multipart, valid, online);
    LifeInv(Fresh(multipart, valid, online), events);
    hide Life, PromiseOk, RetriesOk, SessionOk, CountInFlight;
  }

  lemma GoOnWhenOver(u: Upload, r: nat, news: News)
    requires Inv(u) && u.promise.phase in {Done, Failed}
    ensures StepGoOn(u, r, news).promise == u.promise
  {
    hide CountInFlight, SessionOk, PromiseOk, Next, StoppedNext, StopLast;
    assert r < |u.runs| ==> !Alive(u.runs[r]);
  }

  /** Done and failed are final, except that an upload which failed before it was started can still be started. */
  lemma TerminalPhasesAreFinal(u: Upload, e: Event)
    requires Inv(u) && u.promise.phase in {Done, Failed}
    ensures Step(u, e).promise.phase != u.promise.phase <==> e == Start && !u.promise.started && u.valid
    ensures u.promise.started ==> Step(u, e).promise.settlements == u.promise.settlements
  {
    if e.GoOn? {
      GoOnWhenOver(u, e.run, e.news);
    }
    hide RunsOk, RetriesOk, CountInFlight, SessionOk, StopLast, StepGoOn;
  }

  /** Once a started upload is done or has failed, it stays so through everything that follows. */
  lemma {:induction false} OverForGood(u: Upload, events: seq<Event>)
    requires Inv(u) && u.promise.started && u.promise.phase in {Done, Failed}
    ensures Life(u, events).promise.phase == u.promise.phase && Life(u, events).promise.settlements == u.promise.settlements
    ensures Life(u, events).promise.started
  {
    hide Inv, Step;
    if events != [] {
      var front := events[..|events| - 1];
      OverForGood(u, front);
      LifeInv(u, front);
      TerminalPhasesAreFinal(Life(u, front), events[|events| - 1]);
      StartedStays(Life(u, front), events[|events| - 1]);
    }
  }

  lemma StartedStays(u: Upload, e: Event)
    requires u.promise.started && Inv(u)
    ensures Step(u, e).promise.started
  {
    StepGoOnKeepsStarted(u, if e.GoOn? then e.run else 0, if e.GoOn? then e.news else Refused);
    hide Inv, StepGoOn, StopLast;
  }

  lemma StepGoOnKeepsStarted(u: Upload, r: nat, news: News)
    requires u.promise.started && Inv(u)
    ensures StepGoOn(u, r, news).promise.started
  {
    hide CountInFlight, RunsOk, RetriesOk, SessionOk, StopLast, StoppedNext;
    if r < |u.runs| && Alive(u.runs[r]) {
      AliveIsActive(u, r);
      NextIsGood(u.multipart, u.runs[r].stage, u.promise, u.session, news);
      hide Next;
    }
  }

  // ---- The class ------------------------------------------------------------

  class ResumableUpload {
    const multipart: bool
    const valid: bool
    var online: bool
    var phase: Phase
    var started: bool
    var unsettled: bool
    var settlements: nat
    var cancelled: bool
    var listening: bool
    var autoResume: bool
    var runs: seq<Run>
    var session: Session

    function Snapshot(): Upload
      reads this
    {
      Upload(multipart, valid, online, Promise(phase, started, unsettled, settlements, cancelled, listening, autoResume), runs, session)
    }

    constructor (isMultipart: bool, isValid: bool, isOnline: bool)
      ensures Snapshot() == Fresh(isMultipart, isValid, isOnline)
    {
      multipart, valid, online := isMultipart, isValid, isOnline;
      phase, started, unsettled, settlements, cancelled := Preparing, false, false, 0, false;
      listening, autoResume := false, false;
      runs := [];
      session := Session(false, false, 0, []);
    }

    method StopToken()
      modifies this`runs
      ensures runs == StopLast(old(runs))
    {
      if runs != [] {
        runs := runs[|runs| - 1 := runs[|runs| - 1].(stopped := true)];
      }
    }

    /** Resolve or reject, if that has not happened yet. */
    method SettleAs(final: Phase)
      modifies this`phase, this`unsettled, this`settlements, this`listening
      ensures Snapshot() == old(Snapshot()).(promise := Settled(old(Snapshot()).promise, final))
    {
      listening := false;
      phase := final;
      if unsettled {
        unsettled := false;
        settlements := settlements + 1;
      }
    }

    method PauseFor(willResume: bool)
      modifies this`runs, this`phase, this`autoResume
      ensures Snapshot() == EnterPaused(old(Snapshot()), willResume)
    {
      StopToken();
      autoResume := willResume;
      phase := Paused;
    }

    /** Starts a run; it gets as far as its first await, unless the file or the network stops it at once. */
    method DriveOn()
      modifies this
      ensures Snapshot() == Drive(old(Snapshot()))
    {
      runs := runs + [Run(false, AtStart, 0)];
      autoResume := false;
      if !valid {
        runs := runs[|runs| - 1 := Run(false, Over, 0)];
        SettleAs(Failed);
      } else if !online {
        runs := runs[|runs| - 1 := Run(false, Over, 0)];
        PauseFor(true);
      } else {
        phase := Preparing;
      }
    }

    method StartUpload()
      modifies this
      ensures Snapshot() == StepStart(old(Snapshot()))
    {
      hide Drive;
      if started { return; }
      started, unsettled, listening := true, true, true;
      DriveOn();
    }

    method PauseUpload()
      modifies this
      ensures Snapshot() == StepPause(old(Snapshot()))
    {
      if phase != Preparing && phase != Uploading { return; }
      PauseFor(false);
    }

    method ResumeUpload()
      modifies this
      ensures Snapshot() == StepResume(old(Snapshot()))
    {
      hide Drive;
      if phase != Paused || !unsettled { return; }
      DriveOn();
    }

    method CancelUpload()
      modifies this
      ensures Snapshot() == StepCancel(old(Snapshot()))
    {
      if phase == Done || cancelled || session.completeSent { return; }
      cancelled := true;
      StopToken();
      session := session.(open := false);
      SettleAs(Failed);
    }

    method OnOnline()
      modifies this
      ensures Snapshot() == StepOnline(old(Snapshot()))
    {
      hide Drive;
      online := true;
      if listening && phase == Paused && autoResume {
        ResumeUpload();
      }
    }

    method OnOffline()
      modifies this
      ensures Snapshot() == StepOffline(old(Snapshot()))
    {
      online := false;
      if listening && (phase == Preparing || phase == Uploading || phase == Finalizing) {
        PauseFor(true);
      }
    }

    /** What run `r` waited for has come; a run whose token was stopped only lets go of its request. */
    method Continue(r: nat, news: News)
      modifies this
      ensures Snapshot() == StepGoOn(old(Snapshot()), r, news)
    {
      hide Next, StoppedNext;
      if r >= |runs| || runs[r].stage == Over { return; }
      var run := runs[r];
      if run.stopped {
        runs := runs[r := runs[r].(stage := Over)];
        session := StoppedNext(run, cancelled, session, news);
      } else {
        Advance(r, news);
      }
    }

    method Advance(r: nat, news: News)
      requires r < |runs| && !runs[r].stopped && runs[r].stage != Over
      modifies this
      ensures Snapshot() == StepGoOn(old(Snapshot()), r, news)
    {
      hide Next, StoppedNext, StopLast, Moved, Alive;
      var o := Next(multipart, runs[r].stage, Snapshot().promise, session, news);
      runs := runs[r := Moved(runs[r], o)];
      session := o.session;
      if o.pause.Some? {
        StopToken();
      }
      WritePromise(o.promise);
    }

    method WritePromise(p: Promise)
      modifies this`phase, this`started, this`unsettled, this`settlements, this`cancelled, this`listening, this`autoResume
      ensures Snapshot() == old(Snapshot()).(promise := p)
    {
      phase, started, unsettled, settlements := p.phase, p.started, p.unsettled, p.settlements;
      cancelled, listening, autoResume := p.cancelled, p.listening, p.autoResume;
    }

    /** Any party's step keeps the invariant, so all of the above holds of the object. */
    method Handle(e: Event)
      requires Inv(Snapshot())
      modifies this
      ensures Snapshot() == Step(old(Snapshot()), e) && Inv(Snapshot())
    {
      hide Inv, StepStart, StepPause, StepResume, StepCancel, StepOnline, StepOffline, StepGoOn, ServerStep;
      ghost var before := Snapshot();
      match e {
        case Start => StartUpload();
        case Pause => PauseUpload();
        case Resume => ResumeUpload();
        case Cancel => CancelUpload();
        case ComeOnline => OnOnline();
        case GoOffline => OnOffline();
        case GoOn(r, news) => Continue(r, news);
        case _ => session := ServerStep(session, e);
      }
      StepInv(before, e);
    }
  }
}
