/** The PID-1 supervisor: one spawn however many times it is asked, a two-phase reaper with
    retry budgets and a bounded kill escalation, and three gates that close in order. */
module Supervisor {
  import opened Text

  const RETRY_BUDGET := 32

  datatype WaitStatus = ExitedWith(code: int) | SignaledBy(sig: int) | OtherStatus
  datatype Signal = SigTerm | SigKill

  /** The bash convention. */
  function MapWaitStatus(ws: WaitStatus): int {
    match ws
    case SignaledBy(sig) => 128 + sig
    case ExitedWith(code) => code
    case OtherStatus => 1
  }

  /** What wait4 may say: interrupted, no such child, another error, nothing changed yet, or a
      child with its status. */
  datatype Wait4 = Eintr | Echild | OtherError | NoChange | Child(ws: WaitStatus)

  /** The caller whose compare-and-swap won, on its way through Run. */
  datatype Winner =
    | NotRun
    | Running(c: nat)
    | Installed(c: nat)
    | Returned(c: nat, err: Option<string>)
    | ClosingAll(c: nat, k: nat)
    | Recorded(c: nat)
    | Over

  datatype Reaper =
    | NoReaper
    | Phase1(retries: nat)
    | MainReaped
    | AwaitDrain
    | Draining(errs: nat)
    | Selecting(errs: nat)
    | Drained
    | Bailing(k: nat)
    | ReaperGone

  datatype Watchdog = NoStop | Watching | WatchdogBailing(k: nat) | WatchdogGone

  /** The reply to an AgentReady command: Done{0}, or the spawn error. */
  datatype Reply = DoneZero | SpawnFailed(err: string)

  /** The three once-only channels. */
  datatype Gates = Gates(mainExited: bool, drain: bool, done: bool)

  /** Everything Run's callers touch; spawns counts executions of runOnce. */
  datatype Spawn = Spawn(
    runEntered: bool, runDone: bool, spawnErr: Option<string>, proc: bool,
    winner: Winner, blocked: set<nat>, replies: map<nat, Reply>, spawns: nat)

  /** Everything the reaper touches; expiries, signals and stolen are history. */
  datatype Reap = Reap(
    finalWS: Option<WaitStatus>, at: Reaper, termSent: bool, killSent: bool,
    expiries: nat, signals: seq<Signal>, stolen: bool)

  datatype State = State(gates: Gates, spawn: Spawn, reap: Reap, reaperErr: Option<string>, watchdog: Watchdog)

  const INIT := State(Gates(false, false, false), Spawn(false, false, None, false, NotRun, {}, map[], 0),
                      Reap(None, NoReaper, false, false, 0, [], false), None, NoStop)

  datatype Event =
    // callers of Run
    | Call(c: nat)
    | SpawnFails(err: string)
    | SpawnInstalls
    | RunOnceReturns
    | RecordErr
    | WinnerCloses
    | CloseRunDone
    | LoserReturns(c: nat)
    // main and the stop watchdog
    | BeginDrain
    | StopCall
    | WatchdogPanics
    | WatchdogCloses
    // the reaper
    | WaitMain(w: Wait4)
    | CloseMain
    | PassDrainGate
    | WaitAny(w: Wait4)
    | Wake
    | Expire
    | CloseDone
    | ReaperPanics
    | ReaperCloses

  /** setReaperErr keeps the first cause. */
  function OrElse(first: Option<string>, cause: string): Option<string> {
    if first.Some? then first else Some(cause)
  }

  /** closeAllGates, one channel at a time: MainExited, then the drain gate, then Done. */
  function CloseGate(g: Gates, k: nat): Gates {
    if k == 0 then g.(mainExited := true) else if k == 1 then g.(drain := true) else g.(done := true)
  }

  /** Run returns nil or errAlreadySpawned: Done{0}. Anything else is the error. */
  function ReplyFor(spawnErr: Option<string>): Reply {
    match spawnErr case None => DoneZero case Some(e) => SpawnFailed(e)
  }

  // ---------------------------------------------------------------- callers of Run

  /** Steps inside Run that touch neither a gate nor the reaper. */
  function StepSpawn(s: Spawn, e: Event): Option<Spawn> {
    match e
    case Call(c) =>
      if c in s.blocked || c in s.replies || s.winner == Running(c) then None
      else if s.runEntered then Some(s.(blocked := s.blocked + {c}))
      else Some(s.(runEntered := true, winner := Running(c), spawns := s.spawns + 1))
    case SpawnFails(err) =>
      if s.winner.Running? then Some(s.(winner := Returned(s.winner.c, Some(err)))) else None
    case SpawnInstalls =>
      if s.winner.Running? then Some(s.(proc := true, winner := Installed(s.winner.c))) else None
    case RunOnceReturns =>
      if s.winner.Installed? then Some(s.(winner := Returned(s.winner.c, None))) else None
    case RecordErr =>
      if !s.winner.Returned? then None
      else
        Some(s.(spawnErr := s.winner.err,
                winner := if s.winner.err.Some? then ClosingAll(s.winner.c, 0) else Recorded(s.winner.c)))
    case WinnerCloses =>
      if !s.winner.ClosingAll? then None
      else Some(s.(winner := if s.winner.k < 2 then ClosingAll(s.winner.c, s.winner.k + 1) else Recorded(s.winner.c)))
    case CloseRunDone =>
      if !s.winner.Recorded? then None
      else Some(s.(runDone := true, winner := Over, replies := s.replies[s.winner.c := ReplyFor(s.spawnErr)]))
    case LoserReturns(c) =>
      if c !in s.blocked || !s.runDone then None
      else Some(s.(blocked := s.blocked - {c}, replies := s.replies[c := ReplyFor(s.spawnErr)]))
    case _ => None
  }

  function StepCaller(s: State, e: Event): Option<State> {
    match StepSpawn(s.spawn, e)
    case None => None
    case Some(spawn) =>
      match e
      case RunOnceReturns => Some(s.(spawn := spawn, reap := s.reap.(at := Phase1(0))))
      case WinnerCloses => Some(s.(spawn := spawn, gates := CloseGate(s.gates, s.spawn.winner.k)))
      case _ => Some(s.(spawn := spawn))
  }

  // ---------------------------------------------------------------- main and the watchdog

  function StepOutside(s: State, e: Event): Option<State> {
    match e
    case BeginDrain => Some(s.(gates := s.gates.(drain := true)))
    case StopCall => Some(if s.spawn.proc && s.watchdog == NoStop then s.(watchdog := Watching) else s)
    case WatchdogPanics =>
      if s.watchdog != Watching then None
      else Some(s.(watchdog := WatchdogBailing(0), reaperErr := OrElse(s.reaperErr, "stop watchdog panicked")))
    case WatchdogCloses =>
      if !s.watchdog.WatchdogBailing? then None
      else
        var k := s.watchdog.k;
        Some(s.(gates := CloseGate(s.gates, k), watchdog := if k < 2 then WatchdogBailing(k + 1) else WatchdogGone))
    case _ => None
  }

  // ---------------------------------------------------------------- the reaper

  /** Where a reaper step leads: on, or to a bail-out with its cause. */
  datatype Move = To(reap: Reap) | BailOut(reap: Reap, cause: string)

  /** One wait4 on the main child. */
  function StepMain(r: Reap, w: Wait4): Option<Move> {
    if !r.at.Phase1? then None
    else
      match w
      case Eintr => Some(To(r))
      case Echild => Some(BailOut(r, "main child already reaped"))
      case OtherError =>
        if r.at.retries + 1 >= RETRY_BUDGET then Some(BailOut(r, "wait4 retry budget exhausted"))
        else Some(To(r.(at := Phase1(r.at.retries + 1))))
      case NoChange => Some(To(r.(at := Phase1(0))))
      case Child(ws) => Some(To(r.(finalWS := Some(ws), at := MainReaped)))
  }

  /** One wait4 on any child; stolen records a call made while the drain gate was held. */
  function StepAny(r: Reap, drain: bool, w: Wait4): Option<Move> {
    if !r.at.Draining? then None
    else
      var r' := r.(stolen := r.stolen || !drain);
      match w
      case Eintr => Some(To(r'))
      case Child(_) => Some(To(r'))
      case Echild => Some(To(r'.(at := Drained)))
      case NoChange => Some(To(r'.(at := Selecting(0))))
      case OtherError =>
        if r.at.errs + 1 >= RETRY_BUDGET then Some(BailOut(r', "orphan drain retry budget exhausted"))
        else Some(To(r'.(at := Selecting(r.at.errs + 1))))
  }

  /** The escalation timer expires: SIGTERM, then SIGKILL, then give up. */
  function StepExpire(r: Reap): Option<Move> {
    if !r.at.Selecting? then None
    else
      var r' := r.(expiries := r.expiries + 1, at := Draining(r.at.errs));
      if !r.termSent then Some(To(r'.(termSent := true, signals := r.signals + [SigTerm])))
      else if !r.killSent then Some(To(r'.(killSent := true, signals := r.signals + [SigKill])))
      else Some(BailOut(r', "orphans unreaped after SIGKILL grace"))
  }

  predicate Panickable(at: Reaper) {
    at.Phase1? || at.MainReaped? || at.AwaitDrain? || at.Draining? || at.Selecting? || at.Drained?
  }

  /** Steps of the reaper that close no gate. */
  function StepReap(r: Reap, drain: bool, e: Event): Option<Move> {
    match e
    case WaitMain(w) => StepMain(r, w)
    case PassDrainGate => if r.at == AwaitDrain && drain then Some(To(r.(at := Draining(0)))) else None
    case WaitAny(w) => StepAny(r, drain, w)
    case Wake => if r.at.Selecting? then Some(To(r.(at := Draining(r.at.errs)))) else None
    case Expire => StepExpire(r)
    case ReaperPanics => if Panickable(r.at) then Some(BailOut(r, "reaper goroutine panicked")) else None
    case _ => None
  }

  function StepReaper(s: State, e: Event): Option<State> {
    match StepReap(s.reap, s.gates.drain, e)
    case None => None
    case Some(To(r)) => Some(s.(reap := r))
    case Some(BailOut(r, cause)) => Some(s.(reap := r.(at := Bailing(0)), reaperErr := OrElse(s.reaperErr, cause)))
  }

  /** Steps of the reaper that close a gate. */
  function StepCloser(s: State, e: Event): Option<State> {
    match e
    case CloseMain =>
      if s.reap.at != MainReaped then None
      else Some(s.(gates := s.gates.(mainExited := true), reap := s.reap.(at := AwaitDrain)))
    case CloseDone =>
      if s.reap.at != Drained then None
      else Some(s.(gates := s.gates.(done := true), reap := s.reap.(at := ReaperGone)))
    case ReaperCloses =>
      if !s.reap.at.Bailing? then None
      else
        var k := s.reap.at.k;
        Some(s.(gates := CloseGate(s.gates, k), reap := s.reap.(at := if k < 2 then Bailing(k + 1) else ReaperGone)))
    case _ => None
  }

  function Step(s: State, e: Event): Option<State> {
    match e
    case CloseMain => StepCloser(s, e)
    case CloseDone => StepCloser(s, e)
    case ReaperCloses => StepCloser(s, e)
    case BeginDrain => StepOutside(s, e)
    case StopCall => StepOutside(s, e)
    case WatchdogPanics => StepOutside(s, e)
    case WatchdogCloses => StepOutside(s, e)
    case WaitMain(_) => StepReaper(s, e)
    case PassDrainGate => StepReaper(s, e)
    case WaitAny(_) => StepReaper(s, e)
    case Wake => StepReaper(s, e)
    case Expire => StepReaper(s, e)
    case ReaperPanics => StepReaper(s, e)
    case _ => StepCaller(s, e)
  }

  function Run(s: State, es: seq<Event>): Option<State>
    decreases |es|
  {
    if es == [] then Some(s)
    else
      match Step(s, es[0])
      case None => None
      case Some(s') => Run(s', es[1..])
  }

  // ---------------------------------------------------------------- invariants

  /** Done is the last gate, and never closes without a recorded reason. */
  predicate GatesInOrder(s: State) {
    s.gates.done ==> s.gates.mainExited && s.gates.drain
                     && (s.reap.finalWS.Some? || s.spawn.spawnErr.Some? || s.reaperErr.Some?)
  }

  /** Whoever closes the gates has closed the earlier ones, and has recorded why. */
  predicate Earlier(g: Gates, k: nat) { (k >= 1 ==> g.mainExited) && (k >= 2 ==> g.drain) }

  predicate ClosersInOrder(s: State) {
    && (s.reap.at.Bailing? ==> Earlier(s.gates, s.reap.at.k) && s.reaperErr.Some?)
    && (s.watchdog.WatchdogBailing? ==> Earlier(s.gates, s.watchdog.k) && s.reaperErr.Some?)
    && (s.spawn.winner.ClosingAll? ==> Earlier(s.gates, s.spawn.winner.k))
  }

  predicate InPhase2(at: Reaper) { at.Draining? || at.Selecting? || at.Drained? }

  /** Phase 2 runs only behind the drain gate, after the main child's status is known. */
  predicate PhasesInOrder(r: Reap, g: Gates) {
    && !r.stolen
    && (r.at.MainReaped? ==> r.finalWS.Some?)
    && (r.at.AwaitDrain? || InPhase2(r.at) ==> r.finalWS.Some? && g.mainExited)
    && (InPhase2(r.at) ==> g.drain)
    && (r.at.NoReaper? || r.at.Phase1? ==> r.finalWS.None?)
    && (r.at.Phase1? ==> r.at.retries < RETRY_BUDGET)
    && (r.at.Draining? || r.at.Selecting? ==> r.at.errs < RETRY_BUDGET)
  }

  predicate Escalates(r: Reap) {
    && r.signals == (if r.termSent then [SigTerm] else []) + (if r.killSent then [SigKill] else [])
    && (r.killSent ==> r.termSent)
    && (if r.at.Bailing? || r.at == ReaperGone then r.expiries <= 3
        else r.expiries == (if r.termSent then 1 else 0) + (if r.killSent then 1 else 0))
  }

  /** How far the one execution of runOnce has come, and what it left. */
  predicate OneSpawn(s: Spawn) {
    && s.spawns == (if s.runEntered then 1 else 0)
    && (s.winner == NotRun <==> !s.runEntered)
    && (s.proc <==> s.winner.Installed? || (s.winner.Returned? && s.winner.err.None?)
                    || ((s.winner.Recorded? || s.winner.Over?) && s.spawnErr.None?))
    && (s.spawnErr.Some? ==> s.winner.ClosingAll? || s.winner.Recorded? || s.winner.Over?)
    && (s.winner.ClosingAll? ==> s.spawnErr.Some?)
    && (s.runDone <==> s.winner.Over?)
  }

  /** The reaper exists once an installing runOnce has returned. */
  predicate ReaperFollows(s: State) {
    s.reap.at == NoReaper <==> !s.spawn.proc || s.spawn.winner.Installed?
  }

  predicate RepliesAgree(s: Spawn) {
    forall c :: c in s.replies ==> s.runDone && s.replies[c] == ReplyFor(s.spawnErr)
  }

  predicate Inv(s: State) {
    && GatesInOrder(s) && ClosersInOrder(s) && PhasesInOrder(s.reap, s.gates) && Escalates(s.reap)
    && OneSpawn(s.spawn) && ReaperFollows(s) && RepliesAgree(s.spawn)
  }

  lemma SpawnKeeps(s: Spawn, e: Event)
    requires OneSpawn(s) && RepliesAgree(s) && StepSpawn(s, e).Some?
    ensures OneSpawn(StepSpawn(s, e).value) && RepliesAgree(StepSpawn(s, e).value)
  {
    hide ReplyFor;
  }

  /** What a step inside Run leaves of the fields others look at. */
  lemma SpawnMoves(s: Spawn, e: Event)
    requires OneSpawn(s) && StepSpawn(s, e).Some?
    ensures var s' := StepSpawn(s, e).value;
            && (s.spawnErr.Some? ==> s'.spawnErr == s.spawnErr) && (s.proc ==> s'.proc)
            && (e != RunOnceReturns && s'.proc && !s'.winner.Installed? ==> s.proc && !s.winner.Installed?)
            && (s.proc && !s.winner.Installed? ==> !s'.winner.Installed?)
            && (e == RunOnceReturns ==> s'.proc && s.proc && s.winner.Installed? && !s'.winner.Installed?)
            && (s'.winner.ClosingAll? ==> s'.winner.k == 0 || (e == WinnerCloses && s.winner.ClosingAll? && s'.winner.k == s.winner.k + 1)
                                          || s'.winner == s.winner)
            && (e == WinnerCloses ==> s.winner.ClosingAll? && s.spawnErr.Some?)
  {
    hide ReplyFor;
  }

  lemma CallerKeeps(s: State, e: Event)
    requires Inv(s) && StepCaller(s, e).Some?
    ensures Inv(StepCaller(s, e).value)
  {
    SpawnKeeps(s.spawn, e);
    SpawnMoves(s.spawn, e);
    hide StepSpawn, OneSpawn, RepliesAgree;
  }

  lemma OutsideKeeps(s: State, e: Event)
    requires Inv(s) && StepOutside(s, e).Some?
    ensures Inv(StepOutside(s, e).value)
  {
    hide OneSpawn, RepliesAgree, Escalates;
  }

  lemma CloserKeeps(s: State, e: Event)
    requires Inv(s) && StepCloser(s, e).Some?
    ensures Inv(StepCloser(s, e).value)
  {
    hide OneSpawn, RepliesAgree;
  }

  predicate Lively(at: Reaper) { !at.NoReaper? && !at.ReaperGone? && !at.Bailing? }

  function ReapOf(m: Move): Reap { match m case To(r) => r case BailOut(r, _) => r.(at := Bailing(0)) }

  lemma ReapKeeps(r: Reap, g: Gates, e: Event)
    requires PhasesInOrder(r, g) && Escalates(r) && StepReap(r, g.drain, e).Some?
    ensures var m := StepReap(r, g.drain, e).value;
            && PhasesInOrder(ReapOf(m), g) && Escalates(ReapOf(m))
            && Lively(r.at) && (m.To? ==> Lively(m.reap.at))
            && (r.finalWS.Some? ==> ReapOf(m).finalWS == r.finalWS)
  {
  }

  lemma ReaperKeeps(s: State, e: Event)
    requires Inv(s) && StepReaper(s, e).Some?
    ensures Inv(StepReaper(s, e).value)
  {
    ReapKeeps(s.reap, s.gates, e);
    hide StepReap, OneSpawn, RepliesAgree, Escalates, PhasesInOrder;
  }

  lemma StepKeeps(s: State, e: Event)
    requires Inv(s) && Step(s, e).Some?
    ensures Inv(Step(s, e).value)
  {
    hide Inv, StepReaper, StepCaller, StepCloser, StepOutside;
    if StepReaper(s, e).Some? {
      ReaperKeeps(s, e);
    }
    if StepCaller(s, e).Some? {
      CallerKeeps(s, e);
    }
    if StepCloser(s, e).Some? {
      CloserKeeps(s, e);
    }
    if StepOutside(s, e).Some? {
      OutsideKeeps(s, e);
    }
  }

  lemma {:induction false} RunKeeps(s: State, es: seq<Event>)
    requires Inv(s) && Run(s, es).Some?
    ensures Inv(Run(s, es).value)
    decreases |es|
  {
    hide Inv, Step;
    if es != [] {
      StepKeeps(s, es[0]);
      RunKeeps(Step(s, es[0]).value, es[1..]);
    }
  }

  // ---------------------------------------------------------------- the theorems

  /** Gates, phases and escalation, in every run. */
  lemma SupervisorSafe(es: seq<Event>)
    requires Run(INIT, es).Some?
    ensures var s := Run(INIT, es).value;
            && (s.gates.done ==> s.gates.mainExited && s.gates.drain
                                 && (s.reap.finalWS.Some? || s.spawn.spawnErr.Some? || s.reaperErr.Some?))
            && !s.reap.stolen
            && s.reap.signals <= [SigTerm, SigKill]
            && s.reap.expiries <= 3
            && (s.reap.expiries == 3 ==> s.reap.at.Bailing? || s.reap.at == ReaperGone)
  {
    hide Run;
    assert Inv(INIT);
    RunKeeps(INIT, es);
  }

  /** However AgentReady calls interleave: at most one spawn; Done{0} only for an installed
      child; and if the spawn failed, everyone is told the same error. */
  lemma SingleSpawn(es: seq<Event>)
    requires Run(INIT, es).Some?
    ensures var s := Run(INIT, es).value.spawn;
            && s.spawns <= 1
            && (forall c :: c in s.replies && s.replies[c] == DoneZero ==> s.proc)
            && (forall c :: c in s.replies && s.replies[c].SpawnFailed? ==> !s.proc && s.spawnErr == Some(s.replies[c].err))
            && (forall c, d :: c in s.replies && d in s.replies ==> s.replies[c] == s.replies[d])
  {
    hide Run;
    assert Inv(INIT);
    RunKeeps(INIT, es);
    hide GatesInOrder, ClosersInOrder, PhasesInOrder, Escalates;
  }

  /** The moments the reaper gives up: it panics, the main child is gone, 32 errors in a row, or
      the grace after SIGKILL has passed. */
  predicate GivesUp(r: Reap, e: Event) {
    || e == ReaperPanics || e == WaitMain(Echild)
    || (e == WaitMain(OtherError) && r.at.Phase1? && r.at.retries >= 31)
    || (e == WaitAny(OtherError) && r.at.Draining? && r.at.errs >= 31)
    || (e == Expire && r.termSent && r.killSent)
  }

  lemma MoveBails(r: Reap, drain: bool, e: Event)
    requires StepReap(r, drain, e).Some? && !r.at.Bailing?
    ensures var m := StepReap(r, drain, e).value;
            (m.BailOut? <==> GivesUp(r, e)) && (m.To? ==> !m.reap.at.Bailing?)
  {
  }

  /** It bails out then and only then, with every gate as it was, and the first cause on record. */
  lemma BailsExactly(s: State, e: Event)
    requires Step(s, e).Some? && !s.reap.at.Bailing?
    ensures var s' := Step(s, e).value;
            && (s'.reap.at.Bailing? <==> GivesUp(s.reap, e))
            && (GivesUp(s.reap, e) ==>
                  && s'.reap.at == Bailing(0) && s'.gates == s.gates && s'.reaperErr.Some?
                  && (s.reaperErr.Some? ==> s'.reaperErr == s.reaperErr))
  {
    hide StepReap;
    if StepReap(s.reap, s.gates.drain, e).Some? {
      MoveBails(s.reap, s.gates.drain, e);
    }
  }

  /** A gate that closed stays closed, and a recorded status or error is never replaced. */
  predicate Grows(s: State, s': State) {
    && (s.gates.mainExited ==> s'.gates.mainExited) && (s.gates.drain ==> s'.gates.drain) && (s.gates.done ==> s'.gates.done)
    && (s.reap.finalWS.Some? ==> s'.reap.finalWS == s.reap.finalWS)
    && (s.spawn.spawnErr.Some? ==> s'.spawn.spawnErr == s.spawn.spawnErr)
    && (s.reaperErr.Some? ==> s'.reaperErr == s.reaperErr)
    && (s.spawn.proc ==> s'.spawn.proc)
  }

  lemma CallerGrows(s: State, e: Event)
    requires Inv(s) && StepCaller(s, e).Some?
    ensures Grows(s, StepCaller(s, e).value)
  {
    SpawnMoves(s.spawn, e);
    hide StepSpawn, Escalates, ClosersInOrder, GatesInOrder, PhasesInOrder, OneSpawn, RepliesAgree;
  }

  lemma ReaperGrows(s: State, e: Event)
    requires Inv(s) && StepReaper(s, e).Some?
    ensures Grows(s, StepReaper(s, e).value)
  {
    ReapKeeps(s.reap, s.gates, e);
    hide StepReap, Escalates, ClosersInOrder, GatesInOrder, PhasesInOrder, OneSpawn, RepliesAgree;
  }

  lemma StepGrows(s: State, e: Event)
    requires Inv(s) && Step(s, e).Some?
    ensures Grows(s, Step(s, e).value)
  {
    hide Inv, StepCaller, StepReaper;
    if StepCaller(s, e).Some? {
      CallerGrows(s, e);
    }
    if StepReaper(s, e).Some? {
      ReaperGrows(s, e);
    }
  }

  lemma {:induction false} RunGrows(s: State, es: seq<Event>)
    requires Inv(s) && Run(s, es).Some?
    ensures Grows(s, Run(s, es).value)
    decreases |es|
  {
    hide Inv, Step;
    if es != [] {
      StepKeeps(s, es[0]);
      StepGrows(s, es[0]);
      RunGrows(Step(s, es[0]).value, es[1..]);
    }
  }

  /** Wait: 1 if nothing was spawned or no status was recorded, else the mapped status. */
  function WaitCode(s: State): Option<int> {
    if !s.spawn.proc then Some(1)
    else if !s.gates.done then None
    else match s.reap.finalWS case None => Some(1) case Some(ws) => Some(MapWaitStatus(ws))
  }

  /** The first status wait4 reported for the main child. */
  function FirstChild(es: seq<Event>): Option<WaitStatus> {
    if es == [] then None
    else if es[0].WaitMain? && es[0].w.Child? then Some(es[0].w.ws)
    else FirstChild(es[1..])
  }

  lemma StepRecords(s: State, e: Event)
    requires Inv(s) && Step(s, e).Some?
    ensures Step(s, e).value.reap.finalWS ==
            if s.reap.finalWS.Some? then s.reap.finalWS
            else if e.WaitMain? && e.w.Child? then Some(e.w.ws) else None
  {
    hide Inv, StepCaller, StepReaper;
    StepGrows(s, e);
    if StepCaller(s, e).Some? {
      CallerRecords(s, e);
    }
    if StepReaper(s, e).Some? && s.reap.finalWS.None? {
      ReaperRecords(s, e);
    }
  }

  lemma CallerRecords(s: State, e: Event)
    requires StepCaller(s, e).Some?
    ensures StepCaller(s, e).value.reap.finalWS == s.reap.finalWS && !e.WaitMain?
  {
  }

  lemma ReaperRecords(s: State, e: Event)
    requires StepReaper(s, e).Some? && s.reap.finalWS.None?
    ensures StepReaper(s, e).value.reap.finalWS == if e.WaitMain? && e.w.Child? then Some(e.w.ws) else None
  {
  }

  /** The recorded status is the first one reported, in every run. */
  lemma {:induction false} RunRecords(s: State, es: seq<Event>)
    requires Inv(s) && Run(s, es).Some?
    ensures Run(s, es).value.reap.finalWS == if s.reap.finalWS.Some? then s.reap.finalWS else FirstChild(es)
    decreases |es|
  {
    hide Inv, Step;
    if es != [] {
      StepKeeps(s, es[0]);
      StepRecords(s, es[0]);
      RunRecords(Step(s, es[0]).value, es[1..]);
    }
  }

  /** What Wait returns in every run, once it returns: 128 plus the signal that killed the user
      command, or the code it exited with, as wait4 first reported it; 1 if there was no such
      report or nothing was spawned. It blocks exactly while a spawned child's Done is open. */
  lemma WaitReturns(es: seq<Event>)
    requires Run(INIT, es).Some?
    ensures var s := Run(INIT, es).value;
            && (WaitCode(s) == None <==> s.spawn.proc && !s.gates.done)
            && (!s.spawn.proc ==> WaitCode(s) == Some(1))
            && (s.spawn.proc && s.gates.done ==>
                  && (forall g :: FirstChild(es) == Some(SignaledBy(g)) ==> WaitCode(s) == Some(128 + g))
                  && (forall c :: FirstChild(es) == Some(ExitedWith(c)) ==> WaitCode(s) == Some(c))
                  && (FirstChild(es) in {None, Some(OtherStatus)} ==> WaitCode(s) == Some(1)))
  {
    hide Run;
    assert Inv(INIT);
    RunRecords(INIT, es);
  }

  /** The exit code of the user command survives everything that happens after it was reaped:
      orphan kills, drain failures, watchdog panics. */
  lemma ExitCodeSurvives(es: seq<Event>, more: seq<Event>, ws: WaitStatus)
    requires Run(INIT, es).Some? && Run(INIT, es).value.reap.finalWS == Some(ws)
    requires Run(Run(INIT, es).value, more).Some?
    ensures var s := Run(Run(INIT, es).value, more).value;
            && s.reap.finalWS == Some(ws)
            && (s.gates.done ==>
                  && (forall g :: ws == SignaledBy(g) ==> WaitCode(s) == Some(128 + g))
                  && (forall c :: ws == ExitedWith(c) ==> WaitCode(s) == Some(c))
                  && (ws == OtherStatus ==> WaitCode(s) == Some(1)))
  {
    hide Run;
    assert Inv(INIT);
    RunKeeps(INIT, es);
    RunGrows(Run(INIT, es).value, more);
    var s := Run(INIT, es).value;
    assert s.reap.at != NoReaper ==> s.spawn.proc;
  }
}
