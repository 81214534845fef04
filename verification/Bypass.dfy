/** The bypass dead-man timer: timers race the action queue, and still no container stays
    bypassed without something on its way to restore it. */
module Bypass {
  import opened Text

  type Cid = string

  // ---------------------------------------------------------------- drift guard

  /** What Docker and the cgroup filesystem say when the timer fires. */
  datatype Lookup = ApiError | Gone | StatFailed | Found(cgroup: nat)

  function ResolveBypassCgroup(cid: Cid, stored: nat, lookup: Lookup): nat {
    if cid == "" then stored
    else
      match lookup
      case Found(g) => g
      case _ => stored
  }

  /** A live lookup wins, drift or not; every other branch falls back to the cgroup that was
      bypassed, and no branch skips the restore. */
  lemma ResolveUnchanged(cid: Cid, stored: nat, lookup: Lookup)
    ensures forall g :: lookup == Found(g) && cid != "" ==> ResolveBypassCgroup(cid, stored, lookup) == g
    ensures lookup in {ApiError, Gone, StatFailed} || cid == "" ==> ResolveBypassCgroup(cid, stored, lookup) == stored
    ensures (forall g :: lookup == Found(g) && cid != "" ==> g == stored) <==> ResolveBypassCgroup(cid, stored, lookup) == stored
  {
  }

  // ---------------------------------------------------------------- timers

  /** Stopping a timer that already fires does nothing. */
  datatype Phase = Armed | Firing | Waiting | Finished | Stopped
  datatype Timer = Timer(cid: Cid, cgroup: nat, phase: Phase)

  /** All timers ever made, and the one the handler remembers per container. */
  datatype Table = Table(timers: map<nat, Timer>, mapped: map<Cid, nat>, next: nat)

  function Stop(t: Timer): Timer { if t.phase == Armed then t.(phase := Stopped) else t }

  function StopAt(timers: map<nat, Timer>, id: nat): map<nat, Timer> {
    if id in timers then timers[id := Stop(timers[id])] else timers
  }

  function CancelTimer(tb: Table, cid: Cid): Table {
    if cid !in tb.mapped then tb
    else tb.(timers := StopAt(tb.timers, tb.mapped[cid]), mapped := tb.mapped - {cid})
  }

  function CancelAll(tb: Table): Table {
    tb.(timers := map id | id in tb.timers :: if id in tb.mapped.Values then Stop(tb.timers[id]) else tb.timers[id],
        mapped := map[])
  }

  /** Stop the remembered timer of the container and start a new one. */
  function ArmTimer(tb: Table, cid: Cid, cgroup: nat): Table {
    var timers := if cid in tb.mapped then StopAt(tb.timers, tb.mapped[cid]) else tb.timers;
    Table(timers[tb.next := Timer(cid, cgroup, Armed)], tb.mapped[cid := tb.next], tb.next + 1)
  }

  function SetPhase(tb: Table, id: nat, p: Phase): Table
    requires id in tb.timers
  {
    tb.(timers := tb.timers[id := tb.timers[id].(phase := p)])
  }

  /** The firing timer's deferred clean-up deletes by container id, whichever timer is there. */
  function Forget(tb: Table, cid: Cid): Table { tb.(mapped := tb.mapped - {cid}) }

  predicate Sound(tb: Table) {
    && (forall cid :: cid in tb.mapped ==> tb.mapped[cid] in tb.timers && tb.timers[tb.mapped[cid]].cid == cid)
    && (forall id :: id in tb.timers ==> id < tb.next)
  }

  class BypassTimers {
    var timers: map<nat, Timer>
    var mapped: map<Cid, nat>
    var next: nat

    ghost function Contents(): Table
      reads this
    {
      Table(timers, mapped, next)
    }

    constructor ()
      ensures Contents() == Table(map[], map[], 0)
    {
      timers, mapped, next := map[], map[], 0;
    }

    method Cancel(cid: Cid)
      modifies this
      ensures Contents() == CancelTimer(old(Contents()), cid)
    {
      if cid in mapped {
        timers := StopAt(timers, mapped[cid]);
        mapped := mapped - {cid};
      }
    }

    method Arm(cid: Cid, cgroup: nat)
      modifies this
      ensures Contents() == ArmTimer(old(Contents()), cid, cgroup)
    {
      if cid in mapped {
        timers := StopAt(timers, mapped[cid]);
      }
      timers := timers[next := Timer(cid, cgroup, Armed)];
      mapped := mapped[cid := next];
      next := next + 1;
    }

    /** Go over the remembered entries in any order, stop each, then forget them all. */
    method CancelEvery() returns (n: nat)
      modifies this
      ensures Contents() == CancelAll(old(Contents()))
      ensures n == |old(mapped)|
    {
      var todo := mapped.Keys;
      n := |mapped|;
      ghost var was, stopped := timers, {};
      while todo != {}
        invariant todo <= mapped.Keys && mapped == old(mapped) && next == old(next)
        invariant stopped == set c | c in mapped && c !in todo :: mapped[c]
        invariant timers == map id | id in was :: if id in stopped then Stop(was[id]) else was[id]
        decreases |todo|
      {
        var cid :| cid in todo;
        StopTwice();
        timers := StopAt(timers, mapped[cid]);
        todo, stopped := todo - {cid}, stopped + {mapped[cid]};
      }
      assert stopped == mapped.Values;
      mapped := map[];
    }
  }

  lemma StopTwice()
    ensures forall t :: Stop(Stop(t)) == Stop(t)
  {
  }

  // ---------------------------------------------------------------- the system

  /** Who wrote a cgroup's bypass flag last. */
  datatype Writer = Cleared | ByDisable | ByBypass

  datatype Job =
    | EnableJob(cid: Cid)
    | DisableJob(cid: Cid)
    | BypassJob(cid: Cid)
    | RestoreJob(timer: nat, cgroup: nat)
    | TeardownJob
    | ReenrollJob(cids: set<Cid>)

  /** arming: bypass calls whose closure ran and that have yet to arm their timer.
      lost: cgroups whose pending restore was given up since their flag was last written. */
  datatype State = State(
    queue: seq<Job>, closed: bool, flags: map<nat, Writer>, arming: multiset<Cid>, table: Table, lost: set<nat>)

  const INIT := State([], false, map[], multiset{}, Table(map[], map[], 0), {})

  /** kept: cgroups whose bypass entry the step fails to delete. Installing a container ignores
      that failure and goes on. */
  datatype Event =
    | Submit(job: Job)
    | CloseQueue
    | Exec(ok: bool, kept: set<nat>)
    | Arm(cid: Cid)
    | Fire(timer: nat)
    | SubmitRestore(timer: nat, lookup: Lookup)
    | AfterRestore(timer: nat)
    | Shutdown
    | FinalFlush(kept: set<nat>)

  function Flag(s: State, g: nat): Writer { if g in s.flags then s.flags[g] else Cleared }

  /** A write to the flag of g; what was lost before it no longer matters. */
  function Write(s: State, g: nat, w: Writer): State { s.(flags := s.flags[g := w], lost := s.lost - {g}) }

  /** Install deletes the bypass entry first, and carries on if that fails. */
  function Clear(s: State, g: nat, kept: set<nat>): State { if g in kept then s else Write(s, g, Cleared) }

  function ClearAll(cg: Cid -> nat, s: State, cids: set<Cid>, kept: set<nat>): State {
    var cleared := set c | c in cids && cg(c) !in kept :: cg(c);
    s.(flags := s.flags + (map g | g in cleared :: Cleared), lost := s.lost - cleared)
  }

  /** Delete every bypass entry but those kept; no timer is left to delete the kept ones. */
  function Flush(s: State, kept: set<nat>): State {
    s.(flags := map g | g in s.flags && g in kept :: s.flags[g], table := CancelAll(s.table),
       lost := set g | g in s.flags && g in kept)
  }

  /** One queued closure, run to its end. */
  function RunJob(cg: Cid -> nat, s: State, job: Job, ok: bool, kept: set<nat>): State {
    match job
    case EnableJob(cid) =>
      var s' := Clear(s, cg(cid), kept);
      if !ok then s'
      else s'.(table := CancelTimer(s.table, cid), lost := if cg(cid) in kept then s'.lost + {cg(cid)} else s'.lost)
    case DisableJob(cid) => if ok then Write(s, cg(cid), ByDisable) else s
    case BypassJob(cid) =>
      if ok then Write(s, cg(cid), ByBypass).(arming := s.arming + multiset{cid}) else s
    case RestoreJob(_, g) => if ok then Write(s, g, Cleared) else s.(lost := s.lost + {g})
    case TeardownJob => Flush(s, if ok then {} else kept)
    case ReenrollJob(cids) => ClearAll(cg, s, cids, kept)
  }

  function Step(cg: Cid -> nat, s: State, e: Event): Option<State> {
    match e
    case Submit(job) =>
      if job.RestoreJob? then None
      else if s.closed then Some(s)
      else Some(s.(queue := s.queue + [job]))
    case CloseQueue => Some(s.(closed := true))
    case Exec(ok, kept) =>
      if s.queue == [] then None
      else Some(RunJob(cg, s.(queue := s.queue[1..]), s.queue[0], ok, kept))
    case Arm(cid) =>
      if cid !in s.arming then None
      else Some(s.(arming := s.arming - multiset{cid}, table := ArmTimer(s.table, cid, cg(cid))))
    case Fire(id) =>
      if id in s.table.timers && s.table.timers[id].phase == Armed then Some(s.(table := SetPhase(s.table, id, Firing)))
      else None
    case SubmitRestore(id, lookup) =>
      if id !in s.table.timers || s.table.timers[id].phase != Firing then None
      else
        var t := s.table.timers[id];
        var g := ResolveBypassCgroup(t.cid, t.cgroup, lookup);
        if g != cg(t.cid) then None // the container's cgroup id changed
        else if s.closed then Some(s.(table := SetPhase(s.table, id, Waiting), lost := s.lost + {g}))
        else Some(s.(table := SetPhase(s.table, id, Waiting), queue := s.queue + [RestoreJob(id, g)]))
    case AfterRestore(id) =>
      if id !in s.table.timers || s.table.timers[id].phase != Waiting || (exists j :: j in s.queue && j.RestoreJob? && j.timer == id) then None
      else Some(s.(table := Forget(SetPhase(s.table, id, Finished), s.table.timers[id].cid)))
    case Shutdown =>
      // the process drains its queue, then cancels the timers outside of it
      if !s.closed || s.queue != [] then None
      else Some(s.(table := CancelAll(s.table), lost := s.lost + s.flags.Keys))
    case FinalFlush(kept) =>
      if !s.closed || s.queue != [] then None else Some(Flush(s, kept))
  }

  function Run(cg: Cid -> nat, s: State, es: seq<Event>): Option<State>
    decreases |es|
  {
    if es == [] then Some(s)
    else
      match Step(cg, s, es[0])
      case None => None
      case Some(s') => Run(cg, s', es[1..])
  }

  // ---------------------------------------------------------------- the dead-man invariant

  predicate Pending(tb: Table, id: nat, cid: Cid) {
    id in tb.timers && tb.timers[id].cid == cid && (tb.timers[id].phase == Armed || tb.timers[id].phase == Firing)
  }

  ghost predicate TimerPending(tb: Table, cid: Cid) { exists id :: Pending(tb, id, cid) }

  ghost predicate RestoreQueued(q: seq<Job>, g: nat) { exists id :: RestoreJob(id, g) in q }

  /** Something is on its way to restore this container. */
  ghost predicate Watched(cg: Cid -> nat, s: State, cid: Cid) {
    cid in s.arming || TimerPending(s.table, cid) || RestoreQueued(s.queue, cg(cid))
  }

  ghost predicate DeadMan(cg: Cid -> nat, s: State) {
    forall cid :: Flag(s, cg(cid)) == ByBypass && cg(cid) !in s.lost ==> Watched(cg, s, cid)
  }

  ghost predicate Inv(cg: Cid -> nat, s: State) {
    Sound(s.table) && DeadMan(cg, s)
  }

  ghost predicate Injective(cg: Cid -> nat) { forall c, d :: cg(c) == cg(d) ==> c == d }

  /** Stopping remembered timers touches no other container's timers. */
  lemma CancelKeeps(tb: Table, cid: Cid)
    requires Sound(tb)
    ensures Sound(CancelTimer(tb, cid))
    ensures forall id, c :: c != cid && Pending(tb, id, c) ==> Pending(CancelTimer(tb, cid), id, c)
  {
  }

  lemma ArmKeeps(tb: Table, cid: Cid, g: nat)
    requires Sound(tb)
    ensures Sound(ArmTimer(tb, cid, g))
    ensures forall id, c :: c != cid && Pending(tb, id, c) ==> Pending(ArmTimer(tb, cid, g), id, c)
    ensures Pending(ArmTimer(tb, cid, g), tb.next, cid)
  {
  }

  lemma CancelAllSound(tb: Table)
    requires Sound(tb)
    ensures Sound(CancelAll(tb))
  {
  }

  lemma PhaseKeeps(tb: Table, id: nat, p: Phase)
    requires Sound(tb) && id in tb.timers
    ensures Sound(SetPhase(tb, id, p))
    ensures forall i, c :: Pending(tb, i, c) && (i != id || p == Firing) ==> Pending(SetPhase(tb, id, p), i, c)
  {
  }

  lemma TableGrows(tb: Table, tb': Table, cid: Cid)
    requires forall id :: Pending(tb, id, cid) ==> Pending(tb', id, cid)
    ensures TimerPending(tb, cid) ==> TimerPending(tb', cid)
  {
  }

  lemma RestGrows(q: seq<Job>, job: Job, g: nat)
    ensures RestoreQueued(q, g) ==> RestoreQueued(q + [job], g)
  {
    assert forall j :: j in q ==> j in q + [job];
  }

  lemma PopLoses(q: seq<Job>, g: nat)
    requires q != [] && RestoreQueued(q, g)
    ensures RestoreQueued(q[1..], g) || (q[0].RestoreJob? && q[0].cgroup == g)
  {
    assert q == [q[0]] + q[1..];
    var id :| RestoreJob(id, g) in q;
  }

  lemma EnableKeeps(cg: Cid -> nat, s: State, cid: Cid, ok: bool, kept: set<nat>)
    requires Inv(cg, s) && Injective(cg)
    ensures Inv(cg, RunJob(cg, s, EnableJob(cid), ok, kept))
  {
    hide RestoreQueued, Pending, TimerPending, Sound, CancelTimer;
    CancelKeeps(s.table, cid);
    var s' := RunJob(cg, s, EnableJob(cid), ok, kept);
    forall c | Flag(s', cg(c)) == ByBypass && cg(c) !in s'.lost ensures Watched(cg, s', c) {
      if ok {
        assert c != cid;
        TableGrows(s.table, s'.table, c);
      }
    }
  }

  lemma JobKeeps(cg: Cid -> nat, s: State, job: Job, ok: bool, kept: set<nat>)
    requires Inv(cg, s) && Injective(cg) && !job.EnableJob?
    ensures Inv(cg, RunJob(cg, s, job, ok, kept))
  {
    hide RestoreQueued, Pending, TimerPending, Sound, CancelAll;
    CancelAllSound(s.table);
  }

  lemma PopKeeps(cg: Cid -> nat, s: State)
    requires Inv(cg, s) && s.queue != []
    ensures Sound(s.table)
    ensures forall c :: Flag(s, cg(c)) == ByBypass && cg(c) !in s.lost ==>
              Watched(cg, s.(queue := s.queue[1..]), c) || (s.queue[0].RestoreJob? && s.queue[0].cgroup == cg(c))
  {
    hide RestoreQueued, TimerPending, Sound;
    forall c | Flag(s, cg(c)) == ByBypass && cg(c) !in s.lost && RestoreQueued(s.queue, cg(c))
      ensures RestoreQueued(s.queue[1..], cg(c)) || (s.queue[0].RestoreJob? && s.queue[0].cgroup == cg(c))
    {
      PopLoses(s.queue, cg(c));
    }
  }

  lemma ExecKeeps(cg: Cid -> nat, s: State, ok: bool, kept: set<nat>)
    requires Inv(cg, s) && Injective(cg) && s.queue != []
    ensures Inv(cg, Step(cg, s, Exec(ok, kept)).value)
  {
    hide RestoreQueued, Pending, TimerPending, Sound, CancelTimer, CancelAll;
    var job, popped := s.queue[0], s.(queue := s.queue[1..]);
    PopKeeps(cg, s);
    if job.RestoreJob? {
      hide Watched;
      RestoreRunKeeps(cg, popped, job, ok, kept);
    } else {
      assert Inv(cg, popped);
      hide Inv, RunJob;
      if job.EnableJob? {
        EnableKeeps(cg, popped, job.cid, ok, kept);
      } else {
        JobKeeps(cg, popped, job, ok, kept);
      }
    }
  }

  /** A restore that runs clears the flag it watched over, or gives it up. */
  lemma RestoreRunKeeps(cg: Cid -> nat, s: State, job: Job, ok: bool, kept: set<nat>)
    requires Sound(s.table) && job.RestoreJob?
    requires forall c :: Flag(s, cg(c)) == ByBypass && cg(c) !in s.lost ==> Watched(cg, s, c) || job.cgroup == cg(c)
    ensures Inv(cg, RunJob(cg, s, job, ok, kept))
  {
    hide RestoreQueued, TimerPending, Sound;
  }

  lemma ArmStepKeeps(cg: Cid -> nat, s: State, cid: Cid)
    requires Inv(cg, s) && cid in s.arming
    ensures Inv(cg, Step(cg, s, Arm(cid)).value)
  {
    hide RestoreQueued, Pending, Sound, ArmTimer;
    ArmKeeps(s.table, cid, cg(cid));
    var s' := Step(cg, s, Arm(cid)).value;
    forall c | Flag(s', cg(c)) == ByBypass && cg(c) !in s'.lost ensures Watched(cg, s', c) {
      if c != cid {
        TableGrows(s.table, s'.table, c);
      }
    }
  }

  lemma RestoreKeeps(cg: Cid -> nat, s: State, id: nat, lookup: Lookup)
    requires Inv(cg, s) && Injective(cg) && Step(cg, s, SubmitRestore(id, lookup)).Some?
    ensures Inv(cg, Step(cg, s, SubmitRestore(id, lookup)).value)
  {
    hide Pending, Sound, SetPhase, ResolveBypassCgroup, RestoreQueued;
    PhaseKeeps(s.table, id, Waiting);
    var t, s' := s.table.timers[id], Step(cg, s, SubmitRestore(id, lookup)).value;
    forall c | Flag(s', cg(c)) == ByBypass && cg(c) !in s'.lost ensures Watched(cg, s', c) {
      if c != t.cid {
        OtherPending(s.table, id, c);
        TableGrows(s.table, s'.table, c);
        RestGrows(s.queue, RestoreJob(id, cg(t.cid)), cg(c));
      } else if !s.closed {
        LastQueued(s.queue, id, cg(c));
      }
    }
  }

  lemma LastQueued(q: seq<Job>, id: nat, g: nat)
    ensures RestoreQueued(q + [RestoreJob(id, g)], g)
  {
    assert (q + [RestoreJob(id, g)])[|q|] == RestoreJob(id, g);
  }

  lemma OtherPending(tb: Table, id: nat, c: Cid)
    requires id in tb.timers && tb.timers[id].cid != c
    ensures forall i :: Pending(tb, i, c) ==> i != id
  {
  }

  lemma SoundForget(tb: Table, cid: Cid)
    requires Sound(tb)
    ensures Sound(Forget(tb, cid))
    ensures forall i, c :: Pending(tb, i, c) <==> Pending(Forget(tb, cid), i, c)
  {
  }

  lemma FinishKeeps(cg: Cid -> nat, s: State, id: nat)
    requires Inv(cg, s) && Step(cg, s, AfterRestore(id)).Some?
    ensures Inv(cg, Step(cg, s, AfterRestore(id)).value)
  {
    PhaseKeeps(s.table, id, Finished);
    SoundForget(SetPhase(s.table, id, Finished), s.table.timers[id].cid);
    var s' := Step(cg, s, AfterRestore(id)).value;
    forall c, i | Pending(s.table, i, c) ensures Pending(s'.table, i, c) {
      assert i != id;
    }
    hide Pending, Sound, SetPhase, Forget, RestoreQueued;
    forall c ensures TimerPending(s.table, c) ==> TimerPending(s'.table, c) {
      TableGrows(s.table, s'.table, c);
    }
  }

  lemma FireKeeps(cg: Cid -> nat, s: State, id: nat)
    requires Inv(cg, s) && Step(cg, s, Fire(id)).Some?
    ensures Inv(cg, Step(cg, s, Fire(id)).value)
  {
    hide Pending, Sound, SetPhase, RestoreQueued;
    PhaseKeeps(s.table, id, Firing);
    var s' := Step(cg, s, Fire(id)).value;
    forall c ensures TimerPending(s.table, c) ==> TimerPending(s'.table, c) {
      TableGrows(s.table, s'.table, c);
    }
  }

  lemma StepKeeps(cg: Cid -> nat, s: State, e: Event)
    requires Inv(cg, s) && Injective(cg) && Step(cg, s, e).Some?
    ensures Inv(cg, Step(cg, s, e).value)
  {
    match e
    case Submit(job) =>
      hide TimerPending, Sound, RestoreQueued;
      forall g ensures RestoreQueued(s.queue, g) ==> RestoreQueued(s.queue + [job], g) {
        RestGrows(s.queue, job, g);
      }
    case CloseQueue =>
    case Exec(ok, kept) => ExecKeeps(cg, s, ok, kept);
    case Arm(cid) => ArmStepKeeps(cg, s, cid);
    case Fire(id) => FireKeeps(cg, s, id);
    case SubmitRestore(id, lookup) => RestoreKeeps(cg, s, id, lookup);
    case AfterRestore(id) => FinishKeeps(cg, s, id);
    case Shutdown => CancelAllSound(s.table);
    case FinalFlush(_) => CancelAllSound(s.table);
  }

  lemma {:induction false} RunKeeps(cg: Cid -> nat, s: State, es: seq<Event>)
    requires Inv(cg, s) && Injective(cg) && Run(cg, s, es).Some?
    ensures Inv(cg, Run(cg, s, es).value)
    decreases |es|
  {
    hide Inv, Step, Injective;
    if es != [] {
      StepKeeps(cg, s, es[0]);
      RunKeeps(cg, Step(cg, s, es[0]).value, es[1..]);
    }
  }

  /** In every run: a container whose flag was last written by a bypass has its timer armed or
      firing, its restore queued, or that bypass call about to arm, unless the restore was
      given up since (GivesUp). */
  lemma DeadManHolds(cg: Cid -> nat, es: seq<Event>, cid: Cid)
    requires Injective(cg) && Run(cg, INIT, es).Some?
    requires var s := Run(cg, INIT, es).value; Flag(s, cg(cid)) == ByBypass && cg(cid) !in s.lost
    ensures Watched(cg, Run(cg, INIT, es).value, cid)
  {
    hide Run, Watched, Injective;
    RunKeeps(cg, INIT, es);
  }

  /** The steps that give a restore up: it failed, it was refused by a closed queue, an Enable
      cancelled the timer although its own clear had failed, a flush left the flag behind, or
      the process shut down. */
  predicate GivesUp(cg: Cid -> nat, s: State, e: Event, g: nat) {
    match e
    case Exec(ok, kept) =>
      s.queue != []
      && (match s.queue[0]
          case RestoreJob(_, h) => !ok && g == h
          case EnableJob(cid) => ok && g == cg(cid) && g in kept
          case TeardownJob => !ok && g in kept && g in s.flags
          case _ => false)
    case SubmitRestore(id, _) => s.closed && id in s.table.timers && g == cg(s.table.timers[id].cid)
    case Shutdown => g in s.flags
    case FinalFlush(kept) => g in kept && g in s.flags
    case _ => false
  }

  /** Exactly those steps make a cgroup lost. */
  lemma LostExactly(cg: Cid -> nat, s: State, e: Event, g: nat)
    requires Step(cg, s, e).Some? && g !in s.lost
    ensures g in Step(cg, s, e).value.lost <==> GivesUp(cg, s, e, g)
  {
    hide CancelAll, CancelTimer, ArmTimer, SetPhase, Forget, ResolveBypassCgroup;
  }

  /** Nothing fails, nothing is kept, and the queue stays open. */
  predicate Smooth(e: Event) { (e.Exec? ==> e.ok && e.kept == {}) && !e.CloseQueue? }

  lemma {:induction false} SmoothLosesNothing(cg: Cid -> nat, s: State, es: seq<Event>)
    requires Run(cg, s, es).Some? && !s.closed && s.lost == {}
    requires forall e :: e in es ==> Smooth(e)
    ensures Run(cg, s, es).value.lost == {} && !Run(cg, s, es).value.closed
    decreases |es|
  {
    hide CancelAll, CancelTimer, ArmTimer, SetPhase;
    if es != [] {
      assert es[0] in es;
      SmoothLosesNothing(cg, Step(cg, s, es[0]).value, es[1..]);
    }
  }

  /** So once nothing is queued, arming, armed or firing, no container is left bypassed. */
  lemma QuietMeansEnforced(cg: Cid -> nat, es: seq<Event>, cid: Cid)
    requires Injective(cg) && Run(cg, INIT, es).Some? && forall e :: e in es ==> Smooth(e)
    requires var s := Run(cg, INIT, es).value; s.queue == [] && s.arming == multiset{} && !TimerPending(s.table, cid)
    ensures Flag(Run(cg, INIT, es).value, cg(cid)) != ByBypass
  {
    hide Run, Injective, TimerPending, Smooth;
    SmoothLosesNothing(cg, INIT, es);
    assert !RestoreQueued([], cg(cid));
    if Flag(Run(cg, INIT, es).value, cg(cid)) == ByBypass {
      DeadManHolds(cg, es, cid);
    }
  }

  // ---------------------------------------------------------------- an Enable whose clear fails

  /** A bypass call from its submission to its armed timer, with nothing else queued. */
  function BypassEvents(c: Cid): seq<Event> { [Submit(BypassJob(c)), Exec(true, {}), Arm(c)] }

  function AfterBypass(cg: Cid -> nat, s: State, c: Cid): State {
    Write(s, cg(c), ByBypass).(table := ArmTimer(s.table, c, cg(c)))
  }

  predicate AtRest(s: State) { s.queue == [] && !s.closed && s.arming == multiset{} }

  lemma BypassArms(cg: Cid -> nat, s: State, c: Cid, rest: seq<Event>)
    requires AtRest(s)
    ensures Run(cg, s, BypassEvents(c) + rest) == Run(cg, AfterBypass(cg, s, c), rest)
  {
    hide Run, ArmTimer;
    var s1 := s.(queue := [BypassJob(c)]);
    var s2 := Write(s, cg(c), ByBypass).(arming := multiset{c});
    assert [] + [BypassJob(c)] == [BypassJob(c)] && [BypassJob(c)][1..] == [];
    assert multiset{} + multiset{c} == multiset{c} && multiset{c} - multiset{c} == multiset{};
    assert Step(cg, s, Submit(BypassJob(c))) == Some(s1);
    assert Step(cg, s1, Exec(true, {})) == Some(s2);
    assert Step(cg, s2, Arm(c)) == Some(AfterBypass(cg, s, c));
    hide Step;
    var r2 := [Arm(c)] + rest;
    var r1 := [Exec(true, {})] + r2;
    assert BypassEvents(c) + rest == [Submit(BypassJob(c))] + r1;
    RunOne(cg, s, Submit(BypassJob(c)), r1);
    RunOne(cg, s1, Exec(true, {}), r2);
    RunOne(cg, s2, Arm(c), rest);
  }

  /** One queued closure that succeeds, from its submission to its end. */
  function CallEvents(job: Job, kept: set<nat>): seq<Event> { [Submit(job), Exec(true, kept)] }

  lemma CallRuns(cg: Cid -> nat, s: State, job: Job, kept: set<nat>, rest: seq<Event>)
    requires AtRest(s) && !job.RestoreJob?
    ensures Run(cg, s, CallEvents(job, kept) + rest) == Run(cg, RunJob(cg, s, job, true, kept), rest)
  {
    hide Run, RunJob;
    var s1 := s.(queue := [job]);
    assert [] + [job] == [job] && [job][1..] == [];
    assert s1.(queue := []) == s;
    assert Step(cg, s, Submit(job)) == Some(s1);
    assert Step(cg, s1, Exec(true, kept)) == Some(RunJob(cg, s, job, true, kept));
    hide Step;
    assert CallEvents(job, kept) + rest == [Submit(job)] + ([Exec(true, kept)] + rest);
    RunOne(cg, s, Submit(job), [Exec(true, kept)] + rest);
    RunOne(cg, s1, Exec(true, kept), rest);
  }

  /** An armed timer fires and its restore runs. */
  function ExpiryEvents(id: nat): seq<Event> { [Fire(id), SubmitRestore(id, Gone), Exec(true, {})] }

  function AfterExpiry(cg: Cid -> nat, s: State, id: nat, c: Cid): State
    requires id in s.table.timers
  {
    Write(s, cg(c), Cleared).(table := SetPhase(s.table, id, Waiting))
  }

  lemma ExpiryRuns(cg: Cid -> nat, s: State, id: nat, c: Cid, rest: seq<Event>)
    requires AtRest(s) && id in s.table.timers && s.table.timers[id] == Timer(c, cg(c), Armed)
    ensures Run(cg, s, ExpiryEvents(id) + rest) == Run(cg, AfterExpiry(cg, s, id, c), rest)
  {
    hide Run;
    var g := cg(c);
    var s1 := s.(table := SetPhase(s.table, id, Firing));
    var s2 := s.(table := SetPhase(s.table, id, Waiting), queue := [RestoreJob(id, g)]);
    assert s1.table.timers[id := Timer(c, g, Waiting)] == s2.table.timers;
    assert [] + [RestoreJob(id, g)] == [RestoreJob(id, g)] && [RestoreJob(id, g)][1..] == [];
    assert Step(cg, s, Fire(id)) == Some(s1);
    assert Step(cg, s1, SubmitRestore(id, Gone)) == Some(s2);
    assert Step(cg, s2, Exec(true, {})) == Some(AfterExpiry(cg, s, id, c));
    hide Step, AfterExpiry;
    var r2 := [Exec(true, {})] + rest;
    assert ExpiryEvents(id) + rest == [Fire(id)] + ([SubmitRestore(id, Gone)] + r2);
    RunOne(cg, s, Fire(id), [SubmitRestore(id, Gone)] + r2);
    RunOne(cg, s1, SubmitRestore(id, Gone), r2);
    RunOne(cg, s2, Exec(true, {}), rest);
  }

  function SwallowTrace(cg: Cid -> nat, c: Cid): seq<Event> {
    BypassEvents(c) + CallEvents(EnableJob(c), {cg(c)})
  }

  /** Every call succeeds and the queue is open, yet the container stays bypassed with nothing
      on its way to restore it: Install hid the failure of its clear and the timer was cancelled. */
  lemma SwallowedClearStrands(cg: Cid -> nat, c: Cid)
    ensures forall e :: e in SwallowTrace(cg, c) && e.Exec? ==> e.ok
    ensures Run(cg, INIT, SwallowTrace(cg, c)).Some?
    ensures var s := Run(cg, INIT, SwallowTrace(cg, c)).value;
            !s.closed && Flag(s, cg(c)) == ByBypass && !Watched(cg, s, c)
  {
    var armed, calls := AfterBypass(cg, INIT, c), CallEvents(EnableJob(c), {cg(c)});
    var s := RunJob(cg, armed, EnableJob(c), true, {cg(c)});
    assert Flag(s, cg(c)) == ByBypass && !Watched(cg, s, c);
    hide Run, RunJob, Watched;
    BypassArms(cg, INIT, c, calls);
    assert calls == calls + [];
    CallRuns(cg, armed, EnableJob(c), {cg(c)}, []);
    RunNothing(cg, s);
  }

  // ---------------------------------------------------------------- why map membership is not the invariant

  /** A second bypass is queued while the first one's restore is, and arms before the first
      timer's clean-up runs; the clean-up then deletes the second timer's entry. */
  function RaceTrace(c: Cid): seq<Event> {
    BypassEvents(c)
    + [Fire(0), SubmitRestore(0, Gone), Submit(BypassJob(c)), Exec(true, {}), Exec(true, {}), Arm(c), AfterRestore(0)]
  }

  function RaceEnd(cg: Cid -> nat, c: Cid): State {
    var g := cg(c);
    State([], false, map[g := ByBypass], multiset{}, Table(map[0 := Timer(c, g, Finished), 1 := Timer(c, g, Armed)], map[], 2), {})
  }

  lemma RunOne(cg: Cid -> nat, s: State, e: Event, rest: seq<Event>)
    requires Step(cg, s, e).Some?
    ensures Run(cg, s, [e] + rest) == Run(cg, Step(cg, s, e).value, rest)
  {
    assert ([e] + rest)[1..] == rest;
  }

  /** The second bypass waiting behind the restore. */
  function Between(g: nat, c: Cid): State {
    State([RestoreJob(0, g), BypassJob(c)], false, map[g := ByBypass], multiset{}, Table(map[0 := Timer(c, g, Waiting)], map[c := 0], 1), {})
  }

  lemma RestoreQueues(cg: Cid -> nat, c: Cid, rest: seq<Event>)
    ensures Run(cg, AfterBypass(cg, INIT, c), [Fire(0)] + ([SubmitRestore(0, Gone)] + ([Submit(BypassJob(c))] + rest)))
            == Run(cg, Between(cg(c), c), rest)
  {
    hide Run;
    var g := cg(c);
    var s3 := AfterBypass(cg, INIT, c);
    var armed, firing := map[0 := Timer(c, g, Armed)], map[0 := Timer(c, g, Firing)];
    assert s3.table == Table(armed, map[c := 0], 1) && {} - {g} == {};
    assert armed[0 := Timer(c, g, Firing)] == firing && firing[0 := Timer(c, g, Waiting)] == map[0 := Timer(c, g, Waiting)];
    var s4 := s3.(table := Table(firing, map[c := 0], 1));
    var s5 := s4.(table := Table(map[0 := Timer(c, g, Waiting)], map[c := 0], 1), queue := [RestoreJob(0, g)]);
    assert [] + [RestoreJob(0, g)] == [RestoreJob(0, g)] && [RestoreJob(0, g)] + [BypassJob(c)] == [RestoreJob(0, g), BypassJob(c)];
    assert Step(cg, s3, Fire(0)) == Some(s4);
    assert Step(cg, s4, SubmitRestore(0, Gone)) == Some(s5);
    assert Step(cg, s5, Submit(BypassJob(c))) == Some(Between(g, c));
    hide Step;
    RunOne(cg, s3, Fire(0), [SubmitRestore(0, Gone)] + ([Submit(BypassJob(c))] + rest));
    RunOne(cg, s4, SubmitRestore(0, Gone), [Submit(BypassJob(c))] + rest);
    RunOne(cg, s5, Submit(BypassJob(c)), rest);
  }

  /** The restore and the second bypass run. */
  lemma BothRun(cg: Cid -> nat, c: Cid, rest: seq<Event>)
    ensures var g := cg(c);
            Run(cg, Between(g, c), [Exec(true, {})] + ([Exec(true, {})] + rest))
            == Run(cg, Between(g, c).(queue := [], arming := multiset{c}), rest)
  {
    hide Run;
    var g := cg(c);
    var s6 := Between(g, c);
    var s7 := s6.(queue := [BypassJob(c)], flags := map[g := Cleared]);
    assert s6.queue[1..] == [BypassJob(c)] && [BypassJob(c)][1..] == [] && {} - {g} == {};
    assert map[g := ByBypass][g := Cleared] == map[g := Cleared] && map[g := Cleared][g := ByBypass] == map[g := ByBypass];
    assert multiset{} + multiset{c} == multiset{c};
    assert Step(cg, s6, Exec(true, {})) == Some(s7);
    assert Step(cg, s7, Exec(true, {})) == Some(s6.(queue := [], arming := multiset{c}));
    hide Step;
    RunOne(cg, s6, Exec(true, {}), [Exec(true, {})] + rest);
    RunOne(cg, s7, Exec(true, {}), rest);
  }

  /** The second bypass arms, and the first timer's clean-up deletes its entry. */
  lemma SecondArms(cg: Cid -> nat, c: Cid)
    ensures Run(cg, Between(cg(c), c).(queue := [], arming := multiset{c}), [Arm(c)] + [AfterRestore(0)]) == Some(RaceEnd(cg, c))
  {
    hide Run;
    var g := cg(c);
    var s8 := Between(g, c).(queue := [], arming := multiset{c});
    assert multiset{c} - multiset{c} == multiset{};
    var waiting := map[0 := Timer(c, g, Waiting)];
    assert waiting[0 := Stop(waiting[0])] == waiting && map[c := 0][c := 1] == map[c := 1];
    var s9 := s8.(arming := multiset{}, table := Table(map[0 := Timer(c, g, Waiting), 1 := Timer(c, g, Armed)], map[c := 1], 2));
    assert Step(cg, s8, Arm(c)) == Some(s9);
    assert map[c := 1] - {c} == map[] && s9.table.timers[0 := Timer(c, g, Finished)] == RaceEnd(cg, c).table.timers;
    assert Step(cg, s9, AfterRestore(0)) == Some(RaceEnd(cg, c));
    hide Step;
    RunOne(cg, s8, Arm(c), [AfterRestore(0)]);
    assert [AfterRestore(0)] == [AfterRestore(0)] + [];
    RunOne(cg, s9, AfterRestore(0), []);
    RunNothing(cg, RaceEnd(cg, c));
  }

  lemma RaceRuns(cg: Cid -> nat, c: Cid)
    ensures Run(cg, INIT, RaceTrace(c)) == Some(RaceEnd(cg, c))
  {
    hide Run, AfterBypass, Between, RaceEnd;
    var tail := [Arm(c)] + [AfterRestore(0)];
    var mid := [Exec(true, {})] + ([Exec(true, {})] + tail);
    var rest := [Fire(0)] + ([SubmitRestore(0, Gone)] + ([Submit(BypassJob(c))] + mid));
    assert RaceTrace(c) == BypassEvents(c) + rest;
    BypassArms(cg, INIT, c, rest);
    RestoreQueues(cg, c, mid);
    BothRun(cg, c, tail);
    SecondArms(cg, c);
  }

  lemma RunNothing(cg: Cid -> nat, s: State)
    ensures Run(cg, s, []) == Some(s)
  {
  }

  /** The invariant must speak of armed timers: with no failure at all, a bypassed container
      can have no entry in the handler's map. */
  lemma MapMembershipFails(cg: Cid -> nat, c: Cid)
    ensures forall e :: e in RaceTrace(c) ==> Smooth(e)
    ensures Run(cg, INIT, RaceTrace(c)).Some?
    ensures var s := Run(cg, INIT, RaceTrace(c)).value;
            && Flag(s, cg(c)) == ByBypass && s.queue == [] && s.arming == multiset{}
            && c !in s.table.mapped && TimerPending(s.table, c)
  {
    hide Run;
    RaceRuns(cg, c);
    assert Pending(RaceEnd(cg, c).table, 1, c);
  }

  // ---------------------------------------------------------------- when the map does hold a timer

  predicate Remembered(tb: Table, id: nat) {
    id in tb.timers && tb.timers[id].cid in tb.mapped && tb.mapped[tb.timers[id].cid] == id
  }

  predicate IsArmed(tb: Table, id: nat) { id in tb.timers && tb.timers[id].phase == Armed }

  /** This step is the clean-up of another timer of the same container. */
  predicate Erases(tb: Table, e: Event, id: nat) {
    e.AfterRestore? && e.timer != id && id in tb.timers && e.timer in tb.timers
    && tb.timers[e.timer].cid == tb.timers[id].cid
  }

  /** Such a step happened in the run, after the timer was made. */
  ghost predicate Erased(cg: Cid -> nat, es: seq<Event>, id: nat) {
    exists k :: 0 <= k < |es| && Run(cg, INIT, es[..k]).Some? && Erases(Run(cg, INIT, es[..k]).value.table, es[k], id)
  }

  lemma {:induction false} RunSnoc(cg: Cid -> nat, s: State, es: seq<Event>, e: Event)
    ensures Run(cg, s, es + [e]) == match Run(cg, s, es) case None => None case Some(t) => Step(cg, t, e)
    decreases |es|
  {
    hide Step;
    if es == [] {
      assert [] + [e] == [e] && [e][1..] == [];
    } else {
      assert (es + [e])[0] == es[0] && (es + [e])[1..] == es[1..] + [e];
      if Step(cg, s, es[0]).Some? {
        RunSnoc(cg, Step(cg, s, es[0]).value, es[1..], e);
      }
    }
  }

  lemma ErasedSnoc(cg: Cid -> nat, es: seq<Event>, e: Event, id: nat)
    requires Run(cg, INIT, es).Some?
    ensures Erased(cg, es + [e], id) <==> Erased(cg, es, id) || Erases(Run(cg, INIT, es).value.table, e, id)
  {
    hide Run, Erases;
    var all := es + [e];
    assert all[..|es|] == es && all[|es|] == e;
    assert forall k :: 0 <= k < |es| ==> all[..k] == es[..k] && all[k] == es[k];
  }

  /** What a step does to the remembered and the armed timers of a sound table: an armed timer
      was armed before or was just made, and stays remembered unless it is erased. */
  ghost predicate Carries(tb: Table, e: Event, tb': Table) {
    && (forall id :: id in tb.timers ==> id in tb'.timers && tb'.timers[id].cid == tb.timers[id].cid)
    && (forall id :: IsArmed(tb', id) && id in tb.timers ==> IsArmed(tb, id) && (Remembered(tb', id) <==> Remembered(tb, id) && !Erases(tb, e, id)))
    && (forall id :: IsArmed(tb', id) && id !in tb.timers ==> Remembered(tb', id))
  }

  lemma CancelCarries(tb: Table, cid: Cid, e: Event)
    requires Sound(tb) && !e.AfterRestore?
    ensures Carries(tb, e, CancelTimer(tb, cid))
  {
  }

  lemma CancelAllCarries(tb: Table, e: Event)
    requires Sound(tb) && !e.AfterRestore?
    ensures Carries(tb, e, CancelAll(tb))
  {
    assert forall cid :: cid in tb.mapped ==> tb.mapped[cid] in tb.mapped.Values;
  }

  lemma ArmCarries(tb: Table, cid: Cid, g: nat, e: Event)
    requires Sound(tb) && !e.AfterRestore?
    ensures Carries(tb, e, ArmTimer(tb, cid, g))
  {
  }

  lemma PhaseCarries(tb: Table, id: nat, p: Phase, e: Event)
    requires Sound(tb) && id in tb.timers && p != Armed && !e.AfterRestore?
    ensures Carries(tb, e, SetPhase(tb, id, p))
  {
  }

  lemma ForgetCarries(tb: Table, id: nat)
    requires Sound(tb) && id in tb.timers && tb.timers[id].phase != Armed
    ensures Carries(tb, AfterRestore(id), Forget(SetPhase(tb, id, Finished), tb.timers[id].cid))
  {
  }

  lemma SameCarries(tb: Table, e: Event)
    requires !e.AfterRestore?
    ensures Carries(tb, e, tb)
  {
  }

  lemma StepCarries(cg: Cid -> nat, s: State, e: Event)
    requires Sound(s.table) && Step(cg, s, e).Some?
    ensures Carries(s.table, e, Step(cg, s, e).value.table)
  {
    hide Carries, Sound, CancelTimer, CancelAll, ArmTimer, SetPhase, Forget, ResolveBypassCgroup;
    if !e.AfterRestore? {
      SameCarries(s.table, e);
      CancelAllCarries(s.table, e);
    }
    match e
    case Exec(_, _) =>
      if s.queue[0].EnableJob? {
        CancelCarries(s.table, s.queue[0].cid, e);
      }
    case Arm(cid) => ArmCarries(s.table, cid, cg(cid), e);
    case Fire(id) => PhaseCarries(s.table, id, Firing, e);
    case SubmitRestore(id, _) => PhaseCarries(s.table, id, Waiting, e);
    case AfterRestore(id) => ForgetCarries(s.table, id);
    case _ =>
  }

  lemma StepSound(cg: Cid -> nat, s: State, e: Event)
    requires Sound(s.table) && Step(cg, s, e).Some?
    ensures Sound(Step(cg, s, e).value.table)
  {
    hide Pending, Sound, CancelTimer, CancelAll, ArmTimer, SetPhase, Forget, ResolveBypassCgroup;
    CancelAllSound(s.table);
    match e
    case Exec(_, _) =>
      if s.queue[0].EnableJob? {
        CancelKeeps(s.table, s.queue[0].cid);
      }
    case Arm(cid) => ArmKeeps(s.table, cid, cg(cid));
    case Fire(id) => PhaseKeeps(s.table, id, Firing);
    case SubmitRestore(id, _) => PhaseKeeps(s.table, id, Waiting);
    case AfterRestore(id) =>
      PhaseKeeps(s.table, id, Finished);
      SoundForget(SetPhase(s.table, id, Finished), s.table.timers[id].cid);
    case _ =>
  }

  /** In every run an armed timer is the one its container's entry names exactly when no other
      timer of that container has been cleaned up since it was armed. */
  lemma {:induction false} RememberedExactly(cg: Cid -> nat, es: seq<Event>)
    requires Run(cg, INIT, es).Some?
    ensures Sound(Run(cg, INIT, es).value.table)
    ensures forall id :: IsArmed(Run(cg, INIT, es).value.table, id) ==>
              (Remembered(Run(cg, INIT, es).value.table, id) <==> !Erased(cg, es, id))
    ensures forall id :: Erased(cg, es, id) ==> id in Run(cg, INIT, es).value.table.timers
    decreases |es|
  {
    hide Step, Sound, Erased, Remembered, IsArmed, Erases;
    if es == [] {
      StartsEmpty(cg);
    } else {
      var front, e := es[..|es| - 1], es[|es| - 1];
      assert es == front + [e];
      RunSnoc(cg, INIT, front, e);
      hide Run;
      RememberedExactly(cg, front);
      var s, s' := Run(cg, INIT, front).value, Run(cg, INIT, es).value;
      StepCarries(cg, s, e);
      StepSound(cg, s, e);
      forall id ensures Erased(cg, es, id) <==> Erased(cg, front, id) || Erases(s.table, e, id) {
        ErasedSnoc(cg, front, e, id);
      }
      ErasesKnown(s.table, e);
    }
  }

  lemma StartsEmpty(cg: Cid -> nat)
    ensures Sound(INIT.table) && (forall id :: !IsArmed(INIT.table, id)) && forall id :: !Erased(cg, [], id)
  {
  }

  lemma ErasesKnown(tb: Table, e: Event)
    ensures forall id :: Erases(tb, e, id) ==> id in tb.timers
  {
  }

  // ---------------------------------------------------------------- a bypass that stays remembered

  /** Every timer of c is spent, but for the remembered one, which arming will stop. */
  predicate Settled(tb: Table, c: Cid) {
    forall id :: id in tb.timers && tb.timers[id].cid == c ==>
      tb.timers[id].phase == Stopped || tb.timers[id].phase == Finished || (tb.timers[id].phase == Armed && Remembered(tb, id))
  }

  /** While id is armed it is remembered, and every other timer of its container is spent. */
  predicate Sole(tb: Table, c: Cid, id: nat) {
    && id in tb.timers && tb.timers[id].cid == c
    && (tb.timers[id].phase == Armed ==>
          Remembered(tb, id)
          && forall i :: i in tb.timers && i != id && tb.timers[i].cid == c ==> tb.timers[i].phase == Stopped || tb.timers[i].phase == Finished)
  }

  lemma ArmIsSole(tb: Table, c: Cid, g: nat)
    requires Sound(tb) && Settled(tb, c)
    ensures Sole(ArmTimer(tb, c, g), c, tb.next)
  {
  }

  lemma SoleKept(cg: Cid -> nat, s: State, e: Event, c: Cid, id: nat)
    requires Sound(s.table) && Sole(s.table, c, id) && Step(cg, s, e).Some?
    ensures Sole(Step(cg, s, e).value.table, c, id)
  {
    hide CancelAll, CancelTimer, ArmTimer, ResolveBypassCgroup, Sound;
    SoleCancelAll(s.table, c, id);
    match e
    case Exec(_, _) =>
      if s.queue[0].EnableJob? {
        SoleCancel(s.table, s.queue[0].cid, c, id);
      }
    case Arm(cid) => SoleArm(s.table, cid, cg(cid), c, id);
    case _ =>
  }

  lemma SoleCancelAll(tb: Table, c: Cid, id: nat)
    requires Sole(tb, c, id)
    ensures Sole(CancelAll(tb), c, id)
  {
    assert Remembered(tb, id) ==> tb.mapped[c] in tb.mapped.Values;
  }

  lemma SoleCancel(tb: Table, cid: Cid, c: Cid, id: nat)
    requires Sound(tb) && Sole(tb, c, id)
    ensures Sole(CancelTimer(tb, cid), c, id)
  {
  }

  lemma SoleArm(tb: Table, cid: Cid, g: nat, c: Cid, id: nat)
    requires Sound(tb) && Sole(tb, c, id)
    ensures Sole(ArmTimer(tb, cid, g), c, id)
  {
  }

  /** A bypass that arms while its container's other timers are spent stays remembered until it
      is cancelled, replaced or fires, whatever else happens. */
  lemma {:induction false} StaysRemembered(cg: Cid -> nat, s: State, c: Cid, es: seq<Event>, id: nat)
    requires Sound(s.table) && Sole(s.table, c, id) && Run(cg, s, es).Some?
    ensures var tb := Run(cg, s, es).value.table; IsArmed(tb, id) ==> Remembered(tb, id)
    decreases |es|
  {
    hide Step, Sound;
    if es != [] {
      hide Sole;
      SoleKept(cg, s, es[0], c, id);
      StepSound(cg, s, es[0]);
      StaysRemembered(cg, Step(cg, s, es[0]).value, c, es[1..], id);
    }
  }

  lemma SettledBypassStaysRemembered(cg: Cid -> nat, before: seq<Event>, c: Cid, after: seq<Event>)
    requires Run(cg, INIT, before).Some? && c in Run(cg, INIT, before).value.arming
    requires Settled(Run(cg, INIT, before).value.table, c)
    requires Run(cg, Step(cg, Run(cg, INIT, before).value, Arm(c)).value, after).Some?
    ensures var s := Run(cg, INIT, before).value;
            var tb := Run(cg, Step(cg, s, Arm(c)).value, after).value.table;
            IsArmed(tb, s.table.next) ==> Remembered(tb, s.table.next)
  {
    hide Run, Sound, Sole, Settled, Remembered, IsArmed, ArmTimer;
    RememberedExactly(cg, before);
    var s := Run(cg, INIT, before).value;
    ArmIsSole(s.table, c, cg(c));
    StepSound(cg, s, Arm(c));
    StaysRemembered(cg, Step(cg, s, Arm(c)).value, c, after, s.table.next);
  }

  // ---------------------------------------------------------------- what a forgotten timer does

  /** An Enable stops an armed timer of its container exactly when the map remembers it. */
  lemma EnableStopsIffRemembered(cg: Cid -> nat, s: State, c: Cid, id: nat, kept: set<nat>)
    requires Sound(s.table) && IsArmed(s.table, id) && s.table.timers[id].cid == c
    ensures IsArmed(RunJob(cg, s, EnableJob(c), true, kept).table, id) <==> !Remembered(s.table, id)
  {
  }

  lemma ForgottenSurvives(cg: Cid -> nat, s: State, c: Cid, id: nat)
    requires AtRest(s) && Sound(s.table) && id in s.table.timers && s.table.timers[id] == Timer(c, cg(c), Armed)
    requires !Remembered(s.table, id)
    ensures var s1 := RunJob(cg, s, EnableJob(c), true, {});
            var s2 := RunJob(cg, s1, DisableJob(c), true, {});
            && AtRest(s1) && AtRest(s2) && id in s2.table.timers && s2.table.timers[id] == Timer(c, cg(c), Armed)
            && Flag(s2, cg(c)) == ByDisable && Flag(AfterExpiry(cg, s2, id, c), cg(c)) == Cleared
  {
    EnableStopsIffRemembered(cg, s, c, id, {});
  }

  /** So a forgotten timer outlives an Enable, and its restore undoes a Disable that came after. */
  lemma ForgottenUndoesDisable(cg: Cid -> nat, s: State, c: Cid, id: nat)
    requires AtRest(s) && Sound(s.table) && id in s.table.timers && s.table.timers[id] == Timer(c, cg(c), Armed)
    requires !Remembered(s.table, id)
    ensures var calls := CallEvents(EnableJob(c), {}) + CallEvents(DisableJob(c), {});
            && Run(cg, s, calls).Some? && Flag(Run(cg, s, calls).value, cg(c)) == ByDisable
            && Run(cg, s, calls + ExpiryEvents(id)).Some? && Flag(Run(cg, s, calls + ExpiryEvents(id)).value, cg(c)) == Cleared
  {
    var enable, disable := CallEvents(EnableJob(c), {}), CallEvents(DisableJob(c), {});
    var s1 := RunJob(cg, s, EnableJob(c), true, {});
    var s2 := RunJob(cg, s1, DisableJob(c), true, {});
    var s3 := AfterExpiry(cg, s2, id, c);
    ForgottenSurvives(cg, s, c, id);
    hide Flag, CallEvents, ExpiryEvents;
    hide Run, RunJob, AfterExpiry, AtRest, Sound, Remembered;
    CallRuns(cg, s, EnableJob(c), {}, disable);
    assert disable == disable + [];
    CallRuns(cg, s1, DisableJob(c), {}, []);
    RunNothing(cg, s2);
    Assoc(enable, disable, ExpiryEvents(id));
    CallRuns(cg, s, EnableJob(c), {}, disable + ExpiryEvents(id));
    CallRuns(cg, s1, DisableJob(c), {}, ExpiryEvents(id));
    assert ExpiryEvents(id) == ExpiryEvents(id) + [];
    ExpiryRuns(cg, s2, id, c, []);
    RunNothing(cg, s3);
  }

  function ForgottenTrace(c: Cid): seq<Event> { BypassEvents(c) + (ExpiryEvents(1) + [AfterRestore(1)]) }

  /** That no timer of the container is firing or waiting when a bypass arms is not enough: a
      forgotten timer can still be armed, and its clean-up erases the new entry later. */
  lemma ForgottenTimerErases(cg: Cid -> nat, c: Cid)
    ensures forall id :: id in RaceEnd(cg, c).table.timers ==> RaceEnd(cg, c).table.timers[id].phase !in {Firing, Waiting}
    ensures !Settled(RaceEnd(cg, c).table, c)
    ensures Run(cg, RaceEnd(cg, c), ForgottenTrace(c)).Some?
    ensures var tb := Run(cg, RaceEnd(cg, c), ForgottenTrace(c)).value.table; IsArmed(tb, 2) && !Remembered(tb, 2)
  {
    var s := RaceEnd(cg, c);
    var s1 := AfterBypass(cg, s, c);
    var s2 := AfterExpiry(cg, s1, 1, c);
    assert 1 in s.table.timers && !Remembered(s.table, 1);
    assert Step(cg, s2, AfterRestore(1)).Some?;
    var s3 := Step(cg, s2, AfterRestore(1)).value;
    assert IsArmed(s3.table, 2) && !Remembered(s3.table, 2);
    hide Run, Step, AfterBypass, AfterExpiry, RaceEnd;
    BypassArms(cg, s, c, ExpiryEvents(1) + [AfterRestore(1)]);
    ExpiryRuns(cg, s1, 1, c, [AfterRestore(1)]);
    assert [AfterRestore(1)] == [AfterRestore(1)] + [];
    RunOne(cg, s2, AfterRestore(1), []);
    RunNothing(cg, s3);
  }
}
