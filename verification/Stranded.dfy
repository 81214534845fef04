/** Exactly when a bypassed container is left with nothing on its way to restore it. */
module Stranded {
  import opened Text
  import opened Bypass

  // ---------------------------------------------------------------- the last watcher

  /** The queue once this step has taken what it takes from it. */
  function Rest(s: State, e: Event): seq<Job> { if e.Exec? && s.queue != [] then s.queue[1..] else s.queue }

  predicate Stoppable(tb: Table, id: nat) { IsArmed(tb, id) && Remembered(tb, id) }

  /** The step stops this timer, or spends it. */
  predicate Uses(s: State, e: Event, id: nat) {
    match e
    case Exec(_, _) => s.queue != [] && (s.queue[0].EnableJob? || s.queue[0].TeardownJob?) && Stoppable(s.table, id)
    case SubmitRestore(i, _) => id == i
    case Shutdown => Stoppable(s.table, id)
    case FinalFlush(_) => Stoppable(s.table, id)
    case _ => false
  }

  /** The step gives the restore up, and there is no other: no call about to arm, no other
      restore queued, and no armed or firing timer but those it uses. */
  ghost predicate Strands(cg: Cid -> nat, s: State, e: Event, cid: Cid) {
    && GivesUp(cg, s, e, cg(cid)) && cid !in s.arming && !RestoreQueued(Rest(s, e), cg(cid))
    && forall id :: Pending(s.table, id, cid) ==> Uses(s, e, id)
  }

  /** The step writes or deletes this flag. */
  ghost predicate Rewrites(cg: Cid -> nat, s: State, e: Event, g: nat) {
    match e
    case Exec(ok, kept) =>
      s.queue != []
      && (match s.queue[0]
          case EnableJob(c) => g == cg(c) && g !in kept
          case DisableJob(c) => ok && g == cg(c)
          case BypassJob(c) => ok && g == cg(c)
          case RestoreJob(_, h) => ok && g == h
          case TeardownJob => ok || g !in kept
          case ReenrollJob(cids) => g !in kept && exists c :: c in cids && cg(c) == g)
    case FinalFlush(kept) => g !in kept
    case _ => false
  }

  // ---------------------------------------------------------------- one step

  /** What stopping does to the timers of a container. */
  lemma CancelPending(tb: Table, c: Cid, cid: Cid, id: nat)
    requires Sound(tb)
    ensures Pending(CancelTimer(tb, c), id, cid) <==> Pending(tb, id, cid) && !(c == cid && Stoppable(tb, id))
  {
  }

  lemma CancelAllPending(tb: Table, cid: Cid, id: nat)
    requires Sound(tb)
    ensures Pending(CancelAll(tb), id, cid) <==> Pending(tb, id, cid) && !Stoppable(tb, id)
  {
    if id in tb.timers && id in tb.mapped.Values {
      var c :| c in tb.mapped && tb.mapped[c] == id;
      assert tb.timers[id].cid == c;
    }
  }

  lemma PopWatch(q: seq<Job>, g: nat)
    requires q != []
    ensures RestoreQueued(q, g) <==> RestoreQueued(q[1..], g) || (q[0].RestoreJob? && q[0].cgroup == g)
  {
    assert q == [q[0]] + q[1..];
    if q[0].RestoreJob? && q[0].cgroup == g {
      assert RestoreJob(q[0].timer, g) in q;
    }
    if id :| RestoreJob(id, g) in q[1..] {
      assert RestoreJob(id, g) in q;
    }
  }

  lemma EnableWatch(cg: Cid -> nat, s: State, ok: bool, kept: set<nat>, cid: Cid)
    requires Sound(s.table) && Injective(cg) && s.queue != [] && s.queue[0].EnableJob? && Flag(s, cg(cid)) == ByBypass
    requires !Rewrites(cg, s, Exec(ok, kept), cg(cid))
    ensures var s' := Step(cg, s, Exec(ok, kept)).value;
            && Flag(s', cg(cid)) == ByBypass
            && (Watched(cg, s', cid) <==> Watched(cg, s, cid) && !Strands(cg, s, Exec(ok, kept), cid))
  {
    hide Sound, Pending, CancelTimer, RestoreQueued, Stoppable;
    var e, s' := Exec(ok, kept), Step(cg, s, Exec(ok, kept)).value;
    PopWatch(s.queue, cg(cid));
    var c := s.queue[0].cid;
    forall id ensures Pending(CancelTimer(s.table, c), id, cid) <==> Pending(s.table, id, cid) && !(c == cid && Stoppable(s.table, id)) {
      CancelPending(s.table, c, cid, id);
    }
    if ok && c == cid {
      assert forall id :: Uses(s, e, id) <==> Stoppable(s.table, id);
    } else if ok {
      assert TimerPending(s'.table, cid) <==> TimerPending(s.table, cid);
    }
  }

  lemma TeardownWatch(cg: Cid -> nat, s: State, ok: bool, kept: set<nat>, cid: Cid)
    requires Sound(s.table) && s.queue != [] && s.queue[0].TeardownJob? && Flag(s, cg(cid)) == ByBypass
    requires !Rewrites(cg, s, Exec(ok, kept), cg(cid))
    ensures var s' := Step(cg, s, Exec(ok, kept)).value;
            && Flag(s', cg(cid)) == ByBypass
            && (Watched(cg, s', cid) <==> Watched(cg, s, cid) && !Strands(cg, s, Exec(ok, kept), cid))
  {
    hide Sound, Pending, CancelAll, RestoreQueued, Stoppable;
    PopWatch(s.queue, cg(cid));
    StopAllWatch(s.table, cid);
    assert forall id :: Uses(s, Exec(ok, kept), id) <==> Stoppable(s.table, id);
  }

  lemma StopAllWatch(tb: Table, cid: Cid)
    requires Sound(tb)
    ensures TimerPending(CancelAll(tb), cid) <==> exists id :: Pending(tb, id, cid) && !Stoppable(tb, id)
  {
    hide Sound, Pending, CancelAll, Stoppable;
    forall id ensures Pending(CancelAll(tb), id, cid) <==> Pending(tb, id, cid) && !Stoppable(tb, id) {
      CancelAllPending(tb, cid, id);
    }
  }

  lemma OtherJobWatch(cg: Cid -> nat, s: State, ok: bool, kept: set<nat>, cid: Cid)
    requires s.queue != [] && !s.queue[0].EnableJob? && !s.queue[0].TeardownJob? && Flag(s, cg(cid)) == ByBypass && Injective(cg)
    requires !Rewrites(cg, s, Exec(ok, kept), cg(cid))
    ensures var s' := Step(cg, s, Exec(ok, kept)).value;
            && Flag(s', cg(cid)) == ByBypass
            && (Watched(cg, s', cid) <==> Watched(cg, s, cid) && !Strands(cg, s, Exec(ok, kept), cid))
  {
    hide Pending, RestoreQueued, Stoppable;
    PopWatch(s.queue, cg(cid));
    assert forall id :: !Uses(s, Exec(ok, kept), id);
  }

  lemma SubmitWatch(cg: Cid -> nat, s: State, job: Job, cid: Cid)
    requires Step(cg, s, Submit(job)).Some?
    ensures Watched(cg, Step(cg, s, Submit(job)).value, cid) <==> Watched(cg, s, cid)
  {
    hide TimerPending;
    assert forall j :: j in s.queue + [job] <==> j in s.queue || j == job;
  }

  lemma ArmWatch(cg: Cid -> nat, s: State, c: Cid, cid: Cid)
    requires Sound(s.table) && c in s.arming
    ensures Watched(cg, Step(cg, s, Arm(c)).value, cid) <==> Watched(cg, s, cid)
  {
    hide RestoreQueued;
    var s' := Step(cg, s, Arm(c)).value;
    if c == cid {
      assert Pending(s'.table, s.table.next, cid);
    } else {
      assert cid in s.arming <==> cid in s'.arming;
      forall id ensures Pending(s'.table, id, cid) <==> Pending(s.table, id, cid) {
      }
    }
  }

  lemma FireWatch(cg: Cid -> nat, s: State, id: nat, cid: Cid)
    requires Step(cg, s, Fire(id)).Some?
    ensures Watched(cg, Step(cg, s, Fire(id)).value, cid) <==> Watched(cg, s, cid)
  {
    hide RestoreQueued;
    var s' := Step(cg, s, Fire(id)).value;
    forall i ensures Pending(s'.table, i, cid) <==> Pending(s.table, i, cid) {
    }
  }

  lemma FinishWatch(cg: Cid -> nat, s: State, id: nat, cid: Cid)
    requires Step(cg, s, AfterRestore(id)).Some?
    ensures Watched(cg, Step(cg, s, AfterRestore(id)).value, cid) <==> Watched(cg, s, cid)
  {
    hide RestoreQueued;
    var s' := Step(cg, s, AfterRestore(id)).value;
    forall i ensures Pending(s'.table, i, cid) <==> Pending(s.table, i, cid) {
    }
  }

  lemma RestoreWatch(cg: Cid -> nat, s: State, id: nat, lookup: Lookup, cid: Cid)
    requires Injective(cg) && Step(cg, s, SubmitRestore(id, lookup)).Some?
    ensures Watched(cg, Step(cg, s, SubmitRestore(id, lookup)).value, cid)
            <==> Watched(cg, s, cid) && !Strands(cg, s, SubmitRestore(id, lookup), cid)
  {
    hide ResolveBypassCgroup;
    var t, s' := s.table.timers[id], Step(cg, s, SubmitRestore(id, lookup)).value;
    forall i ensures Pending(s'.table, i, cid) <==> Pending(s.table, i, cid) && i != id {
    }
    assert t.cid == cid ==> Pending(s.table, id, cid);
    hide Pending;
    if !s.closed {
      QueuedMore(s.queue, id, cg(t.cid), cg(cid));
    }
  }

  lemma QueuedMore(q: seq<Job>, id: nat, h: nat, g: nat)
    ensures RestoreQueued(q + [RestoreJob(id, h)], g) <==> RestoreQueued(q, g) || g == h
  {
    var q' := q + [RestoreJob(id, h)];
    assert forall j :: j in q' <==> j in q || j == RestoreJob(id, h);
    assert RestoreJob(id, h) in q';
  }

  lemma StopAllStrands(cg: Cid -> nat, s: State, e: Event, cid: Cid)
    requires Sound(s.table) && Flag(s, cg(cid)) == ByBypass && Step(cg, s, e).Some? && !Rewrites(cg, s, e, cg(cid))
    requires e == Shutdown || e.FinalFlush?
    ensures var s' := Step(cg, s, e).value;
            Flag(s', cg(cid)) == ByBypass && (Watched(cg, s', cid) <==> Watched(cg, s, cid) && !Strands(cg, s, e, cid))
  {
    hide Sound, Pending, CancelAll, Stoppable;
    StopAllWatch(s.table, cid);
    assert forall id :: Uses(s, e, id) <==> Stoppable(s.table, id);
  }

  /** A bypassed container that the step leaves alone stays bypassed, and watched unless the
      step strands it. */
  lemma StepWatch(cg: Cid -> nat, s: State, e: Event, cid: Cid)
    requires Sound(s.table) && Injective(cg) && Step(cg, s, e).Some? && Flag(s, cg(cid)) == ByBypass
    requires !Rewrites(cg, s, e, cg(cid))
    ensures var s' := Step(cg, s, e).value;
            Flag(s', cg(cid)) == ByBypass && (Watched(cg, s', cid) <==> Watched(cg, s, cid) && !Strands(cg, s, e, cid))
  {
    hide Sound, Watched, Injective;
    match e
    case Submit(job) => SubmitWatch(cg, s, job, cid);
    case CloseQueue => CloseWatch(cg, s, cid);
    case Exec(ok, kept) =>
      hide Step, Strands;
      if s.queue[0].EnableJob? {
        EnableWatch(cg, s, ok, kept, cid);
      } else if s.queue[0].TeardownJob? {
        TeardownWatch(cg, s, ok, kept, cid);
      } else {
        OtherJobWatch(cg, s, ok, kept, cid);
      }
    case Arm(c) => ArmWatch(cg, s, c, cid);
    case Fire(id) => FireWatch(cg, s, id, cid);
    case SubmitRestore(id, lookup) => RestoreWatch(cg, s, id, lookup, cid);
    case AfterRestore(id) => FinishWatch(cg, s, id, cid);
    case Shutdown => StopAllStrands(cg, s, e, cid);
    case FinalFlush(_) => StopAllStrands(cg, s, e, cid);
  }

  lemma CloseWatch(cg: Cid -> nat, s: State, cid: Cid)
    ensures Watched(cg, s.(closed := true), cid) <==> Watched(cg, s, cid)
  {
  }

  /** A bypass that is written is watched from the start. */
  lemma WrittenIsWatched(cg: Cid -> nat, s: State, e: Event, cid: Cid)
    requires Injective(cg) && Step(cg, s, e).Some? && Flag(Step(cg, s, e).value, cg(cid)) == ByBypass
    requires Flag(s, cg(cid)) != ByBypass || Rewrites(cg, s, e, cg(cid))
    ensures Watched(cg, Step(cg, s, e).value, cid)
  {
    hide TimerPending, RestoreQueued, CancelAll, CancelTimer, ArmTimer, SetPhase, Forget, ResolveBypassCgroup;
  }

  // ---------------------------------------------------------------- every run

  /** Some step of the run stranded the container while it was bypassed and watched, and no step
      since has written its flag. */
  ghost predicate WasStranded(cg: Cid -> nat, es: seq<Event>, cid: Cid)
    requires Run(cg, INIT, es).Some?
    decreases |es|
  {
    es != []
    && (FrontRuns(cg, es);
        var front, e := es[..|es| - 1], es[|es| - 1];
        var s := Run(cg, INIT, front).value;
        && !Rewrites(cg, s, e, cg(cid))
        && (WasStranded(cg, front, cid) || (Flag(s, cg(cid)) == ByBypass && Watched(cg, s, cid) && Strands(cg, s, e, cid))))
  }

  lemma FrontRuns(cg: Cid -> nat, es: seq<Event>)
    requires es != [] && Run(cg, INIT, es).Some?
    ensures Run(cg, INIT, es[..|es| - 1]).Some?
    ensures Step(cg, Run(cg, INIT, es[..|es| - 1]).value, es[|es| - 1]) == Run(cg, INIT, es)
  {
    hide Run, Step;
    assert es == es[..|es| - 1] + [es[|es| - 1]];
    RunSnoc(cg, INIT, es[..|es| - 1], es[|es| - 1]);
  }

  /** In every run a container is bypassed with nothing on its way to restore it exactly when a
      step gave up its last restore and its flag was not written since. */
  lemma {:induction false} DeadManExactly(cg: Cid -> nat, es: seq<Event>, cid: Cid)
    requires Injective(cg) && Run(cg, INIT, es).Some?
    ensures var s := Run(cg, INIT, es).value;
            Flag(s, cg(cid)) == ByBypass && !Watched(cg, s, cid) <==> WasStranded(cg, es, cid)
    decreases |es|
  {
    hide Run, Step, Watched, Strands, Rewrites, Flag, Injective, Sound;
    if es == [] {
      NothingBypassed(cg, cid);
    } else {
      var front, e := es[..|es| - 1], es[|es| - 1];
      FrontRuns(cg, es);
      DeadManExactly(cg, front, cid);
      RememberedExactly(cg, front);
      var s, s' := Run(cg, INIT, front).value, Run(cg, INIT, es).value;
      if Flag(s, cg(cid)) == ByBypass && !Rewrites(cg, s, e, cg(cid)) {
        StepWatch(cg, s, e, cid);
      } else if Flag(s', cg(cid)) == ByBypass {
        WrittenIsWatched(cg, s, e, cid);
      }
    }
  }

  lemma NothingBypassed(cg: Cid -> nat, cid: Cid)
    ensures Run(cg, INIT, []) == Some(INIT) && Flag(INIT, cg(cid)) != ByBypass
  {
  }
}
