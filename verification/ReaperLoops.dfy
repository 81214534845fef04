/** The reaper as the loops it is: phase 1 waits for the main child, phase 2 drains orphans
    and escalates, both over whatever wait4 and the timer say. */
module ReaperLoops {
  import opened Text
  import opened Supervisor

  /** Consecutive unexpected errors at the end of a run of results; an interrupted call counts
      for nothing and a healthy answer starts over. */
  function Streak(results: seq<Wait4>): nat {
    if results == [] then 0
    else
      var front := results[..|results| - 1];
      match results[|results| - 1]
      case OtherError => Streak(front) + 1
      case Eintr => Streak(front)
      case _ => 0
  }

  predicate Ends(w: Wait4) { w.Child? || w.Echild? }

  /** Phase 1 is still waiting after these results, and was after every prefix of them. */
  predicate StillWaiting(results: seq<Wait4>) {
    results == []
    || (StillWaiting(results[..|results| - 1]) && !Ends(results[|results| - 1]) && Streak(results) < RETRY_BUDGET)
  }

  datatype MainVerdict = Waiting | Reaped(ws: WaitStatus) | Bailed

  /** What wakes phase 2's select. */
  datatype Waker = Ticked | Expired

  /** One round of phase 2: the wait4 answers drainOrphans gets, and what wakes the select. */
  datatype Round = Round(results: seq<Wait4>, waker: Waker)

  datatype DrainVerdict = StillDraining | AllReaped | Aborted | GaveUp

  function Expiries(rounds: seq<Round>): nat {
    if rounds == [] then 0
    else Expiries(rounds[..|rounds| - 1]) + (if rounds[|rounds| - 1].waker == Expired then 1 else 0)
  }

  /** This round finds no child left: the first answer not passed over is ECHILD. */
  ghost predicate NoneLeft(results: seq<Wait4>) {
    exists i :: 0 <= i < |results| && results[i] == Echild && AllSkipped(results[..i])
  }

  /** This round fails: the first answer not passed over is an unexpected error. */
  ghost predicate Faults(results: seq<Wait4>) {
    exists i :: 0 <= i < |results| && results[i] == OtherError && AllSkipped(results[..i])
  }

  /** Failed rounds in a row at the end. */
  ghost function FailStreak(rounds: seq<Round>): nat {
    if rounds == [] || !Faults(rounds[|rounds| - 1].results) then 0 else FailStreak(rounds[..|rounds| - 1]) + 1
  }

  /** Phase 2 is still draining after these rounds, and was after every prefix of them. */
  ghost predicate Continues(rounds: seq<Round>) {
    rounds == []
    || (Continues(rounds[..|rounds| - 1]) && !NoneLeft(rounds[|rounds| - 1].results)
        && FailStreak(rounds) < RETRY_BUDGET && Expiries(rounds) < 3)
  }

  const ESCALATION: seq<Signal> := [SigTerm, SigKill]

  datatype Gate = MainGate | DrainGate | DoneGate

  /** The gates closed so far once g is: a gate closes once, after those closed before it. */
  function Closed(closings: seq<Gate>, g: Gate): seq<Gate> { if g in closings then closings else closings + [g] }

  class SpawnState {
    var mainExited: bool
    var drain: bool
    var done: bool
    var finalWS: Option<WaitStatus>
    var reaperErr: Option<string>
    ghost var closings: seq<Gate>

    /** Each gate was closed at most once, and Done only behind both others. */
    ghost predicate Valid()
      reads this`mainExited, this`drain, this`done, this`closings
    {
      && (mainExited <==> MainGate in closings) && (drain <==> DrainGate in closings) && (done <==> DoneGate in closings)
      && (forall i, j :: 0 <= i < j < |closings| ==> closings[i] != closings[j])
      && (forall i :: 0 <= i < |closings| && closings[i] == DoneGate ==> MainGate in closings[..i] && DrainGate in closings[..i])
    }

    constructor ()
      ensures Valid() && !mainExited && !drain && !done && finalWS == None && reaperErr == None
    {
      mainExited, drain, done, finalWS, reaperErr, closings := false, false, false, None, None, [];
    }

    predicate AllClosed()
      reads this
    {
      mainExited && drain && done
    }

    method CloseMainExited()
      requires Valid()
      modifies this`mainExited, this`closings
      ensures Valid() && mainExited && closings == Closed(old(closings), MainGate)
    {
      if !mainExited {
        mainExited, closings := true, closings + [MainGate];
      }
    }

    method BeginOrphanDrain()
      requires Valid()
      modifies this`drain, this`closings
      ensures Valid() && drain && closings == Closed(old(closings), DrainGate)
    {
      if !drain {
        drain, closings := true, closings + [DrainGate];
      }
    }

    method CloseDone()
      requires Valid() && mainExited && drain
      modifies this`done, this`closings
      ensures Valid() && done && closings == Closed(old(closings), DoneGate)
    {
      if !done {
        done, closings := true, closings + [DoneGate];
      }
    }

    /** Every gate still open is closed, MainExited first, Done last. */
    method CloseAllGates()
      requires Valid()
      modifies this`mainExited, this`drain, this`done, this`closings
      ensures Valid() && AllClosed()
      ensures closings == Closed(Closed(Closed(old(closings), MainGate), DrainGate), DoneGate)
    {
      CloseMainExited();
      BeginOrphanDrain();
      CloseDone();
    }

    /** Only the first cause is kept. */
    method SetReaperErr(cause: string)
      modifies this`reaperErr
      ensures reaperErr == OrElse(old(reaperErr), cause)
    {
      if reaperErr.None? {
        reaperErr := Some(cause);
      }
    }

    method BailOut(cause: string)
      requires Valid()
      modifies this`mainExited, this`drain, this`done, this`reaperErr, this`closings
      ensures closings == Closed(Closed(Closed(old(closings), MainGate), DrainGate), DoneGate)
      ensures old(mainExited && drain) ==> closings == Closed(old(closings), DoneGate)
      ensures Valid() && AllClosed() && reaperErr == OrElse(old(reaperErr), cause)
    {
      SetReaperErr(cause);
      CloseAllGates();
    }

    /** Phase 1: ends at the first answer that is the child, is ECHILD, or exhausts the budget. */
    method ReapMain(results: seq<Wait4>) returns (v: MainVerdict, used: nat)
      requires Valid()
      modifies this
      ensures Valid() && used <= |results|
      ensures v == Waiting ==> closings == old(closings)
      ensures v.Reaped? ==> closings == Closed(old(closings), MainGate)
      ensures v == Bailed ==> closings == Closed(Closed(Closed(old(closings), MainGate), DrainGate), DoneGate)
      ensures v == Waiting ==> used == |results| && StillWaiting(results)
      ensures v != Waiting ==> used > 0 && StillWaiting(results[..used - 1])
      ensures v.Reaped? ==> results[used - 1] == Child(v.ws) && finalWS == Some(v.ws) && mainExited
      ensures v == Bailed ==> results[used - 1] == Echild || Streak(results[..used]) == RETRY_BUDGET
      ensures v == Bailed ==> AllClosed() && reaperErr.Some? && finalWS == old(finalWS)
      ensures v != Bailed ==> drain == old(drain) && done == old(done) && reaperErr == old(reaperErr)
      ensures v == Waiting ==> mainExited == old(mainExited) && finalWS == old(finalWS)
    {
      hide Valid, Closed;
      var retries := 0;
      used := 0;
      while used < |results|
        invariant used <= |results| && retries == Streak(results[..used]) && retries < RETRY_BUDGET
        invariant StillWaiting(results[..used])
        invariant Valid() && closings == old(closings)
        invariant mainExited == old(mainExited) && drain == old(drain) && done == old(done)
        invariant finalWS == old(finalWS) && reaperErr == old(reaperErr)
      {
        var w := results[used];
        StreakStep(results, used);
        used := used + 1;
        match w {
          case Eintr =>
          case Echild =>
            BailOut("main child already reaped");
            return Bailed, used;
          case OtherError =>
            retries := retries + 1;
            if retries >= RETRY_BUDGET {
              BailOut("wait4 retry budget exhausted");
              return Bailed, used;
            }
          case NoChange => retries := 0;
          case Child(ws) =>
            finalWS := Some(ws);
            CloseMainExited();
            return Reaped(ws), used;
        }
      }
      assert results[..used] == results;
      return Waiting, used;
    }

    /** Phase 2, entered behind the drain gate: ends in the first round that finds no child, is
        the 32nd failure in a row, or sees the third expiry. */
    method DrainAll(rounds: seq<Round>) returns (v: DrainVerdict, used: nat, signals: seq<Signal>)
      requires Valid() && drain && mainExited && finalWS.Some?
      modifies this`mainExited, this`drain, this`done, this`reaperErr, this`closings
      ensures Valid() && used <= |rounds| && mainExited && drain
      ensures v == StillDraining ==> used == |rounds| && Continues(rounds)
      ensures v == AllReaped ==> used < |rounds| && Continues(rounds[..used]) && NoneLeft(rounds[used].results)
      ensures v == Aborted ==> used < |rounds| && Continues(rounds[..used]) && FailStreak(rounds[..used + 1]) == RETRY_BUDGET
      ensures v == GaveUp ==> 0 < used && Continues(rounds[..used - 1]) && Expiries(rounds[..used]) == 3
                              && !NoneLeft(rounds[used - 1].results) && FailStreak(rounds[..used]) < RETRY_BUDGET
      ensures v == StillDraining ==> done == old(done) && closings == old(closings)
      ensures v != StillDraining ==> done && closings == Closed(old(closings), DoneGate)
      ensures v == StillDraining || v == AllReaped ==> reaperErr == old(reaperErr)
      ensures v == Aborted || v == GaveUp ==> reaperErr.Some?
      ensures signals <= ESCALATION && |signals| == (if Expiries(rounds[..used]) < 2 then Expiries(rounds[..used]) else 2)
    {
      hide Valid, Closed, Continues, FailStreak, Expiries, NoneLeft, Faults;
      RoundsNone(rounds);
      var drainErrs, termSent, killSent := 0, false, false;
      used, signals := 0, [];
      while used < |rounds|
        invariant used <= |rounds| && Valid() && mainExited && drain && done == old(done)
        invariant reaperErr == old(reaperErr) && closings == old(closings)
        invariant signals == (if termSent then [SigTerm] else []) + (if killSent then [SigKill] else [])
        invariant killSent ==> termSent
        invariant Expiries(rounds[..used]) == |signals|
        invariant Continues(rounds[..used]) && drainErrs == FailStreak(rounds[..used]) && drainErrs < RETRY_BUDGET
      {
        RoundStep(rounds, used);
        var drained, failed := DrainOrphans(rounds[used].results);
        if failed {
          drainErrs := drainErrs + 1;
          if drainErrs >= RETRY_BUDGET {
            BailOut("orphan drain retry budget exhausted");
            return Aborted, used, signals;
          }
        } else {
          drainErrs := 0;
        }
        if drained {
          CloseDone();
          return AllReaped, used, signals;
        }
        var waker := rounds[used].waker;
        used := used + 1;
        if waker == Expired {
          if !termSent {
            termSent, signals := true, signals + [SigTerm];
          } else if !killSent {
            killSent, signals := true, signals + [SigKill];
          } else {
            BailOut("orphans unreaped after SIGKILL grace");
            return GaveUp, used, signals;
          }
        }
      }
      assert rounds[..used] == rounds;
      return StillDraining, used, signals;
    }

    /** Reap until there is no child, none ready, or an unexpected error. */
    static method DrainOrphans(results: seq<Wait4>) returns (drained: bool, failed: bool)
      ensures !(drained && failed)
      ensures drained <==> NoneLeft(results)
      ensures failed <==> Faults(results)
    {
      for i := 0 to |results|
        invariant AllSkipped(results[..i])
      {
        assert results[..i + 1] == results[..i] + [results[i]];
        match results[i] {
          case Eintr =>
          case Child(_) =>
          case Echild =>
            SkipStops(results, i);
            return true, false;
          case NoChange =>
            SkipStops(results, i);
            return false, false;
          case OtherError =>
            SkipStops(results, i);
            return false, true;
        }
      }
      assert results[..|results|] == results;
      assert forall i :: 0 <= i < |results| ==> results[i] in results;
      return false, false;
    }
  }

  /** Answers the drain loop passes over: interrupted calls and reaped orphans. */
  predicate AllSkipped(results: seq<Wait4>) { forall w :: w in results ==> w.Eintr? || w.Child? }

  /** The first answer it does not pass over is the only one it can stop at. */
  lemma SkipStops(results: seq<Wait4>, i: nat)
    requires i < |results| && !results[i].Eintr? && !results[i].Child? && AllSkipped(results[..i])
    ensures forall j :: 0 <= j < |results| && !results[j].Eintr? && !results[j].Child? && AllSkipped(results[..j]) ==> j == i
  {
    assert forall j :: i < j < |results| ==> results[..j][i] == results[i];
    assert forall j :: 0 <= j < i ==> results[..i][j] == results[j];
  }

  lemma StreakStep(results: seq<Wait4>, n: nat)
    requires n < |results| && StillWaiting(results[..n])
    ensures Streak(results[..n + 1]) == match results[n]
                                        case OtherError => Streak(results[..n]) + 1
                                        case Eintr => Streak(results[..n])
                                        case _ => 0
    ensures !Ends(results[n]) && Streak(results[..n + 1]) < RETRY_BUDGET ==> StillWaiting(results[..n + 1])
  {
    assert results[..n + 1][..n] == results[..n];
  }

  lemma RoundsNone(rounds: seq<Round>)
    ensures Continues(rounds[..0]) && FailStreak(rounds[..0]) == 0 && Expiries(rounds[..0]) == 0
  {
  }

  lemma RoundStep(rounds: seq<Round>, n: nat)
    requires n < |rounds|
    ensures Expiries(rounds[..n + 1]) == Expiries(rounds[..n]) + (if rounds[n].waker == Expired then 1 else 0)
    ensures FailStreak(rounds[..n + 1]) == if Faults(rounds[n].results) then FailStreak(rounds[..n]) + 1 else 0
    ensures Continues(rounds[..n + 1]) <==>
            Continues(rounds[..n]) && !NoneLeft(rounds[n].results)
            && FailStreak(rounds[..n + 1]) < RETRY_BUDGET && Expiries(rounds[..n + 1]) < 3
  {
    assert rounds[..n + 1][..n] == rounds[..n];
  }
}
