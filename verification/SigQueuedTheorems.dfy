/**
 The theorems about signals/sig_queued.c.  Each speaks of every initial mask, every sequence
 of events and both kinds of kernel: one that queues further instances of a pending signal
 and one that does not.
 */
module SigQueuedTheorems {
  import opened SignalMachine
  import opened Wrappers
  import opened SigQueued
  import opened SigQueuedProofs
  import opened SigQueuedToken

  function Reached(mask: set<Signal>, es: seq<Event>, queues: bool): State {
    Exec(Init(mask), es, queues)
  }

  lemma ReachedInv(mask: set<Signal>, es: seq<Event>, queues: bool)
    ensures Inv(Reached(mask, es, queues), queues)
  {
    InitInv(mask, queues);
    ExecInv(Init(mask), es, queues);
  }

  lemma InitOutcome(mask: set<Signal>)
    ensures Outcome(Init(mask), mask) && Inv4(Init(mask))
  {
    assert Setters([]) == 0;
  }

  lemma FromInit(s: State, mask: set<Signal>, es: seq<Event>, queues: bool)
    requires s == Init(mask)
    ensures Outcome(Exec(s, es, queues), mask) && Inv4(Exec(s, es, queues))
  {
    InitInv(mask, queues);
    InitOutcome(mask);
    ExecOutcome(s, es, mask, queues);
    ExecToken(s, es, queues);
  }

  lemma ReachedOutcome(mask: set<Signal>, es: seq<Event>, queues: bool)
    ensures Outcome(Reached(mask, es, queues), mask)
  {
    FromInit(Init(mask), mask, es, queues);
  }

  /**
   Mask discipline: whenever main runs after TELL_WAIT its mask is the initial one plus SIGUSR1
   and SIGUSR2, although WAIT_CHILD sets the initial mask inside the handler; and the lowest
   handler runs under that mask plus SIGQUIT, except that everything is unblocked while it
   sleeps in WAIT_CHILD and that the initial mask is in force after it.
   */
  lemma MaskDiscipline(mask: set<Signal>, es: seq<Event>, queues: bool)
    ensures var p := Reached(mask, es, queues).p;
      !p.main.TellWait? ==>
        && p.MaskBelow(0) == mask + USR
        && (p.handlers != [] && p.handlers[0].pc.Parked? ==> p.MaskBelow(1) == {})
        && (p.handlers != [] && p.handlers[0].pc.WaitReturned? ==> p.MaskBelow(1) == mask)
        && (p.handlers != [] && !p.handlers[0].pc.Parked? && !p.handlers[0].pc.WaitReturned? ==>
              p.MaskBelow(1) == mask + USR + {SIGQUIT})
  {
    ReachedInv(mask, es, queues);
    ReachedOutcome(mask, es, queues);
  }

  lemma Pigeonhole(a: Signal, b: Signal, c: Signal, d: Signal)
    ensures a == b || a == c || a == d || b == c || b == d || c == d
  {
  }

  /** Bounded nesting: two sig_quit frames, one of them lowest, and one sig_usr frame a signal. */
  lemma BoundedNesting(mask: set<Signal>, es: seq<Event>, queues: bool)
    ensures var hs := Reached(mask, es, queues).p.handlers;
      && |hs| <= 4
      && (hs != [] ==> hs[0].signo == SIGQUIT)
      && (forall i, j | 0 <= i < j < |hs| && hs[i].signo == hs[j].signo :: i == 0)
  {
    ReachedInv(mask, es, queues);
    var hs := Reached(mask, es, queues).p.handlers;
    if |hs| > 4 {
      Pigeonhole(hs[1].signo, hs[2].signo, hs[3].signo, hs[4].signo);
    }
  }

  /**
   No lost increment: at most one frame is inside `++sigcount`, the counter is the number of
   entries that completed it, and WAIT_CHILD is entered at most once.
   */
  lemma NoLostIncrement(mask: set<Signal>, es: seq<Event>, queues: bool)
    ensures var s := Reached(mask, es, queues);
      && (forall i, j | 0 <= i < j < |s.p.handlers| :: !(Mid(s.p.handlers[i]) && Mid(s.p.handlers[j])))
      && s.sigcount == s.h.counted
      && s.h.entries - s.h.counted == MidCount(s.p.handlers)
      && s.h.waits <= 1
  {
    ReachedInv(mask, es, queues);
    var s := Reached(mask, es, queues);
    forall i: nat, j: nat | i < j < |s.p.handlers| ensures !(Mid(s.p.handlers[i]) && Mid(s.p.handlers[j])) {
      AtMostOneMid(s.p, s.omask, s.waitflag, i, j);
    }
  }

  /**
   No lost wake-up: a process asleep in sigsuspend has not had its flag set, and every SIGUSR1
   or SIGUSR2 that was ever generated is pending and about to be delivered.
   */
  lemma NoLostWakeup(mask: set<Signal>, es: seq<Event>, queues: bool)
    ensures var s := Reached(mask, es, queues);
      s.p.Running().Parked? ==>
        !s.sigflag && forall u | u in USR && u in s.h.sent :: s.p.Deliverable(u)
  {
    ReachedInv(mask, es, queues);
    var s := Reached(mask, es, queues);
    if s.p.Running().Parked? {
      var top := |s.p.handlers| - 1;
      assert top == 0;
      assert !exists i :: 0 <= i < |s.p.handlers| && s.p.handlers[i].pc.SetSigflag?;
      forall u | u in USR && u in s.h.sent ensures s.p.Deliverable(u) {
        assert !SetterRuns(s.p.handlers, u);
      }
    }
  }

  // ---------------------------------------------------------------- the order of the handshake

  predicate OnlyQuitFromOthers(es: seq<Event>) {
    forall i | 0 <= i < |es| && es[i].ForeignKill? :: es[i].signo == SIGQUIT
  }

  predicate NothingFromOthers(es: seq<Event>) {
    forall i | 0 <= i < |es| :: !es[i].ForeignKill?
  }

  lemma StepForeign(s: State, e: Event, queues: bool)
    ensures var t := Step(s, e, queues);
      && (!e.ForeignKill? ==> t.h.foreignQuits == s.h.foreignQuits)
      && (!e.ForeignKill? || e.signo == SIGQUIT ==> t.h.foreignUsr == s.h.foreignUsr)
  {
    if e.Run? && Enabled(s, e) {
      if s.p.handlers == [] { MainTouches(s, e.ok); } else { QuitTouches(s, e.ok); UsrTouches(s); }
    }
  }

  lemma {:induction false} ExecForeign(s: State, es: seq<Event>, queues: bool)
    ensures NothingFromOthers(es) ==> Exec(s, es, queues).h.foreignQuits == s.h.foreignQuits
    ensures OnlyQuitFromOthers(es) ==> Exec(s, es, queues).h.foreignUsr == s.h.foreignUsr
    decreases es
  {
    if es != [] {
      StepForeign(s, es[0], queues);
      ExecForeign(Step(s, es[0], queues), es[1..], queues);
    }
  }

  /**
   The handshake: with SIGUSR1 and SIGUSR2 sent by nobody else, WAIT_CHILD does not leave its
   loop before the child's TELL_PARENT, whatever SIGQUITs arrive from anywhere.
   */
  lemma WaitsForChild(mask: set<Signal>, es: seq<Event>, queues: bool)
    requires OnlyQuitFromOthers(es)
    ensures var s := Reached(mask, es, queues);
      !WaitNotOver(s.p.handlers, s.waitflag) ==> s.child == 5
  {
    ReachedInv(mask, es, queues);
    ExecForeign(Init(mask), es, queues);
  }

  lemma ReachedToken(mask: set<Signal>, es: seq<Event>, queues: bool)
    ensures Inv4(Reached(mask, es, queues))
  {
    FromInit(Init(mask), mask, es, queues);
  }

  /**
   The wake-up is neither lost nor doubled: the child's TELL_PARENT is at every moment either
   pending, in the hands of a sig_usr frame, in sigflag, or used up by WAIT_CHILD.
   */
  lemma WakeupConserved(mask: set<Signal>, es: seq<Event>, queues: bool)
    requires OnlyQuitFromOthers(es)
    ensures var s := Reached(mask, es, queues);
      Tokens(s.p, s.waitflag, s.sigflag) == if s.child == 5 then 1 else 0
  {
    ReachedToken(mask, es, queues);
    ExecForeign(Init(mask), es, queues);
  }

  /**
   What main reads once sig_quit has been entered, if others may send SIGQUIT too: the child has
   sent everything, and all SIGQUITs are the counted ones, the merged ones and those still pending.
   The child's SIGUSR2 is used up.
   */
  lemma FinalReadAmongOthers(mask: set<Signal>, es: seq<Event>, queues: bool)
    requires OnlyQuitFromOthers(es)
    requires var s := Reached(mask, es, queues); s.p.handlers == [] && s.h.entries > 0
    ensures var s := Reached(mask, es, queues);
      && s.child == 5
      && 4 + s.h.foreignQuits == s.sigcount + s.h.merged + s.p.pending[SIGQUIT]
      && 1 <= s.sigcount
      && (queues ==> s.h.merged == 0)
      && !s.sigflag && s.p.pending[SIGUSR2] == 0
  {
    ReachedInv(mask, es, queues);
    ExecForeign(Init(mask), es, queues);
    WakeupConserved(mask, es, queues);
  }

  /** With no signals from others, the child's four SIGQUITs are all there are. */
  lemma FinalRead(mask: set<Signal>, es: seq<Event>, queues: bool)
    requires NothingFromOthers(es)
    requires var s := Reached(mask, es, queues); s.p.handlers == [] && s.h.entries > 0
    ensures var s := Reached(mask, es, queues);
      && s.child == 5
      && 4 == s.sigcount + s.h.merged + s.p.pending[SIGQUIT]
      && 1 <= s.sigcount <= 4
      && (queues ==> s.h.merged == 0)
      && !s.sigflag && s.p.pending[SIGUSR2] == 0
  {
    FinalReadAmongOthers(mask, es, queues);
    ExecForeign(Init(mask), es, queues);
  }

  /** The verdict "Signal is queued" is given exactly if no SIGQUIT was merged and none is pending. */
  lemma QueuedVerdict(mask: set<Signal>, es: seq<Event>, queues: bool, ok: bool)
    requires NothingFromOthers(es)
    requires var s := Reached(mask, es, queues);
      s.alive && s.p.handlers == [] && s.h.entries > 0 && s.p.main.TestFour?
    ensures var s := Reached(mask, es, queues);
      Step(s, Run(ok), queues).verdict == Some(Queued) <==> s.h.merged == 0 && s.p.pending[SIGQUIT] == 0
  {
    FinalRead(mask, es, queues);
    ReachedOutcome(mask, es, queues);
    var s := Reached(mask, es, queues);
    assert Step(s, Run(ok), queues) == MainStep(s, ok);
  }

  // ---------------------------------------------------------------- progress

  /** Steps the running code can still take before it returns or parks, if nothing interrupts it. */
  function Work(pc: Pc): nat {
    match pc
    case TellWait => 6 case Fork => 5 case Sleeping => 4 case TestTwo => 3 case TestFour => 2 case Report => 1
    case LoadCount => 12 case StoreCount(_) => 11 case TestWaitflag => 10 case ClearWaitflag => 9 case QuitReturn => 1
    case TestSigflag => 8 case CallSuspend => 7 case Parked(_) => 6
    case ClearSigflag => 5 case RestoreMask => 4 case WaitReturned => 3
    case SetSigflag => 2 case UsrReturn => 1
  }

  function StackWork(hs: seq<Frame<Pc, Signal>>): nat {
    if hs == [] then 0 else StackWork(hs[..|hs| - 1]) + Work(hs[|hs| - 1].pc)
  }

  function Measure(s: State): nat {
    if s.alive then 20 * |s.p.pending| + Work(s.p.main) + StackWork(s.p.handlers) else 0
  }

  predicate Internal(e: Event) {
    e.Run? || e.Deliver?
  }

  lemma WorkGoto(p: Process<Pc, Signal>, pc: Pc)
    requires p.handlers != []
    ensures StackWork(p.Goto(pc).handlers) == StackWork(p.handlers) - Work(p.Running()) + Work(pc)
  {
    var top := |p.handlers| - 1;
    assert p.Goto(pc).handlers[..top] == p.handlers[..top];
  }

  lemma MainWorks(s: State, ok: bool)
    requires Inv0(s) && s.alive && s.p.handlers == []
    ensures Measure(MainStep(s, ok)) < Measure(s)
  {
    match s.p.main
    case TellWait =>
    case Fork =>
    case Sleeping =>
    case TestTwo =>
    case TestFour =>
    case Report =>
  }

  lemma GotoWorks(s: State, t: State, pc: Pc, mask: set<Signal>)
    requires s.alive && s.p.handlers != [] && t.p == s.p.Goto(pc).(mask := mask)
    requires Work(pc) < Work(s.p.Running())
    ensures Measure(t) < Measure(s)
  {
    WorkGoto(s.p, pc);
    assert Work(s.p.main) == Work(t.p.main);
  }

  lemma WaitWorks(s: State, ok: bool)
    requires s.alive && s.p.handlers != [] && InWaitChild(s.p.Running())
    requires !s.p.Running().Parked? && !s.p.Running().WaitReturned?
    ensures Measure(WaitChildStep(s, ok)) < Measure(s)
  {
    var t, mask := WaitChildStep(s, ok), s.p.mask;
    match s.p.Running()
    case TestSigflag => GotoWorks(s, t, if s.sigflag then ClearSigflag else CallSuspend, mask);
    case CallSuspend => GotoWorks(s, t, Parked(mask), {});
    case ClearSigflag => GotoWorks(s, t, RestoreMask, mask);
    case RestoreMask => if ok { GotoWorks(s, t, WaitReturned, s.omask); }
  }

  lemma QuitWorks(s: State, ok: bool)
    requires s.alive && s.p.handlers != []
    requires BeforeWait(s.p.Running()) || s.p.Running().QuitReturn? || s.p.Running().WaitReturned?
    ensures Measure(SigQuitStep(s, ok)) < Measure(s)
  {
    var t, mask := SigQuitStep(s, ok), s.p.mask;
    match s.p.Running()
    case LoadCount => GotoWorks(s, t, StoreCount(s.sigcount), mask);
    case StoreCount(_) => GotoWorks(s, t, TestWaitflag, mask);
    case TestWaitflag => GotoWorks(s, t, if s.waitflag then ClearWaitflag else QuitReturn, mask);
    case ClearWaitflag => GotoWorks(s, t, TestSigflag, mask);
    case QuitReturn =>
    case WaitReturned =>
  }

  lemma UsrWorks(s: State)
    requires s.alive && s.p.handlers != []
    requires s.p.Running().SetSigflag? || s.p.Running().UsrReturn?
    ensures Measure(SigUsrStep(s)) < Measure(s)
  {
    WorkGoto(s.p, UsrReturn);
  }

  lemma EnterWorks(p: Process<Pc, Signal>, signo: Signal, restored: set<Signal>)
    requires signo in p.pending
    ensures var q := p.Enter(signo, Entry(signo), restored, true);
      StackWork(q.handlers) == StackWork(p.handlers) + Work(Entry(signo)) && |q.pending| == |p.pending| - 1
  {
    var q := p.Enter(signo, Entry(signo), restored, true);
    assert q.handlers[..|p.handlers|] == p.handlers;
  }

  lemma DeliverWorks(s: State, signo: Signal)
    requires s.alive && s.p.Deliverable(signo)
    requires s.p.handlers == [] ==> !s.p.main.Parked?
    ensures Measure(DeliverSignal(s, signo)) < Measure(s)
  {
    var at, t := s.p.Running(), DeliverSignal(s, signo);
    if at.Parked? {
      var q := s.p.Goto(TestSigflag);
      WorkGoto(s.p, TestSigflag);
      EnterWorks(q, signo, at.previous);
      assert t.p == q.Enter(signo, Entry(signo), at.previous, true);
    } else {
      EnterWorks(s.p, signo, s.p.mask);
      assert t.p == s.p.Enter(signo, Entry(signo), s.p.mask, true);
    }
  }

  /** Every step of the process and every delivery uses up some of the measure. */
  lemma InternalStepsDecrease(s: State, e: Event, queues: bool)
    requires Inv(s, queues) && Internal(e) && Enabled(s, e)
    ensures Measure(Step(s, e, queues)) < Measure(s)
  {
    if e.Deliver? {
      DeliverWorks(s, e.signo);
    } else {
      var n := |s.p.handlers|;
      if n > 1 { assert NestedFrame(s.p.handlers[n - 1]); }
      if n == 0 {
        MainWorks(s, e.ok);
      } else if s.p.handlers[n - 1].signo != SIGQUIT {
        UsrWorks(s);
      } else if InWaitChild(s.p.Running()) && !s.p.Running().WaitReturned? {
        WaitWorks(s, e.ok);
      } else {
        QuitWorks(s, e.ok);
      }
    }
  }

  lemma KillsAddBoundedWork(s: State, e: Event, queues: bool)
    requires !Internal(e)
    ensures Measure(Step(s, e, queues)) <= Measure(s) + 20
  {
    assert forall x: Signal :: |s.p.pending + multiset{x}| == |s.p.pending| + 1;
  }

  /** The steps and deliveries among the events that really happen. */
  function Effective(s: State, es: seq<Event>, queues: bool): nat
    decreases es
  {
    if es == [] then 0
    else (if Internal(es[0]) && Enabled(s, es[0]) then 1 else 0) + Effective(Step(s, es[0], queues), es[1..], queues)
  }

  function Kills(es: seq<Event>): nat {
    if es == [] then 0 else (if Internal(es[0]) then 0 else 1) + Kills(es[1..])
  }

  lemma {:induction false} RunsAreBounded(s: State, es: seq<Event>, queues: bool)
    requires Inv(s, queues)
    ensures Effective(s, es, queues) + Measure(Exec(s, es, queues)) <= Measure(s) + 20 * Kills(es)
    decreases es
  {
    if es != [] {
      StepKeepsInv(s, es[0], queues);
      if !Internal(es[0]) {
        KillsAddBoundedWork(s, es[0], queues);
      } else if Enabled(s, es[0]) {
        InternalStepsDecrease(s, es[0], queues);
      }
      RunsAreBounded(Step(s, es[0], queues), es[1..], queues);
    }
  }

  /** Any run in which finitely many signals are sent is finite. */
  lemma Termination(mask: set<Signal>, es: seq<Event>, queues: bool)
    ensures Effective(Init(mask), es, queues) <= 6 + 20 * Kills(es)
  {
    InitInv(mask, queues);
    RunsAreBounded(Init(mask), es, queues);
  }

  /** The only way to be stuck is to sleep in WAIT_CHILD before the first SIGUSR1 or SIGUSR2. */
  lemma StuckOnlyWhileNotTold(mask: set<Signal>, es: seq<Event>, queues: bool)
    ensures var s := Reached(mask, es, queues);
      s.alive ==>
        ((forall e | Internal(e) :: !Enabled(s, e)) <==> s.p.Running().Parked? && s.p.pending == multiset{})
    ensures var s := Reached(mask, es, queues);
      s.alive && (forall e | Internal(e) :: !Enabled(s, e)) ==> !UsrSent(s.h) && s.child < 5
  {
    ReachedInv(mask, es, queues);
    NoLostWakeup(mask, es, queues);
    var s := Reached(mask, es, queues);
    if s.alive {
      if s.p.Running().Parked? {
        assert s.p.handlers != [] && |s.p.handlers| == 1 && s.p.mask == {};
        if s.p.pending != multiset{} {
          var x :| x in s.p.pending;
          assert Enabled(s, Deliver(x)) && Internal(Deliver(x));
        }
      } else {
        assert Enabled(s, Run(true)) && Internal(Run(true));
      }
    }
  }
}
