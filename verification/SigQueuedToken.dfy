/**
 The wake-up of signals/sig_queued.c as a token.  If SIGUSR1 and SIGUSR2 come from nobody but the
 child, its one TELL_PARENT is at every moment in exactly one place: pending, in the hands of a
 sig_usr frame, in sigflag, or used up by WAIT_CHILD.
 */
module SigQueuedToken {
  import opened SignalMachine
  import opened SigQueued
  import opened SigQueuedProofs

  function Setters(hs: seq<Frame<Pc, Signal>>): nat {
    if hs == [] then 0 else Setters(hs[..|hs| - 1]) + if hs[|hs| - 1].pc.SetSigflag? then 1 else 0
  }

  /** WAIT_CHILD is past line 143. */
  predicate UsedUp(hs: seq<Frame<Pc, Signal>>, waitflag: bool) {
    !waitflag && !(hs != [] && (InLoop(hs[0].pc) || hs[0].pc.ClearSigflag?))
  }

  function Tokens(p: Process<Pc, Signal>, waitflag: bool, sigflag: bool): nat {
    p.pending[SIGUSR1] + p.pending[SIGUSR2] + Setters(p.handlers)
    + (if sigflag then 1 else 0) + (if UsedUp(p.handlers, waitflag) then 1 else 0)
  }

  predicate OneToken(p: Process<Pc, Signal>, waitflag: bool, sigflag: bool, child: nat) {
    && Tokens(p, waitflag, sigflag) == (if child == 5 then 1 else 0)
    && (p.handlers != [] && p.handlers[0].pc.ClearSigflag? ==> sigflag)
  }

  ghost predicate Inv4(s: State) {
    !s.h.foreignUsr ==> OneToken(s.p, s.waitflag, s.sigflag, s.child)
  }

  lemma SettersGoto(p: Process<Pc, Signal>, pc: Pc)
    requires p.handlers != []
    ensures Setters(p.Goto(pc).handlers)
         == Setters(p.handlers) - (if p.Running().SetSigflag? then 1 else 0) + (if pc.SetSigflag? then 1 else 0)
  {
    var top := |p.handlers| - 1;
    assert p.Goto(pc).handlers[..top] == p.handlers[..top];
  }

  /** The running frame moves on without touching the token. */
  lemma GotoKeepsToken(s: State, pc: Pc, waitflag: bool)
    requires Inv0(s) && OneToken(s.p, s.waitflag, s.sigflag, s.child) && s.p.handlers != []
    requires !s.p.Running().SetSigflag? && !pc.SetSigflag?
    requires UsedUp(s.p.Goto(pc).handlers, waitflag) == UsedUp(s.p.handlers, s.waitflag)
    requires pc.ClearSigflag? ==> s.sigflag
    ensures OneToken(s.p.Goto(pc), waitflag, s.sigflag, s.child)
  {
    SettersGoto(s.p, pc);
  }

  lemma ReturnKeepsToken(s: State)
    requires Inv0(s) && OneToken(s.p, s.waitflag, s.sigflag, s.child) && s.p.handlers != []
    requires s.p.Running().QuitReturn? || s.p.Running().WaitReturned? || s.p.Running().UsrReturn?
    ensures OneToken(s.p.Return(), s.waitflag, s.sigflag, s.child)
  {
  }

  lemma SetKeepsToken(s: State)
    requires Inv0(s) && OneToken(s.p, s.waitflag, s.sigflag, s.child) && |s.p.handlers| > 1 && s.p.Running().SetSigflag?
    ensures OneToken(s.p.Goto(UsrReturn), s.waitflag, true, s.child)
  {
    SettersGoto(s.p, UsrReturn);
  }

  lemma ClearKeepsToken(s: State)
    requires Inv0(s) && OneToken(s.p, s.waitflag, s.sigflag, s.child)
    requires |s.p.handlers| == 1 && s.p.Running().ClearSigflag?
    ensures OneToken(s.p.Goto(RestoreMask), s.waitflag, false, s.child)
  {
    SettersGoto(s.p, RestoreMask);
  }

  lemma WaitflagKeepsToken(s: State)
    requires Inv0(s) && OneToken(s.p, s.waitflag, s.sigflag, s.child)
    requires s.p.handlers != [] && s.p.Running().ClearWaitflag?
    ensures OneToken(s.p.Goto(TestSigflag), false, s.sigflag, s.child)
  {
    ClearsAlone(s.p, s.omask, s.waitflag);
    GotoKeepsToken(s, TestSigflag, false);
  }

  lemma BeforeWaitKeepsToken(s: State, pc: Pc)
    requires Inv0(s) && OneToken(s.p, s.waitflag, s.sigflag, s.child) && s.p.handlers != []
    requires BeforeWait(s.p.Running()) && (BeforeWait(pc) || pc.QuitReturn?)
    ensures OneToken(s.p.Goto(pc), s.waitflag, s.sigflag, s.child)
  {
    GotoKeepsToken(s, pc, s.waitflag);
  }

  lemma QuitKeepsToken(s: State, ok: bool)
    requires Inv0(s) && Inv4(s) && s.p.handlers != []
    requires BeforeWait(s.p.Running()) || s.p.Running().QuitReturn? || s.p.Running().WaitReturned?
    ensures Inv4(SigQuitStep(s, ok))
  {
    if !s.h.foreignUsr {
      match s.p.Running()
      case LoadCount => BeforeWaitKeepsToken(s, StoreCount(s.sigcount));
      case StoreCount(_) => BeforeWaitKeepsToken(s, TestWaitflag);
      case TestWaitflag => BeforeWaitKeepsToken(s, if s.waitflag then ClearWaitflag else QuitReturn);
      case ClearWaitflag => WaitflagKeepsToken(s);
      case QuitReturn => ReturnKeepsToken(s);
      case WaitReturned => ReturnKeepsToken(s);
    }
  }

  lemma WaitKeepsToken(s: State, ok: bool)
    requires Inv0(s) && Inv4(s) && |s.p.handlers| == 1 && InWaitChild(s.p.Running()) && !s.p.Running().WaitReturned?
    ensures Inv4(WaitChildStep(s, ok))
  {
    if !s.h.foreignUsr {
      match s.p.Running()
      case TestSigflag => GotoKeepsToken(s, if s.sigflag then ClearSigflag else CallSuspend, s.waitflag);
      case CallSuspend => GotoKeepsToken(s, Parked(s.p.mask), s.waitflag);
      case ClearSigflag => ClearKeepsToken(s);
      case RestoreMask => GotoKeepsToken(s, WaitReturned, s.waitflag);
      case Parked(_) =>
    }
  }

  lemma UsrKeepsToken(s: State)
    requires Inv0(s) && Inv4(s) && |s.p.handlers| > 1
    requires s.p.Running().SetSigflag? || s.p.Running().UsrReturn?
    ensures Inv4(SigUsrStep(s))
  {
    if !s.h.foreignUsr {
      if s.p.Running().SetSigflag? { SetKeepsToken(s); } else { ReturnKeepsToken(s); }
    }
  }

  lemma MainKeepsToken(s: State, ok: bool)
    requires Inv4(s) && s.p.handlers == []
    ensures Inv4(MainStep(s, ok))
  {
    match s.p.main
    case TellWait =>
    case Fork =>
    case Sleeping =>
    case TestTwo =>
    case TestFour =>
    case Report =>
    case _ =>
  }

  /** An interrupted sigsuspend ends. */
  lemma WakeKeepsToken(p: Process<Pc, Signal>, w: bool, sigflag: bool, child: nat)
    requires OneToken(p, w, sigflag, child) && p.handlers != [] && p.Running().Parked?
    ensures OneToken(p.Goto(TestSigflag), w, sigflag, child)
  {
    SettersGoto(p, TestSigflag);
  }

  /** Entering sig_usr takes a pending signal into the hands of the new frame. */
  lemma EnterKeepsToken(p: Process<Pc, Signal>, signo: Signal, restored: set<Signal>,
                        w: bool, sigflag: bool, child: nat)
    requires OneToken(p, w, sigflag, child) && signo in p.pending
    ensures OneToken(p.Enter(signo, Entry(signo), restored, true), w, sigflag, child)
  {
    var f := Frame(Entry(signo), signo, restored);
    SettersEnter(p.handlers, f, w);
    UsrTaken(p.pending, signo);
    assert p.Enter(signo, Entry(signo), restored, true).handlers == p.handlers + [f];
  }

  lemma SettersEnter(hs: seq<Frame<Pc, Signal>>, f: Frame<Pc, Signal>, w: bool)
    requires f.pc == Entry(f.signo)
    ensures Setters(hs + [f]) == Setters(hs) + (if f.signo in USR then 1 else 0)
    ensures UsedUp(hs + [f], w) == UsedUp(hs, w)
    ensures (hs + [f])[0].pc.ClearSigflag? ==> hs != [] && (hs + [f])[0] == hs[0]
  {
    assert (hs + [f])[..|hs|] == hs;
  }

  lemma UsrTaken(pending: multiset<Signal>, signo: Signal)
    requires signo in pending
    ensures var rest := pending - multiset{signo};
      rest[SIGUSR1] + rest[SIGUSR2] + (if signo in USR then 1 else 0) == pending[SIGUSR1] + pending[SIGUSR2]
  {
    match signo
    case SIGQUIT =>
    case SIGUSR1 =>
    case SIGUSR2 =>
  }

  lemma DeliverKeepsToken(s: State, signo: Signal)
    requires Inv0(s) && Inv4(s) && s.p.Deliverable(signo)
    ensures Inv4(DeliverSignal(s, signo))
  {
    if !s.h.foreignUsr {
      var at, q := s.p.Running(), s.p.Goto(TestSigflag);
      if at.Parked? {
        WakeKeepsToken(s.p, s.waitflag, s.sigflag, s.child);
        EnterKeepsToken(q, signo, at.previous, s.waitflag, s.sigflag, s.child);
      } else {
        EnterKeepsToken(s.p, signo, s.p.mask, s.waitflag, s.sigflag, s.child);
      }
    }
  }

  lemma ChildKeepsToken(s: State, queues: bool)
    requires Inv4(s) && s.child < 5
    ensures Inv4(ChildStep(s, queues))
  {
  }

  lemma ForeignKeepsToken(s: State, signo: Signal, queues: bool)
    requires Inv4(s)
    ensures Inv4(Step(s, ForeignKill(signo), queues))
  {
  }

  lemma RunKeepsToken(s: State, ok: bool, queues: bool)
    requires Inv0(s) && Inv4(s) && Enabled(s, Run(ok))
    ensures Inv4(Step(s, Run(ok), queues))
  {
    var n := |s.p.handlers|;
    if n > 1 { assert NestedFrame(s.p.handlers[n - 1]); }
    if n == 0 {
      MainKeepsToken(s, ok);
    } else if s.p.handlers[n - 1].signo != SIGQUIT {
      UsrKeepsToken(s);
    } else if InWaitChild(s.p.Running()) && !s.p.Running().WaitReturned? {
      WaitKeepsToken(s, ok);
    } else {
      QuitKeepsToken(s, ok);
    }
  }

  lemma StepKeepsToken(s: State, e: Event, queues: bool)
    requires Inv0(s) && Inv4(s)
    ensures Inv4(Step(s, e, queues))
  {
    if Enabled(s, e) {
      match e
      case Run(ok) => RunKeepsToken(s, ok, queues);
      case Deliver(signo) => DeliverKeepsToken(s, signo);
      case ChildKill => ChildKeepsToken(s, queues);
      case ForeignKill(signo) => ForeignKeepsToken(s, signo, queues);
    }
  }

  lemma {:induction false} ExecToken(s: State, es: seq<Event>, queues: bool)
    requires Inv(s, queues) && Inv4(s)
    ensures Inv4(Exec(s, es, queues))
    decreases es
  {
    if es != [] {
      StepKeepsInv(s, es[0], queues);
      StepKeepsToken(s, es[0], queues);
      ExecToken(Step(s, es[0], queues), es[1..], queues);
    }
  }
}
