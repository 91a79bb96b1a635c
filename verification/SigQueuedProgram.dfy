/**
 The parent process of signals/sig_queued.c with the globals of the program and the state the
 kernel keeps for it, updated in place.  Every method takes one step of the function it is
 named after and is proved to take exactly the step that SigQueued describes.
 */
module SigQueuedProgram {
  import opened SignalMachine
  import opened Wrappers
  import M = SigQueued
  import T = SigQueuedTheorems

  class Parent {
    // globals of the program
    var sigcount: int
    var waitflag: bool
    var sigflag: bool
    var omask: set<M.Signal>
    // where the code stands
    var main: M.Pc
    var handlers: seq<Frame<M.Pc, M.Signal>>
    var alive: bool
    var verdict: Option<M.Verdict>
    // kernel
    var mask: set<M.Signal>
    var pending: multiset<M.Signal>
    // the child
    var child: nat
    ghost var h: M.History

    ghost function View(): M.State
      reads this
    {
      M.State(Process(main, handlers, mask, pending), alive, omask, sigcount, waitflag, sigflag, child, verdict, h)
    }

    constructor (inherited: set<M.Signal>)
      ensures View() == M.Init(inherited)
    {
      sigcount, waitflag, sigflag, omask := 0, true, false, {};
      main, handlers, alive, verdict := M.TellWait, [], true, None;
      mask, pending, child := inherited, multiset{}, 0;
      h := M.History(0, 0, 0, 0, 0, 0, {}, false);
    }

    method Goto(pc: M.Pc)
      modifies this`main, this`handlers
      ensures View() == old(View()).(p := old(View()).p.Goto(pc))
    {
      if handlers == [] {
        main := pc;
      } else {
        var top := |handlers| - 1;
        handlers := handlers[top := handlers[top].(pc := pc)];
      }
    }

    method Return()
      requires handlers != []
      modifies this`handlers, this`mask
      ensures View() == old(View()).(p := old(View()).p.Return())
    {
      var top := |handlers| - 1;
      mask := handlers[top].saved;
      handlers := handlers[..top];
    }

    method RunMain(ok: bool)
      requires handlers == []
      modifies this
      ensures View() == M.MainStep(old(View()), ok)
    {
      match main
      case TellWait =>
        if ok {
          omask := mask;
          mask := mask + M.USR;
          main := M.Fork;
        } else {
          alive := false;
        }
      case Fork => if ok { main := M.Sleeping; } else { alive := false; }
      case Sleeping => main := M.TestTwo;
      case TestTwo =>
        if sigcount == 2 { verdict, alive := Some(M.NotQueued), false; } else { main := M.TestFour; }
      case TestFour =>
        if sigcount == 4 { verdict, alive := Some(M.Queued), false; } else { main := M.Report; }
      case Report => verdict, alive := Some(M.Unknown(sigcount)), false;
      case _ =>
    }

    method SigQuit(ok: bool)
      requires handlers != []
      modifies this
      ensures View() == M.SigQuitStep(old(View()), ok)
    {
      match handlers[|handlers| - 1].pc
      case LoadCount => Increment();
      case StoreCount(_) => Increment();
      case TestWaitflag =>
        Goto(if waitflag then M.ClearWaitflag else M.QuitReturn);
      case ClearWaitflag =>
        waitflag := false;
        h := h.(waits := h.waits + 1);
        Goto(M.TestSigflag);
      case QuitReturn => Return();
      case WaitReturned => Return();
      case _ => WaitChild(ok);
    }

    /** Line 72, one half at a time. */
    method Increment()
      requires handlers != []
      requires handlers[|handlers| - 1].pc.LoadCount? || handlers[|handlers| - 1].pc.StoreCount?
      modifies this
      ensures View() == M.SigQuitStep(old(View()), true)
    {
      match handlers[|handlers| - 1].pc
      case LoadCount =>
        Goto(M.StoreCount(sigcount));
      case StoreCount(tmp) =>
        sigcount := tmp + 1;
        h := h.(counted := h.counted + 1);
        Goto(M.TestWaitflag);
    }

    method WaitChild(ok: bool)
      requires handlers != []
      modifies this
      ensures View() == M.WaitChildStep(old(View()), ok)
    {
      match handlers[|handlers| - 1].pc
      case TestSigflag =>
        Goto(if sigflag then M.ClearSigflag else M.CallSuspend);
      case CallSuspend =>
        Goto(M.Parked(mask));
        mask := {};
      case ClearSigflag =>
        sigflag := false;
        Goto(M.RestoreMask);
      case RestoreMask =>
        if ok {
          Goto(M.WaitReturned);
          mask := omask;
        } else {
          alive := false;
        }
      case _ =>
    }

    method SigUsr()
      requires handlers != []
      modifies this
      ensures View() == M.SigUsrStep(old(View()))
    {
      match handlers[|handlers| - 1].pc
      case SetSigflag =>
        sigflag := true;
        Goto(M.UsrReturn);
      case UsrReturn => Return();
      case _ =>
    }

    /** Ends a sigsuspend that a signal interrupts; `restored` is the mask the handler will return to. */
    method Interrupt() returns (restored: set<M.Signal>)
      modifies this`main, this`handlers
      ensures var p, at := old(View()).p, old(View()).p.Running();
        && View().p == (if at.Parked? then p.Goto(M.TestSigflag) else p)
        && restored == (if at.Parked? then at.previous else p.mask)
    {
      var at := if handlers == [] then main else handlers[|handlers| - 1].pc;
      restored := mask;
      if at.Parked? {
        restored := at.previous;
        Goto(M.TestSigflag);
      }
    }

    method Enter(signo: M.Signal, restored: set<M.Signal>)
      modifies this`handlers, this`mask, this`pending
      ensures View().p == old(View().p).Enter(signo, M.Entry(signo), restored, true)
    {
      handlers := handlers + [Frame(M.Entry(signo), signo, restored)];
      mask := mask + {signo};
      pending := pending - multiset{signo};
    }

    method Deliver(signo: M.Signal)
      modifies this
      ensures View() == M.DeliverSignal(old(View()), signo)
    {
      var restored := Interrupt();
      Enter(signo, restored);
      if signo == M.SIGQUIT {
        h := h.(entries := h.entries + 1);
      }
    }

    method Generate(signo: M.Signal, queues: bool)
      modifies this
      ensures View() == M.Generate(old(View()), signo, queues)
    {
      h := h.(sent := h.sent + {signo});
      if signo == M.SIGQUIT {
        h := h.(quits := h.quits + 1, merged := if queues || signo !in pending then h.merged else h.merged + 1);
      }
      if queues || signo !in pending {
        pending := pending + multiset{signo};
      }
    }

    method Step(e: M.Event, queues: bool)
      modifies this
      ensures View() == M.Step(old(View()), e, queues)
    {
      if !alive {
        return;
      }
      match e
      case Run(ok) =>
        if handlers == [] {
          if !main.Parked? { RunMain(ok); }
        } else if !handlers[|handlers| - 1].pc.Parked? {
          if handlers[|handlers| - 1].signo == M.SIGQUIT { SigQuit(ok); } else { SigUsr(); }
        }
      case Deliver(signo) =>
        if signo in pending && signo !in mask { Deliver(signo); }
      case ChildKill =>
        if !main.TellWait? && !main.Fork? && child < 5 {
          Generate(if child < 4 then M.SIGQUIT else M.SIGUSR2, queues);
          child := child + 1;
        }
      case ForeignKill(signo) =>
        if !main.TellWait? {
          Generate(signo, queues);
          if signo == M.SIGQUIT {
            h := h.(foreignQuits := h.foreignQuits + 1);
          } else {
            h := h.(foreignUsr := true);
          }
        }
    }

    /** A whole run, in which `es` decides what happens when. */
    method Run(es: seq<M.Event>, queues: bool)
      modifies this
      ensures View() == M.Exec(old(View()), es, queues)
      ensures old(View()) == M.Init(old(mask)) ==>
        |handlers| <= 4 && sigcount == h.counted && (handlers == [] && !main.TellWait? ==> mask == old(mask) + M.USR)
    {
      ghost var start := View();
      for i := 0 to |es|
        invariant M.Exec(View(), es[i..], queues) == M.Exec(start, es, queues)
      {
        assert es[i..][0] == es[i] && es[i..][1..] == es[i + 1..];
        Step(es[i], queues);
      }
      if start == M.Init(old(mask)) {
        T.BoundedNesting(old(mask), es, queues);
        T.NoLostIncrement(old(mask), es, queues);
        T.MaskDiscipline(old(mask), es, queues);
      }
    }
  }
}
