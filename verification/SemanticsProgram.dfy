/**
 The process of signal_semantics.c or sigaction_semantics.c and its current child, updated in
 place.  Each method takes one step of the function it is named after and is proved to take the
 step that Semantics describes.
 */
module SemanticsProgram {
  import opened SignalMachine
  import opened Wrappers
  import M = Semantics
  import T = SemanticsTheorems

  class Program {
    const setup: M.Setup
    // globals of the program
    var needSleep: bool
    var leftToSleep: nat
    // where the code stands
    var main: M.Pc
    var handlers: seq<Frame<M.Pc, M.Signal>>
    var alive: bool
    // kernel
    var mask: set<M.Signal>
    var pending: multiset<M.Signal>
    var actions: M.Actions
    // the child and the pipe to it
    var job: M.Job
    var done: nat
    var piped: bool
    // verdicts
    var reset: Option<bool>
    var prevent: Option<bool>
    var restart: seq<bool>

    function View(): M.State
      reads this
    {
      M.State(Process(main, handlers, mask, pending), alive, actions, needSleep, leftToSleep, job, done, piped,
              reset, prevent, restart)
    }

    constructor (inherited: set<M.Signal>, system: M.Setup)
      ensures View() == M.Init(inherited) && setup == system
    {
      setup, needSleep, leftToSleep := system, true, 5;
      main, handlers, alive := M.InstallUsr1, [], true;
      mask, pending, actions := inherited, multiset{}, M.Actions(M.Default, M.Default, M.Default);
      job, done, piped := M.NoChild, 0, false;
      reset, prevent, restart := None, None, [];
    }

    method Goto(pc: M.Pc)
      requires handlers != []
      modifies this`handlers
      ensures View() == old(View()).(p := old(View()).p.Goto(pc))
    {
      var top := |handlers| - 1;
      handlers := handlers[top := handlers[top].(pc := pc)];
    }

    method Return()
      requires handlers != []
      modifies this`handlers, this`mask
      ensures View() == old(View()).(p := old(View()).p.Return())
    {
      var top := |handlers| - 1;
      mask := handlers[top].saved;
      handlers := handlers[..top];
    }

    method Generate(signo: M.Signal)
      modifies this`pending
      ensures View() == old(View()).(p := old(View()).p.Generate(signo, false))
    {
      if signo !in pending { pending := pending + multiset{signo}; }
    }

    /** signal(), or sigaction() behind Signal and Signal_r. */
    method Install(signo: M.Signal, a: M.Action, next: M.Pc, ok: bool)
      modifies this`actions, this`main, this`alive
      ensures View() == var s := old(View());
        if ok then s.(p := s.p.(main := next), actions := s.actions.Set(signo, a)) else s.(alive := false)
    {
      if ok {
        actions := actions.Set(signo, a);
        main := next;
      } else {
        alive := false;
      }
    }

    method RunMain(ok: bool)
      requires handlers == []
      modifies this
      ensures View() == M.MainStep(old(View()), ok, setup)
    {
      match main
      case InstallUsr1 => ResetTest(ok);
      case Raise => ResetTest(ok);
      case Query => ResetTest(ok);
      case InstallUsr2 => BlockTest(ok);
      case ForkKiller => BlockTest(ok);
      case WaitPid => BlockTest(ok);
      case Judge => BlockTest(ok);
      case _ => ReadTest(ok);
    }

    method ResetTest(ok: bool)
      requires handlers == [] && (main.InstallUsr1? || main.Raise? || main.Query?)
      modifies this
      ensures View() == M.MainStep(old(View()), ok, setup)
    {
      match main
      case InstallUsr1 => Install(M.SIGUSR1, M.Caught(setup.restarts), M.Raise, ok);
      case Raise =>
        main := M.Query;
        Generate(M.SIGUSR1);
      case Query =>
        if ok { reset := Some(actions.usr1.Default?); }
        Install(M.SIGUSR1, M.Default, M.InstallUsr2, ok);
    }

    method BlockTest(ok: bool)
      requires handlers == [] && (main.InstallUsr2? || main.ForkKiller? || main.WaitPid? || main.Judge?)
      modifies this
      ensures View() == M.MainStep(old(View()), ok, setup)
    {
      match main
      case InstallUsr2 => Install(M.SIGUSR2, M.Caught(setup.restarts), M.ForkKiller, ok);
      case ForkKiller =>
        if ok { job, done, main := M.Killer, 0, M.WaitPid; } else { alive := false; }
      case WaitPid =>
        if ok { main := M.Judge; } else { alive := false; }
      case Judge =>
        prevent := Some(leftToSleep == 0);
        main := M.Next(0, setup);
    }

    method ReadTest(ok: bool)
      requires handlers == []
      modifies this
      ensures View() == M.ReadTestStep(old(View()), ok, setup)
    {
      match main
      case Install(k) => PrepareRead(ok);
      case Pipe(k) => PrepareRead(ok);
      case ForkWriter(k) => PrepareRead(ok);
      case Read(k) => main := M.Reading(k);
      case Reading(k) =>
        if ok && piped { restart, main := restart + [true], M.Next(k + 1, setup); } else { alive := false; }
      case Interrupted(k) => restart, main := restart + [false], M.Next(k + 1, setup);
      case _ =>
    }

    method PrepareRead(ok: bool)
      requires handlers == [] && (main.Install? || main.Pipe? || main.ForkWriter?)
      modifies this
      ensures View() == M.ReadTestStep(old(View()), ok, setup)
    {
      match main
      case Install(k) =>
        if k < |setup.tests| {
          Install(setup.tests[k].signo, M.Caught(setup.tests[k].restarts), M.Pipe(k), ok);
        } else {
          alive := false;
        }
      case Pipe(k) =>
        if ok { piped, main := false, M.ForkWriter(k); } else { alive := false; }
      case ForkWriter(k) =>
        if ok { job, done, main := M.Writer(k), 0, M.Read(k); } else { alive := false; }
    }

    method SigUsr2(ok: bool)
      requires handlers != []
      modifies this
      ensures View() == M.SigUsr2Step(old(View()), ok, setup)
    {
      match handlers[|handlers| - 1].pc
      case Reinstall =>
        if ok {
          actions := actions.Set(M.SIGUSR2, M.Caught(setup.restarts));
          Goto(M.TestNeed);
        } else {
          alive := false;
        }
      case TestNeed => Goto(if needSleep then M.ClearNeed else M.HandlerReturn);
      case HandlerReturn => Return();
      case _ => SleepOnce(ok);
    }

    /** Lines 29 and 30 of signal_semantics.c. */
    method SleepOnce(ok: bool)
      requires handlers != []
      requires var pc := handlers[|handlers| - 1].pc; !pc.Reinstall? && !pc.TestNeed? && !pc.HandlerReturn?
      modifies this
      ensures View() == M.SigUsr2Step(old(View()), ok, setup)
    {
      match handlers[|handlers| - 1].pc
      case ClearNeed =>
        needSleep := false;
        Goto(M.StartSleep);
      case StartSleep => Goto(M.Asleep);
      case Asleep => Goto(M.SleepEnded(0));
      case SleepEnded(left) =>
        leftToSleep := left;
        Goto(M.HandlerReturn);
      case _ =>
    }

    /** What the arriving signal does to the code it interrupts, before the handler starts. */
    method Interrupt(a: M.Action, left: nat)
      modifies this`main, this`handlers
      ensures View().p == old(View().p.Goto(M.Resume(View().p.Running(), a, left)))
    {
      if handlers == [] {
        main := M.Resume(main, a, left);
      } else {
        Goto(M.Resume(handlers[|handlers| - 1].pc, a, left));
      }
    }

    method Enter(signo: M.Signal)
      modifies this`handlers, this`mask, this`pending
      ensures View().p == old(View().p).Enter(signo, if signo == M.SIGUSR2 then M.Reinstall else M.HandlerReturn,
                                              old(mask), setup.blocks)
    {
      handlers := handlers + [Frame(if signo == M.SIGUSR2 then M.Reinstall else M.HandlerReturn, signo, mask)];
      if setup.blocks { mask := mask + {signo}; }
      pending := pending - multiset{signo};
    }

    method Handle(signo: M.Signal, a: M.Action, left: nat)
      modifies this`main, this`handlers, this`mask, this`pending
      ensures View().p == M.Handle(old(View()).p, signo, a, left, setup.blocks)
    {
      Interrupt(a, left);
      Enter(signo);
    }

    method Deliver(signo: M.Signal, left: nat)
      modifies this
      ensures View() == M.DeliverSignal(old(View()), signo, left, setup)
    {
      var a := actions.Get(signo);
      if a.Default? {
        alive := false;
      } else {
        ghost var before := View();
        Handle(signo, a, left);
        assert View() == before.(p := M.Handle(before.p, signo, a, left, setup.blocks));
        if setup.resets { actions := actions.Set(signo, M.Default); }
      }
    }

    method Child(ok: bool)
      modifies this
      ensures View() == M.ChildStep(old(View()), ok, setup)
    {
      match job
      case NoChild =>
      case Killer =>
        if done < 2 { Generate(M.SIGUSR2); }
        done := done + 1;
      case Writer(k) =>
        if done == 0 && k < |setup.tests| {
          Generate(setup.tests[k].signo);
        } else if done == 1 && ok && (main == M.Read(k) || main == M.Reading(k)) {
          piped := true;
        }
        done := done + 1;
    }

    method Step(e: M.Event)
      modifies this
      ensures View() == M.Step(old(View()), e, setup)
    {
      if M.Enabled(View(), e) {
        match e
        case Run(ok) =>
          if handlers == [] { RunMain(ok); }
          else if handlers[|handlers| - 1].signo == M.SIGUSR2 { SigUsr2(ok); }
          else { Return(); }
        case Deliver(signo, left) => Deliver(signo, left);
        case Child(ok) => Child(ok);
      }
    }

    method Run(es: seq<M.Event>)
      modifies this
      ensures View() == M.Exec(old(View()), es, setup)
      ensures old(View()) == M.Init(old(mask)) ==>
        && (reset.Some? ==> (reset.value <==> setup.resets && M.SIGUSR1 !in old(mask)))
        && (prevent == Some(false) ==> !setup.blocks || M.SIGUSR2 in old(mask))
    {
      ghost var start := View();
      for i := 0 to |es|
        invariant M.Exec(View(), es[i..], setup) == M.Exec(start, es, setup)
      {
        assert es[i..][0] == es[i] && es[i..][1..] == es[i + 1..];
        Step(es[i]);
      }
      if start == M.Init(old(mask)) {
        T.ResetVerdict(es, old(mask), setup);
        T.PreventVerdict(es, old(mask), setup);
      }
    }
  }
}
