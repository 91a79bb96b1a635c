/**
 The process of signals/sigsetjmp.c, updated in place.  Each method takes one step of the
 function it is named after and is proved to take the step that SigSetjmp describes.
 */
module SigSetjmpProgram {
  import opened SignalMachine
  import opened Wrappers
  import M = SigSetjmp

  class Program {
    const cfg: M.Config
    // globals of the program
    var canjump: bool
    var jmpbuf: Option<set<M.Signal>>
    // where the code stands
    var main: M.Pc
    var handlers: seq<Frame<M.Pc, M.Signal>>
    var alive: bool
    var wild: bool
    // kernel
    var mask: set<M.Signal>
    var pending: multiset<M.Signal>
    var usr1Installed: bool
    var alrmInstalled: bool
    // output
    var endings: seq<set<M.Signal>>
    ghost var jumps: nat
    ghost var cut: set<M.Signal>

    ghost function View(): M.State
      reads this
    {
      M.State(Process(main, handlers, mask, pending), alive, usr1Installed, alrmInstalled, jmpbuf, canjump,
              wild, jumps, cut, endings)
    }

    constructor (inherited: set<M.Signal>, config: M.Config)
      ensures View() == M.Init(inherited) && cfg == config
    {
      cfg, canjump, jmpbuf := config, false, None;
      main, handlers, alive, wild := M.InstallUsr1, [], true, false;
      mask, pending, usr1Installed, alrmInstalled := inherited, multiset{}, false, false;
      endings, jumps, cut := [], 0, {};
    }

    /** The running handler moves on. */
    method Goto(pc: M.Pc)
      requires handlers != []
      modifies this`handlers
      ensures View() == old(View()).(p := old(View()).p.Goto(pc))
    {
      var top := |handlers| - 1;
      handlers := handlers[top := handlers[top].(pc := pc)];
    }

    method Return()
      requires handlers != []
      modifies this`handlers, this`mask
      ensures View() == old(View()).(p := old(View()).p.Return())
    {
      var top := |handlers| - 1;
      mask := handlers[top].saved;
      handlers := handlers[..top];
    }

    method RunMain(ok: bool)
      requires handlers == []
      modifies this
      ensures View() == M.MainStep(old(View()), ok)
    {
      match main
      case InstallUsr1 =>
        if ok { usr1Installed, main := true, M.InstallAlrm; } else { alive := false; }
      case InstallAlrm =>
        if ok { alrmInstalled, main := true, M.Setjmp; } else { alive := false; }
      case Setjmp => jmpbuf, main := Some(mask), M.SetCanjump;
      case SetCanjump => canjump, main := true, M.Pause;
      case Ending =>
        if ok { endings, main := endings + [mask], M.Return; } else { alive := false; }
      case Return => alive := false;
      case _ =>
    }

    method SigUsr1(ok: bool)
      requires handlers != []
      modifies this
      ensures View() == M.SigUsr1Step(old(View()), ok, cfg)
    {
      match handlers[|handlers| - 1].pc
      case TestGuard =>
        Goto(if cfg.guard.TestsCanjump? && !canjump then M.UsrReturn else M.Starting);
      case Starting =>
        if ok { Goto(M.Spin); } else { alive := false; }
      case Spin =>
        if ok { Goto(M.ClearCanjump); } else { alive := false; }
      case ClearCanjump =>
        canjump := false;
        Goto(M.Jump);
      case Jump => Siglongjmp();
      case UsrReturn => Return();
      case _ =>
    }

    method Siglongjmp()
      modifies this
      ensures View() == M.Siglongjmp(old(View()), cfg)
    {
      match jmpbuf
      case None => wild, alive := true, false;
      case Some(saved) =>
        jumps, cut := jumps + 1, M.Handled(handlers);
        main, handlers := M.Ending, [];
        if cfg.savemask { mask := saved; }
    }

    method SigAlrm(ok: bool)
      requires handlers != []
      modifies this
      ensures View() == M.SigAlrmStep(old(View()), ok)
    {
      match handlers[|handlers| - 1].pc
      case InAlrm =>
        if ok { Goto(M.AlrmReturn); } else { alive := false; }
      case AlrmReturn => Return();
      case _ =>
    }

    method Enter(signo: M.Signal, entry: M.Pc)
      modifies this`handlers, this`mask, this`pending
      ensures View().p == old(View().p).Enter(signo, entry, old(mask), true)
    {
      handlers := handlers + [Frame(entry, signo, mask)];
      mask := mask + {signo};
      pending := pending - multiset{signo};
    }

    method Deliver(signo: M.Signal)
      modifies this
      ensures View() == M.DeliverSignal(old(View()), signo)
    {
      var installed := if signo == M.SIGUSR1 then usr1Installed else alrmInstalled;
      if installed {
        Enter(signo, if signo == M.SIGUSR1 then M.TestGuard else M.InAlrm);
      } else {
        alive := false;
      }
    }

    method Step(e: M.Event)
      requires alive
      modifies this
      ensures View() == M.Step(old(View()), e, cfg)
    {
      match e
      case Run(ok) =>
        if handlers == [] {
          if !main.Pause? { RunMain(ok); }
        } else if !handlers[|handlers| - 1].pc.Pause? {
          if handlers[|handlers| - 1].signo == M.SIGUSR1 { SigUsr1(ok); } else { SigAlrm(ok); }
        }
      case Deliver(signo) =>
        if signo in pending && signo !in mask { Deliver(signo); }
      case Kill(signo) =>
        if cfg.queues || signo !in pending { pending := pending + multiset{signo}; }
    }

    method Run(es: seq<M.Event>)
      modifies this
      ensures View() == M.Exec(old(View()), es, cfg)
      ensures old(View()) == M.Init(old(mask)) && cfg.guard.TestsCanjump? ==> !wild && jumps <= 1
    {
      ghost var start := View();
      for i := 0 to |es|
        invariant M.Exec(View(), es[i..], cfg) == M.Exec(start, es, cfg)
      {
        assert es[i..][0] == es[i] && es[i..][1..] == es[i + 1..];
        if alive { Step(es[i]); }
      }
      if start == M.Init(old(mask)) && cfg.guard.TestsCanjump? {
        M.JumpSafety(es, old(mask), cfg.savemask, cfg.queues);
      }
    }
  }
}
