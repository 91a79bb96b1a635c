/**
 signals/sigsetjmp.c: a SIGUSR1 handler that leaves with siglongjmp and may be interrupted by, or
 interrupt, a SIGALRM handler.  Both signals may arrive any number of times at any moment.

 The handler's guard compares an array with null, which never holds; the flag `canjump` is
 maintained but not tested.  Both the guard as it is coded and the one that tests the flag are
 modelled.
 */
module SigSetjmp {
  import opened SignalMachine
  import opened Wrappers

  datatype Signal = SIGUSR1 | SIGALRM

  datatype Pc =
    // main
    | InstallUsr1 | InstallAlrm | Setjmp | SetCanjump | Pause | Ending | Return
    // sig_usr1
    | TestGuard | Starting | Spin | ClearCanjump | Jump | UsrReturn
    // sig_alrm
    | InAlrm | AlrmReturn

  datatype Guard = AsCoded | TestsCanjump

  /** `savemask` is the option passed to sigsetjmp, `queues` whether the kernel queues pending signals. */
  datatype Config = Config(guard: Guard, savemask: bool, queues: bool)

  datatype State = State(
    p: Process<Pc, Signal>, alive: bool,
    usr1Installed: bool, alrmInstalled: bool,
    jmpbuf: Option<set<Signal>>,   // the mask in force at sigsetjmp
    canjump: bool,
    // what happened so far
    wild: bool,                    // siglongjmp was called with an unfilled buffer
    jumps: nat,
    cut: set<Signal>,              // the signals whose handlers the last jump abandoned
    endings: seq<set<Signal>>)     // the masks printed by "ending main"

  datatype Event = Run(ok: bool) | Deliver(signo: Signal) | Kill(signo: Signal)

  function Init(mask: set<Signal>): State {
    State(Process(InstallUsr1, [], mask, multiset{}), true, false, false, None, false, false, 0, {}, [])
  }

  predicate Enabled(s: State, e: Event) {
    s.alive &&
    match e
    case Run(_) => !s.p.Running().Pause?
    case Deliver(signo) => s.p.Deliverable(signo)
    case Kill(_) => true
  }

  function Step(s: State, e: Event, cfg: Config): State {
    if !Enabled(s, e) then s else
    match e
    case Run(ok) =>
      if s.p.handlers == [] then MainStep(s, ok)
      else if s.p.handlers[|s.p.handlers| - 1].signo == SIGUSR1 then SigUsr1Step(s, ok, cfg)
      else SigAlrmStep(s, ok)
    case Deliver(signo) => DeliverSignal(s, signo)
    case Kill(signo) => s.(p := s.p.Generate(signo, cfg.queues))
  }

  function MainStep(s: State, ok: bool): State {
    match s.p.main
    case InstallUsr1 => if ok then s.(p := s.p.Goto(InstallAlrm), usr1Installed := true) else s.(alive := false)
    case InstallAlrm => if ok then s.(p := s.p.Goto(Setjmp), alrmInstalled := true) else s.(alive := false)
    case Setjmp => s.(p := s.p.Goto(SetCanjump), jmpbuf := Some(s.p.mask))
    case SetCanjump => s.(p := s.p.Goto(Pause), canjump := true)
    case Ending => if ok then s.(p := s.p.Goto(Return), endings := s.endings + [s.p.mask]) else s.(alive := false)
    case Return => s.(alive := false)
    case _ => s
  }

  function SigUsr1Step(s: State, ok: bool, cfg: Config): State {
    match s.p.Running()
    case TestGuard =>
      s.(p := s.p.Goto(if cfg.guard.TestsCanjump? && !s.canjump then UsrReturn else Starting))
    case Starting => if ok then s.(p := s.p.Goto(Spin)) else s.(alive := false)
    case Spin => if ok then s.(p := s.p.Goto(ClearCanjump)) else s.(alive := false)
    case ClearCanjump => s.(p := s.p.Goto(Jump), canjump := false)
    case Jump => Siglongjmp(s, cfg)
    case UsrReturn => if s.p.handlers == [] then s else s.(p := s.p.Return())
    case _ => s
  }

  /** Abandons every handler frame; the mask comes back only if sigsetjmp saved it. */
  function Siglongjmp(s: State, cfg: Config): State {
    match s.jmpbuf
    case None => s.(wild := true, alive := false)
    case Some(saved) =>
      s.(p := Process(Ending, [], if cfg.savemask then saved else s.p.mask, s.p.pending),
         jumps := s.jumps + 1, cut := Handled(s.p.handlers))
  }

  function Handled(hs: seq<Frame<Pc, Signal>>): set<Signal> {
    set i | 0 <= i < |hs| :: hs[i].signo
  }

  function SigAlrmStep(s: State, ok: bool): State {
    match s.p.Running()
    case InAlrm => if ok then s.(p := s.p.Goto(AlrmReturn)) else s.(alive := false)
    case AlrmReturn => if s.p.handlers == [] then s else s.(p := s.p.Return())
    case _ => s
  }

  /** Before its handler is installed, either signal terminates the process. */
  function DeliverSignal(s: State, signo: Signal): State {
    if if signo == SIGUSR1 then s.usr1Installed else s.alrmInstalled then
      s.(p := s.p.Enter(signo, if signo == SIGUSR1 then TestGuard else InAlrm, s.p.mask, true))
    else s.(alive := false)
  }

  function Exec(s: State, es: seq<Event>, cfg: Config): State
    decreases es
  {
    if es == [] then s else Exec(Step(s, es[0], cfg), es[1..], cfg)
  }

  // ---------------------------------------------------------------- invariants

  predicate FrameOk(f: Frame<Pc, Signal>) {
    if f.signo == SIGUSR1
    then f.pc.TestGuard? || f.pc.Starting? || f.pc.Spin? || f.pc.ClearCanjump? || f.pc.Jump? || f.pc.UsrReturn?
    else f.pc.InAlrm? || f.pc.AlrmReturn?
  }

  /** At most two frames, for different signals, above a main program with mask `base`. */
  ghost predicate Stack(hs: seq<Frame<Pc, Signal>>, mask: set<Signal>, base: set<Signal>) {
    && |hs| <= 2 && (forall i | 0 <= i < |hs| :: FrameOk(hs[i]))
    && mask == base + Handled(hs)
    && (|hs| > 0 ==> hs[0].saved == base)
    && (|hs| > 1 ==> hs[0].signo != hs[1].signo && hs[1].saved == base + {hs[0].signo})
    && (forall i | 0 <= i < |hs| :: hs[i].signo !in base)
  }

  /** The mask of main: the initial one, or what a jump without saved mask left. */
  function Base(s: State, mask: set<Signal>, cfg: Config): set<Signal> {
    if s.jumps == 0 || cfg.savemask then mask else mask + s.cut
  }

  predicate BeforeSetjmp(pc: Pc) {
    pc.InstallUsr1? || pc.InstallAlrm? || pc.Setjmp?
  }

  predicate AfterJump(pc: Pc) {
    pc.Ending? || pc.Return?
  }

  ghost predicate Inv(s: State, mask: set<Signal>, cfg: Config) {
    && Stack(s.p.handlers, s.p.mask, Base(s, mask, cfg))
    && (BeforeSetjmp(s.p.main) || s.p.main.SetCanjump? || s.p.main.Pause? || AfterJump(s.p.main))
    && s.jmpbuf == (if BeforeSetjmp(s.p.main) then None else Some(mask))
    && (s.jumps > 0 <==> AfterJump(s.p.main))
    && (s.jumps > 0 ==> SIGUSR1 in s.cut && SIGUSR1 !in mask)
    && (!cfg.savemask ==> s.jumps <= 1)
    && (s.canjump ==> s.p.main.Pause? && forall i | 0 <= i < |s.p.handlers| :: !s.p.handlers[i].pc.Jump?)
    && (s.wild ==> !s.alive && SIGUSR1 !in mask)
    && (forall i | 0 <= i < |s.endings| :: s.endings[i] == (if cfg.savemask then mask else mask + s.cut))
    && (s.endings != [] ==> s.jumps > 0)
  }

  lemma GotoKeepsStack(p: Process<Pc, Signal>, pc: Pc, base: set<Signal>)
    requires Stack(p.handlers, p.mask, base) && p.handlers != []
    requires FrameOk(p.handlers[|p.handlers| - 1].(pc := pc))
    ensures Stack(p.Goto(pc).handlers, p.Goto(pc).mask, base)
    ensures Handled(p.Goto(pc).handlers) == Handled(p.handlers)
  {
    var hs, hs' := p.handlers, p.Goto(pc).handlers;
    assert forall i | 0 <= i < |hs| :: hs'[i].signo == hs[i].signo;
    assert Handled(hs') == Handled(hs);
  }

  lemma ReturnKeepsStack(p: Process<Pc, Signal>, base: set<Signal>)
    requires Stack(p.handlers, p.mask, base) && p.handlers != []
    ensures Stack(p.Return().handlers, p.Return().mask, base)
  {
    if |p.handlers| == 1 {
      assert Handled(p.Return().handlers) == {};
    } else {
      assert p.Return().handlers == [p.handlers[0]];
      assert Handled([p.handlers[0]]) == {p.handlers[0].signo};
    }
  }

  lemma EnterKeepsStack(p: Process<Pc, Signal>, signo: Signal, base: set<Signal>)
    requires Stack(p.handlers, p.mask, base) && p.Deliverable(signo)
    ensures var q := p.Enter(signo, if signo == SIGUSR1 then TestGuard else InAlrm, p.mask, true);
      Stack(q.handlers, q.mask, base)
  {
    var hs := p.handlers;
    var q := p.Enter(signo, if signo == SIGUSR1 then TestGuard else InAlrm, p.mask, true);
    assert forall i | 0 <= i < |hs| :: hs[i].signo in Handled(hs) && q.handlers[i] == hs[i];
    assert Handled(q.handlers) == Handled(hs) + {signo} by {
      forall x | x in Handled(hs) ensures x in Handled(q.handlers) {
        var i :| 0 <= i < |hs| && hs[i].signo == x;
        assert q.handlers[i].signo == x;
      }
      assert q.handlers[|hs|].signo == signo;
    }
    if |hs| == 1 { assert Handled(hs) == {hs[0].signo}; }
    if |hs| == 0 { assert Handled(hs) == {}; }
  }

  lemma MainKeepsInv(s: State, ok: bool, mask: set<Signal>, cfg: Config)
    requires Inv(s, mask, cfg) && s.p.handlers == []
    ensures Inv(MainStep(s, ok), mask, cfg)
  {
    match s.p.main
    case InstallUsr1 =>
    case InstallAlrm =>
    case Setjmp =>
      assert Handled(s.p.handlers) == {};
      assert s.p.mask == mask;
    case SetCanjump =>
    case Pause =>
    case Ending =>
    case Return =>
  }

  lemma JumpKeepsInv(s: State, mask: set<Signal>, cfg: Config)
    requires Inv(s, mask, cfg) && s.alive && s.p.handlers != []
    requires s.p.Running().Jump? && s.p.handlers[|s.p.handlers| - 1].signo == SIGUSR1
    ensures Inv(Siglongjmp(s, cfg), mask, cfg)
  {
    assert SIGUSR1 in Handled(s.p.handlers);
  }

  lemma GotoKeepsInv(s: State, pc: Pc, mask: set<Signal>, cfg: Config)
    requires Inv(s, mask, cfg) && s.alive && s.p.handlers != []
    requires FrameOk(s.p.handlers[|s.p.handlers| - 1].(pc := pc)) && (pc.Jump? ==> !s.canjump)
    ensures Inv(s.(p := s.p.Goto(pc)), mask, cfg)
  {
    GotoKeepsStack(s.p, pc, Base(s, mask, cfg));
  }

  lemma ReturnKeepsInv(s: State, mask: set<Signal>, cfg: Config)
    requires Inv(s, mask, cfg) && s.alive && s.p.handlers != []
    ensures Inv(s.(p := s.p.Return()), mask, cfg)
  {
    ReturnKeepsStack(s.p, Base(s, mask, cfg));
  }

  lemma ClearKeepsInv(s: State, mask: set<Signal>, cfg: Config)
    requires Inv(s, mask, cfg) && s.alive && s.p.handlers != [] && s.p.handlers[|s.p.handlers| - 1].signo == SIGUSR1
    ensures Inv(s.(p := s.p.Goto(Jump), canjump := false), mask, cfg)
  {
    GotoKeepsInv(s.(canjump := false), Jump, mask, cfg);
  }

  lemma BodyKeepsInv(s: State, ok: bool, mask: set<Signal>, cfg: Config)
    requires Inv(s, mask, cfg) && s.alive && s.p.handlers != [] && s.p.handlers[|s.p.handlers| - 1].signo == SIGUSR1
    requires s.p.Running().TestGuard? || s.p.Running().Starting? || s.p.Running().Spin?
    ensures Inv(SigUsr1Step(s, ok, cfg), mask, cfg)
  {
    match s.p.Running()
    case TestGuard => GotoKeepsInv(s, if cfg.guard.TestsCanjump? && !s.canjump then UsrReturn else Starting, mask, cfg);
    case Starting => GotoKeepsInv(s, Spin, mask, cfg);
    case Spin => GotoKeepsInv(s, ClearCanjump, mask, cfg);
  }

  lemma Usr1KeepsInv(s: State, ok: bool, mask: set<Signal>, cfg: Config)
    requires Inv(s, mask, cfg) && s.alive && s.p.handlers != [] && s.p.handlers[|s.p.handlers| - 1].signo == SIGUSR1
    ensures Inv(SigUsr1Step(s, ok, cfg), mask, cfg)
  {
    match s.p.Running()
    case ClearCanjump => ClearKeepsInv(s, mask, cfg);
    case Jump => JumpKeepsInv(s, mask, cfg);
    case UsrReturn => ReturnKeepsInv(s, mask, cfg);
    case _ => BodyKeepsInv(s, ok, mask, cfg);
  }

  lemma AlrmKeepsInv(s: State, ok: bool, mask: set<Signal>, cfg: Config)
    requires Inv(s, mask, cfg) && s.alive && s.p.handlers != [] && s.p.handlers[|s.p.handlers| - 1].signo == SIGALRM
    ensures Inv(SigAlrmStep(s, ok), mask, cfg)
  {
    match s.p.Running()
    case InAlrm => GotoKeepsInv(s, AlrmReturn, mask, cfg);
    case AlrmReturn => ReturnKeepsStack(s.p, Base(s, mask, cfg));
  }

  lemma DeliverKeepsInv(s: State, signo: Signal, mask: set<Signal>, cfg: Config)
    requires Inv(s, mask, cfg) && s.alive && s.p.Deliverable(signo)
    ensures Inv(DeliverSignal(s, signo), mask, cfg)
  {
    EnterKeepsStack(s.p, signo, Base(s, mask, cfg));
  }

  lemma StepKeepsInv(s: State, e: Event, mask: set<Signal>, cfg: Config)
    requires Inv(s, mask, cfg)
    ensures Inv(Step(s, e, cfg), mask, cfg)
  {
    if Enabled(s, e) {
      match e
      case Run(ok) =>
        if s.p.handlers == [] { MainKeepsInv(s, ok, mask, cfg); }
        else if s.p.handlers[|s.p.handlers| - 1].signo == SIGUSR1 { Usr1KeepsInv(s, ok, mask, cfg); }
        else { AlrmKeepsInv(s, ok, mask, cfg); }
      case Deliver(signo) => DeliverKeepsInv(s, signo, mask, cfg);
      case Kill(_) =>
    }
  }

  lemma {:induction false} ExecInv(s: State, es: seq<Event>, mask: set<Signal>, cfg: Config)
    requires Inv(s, mask, cfg)
    ensures Inv(Exec(s, es, cfg), mask, cfg)
    decreases es
  {
    if es != [] {
      StepKeepsInv(s, es[0], mask, cfg);
      ExecInv(Step(s, es[0], cfg), es[1..], mask, cfg);
    }
  }

  lemma ReachedInv(es: seq<Event>, mask: set<Signal>, cfg: Config)
    ensures Inv(Exec(Init(mask), es, cfg), mask, cfg)
  {
    assert Handled([]) == {};
    ExecInv(Init(mask), es, mask, cfg);
  }

  // ---------------------------------------------------------------- the guard that tests canjump

  predicate PastGuard(pc: Pc) {
    pc.Starting? || pc.Spin? || pc.ClearCanjump? || pc.Jump?
  }

  /** A handler that is past the guard found main waiting, and nobody has jumped yet. */
  ghost predicate Guarded(s: State) {
    && !s.wild && s.jumps <= 1
    && (s.canjump ==> s.jumps == 0)
    && (forall i | 0 <= i < |s.p.handlers| && PastGuard(s.p.handlers[i].pc) :: s.p.main.Pause?)
  }

  lemma Usr1KeepsGuarded(s: State, ok: bool, mask: set<Signal>, cfg: Config)
    requires Inv(s, mask, cfg) && Guarded(s) && cfg.guard.TestsCanjump?
    requires s.alive && s.p.handlers != [] && s.p.handlers[|s.p.handlers| - 1].signo == SIGUSR1
    ensures Guarded(SigUsr1Step(s, ok, cfg))
  {
    match s.p.Running()
    case TestGuard =>
    case Starting =>
    case Spin =>
    case ClearCanjump =>
    case Jump =>
    case UsrReturn =>
  }

  lemma MainKeepsGuarded(s: State, ok: bool, mask: set<Signal>, cfg: Config)
    requires Inv(s, mask, cfg) && Guarded(s) && s.p.handlers == []
    ensures Guarded(MainStep(s, ok))
  {
  }

  lemma AlrmKeepsGuarded(s: State, ok: bool)
    requires Guarded(s) && s.p.handlers != []
    ensures Guarded(SigAlrmStep(s, ok))
  {
  }

  lemma DeliverKeepsGuarded(s: State, signo: Signal)
    requires Guarded(s)
    ensures Guarded(DeliverSignal(s, signo))
  {
  }

  lemma StepKeepsGuarded(s: State, e: Event, mask: set<Signal>, cfg: Config)
    requires Inv(s, mask, cfg) && Guarded(s) && cfg.guard.TestsCanjump?
    ensures Guarded(Step(s, e, cfg))
  {
    if Enabled(s, e) {
      match e
      case Run(ok) =>
        if s.p.handlers == [] { MainKeepsGuarded(s, ok, mask, cfg); }
        else if s.p.handlers[|s.p.handlers| - 1].signo == SIGUSR1 { Usr1KeepsGuarded(s, ok, mask, cfg); }
        else { AlrmKeepsGuarded(s, ok); }
      case Deliver(signo) => DeliverKeepsGuarded(s, signo);
      case Kill(_) =>
    }
  }

  lemma {:induction false} ExecGuarded(s: State, es: seq<Event>, mask: set<Signal>, cfg: Config)
    requires Inv(s, mask, cfg) && Guarded(s) && cfg.guard.TestsCanjump?
    ensures Guarded(Exec(s, es, cfg))
    decreases es
  {
    if es != [] {
      StepKeepsInv(s, es[0], mask, cfg);
      StepKeepsGuarded(s, es[0], mask, cfg);
      ExecGuarded(Step(s, es[0], cfg), es[1..], mask, cfg);
    }
  }

  // ---------------------------------------------------------------- theorems

  /**
   Mask after the jump: whenever main stands at or after "ending main", and in everything it
   prints there, the mask is the one of sigsetjmp if it was saved; otherwise the signals of all
   abandoned handlers, SIGUSR1 among them, have stayed blocked.
   */
  lemma MaskAfterJump(es: seq<Event>, mask: set<Signal>, cfg: Config)
    ensures var s := Exec(Init(mask), es, cfg);
      AfterJump(s.p.main) ==>
        && s.p.MaskBelow(0) == (if cfg.savemask then mask else mask + s.cut)
        && SIGUSR1 in s.cut
        && forall m | m in s.endings :: m == (if cfg.savemask then mask else mask + s.cut)
  {
    ReachedInv(es, mask, cfg);
  }

  /** Jump safety with the guard that tests canjump: never an unfilled buffer, at most one jump. */
  lemma JumpSafety(es: seq<Event>, mask: set<Signal>, savemask: bool, queues: bool)
    ensures var s := Exec(Init(mask), es, Config(TestsCanjump, savemask, queues));
      !s.wild && s.jumps <= 1
  {
    assert Handled([]) == {};
    ExecGuarded(Init(mask), es, mask, Config(TestsCanjump, savemask, queues));
  }

  function InUsr1(s: State, pc: Pc): State {
    s.(p := Process(s.p.main, [Frame(pc, SIGUSR1, s.p.mask)], s.p.mask + {SIGUSR1}, multiset{}))
  }

  lemma BodySteps(s: State, cfg: Config)
    requires (cfg.guard.AsCoded? || s.canjump) && s.alive
    ensures Step(InUsr1(s, TestGuard), Run(true), cfg) == InUsr1(s, Starting)
    ensures Step(InUsr1(s, Starting), Run(true), cfg) == InUsr1(s, Spin)
  {
  }

  lemma LoopSteps(s: State, cfg: Config)
    requires s.alive
    ensures Step(InUsr1(s, Spin), Run(true), cfg) == InUsr1(s, ClearCanjump)
    ensures Step(InUsr1(s, ClearCanjump), Run(true), cfg) == InUsr1(s, Jump).(canjump := false)
  {
  }

  /** A SIGUSR1 that finds main running and passes the guard is handled up to the jump. */
  lemma UpToJump(s: State, cfg: Config, es: seq<Event>) returns (es': seq<Event>)
    requires (cfg.guard.AsCoded? || s.canjump) && s.alive && s.usr1Installed && s.p.handlers == []
    requires SIGUSR1 !in s.p.mask && s.p.pending == multiset{}
    ensures Exec(s, es', cfg) == Exec(InUsr1(s, Jump).(canjump := false), es, cfg)
  {
    var s1 := Step(s, Kill(SIGUSR1), cfg);
    assert Step(s1, Deliver(SIGUSR1), cfg) == InUsr1(s, TestGuard);
    BodySteps(s, cfg);
    LoopSteps(s, cfg);
    es' := Before(InUsr1(s, ClearCanjump), Run(true), es, cfg);
    es' := Before(InUsr1(s, Spin), Run(true), es', cfg);
    es' := Before(InUsr1(s, Starting), Run(true), es', cfg);
    es' := Before(InUsr1(s, TestGuard), Run(true), es', cfg);
    es' := Before(s1, Deliver(SIGUSR1), es', cfg);
    es' := Before(s, Kill(SIGUSR1), es', cfg);
  }

  lemma Before(s: State, e: Event, es: seq<Event>, cfg: Config) returns (es': seq<Event>)
    ensures Exec(s, es', cfg) == Exec(Step(s, e, cfg), es, cfg)
  {
    es' := [e] + es;
    assert es'[1..] == es;
  }

  /** From main, with the handler installed and SIGUSR1 free, one SIGUSR1 leads to the jump. */
  lemma OneSignal(s: State, cfg: Config) returns (es: seq<Event>, t: State)
    requires (cfg.guard.AsCoded? || s.canjump) && s.alive && s.usr1Installed && s.p.handlers == []
    requires SIGUSR1 !in s.p.mask && s.p.pending == multiset{}
    ensures Exec(s, es, cfg) == t
    ensures s.jmpbuf.None? ==> t.wild
    ensures s.jmpbuf.Some? ==> t == s.(
      p := Process(Ending, [], if cfg.savemask then s.jmpbuf.value else s.p.mask + {SIGUSR1}, multiset{}),
      canjump := false, jumps := s.jumps + 1, cut := {SIGUSR1})
  {
    var u := InUsr1(s, Jump).(canjump := false);
    t := Step(u, Run(true), cfg);
    assert Handled(u.p.handlers) == {SIGUSR1};
    es := Before(u, Run(true), [], cfg);
    es := UpToJump(s, cfg, es);
  }

  /**
   As coded, the guard protects nothing: some run calls siglongjmp before sigsetjmp filled the
   buffer, exactly if the process does not start with SIGUSR1 blocked.
   */
  lemma WildJumpExactly(mask: set<Signal>, savemask: bool, queues: bool)
    ensures var cfg := Config(AsCoded, savemask, queues);
      (exists es :: Exec(Init(mask), es, cfg).wild) <==> SIGUSR1 !in mask
  {
    var cfg := Config(AsCoded, savemask, queues);
    forall es | Exec(Init(mask), es, cfg).wild ensures SIGUSR1 !in mask { ReachedInv(es, mask, cfg); }
    if SIGUSR1 !in mask {
      var s := Step(Init(mask), Run(true), cfg);
      var es, t := OneSignal(s, cfg);
      es := Before(Init(mask), Run(true), es, cfg);
    }
  }

  /** As coded, a second jump is possible exactly if the mask is restored and SIGUSR1 was free. */
  lemma SecondJumpExactly(mask: set<Signal>, savemask: bool, queues: bool)
    ensures var cfg := Config(AsCoded, savemask, queues);
      (exists es :: Exec(Init(mask), es, cfg).jumps > 1) <==> savemask && SIGUSR1 !in mask
  {
    var cfg := Config(AsCoded, savemask, queues);
    forall es | Exec(Init(mask), es, cfg).jumps > 1 ensures savemask && SIGUSR1 !in mask { ReachedInv(es, mask, cfg); }
    if savemask && SIGUSR1 !in mask {
      var s1 := Step(Init(mask), Run(true), cfg);
      var s2 := Step(s1, Run(true), cfg);
      var s3 := Step(s2, Run(true), cfg);
      var es, t := OneSignal(s3, cfg);
      var es', t' := OneSignal(t, cfg);
      ExecAppend(s3, es, es', cfg);
      es := Before(s2, Run(true), es + es', cfg);
      es := Before(s1, Run(true), es, cfg);
      es := Before(Init(mask), Run(true), es, cfg);
    }
  }

  /** With either guard the jump itself can happen, exactly if SIGUSR1 was free. */
  lemma JumpExactly(mask: set<Signal>, cfg: Config)
    ensures (exists es :: Exec(Init(mask), es, cfg).jumps == 1) <==> SIGUSR1 !in mask
  {
    forall es | Exec(Init(mask), es, cfg).jumps == 1 ensures SIGUSR1 !in mask { ReachedInv(es, mask, cfg); }
    if SIGUSR1 !in mask {
      var s1 := Step(Init(mask), Run(true), cfg);
      var s2 := Step(s1, Run(true), cfg);
      var s3 := Step(s2, Run(true), cfg);
      var s4 := Step(s3, Run(true), cfg);
      assert s4.canjump && s4.jmpbuf == Some(mask);
      var es, t := OneSignal(s4, cfg);
      es := Before(s3, Run(true), es, cfg);
      es := Before(s2, Run(true), es, cfg);
      es := Before(s1, Run(true), es, cfg);
      es := Before(Init(mask), Run(true), es, cfg);
    }
  }

  lemma {:induction false} ExecAppend(s: State, a: seq<Event>, b: seq<Event>, cfg: Config)
    ensures Exec(s, a + b, cfg) == Exec(Exec(s, a, cfg), b, cfg)
    decreases a
  {
    if a == [] {
      assert a + b == b;
    } else {
      assert (a + b)[0] == a[0] && (a + b)[1..] == a[1..] + b;
      ExecAppend(Step(s, a[0], cfg), a[1..], b, cfg);
    }
  }
}
