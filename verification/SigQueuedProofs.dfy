/** What holds in every run of signals/sig_queued.c. */
module SigQueuedProofs {
  import opened SignalMachine
  import opened SigQueued

  // ---------------------------------------------------------------- the shape of the stack

  predicate BeforeWait(pc: Pc) {
    pc.LoadCount? || pc.StoreCount? || pc.TestWaitflag? || pc.ClearWaitflag?
  }

  predicate InLoop(pc: Pc) {
    pc.TestSigflag? || pc.CallSuspend? || pc.Parked?
  }

  predicate InWaitChild(pc: Pc) {
    InLoop(pc) || pc.ClearSigflag? || pc.RestoreMask? || pc.WaitReturned?
  }

  /** Frames above the lowest one never wait. */
  predicate NestedFrame(f: Frame<Pc, Signal>) {
    if f.signo == SIGQUIT
    then f.pc.LoadCount? || f.pc.StoreCount? || f.pc.TestWaitflag? || f.pc.QuitReturn?
    else f.pc.SetSigflag? || f.pc.UsrReturn?
  }

  predicate LowestFrame(f: Frame<Pc, Signal>, waitflag: bool) {
    && f.signo == SIGQUIT
    && (BeforeWait(f.pc) || f.pc.QuitReturn? || InWaitChild(f.pc))
    && (f.pc.ClearWaitflag? ==> waitflag)
    && (waitflag ==> BeforeWait(f.pc))
  }

  /** The mask the lowest frame runs under, or would run under if it were the running one. */
  function LowestMask(pc: Pc, omask: set<Signal>): set<Signal> {
    if pc.Parked? then {} else if pc.WaitReturned? then omask else omask + USR + {SIGQUIT}
  }

  ghost predicate Shape(p: Process<Pc, Signal>, omask: set<Signal>, waitflag: bool) {
    if p.main.TellWait? then p.handlers == [] && p.pending == multiset{} && waitflag
    else
      && (p.main.Fork? || p.main.Sleeping? || p.main.TestTwo? || p.main.TestFour? || p.main.Report?)
      && (p.handlers == [] ==> p.mask == omask + USR)
      && (p.handlers != [] ==> LowestShape(p, omask, waitflag))
      && Nesting(p.handlers, p.mask)
  }

  ghost predicate LowestShape(p: Process<Pc, Signal>, omask: set<Signal>, waitflag: bool)
    requires p.handlers != []
  {
    var f := p.handlers[0];
    && f.saved == omask + USR
    && LowestFrame(f, waitflag)
    && (if |p.handlers| == 1 then p.mask else p.handlers[1].saved) == LowestMask(f.pc, omask)
    && (f.pc.Parked? ==> |p.handlers| == 1 && f.pc.previous == omask + USR + {SIGQUIT})
    && (|p.handlers| > 1 ==> f.pc.TestSigflag? || f.pc.WaitReturned?)
  }

  /** The frames above the lowest one handle different signals, each blocked while it is handled. */
  ghost predicate Nesting(hs: seq<Frame<Pc, Signal>>, mask: set<Signal>) {
    && (forall i | 1 <= i < |hs| :: NestedFrame(hs[i]) && hs[i].signo in mask)
    && (forall i, j | 1 <= i < j < |hs| :: hs[i].signo != hs[j].signo && hs[i].signo in hs[j].saved)
  }

  ghost predicate Inv0(s: State) {
    Shape(s.p, s.omask, s.waitflag)
  }

  /** WAIT_CHILD is called by the lowest frame only. */
  lemma ClearsAlone(p: Process<Pc, Signal>, omask: set<Signal>, w: bool)
    requires Shape(p, omask, w)
    ensures p.handlers != [] && p.Running().ClearWaitflag? ==> |p.handlers| == 1 && w
  {
    if |p.handlers| > 1 { assert NestedFrame(p.handlers[|p.handlers| - 1]); }
  }

  lemma LowestGoto(p: Process<Pc, Signal>, pc: Pc, mask: set<Signal>, omask: set<Signal>, w: bool, w': bool)
    requires Shape(p, omask, w) && |p.handlers| == 1
    requires LowestFrame(p.handlers[0].(pc := pc), w')
    requires mask == LowestMask(pc, omask)
    requires pc.Parked? ==> pc.previous == omask + USR + {SIGQUIT}
    ensures Shape(p.Goto(pc).(mask := mask), omask, w')
  {
  }

  lemma NestedGoto(p: Process<Pc, Signal>, pc: Pc, omask: set<Signal>, w: bool)
    requires Shape(p, omask, w) && |p.handlers| > 1
    requires NestedFrame(p.handlers[|p.handlers| - 1].(pc := pc))
    ensures Shape(p.Goto(pc), omask, w)
  {
  }

  lemma ReturnKeepsShape(p: Process<Pc, Signal>, omask: set<Signal>, w: bool)
    requires Shape(p, omask, w) && p.handlers != []
    ensures Shape(p.Return(), omask, w)
  {
  }

  lemma MainKeepsShape(s: State, ok: bool)
    requires Inv0(s) && s.p.handlers == []
    ensures Inv0(MainStep(s, ok))
  {
    match s.p.main
    case TellWait =>
    case Fork =>
    case Sleeping =>
    case TestTwo =>
    case TestFour =>
    case Report =>
  }

  lemma LowestKeepsShape(s: State, ok: bool)
    requires Inv0(s) && |s.p.handlers| == 1
    requires !s.p.Running().Parked?
    ensures Inv0(SigQuitStep(s, ok))
  {
    var p, o, w := s.p, s.omask, s.waitflag;
    match p.handlers[0].pc
    case LoadCount => LowestGoto(p, StoreCount(s.sigcount), p.mask, o, w, w);
    case StoreCount(_) => LowestGoto(p, TestWaitflag, p.mask, o, w, w);
    case TestWaitflag => LowestGoto(p, if w then ClearWaitflag else QuitReturn, p.mask, o, w, w);
    case ClearWaitflag => LowestGoto(p, TestSigflag, p.mask, o, w, false);
    case QuitReturn => ReturnKeepsShape(p, o, w);
    case WaitReturned => ReturnKeepsShape(p, o, w);
    case TestSigflag => LowestGoto(p, if s.sigflag then ClearSigflag else CallSuspend, p.mask, o, w, w);
    case CallSuspend => LowestGoto(p, Parked(p.mask), {}, o, w, w);
    case ClearSigflag => LowestGoto(p, RestoreMask, p.mask, o, w, w);
    case RestoreMask => if ok { LowestGoto(p, WaitReturned, o, o, w, w); }
  }

  lemma NestedKeepsShape(s: State, ok: bool)
    requires Inv0(s) && |s.p.handlers| > 1
    ensures Inv0(if s.p.handlers[|s.p.handlers| - 1].signo == SIGQUIT then SigQuitStep(s, ok) else SigUsrStep(s))
  {
    var p, o, w := s.p, s.omask, s.waitflag;
    var f := p.handlers[|p.handlers| - 1];
    assert NestedFrame(f);
    match f.pc
    case LoadCount => NestedGoto(p, StoreCount(s.sigcount), o, w);
    case StoreCount(_) => NestedGoto(p, TestWaitflag, o, w);
    case TestWaitflag => NestedGoto(p, QuitReturn, o, w);
    case QuitReturn => ReturnKeepsShape(p, o, w);
    case SetSigflag => NestedGoto(p, UsrReturn, o, w);
    case UsrReturn => ReturnKeepsShape(p, o, w);
  }

  lemma DeliverKeepsShape(s: State, signo: Signal)
    requires Inv0(s) && s.p.Deliverable(signo)
    ensures Inv0(DeliverSignal(s, signo))
  {
  }

  lemma GenerateKeepsShape(s: State, signo: Signal, queues: bool)
    requires Inv0(s) && !s.p.main.TellWait?
    ensures Inv0(Generate(s, signo, queues))
  {
  }

  // ---------------------------------------------------------------- counting

  predicate Mid(f: Frame<Pc, Signal>) {
    f.pc.LoadCount? || f.pc.StoreCount?
  }

  /** The frames that are inside `++sigcount`. */
  function MidCount(hs: seq<Frame<Pc, Signal>>): nat {
    if hs == [] then 0 else MidCount(hs[..|hs| - 1]) + if Mid(hs[|hs| - 1]) then 1 else 0
  }

  ghost predicate Counting(hs: seq<Frame<Pc, Signal>>, sigcount: int, waitflag: bool, h: History) {
    && sigcount == h.counted
    && (forall i | 0 <= i < |hs| && hs[i].pc.StoreCount? :: hs[i].pc.tmp == sigcount)
    && h.entries == h.counted + MidCount(hs)
    && h.waits == (if waitflag then 0 else 1)
    && (waitflag ==> h.entries == |hs|)
  }

  ghost predicate Inv1(s: State) {
    Counting(s.p.handlers, s.sigcount, s.waitflag, s.h)
  }

  lemma AtMostOneMid(p: Process<Pc, Signal>, omask: set<Signal>, w: bool, i: nat, j: nat)
    requires Shape(p, omask, w) && i < j < |p.handlers|
    ensures !(Mid(p.handlers[i]) && Mid(p.handlers[j]))
  {
    assert NestedFrame(p.handlers[j]);
    if i > 0 { assert NestedFrame(p.handlers[i]); }
  }

  /** How many frames are inside the increment after the running frame moves to `pc`. */
  lemma MidGoto(p: Process<Pc, Signal>, pc: Pc)
    requires p.handlers != []
    ensures MidCount(p.Goto(pc).handlers)
         == MidCount(p.handlers) - (if Mid(p.handlers[|p.handlers| - 1]) then 1 else 0)
                                 + (if pc.LoadCount? || pc.StoreCount? then 1 else 0)
  {
    var top := |p.handlers| - 1;
    assert p.Goto(pc).handlers[..top] == p.handlers[..top];
  }

  lemma PlainGoto(s: State, pc: Pc)
    requires Inv1(s) && s.p.handlers != []
    requires !Mid(s.p.handlers[|s.p.handlers| - 1]) && !pc.LoadCount? && !pc.StoreCount?
    ensures Counting(s.p.Goto(pc).handlers, s.sigcount, s.waitflag, s.h)
  {
    MidGoto(s.p, pc);
  }

  lemma PlainReturn(s: State)
    requires Inv1(s) && s.p.handlers != [] && !Mid(s.p.handlers[|s.p.handlers| - 1]) && !s.waitflag
    ensures Counting(s.p.Return().handlers, s.sigcount, s.waitflag, s.h)
  {
  }

  lemma LoadKeepsCounting(s: State, ok: bool)
    requires Inv1(s) && s.p.handlers != [] && s.p.Running().LoadCount?
    ensures Inv1(SigQuitStep(s, ok))
  {
    MidGoto(s.p, StoreCount(s.sigcount));
  }

  lemma StoreKeepsCounting(s: State, ok: bool)
    requires Inv0(s) && Inv1(s) && s.p.handlers != [] && s.p.Running().StoreCount?
    ensures Inv1(SigQuitStep(s, ok))
  {
    var top := |s.p.handlers| - 1;
    forall i: nat | i < top ensures !s.p.handlers[i].pc.StoreCount? {
      AtMostOneMid(s.p, s.omask, s.waitflag, i, top);
    }
    MidGoto(s.p, TestWaitflag);
  }

  lemma ClearKeepsCounting(s: State, ok: bool)
    requires Inv0(s) && Inv1(s) && s.p.handlers != [] && s.p.Running().ClearWaitflag?
    ensures Inv1(SigQuitStep(s, ok))
  {
    ClearsAlone(s.p, s.omask, s.waitflag);
    MidGoto(s.p, TestSigflag);
  }

  lemma QuitKeepsCounting(s: State, ok: bool)
    requires Inv0(s) && Inv1(s) && s.p.handlers != [] && s.p.handlers[|s.p.handlers| - 1].signo == SIGQUIT
    requires !s.p.Running().Parked?
    ensures Inv1(SigQuitStep(s, ok))
  {
    match s.p.Running()
    case LoadCount => LoadKeepsCounting(s, ok);
    case StoreCount(_) => StoreKeepsCounting(s, ok);
    case TestWaitflag => PlainGoto(s, if s.waitflag then ClearWaitflag else QuitReturn);
    case ClearWaitflag => ClearKeepsCounting(s, ok);
    case QuitReturn => PlainReturn(s);
    case WaitReturned => PlainReturn(s);
    case TestSigflag => PlainGoto(s, if s.sigflag then ClearSigflag else CallSuspend);
    case CallSuspend => PlainGoto(s, Parked(s.p.mask));
    case ClearSigflag => PlainGoto(s, RestoreMask);
    case RestoreMask => PlainGoto(s, WaitReturned);
    case _ =>
  }

  lemma UsrKeepsCounting(s: State)
    requires Inv1(s) && s.p.handlers != [] && !s.waitflag
    requires s.p.Running().SetSigflag? || s.p.Running().UsrReturn?
    ensures Inv1(SigUsrStep(s))
  {
    MidGoto(s.p, UsrReturn);
  }

  /** Until WAIT_CHILD is entered, nothing can interrupt sig_quit. */
  lemma FirstEntryAlone(p: Process<Pc, Signal>, omask: set<Signal>, w: bool, signo: Signal)
    requires Shape(p, omask, w) && p.Deliverable(signo)
    ensures w ==> p.handlers == [] && signo == SIGQUIT
  {
  }

  /** A new frame has not counted yet. */
  lemma EnterKeepsCounting(hs: seq<Frame<Pc, Signal>>, f: Frame<Pc, Signal>, sigcount: int, w: bool, h: History)
    requires Counting(hs, sigcount, w, h) && f.pc == Entry(f.signo)
    requires w ==> f.signo == SIGQUIT
    ensures Counting(hs + [f], sigcount, w, if f.signo == SIGQUIT then h.(entries := h.entries + 1) else h)
  {
    assert (hs + [f])[..|hs|] == hs;
  }

  lemma DeliverKeepsCounting(s: State, signo: Signal)
    requires Inv1(s) && s.p.Deliverable(signo) && (s.waitflag ==> signo == SIGQUIT)
    ensures Inv1(DeliverSignal(s, signo))
  {
    var at := s.p.Running();
    if at.Parked? && s.p.handlers != [] {
      PlainGoto(s, TestSigflag);
      var hs := s.p.Goto(TestSigflag).handlers;
      EnterKeepsCounting(hs, Frame(Entry(signo), signo, at.previous), s.sigcount, s.waitflag, s.h);
    } else {
      var restored := if at.Parked? then at.previous else s.p.mask;
      EnterKeepsCounting(s.p.handlers, Frame(Entry(signo), signo, restored), s.sigcount, s.waitflag, s.h);
    }
  }

  // ---------------------------------------------------------------- where each signal is

  predicate UsrSent(h: History) {
    SIGUSR1 in h.sent || SIGUSR2 in h.sent
  }

  ghost predicate Inv2(s: State, queues: bool) {
    && s.h.quits == s.h.entries + s.h.merged + s.p.pending[SIGQUIT]
    && s.h.quits == (if s.child < 4 then s.child else 4) + s.h.foreignQuits
    && (queues ==> s.h.merged == 0)
    && s.child <= 5
    && (s.child == 5 ==> SIGUSR2 in s.h.sent)
    && (UsrSent(s.h) ==> s.child == 5 || s.h.foreignUsr)
    && (forall signo | signo in s.p.pending :: signo in s.h.sent)
    && (s.p.main.TellWait? ==> s.h.sent == {})
  }

  /** What no step of the program touches. */
  ghost predicate Untouched(s: State, t: State) {
    && t.p.pending == s.p.pending && t.child == s.child
    && (t.p.main.TellWait? ==> s.p.main.TellWait?)
    && (s.p.main.TellWait? || t.omask == s.omask)
    && (s.p.handlers != [] ==> t.verdict == s.verdict)
    && t.h.quits == s.h.quits && t.h.foreignQuits == s.h.foreignQuits && t.h.merged == s.h.merged
    && t.h.entries == s.h.entries && t.h.sent == s.h.sent && t.h.foreignUsr == s.h.foreignUsr
  }

  lemma MainTouches(s: State, ok: bool)
    requires s.p.handlers == []
    ensures Untouched(s, MainStep(s, ok))
  {
    match s.p.main
    case TellWait =>
    case Fork =>
    case Sleeping =>
    case TestTwo =>
    case TestFour =>
    case Report =>
    case _ =>
  }

  lemma WaitTouches(s: State, ok: bool)
    requires s.p.handlers != []
    ensures Untouched(s, WaitChildStep(s, ok))
  {
    match s.p.Running()
    case TestSigflag =>
    case CallSuspend =>
    case ClearSigflag =>
    case RestoreMask =>
    case _ =>
  }

  lemma UsrTouches(s: State)
    requires s.p.handlers != []
    ensures Untouched(s, SigUsrStep(s))
  {
  }

  lemma QuitTouches(s: State, ok: bool)
    requires s.p.handlers != []
    ensures Untouched(s, SigQuitStep(s, ok))
  {
    match s.p.Running()
    case LoadCount =>
    case StoreCount(_) =>
    case TestWaitflag =>
    case ClearWaitflag =>
    case QuitReturn =>
    case WaitReturned =>
    case _ => WaitTouches(s, ok);
  }

  lemma RunKeepsBalance(s: State, ok: bool, queues: bool)
    requires Inv2(s, queues)
    ensures Inv2(Step(s, Run(ok), queues), queues)
  {
    if Enabled(s, Run(ok)) {
      if s.p.handlers == [] { MainTouches(s, ok); } else { QuitTouches(s, ok); UsrTouches(s); }
    }
  }

  lemma DeliverKeepsBalance(s: State, signo: Signal, queues: bool)
    requires Inv2(s, queues) && s.p.Deliverable(signo)
    ensures Inv2(DeliverSignal(s, signo), queues)
  {
  }

  lemma QuitKeepsBalance(s: State, queues: bool)
    requires Inv2(s, queues) && !s.p.main.TellWait?
    ensures s.child < 4 ==> Inv2(Generate(s, SIGQUIT, queues).(child := s.child + 1), queues)
    ensures Inv2(Step(s, ForeignKill(SIGQUIT), queues), queues)
  {
  }

  lemma UsrKeepsBalance(s: State, signo: Signal, queues: bool)
    requires Inv2(s, queues) && !s.p.main.TellWait? && signo in USR
    ensures s.child == 4 && signo == SIGUSR2 ==> Inv2(Generate(s, signo, queues).(child := s.child + 1), queues)
    ensures Inv2(Step(s, ForeignKill(signo), queues), queues)
  {
  }

  // ---------------------------------------------------------------- the wake-up

  /** A sig_usr frame that is about to set the flag. */
  ghost predicate SetterRuns(hs: seq<Frame<Pc, Signal>>, u: Signal) {
    exists i :: 0 <= i < |hs| && hs[i].signo == u && hs[i].pc.SetSigflag?
  }

  /** WAIT_CHILD was not entered yet, or its loop is still running. */
  predicate WaitNotOver(hs: seq<Frame<Pc, Signal>>, waitflag: bool) {
    waitflag || (hs != [] && InLoop(hs[0].pc))
  }

  ghost predicate Wake(p: Process<Pc, Signal>, waitflag: bool, sigflag: bool, h: History) {
    && (forall u | u in USR && u in h.sent && WaitNotOver(p.handlers, waitflag) ::
          sigflag || u in p.pending || SetterRuns(p.handlers, u))
    && (sigflag ==> UsrSent(h))
    && (!WaitNotOver(p.handlers, waitflag) ==> UsrSent(h))
    && (forall i | 0 <= i < |p.handlers| && p.handlers[i].signo != SIGQUIT :: UsrSent(h))
    && (p.handlers != [] && (p.handlers[0].pc.CallSuspend? || p.handlers[0].pc.Parked?) ==> !sigflag)
  }

  ghost predicate Inv3(s: State) {
    Wake(s.p, s.waitflag, s.sigflag, s.h)
  }

  lemma SetterGoto(p: Process<Pc, Signal>, pc: Pc, u: Signal)
    requires p.handlers != []
    requires !p.handlers[|p.handlers| - 1].pc.SetSigflag?
    ensures SetterRuns(p.handlers, u) ==> SetterRuns(p.Goto(pc).handlers, u)
  {
    if SetterRuns(p.handlers, u) {
      var i :| 0 <= i < |p.handlers| && p.handlers[i].signo == u && p.handlers[i].pc.SetSigflag?;
      assert p.Goto(pc).handlers[i] == p.handlers[i];
    }
  }

  lemma SetterReturn(p: Process<Pc, Signal>, u: Signal)
    requires p.handlers != []
    requires !p.handlers[|p.handlers| - 1].pc.SetSigflag?
    ensures SetterRuns(p.handlers, u) ==> SetterRuns(p.Return().handlers, u)
  {
    if SetterRuns(p.handlers, u) {
      var i :| 0 <= i < |p.handlers| && p.handlers[i].signo == u && p.handlers[i].pc.SetSigflag?;
      assert p.Return().handlers[i] == p.handlers[i];
    }
  }

  /** The running frame, not about to set the flag, moves on without leaving the loop or touching the flag. */
  lemma WakeGoto(s: State, pc: Pc)
    requires Inv0(s) && Inv3(s) && s.p.handlers != [] && !s.p.Running().SetSigflag?
    requires |s.p.handlers| == 1 ==>
      && (InLoop(s.p.Running()) ==> InLoop(pc) || s.sigflag)
      && (!InLoop(s.p.Running()) ==> !InLoop(pc))
      && (pc.CallSuspend? || pc.Parked? ==> !s.sigflag)
    ensures Wake(s.p.Goto(pc), s.waitflag, s.sigflag, s.h)
  {
    forall u | u in USR { SetterGoto(s.p, pc, u); }
    if |s.p.handlers| > 1 { assert s.p.Goto(pc).handlers[0] == s.p.handlers[0]; }
  }

  lemma WakeReturn(s: State)
    requires Inv0(s) && Inv3(s) && s.p.handlers != [] && !s.p.Running().SetSigflag? && !InLoop(s.p.Running())
    requires |s.p.handlers| == 1 ==> !s.waitflag
    ensures Wake(s.p.Return(), s.waitflag, s.sigflag, s.h)
  {
    forall u | u in USR { SetterReturn(s.p, u); }
    if |s.p.handlers| > 1 { assert s.p.Return().handlers[0] == s.p.handlers[0]; }
  }

  lemma ClearKeepsWake(s: State)
    requires Inv0(s) && Inv3(s) && s.p.handlers != [] && s.p.Running().ClearWaitflag?
    ensures Inv3(SigQuitStep(s, true))
  {
    ClearsAlone(s.p, s.omask, s.waitflag);
    forall u | u in USR { SetterGoto(s.p, TestSigflag, u); }
  }

  lemma QuitKeepsWake(s: State, ok: bool)
    requires Inv0(s) && Inv3(s) && s.p.handlers != []
    requires BeforeWait(s.p.Running()) || s.p.Running().QuitReturn? || s.p.Running().WaitReturned?
    ensures Inv3(SigQuitStep(s, ok))
  {
    match s.p.Running()
    case LoadCount => WakeGoto(s, StoreCount(s.sigcount));
    case StoreCount(_) => WakeGoto(s, TestWaitflag);
    case TestWaitflag => WakeGoto(s, if s.waitflag then ClearWaitflag else QuitReturn);
    case ClearWaitflag => ClearKeepsWake(s);
    case QuitReturn => WakeReturn(s);
    case WaitReturned => WakeReturn(s);
  }

  lemma WaitKeepsWake(s: State, ok: bool)
    requires Inv0(s) && Inv3(s) && |s.p.handlers| == 1 && InWaitChild(s.p.Running())
    ensures Inv3(WaitChildStep(s, ok))
  {
    match s.p.Running()
    case TestSigflag => WakeGoto(s, if s.sigflag then ClearSigflag else CallSuspend);
    case CallSuspend => WakeGoto(s, Parked(s.p.mask));
    case ClearSigflag => WakeGoto(s, RestoreMask);
    case RestoreMask => WakeGoto(s, WaitReturned);
    case _ =>
  }

  lemma SigQuitKeepsWake(s: State, ok: bool)
    requires Inv0(s) && Inv3(s) && s.p.handlers != [] && s.p.handlers[|s.p.handlers| - 1].signo == SIGQUIT
    ensures Inv3(SigQuitStep(s, ok))
  {
    var n := |s.p.handlers|;
    if n > 1 { assert NestedFrame(s.p.handlers[n - 1]); }
    if InLoop(s.p.Running()) || s.p.Running().ClearSigflag? || s.p.Running().RestoreMask? {
      WaitKeepsWake(s, ok);
    } else {
      QuitKeepsWake(s, ok);
    }
  }

  lemma UsrKeepsWake(s: State)
    requires Inv0(s) && Inv3(s) && |s.p.handlers| > 1
    requires s.p.Running().SetSigflag? || s.p.Running().UsrReturn?
    ensures Inv3(SigUsrStep(s))
  {
    var top := |s.p.handlers| - 1;
    assert NestedFrame(s.p.handlers[top]);
    if s.p.Running().SetSigflag? {
      assert s.p.Goto(UsrReturn).handlers[0] == s.p.handlers[0];
    } else {
      WakeReturn(s);
    }
  }

  lemma MainKeepsWake(s: State, ok: bool)
    requires Inv3(s) && s.p.handlers == []
    ensures Inv3(MainStep(s, ok))
  {
    match s.p.main
    case TellWait =>
    case Fork =>
    case Sleeping =>
    case TestTwo =>
    case TestFour =>
    case Report =>
    case _ =>
  }

  /** Delivery pushes one frame and, at most, moves a parked frame back to the loop test. */
  lemma DeliverStack(s: State, signo: Signal)
    ensures var hs, hs' := s.p.handlers, DeliverSignal(s, signo).p.handlers;
      && |hs'| == |hs| + 1 && hs'[|hs|].signo == signo && hs'[|hs|].pc == Entry(signo)
      && forall i {:trigger hs[i]} {:trigger hs'[i]} | 0 <= i < |hs| ::
           hs'[i].signo == hs[i].signo && (hs'[i].pc == hs[i].pc || (hs[i].pc.Parked? && hs'[i].pc.TestSigflag?))
  {
  }

  lemma SetterDeliver(s: State, signo: Signal, u: Signal)
    requires u in USR
    ensures SetterRuns(s.p.handlers, u) || signo == u ==> SetterRuns(DeliverSignal(s, signo).p.handlers, u)
  {
    DeliverStack(s, signo);
    var hs, hs' := s.p.handlers, DeliverSignal(s, signo).p.handlers;
    if SetterRuns(hs, u) {
      var i :| 0 <= i < |hs| && hs[i].signo == u && hs[i].pc.SetSigflag?;
      assert hs'[i].signo == u && hs'[i].pc.SetSigflag?;
    } else if signo == u {
      assert hs'[|hs|].signo == u && hs'[|hs|].pc.SetSigflag?;
    }
  }

  lemma WaitDeliver(s: State, signo: Signal)
    ensures WaitNotOver(DeliverSignal(s, signo).p.handlers, s.waitflag) == WaitNotOver(s.p.handlers, s.waitflag)
  {
    DeliverStack(s, signo);
  }

  lemma DeliverKeepsUsr(s: State, signo: Signal, u: Signal)
    requires Inv3(s) && u in USR && u in s.h.sent && WaitNotOver(s.p.handlers, s.waitflag)
    ensures var q := DeliverSignal(s, signo).p; s.sigflag || u in q.pending || SetterRuns(q.handlers, u)
  {
    SetterDeliver(s, signo, u);
    assert u in s.p.pending && u != signo ==> u in DeliverSignal(s, signo).p.pending;
  }

  lemma DeliverKeepsWake(s: State, signo: Signal, queues: bool)
    requires Inv0(s) && Inv2(s, queues) && Inv3(s) && s.p.Deliverable(signo)
    ensures Inv3(DeliverSignal(s, signo))
  {
    DeliverStack(s, signo);
    WaitDeliver(s, signo);
    forall u | u in USR && u in s.h.sent && WaitNotOver(s.p.handlers, s.waitflag)
      ensures var q := DeliverSignal(s, signo).p; s.sigflag || u in q.pending || SetterRuns(q.handlers, u)
    {
      DeliverKeepsUsr(s, signo, u);
    }
  }

  lemma GenerateKeepsWake(s: State, signo: Signal, queues: bool)
    requires Inv3(s)
    ensures Inv3(Generate(s, signo, queues))
  {
  }

  // ---------------------------------------------------------------- every run

  ghost predicate Inv(s: State, queues: bool) {
    Inv0(s) && Inv1(s) && Inv2(s, queues) && Inv3(s)
  }

  lemma MainKeeps(s: State, ok: bool)
    requires Inv0(s) && Inv1(s) && Inv3(s) && s.p.handlers == []
    ensures Inv0(MainStep(s, ok)) && Inv1(MainStep(s, ok)) && Inv3(MainStep(s, ok))
  {
    MainKeepsShape(s, ok);
    MainKeepsWake(s, ok);
    MainKeepsCounting(s, ok);
  }

  lemma SigQuitKeeps(s: State, ok: bool)
    requires Inv0(s) && Inv1(s) && Inv3(s) && !s.p.Running().Parked?
    requires s.p.handlers != [] && s.p.handlers[|s.p.handlers| - 1].signo == SIGQUIT
    ensures Inv0(SigQuitStep(s, ok)) && Inv1(SigQuitStep(s, ok)) && Inv3(SigQuitStep(s, ok))
  {
    if |s.p.handlers| == 1 { LowestKeepsShape(s, ok); } else { NestedKeepsShape(s, ok); }
    QuitKeepsCounting(s, ok);
    SigQuitKeepsWake(s, ok);
  }

  lemma SigUsrKeeps(s: State)
    requires Inv0(s) && Inv1(s) && Inv3(s)
    requires s.p.handlers != [] && s.p.handlers[|s.p.handlers| - 1].signo != SIGQUIT
    ensures Inv0(SigUsrStep(s)) && Inv1(SigUsrStep(s)) && Inv3(SigUsrStep(s))
  {
    assert NestedFrame(s.p.handlers[|s.p.handlers| - 1]);
    NestedKeepsShape(s, true);
    UsrKeepsCounting(s);
    UsrKeepsWake(s);
  }

  lemma FrameKeeps(s: State, ok: bool)
    requires Inv0(s) && Inv1(s) && Inv3(s) && !s.p.Running().Parked?
    ensures Inv0(RunStep(s, ok)) && Inv1(RunStep(s, ok)) && Inv3(RunStep(s, ok))
  {
    var n := |s.p.handlers|;
    if n == 0 {
      MainKeeps(s, ok);
    } else if s.p.handlers[n - 1].signo == SIGQUIT {
      SigQuitKeeps(s, ok);
    } else {
      SigUsrKeeps(s);
    }
  }

  lemma RunKeepsInv(s: State, ok: bool, queues: bool)
    requires Inv(s, queues)
    ensures Inv(Step(s, Run(ok), queues), queues)
  {
    if Enabled(s, Run(ok)) {
      RunKeepsBalance(s, ok, queues);
      FrameKeeps(s, ok);
    }
  }

  lemma MainKeepsCounting(s: State, ok: bool)
    requires Inv1(s) && s.p.handlers == []
    ensures Inv1(MainStep(s, ok))
  {
    match s.p.main
    case TellWait =>
    case Fork =>
    case Sleeping =>
    case TestTwo =>
    case TestFour =>
    case Report =>
    case _ =>
  }

  lemma ChildKeepsInv(s: State, queues: bool)
    requires Inv(s, queues) && !s.p.main.TellWait? && s.child < 5
    ensures Inv(ChildStep(s, queues), queues)
  {
    var signo := if s.child < 4 then SIGQUIT else SIGUSR2;
    GenerateKeepsShape(s, signo, queues);
    GenerateKeepsWake(s, signo, queues);
    if s.child < 4 { QuitKeepsBalance(s, queues); } else { UsrKeepsBalance(s, signo, queues); }
  }

  lemma ForeignKeepsInv(s: State, signo: Signal, queues: bool)
    requires Inv(s, queues)
    ensures Inv(Step(s, ForeignKill(signo), queues), queues)
  {
    if Enabled(s, ForeignKill(signo)) {
      GenerateKeepsShape(s, signo, queues);
      GenerateKeepsWake(s, signo, queues);
      if signo == SIGQUIT { QuitKeepsBalance(s, queues); } else { UsrKeepsBalance(s, signo, queues); }
    }
  }

  lemma StepKeepsInv(s: State, e: Event, queues: bool)
    requires Inv(s, queues)
    ensures Inv(Step(s, e, queues), queues)
  {
    match e
    case Run(ok) => RunKeepsInv(s, ok, queues);
    case Deliver(signo) =>
      if Enabled(s, e) {
        DeliverKeepsShape(s, signo);
        FirstEntryAlone(s.p, s.omask, s.waitflag, signo);
        DeliverKeepsCounting(s, signo);
        DeliverKeepsBalance(s, signo, queues);
        DeliverKeepsWake(s, signo, queues);
      }
    case ChildKill => if Enabled(s, e) { ChildKeepsInv(s, queues); }
    case ForeignKill(signo) => ForeignKeepsInv(s, signo, queues);
  }

  lemma InitInv(mask: set<Signal>, queues: bool)
    ensures Inv(Init(mask), queues)
  {
    var s := Init(mask);
    assert MidCount([]) == 0 && s.p.pending == multiset{};
    assert Inv0(s);
    assert Inv1(s);
    assert Inv2(s, queues);
    assert Inv3(s);
  }

  lemma {:induction false} ExecInv(s: State, es: seq<Event>, queues: bool)
    requires Inv(s, queues)
    ensures Inv(Exec(s, es, queues), queues)
    decreases es
  {
    if es != [] {
      StepKeepsInv(s, es[0], queues);
      ExecInv(Step(s, es[0], queues), es[1..], queues);
    }
  }

  /**
   TELL_WAIT saves the mask the process started with, and nothing overwrites it; a verdict is
   given once, by main, when the process ends.
   */
  ghost predicate Outcome(s: State, mask: set<Signal>) {
    && (if s.p.main.TellWait? then s.p.mask == mask else s.omask == mask)
    && (s.verdict.Some? ==> !s.alive && s.p.handlers == [] && VerdictFits(s.verdict.value, s.sigcount))
  }

  predicate VerdictFits(v: Verdict, sigcount: int) {
    match v
    case NotQueued => sigcount == 2
    case Queued => sigcount == 4
    case Unknown(count) => sigcount == count
  }

  lemma MainKeepsOutcome(s: State, ok: bool, mask: set<Signal>)
    requires s.alive && s.p.handlers == [] && Outcome(s, mask)
    ensures Outcome(MainStep(s, ok), mask)
  {
    match s.p.main
    case TellWait =>
    case Fork =>
    case Sleeping =>
    case TestTwo =>
    case TestFour =>
    case Report =>
    case _ =>
  }

  lemma StepKeepsOutcome(s: State, e: Event, mask: set<Signal>, queues: bool)
    requires Inv(s, queues) && Outcome(s, mask)
    ensures Outcome(Step(s, e, queues), mask)
  {
    if e.Run? && Enabled(s, e) {
      if s.p.handlers == [] { MainKeepsOutcome(s, e.ok, mask); } else { QuitTouches(s, e.ok); UsrTouches(s); }
    }
  }

  lemma {:induction false} ExecOutcome(s: State, es: seq<Event>, mask: set<Signal>, queues: bool)
    requires Inv(s, queues) && Outcome(s, mask)
    ensures Outcome(Exec(s, es, queues), mask)
    decreases es
  {
    if es != [] {
      StepKeepsInv(s, es[0], queues);
      StepKeepsOutcome(s, es[0], mask, queues);
      ExecOutcome(Step(s, es[0], queues), es[1..], mask, queues);
    }
  }
}
