/**
 signals/sigpending.c: SIGQUIT is blocked for a while, then unblocked; its handler prints one line
 and restores the default action, which terminates the process.  SIGQUITs may arrive any number
 of times at any moment.

 As XSH requires of sigprocmask, a call that unblocks a pending signal returns only after at
 least one pending signal was delivered.
 */
module SigPending {
  import opened SignalMachine

  datatype Signal = SIGQUIT

  datatype Pc =
    // main
    | Install | Block | Sleeping | AskPending | PrintPending | Unblock | UnblockReturns(owed: bool)
    | PrintUnblocked | SleepAgain | Return
    // sig_quit
    | PrintCatch | RestoreDefault | HandlerReturn

  datatype Disposition = Default | Ignore | Catch

  datatype Line = Pending | Caught | Unblocked

  datatype State = State(
    p: Process<Pc, Signal>, alive: bool, disposition: Disposition, oldmask: set<Signal>, out: seq<Line>)

  datatype Event = Run(ok: bool) | Deliver | Kill

  function Init(mask: set<Signal>, ignored: bool): State {
    State(Process(Install, [], mask, multiset{}), true, if ignored then Ignore else Default, {}, [])
  }

  predicate Enabled(s: State, e: Event) {
    s.alive &&
    match e
    case Run(_) => s.p.Running() != UnblockReturns(true)
    case Deliver => s.p.Deliverable(SIGQUIT)
    case Kill => true
  }

  function Step(s: State, e: Event, queues: bool): State {
    if !Enabled(s, e) then s else
    match e
    case Run(ok) => if s.p.handlers == [] then MainStep(s, ok) else SigQuitStep(s, ok)
    case Deliver => DeliverQuit(s)
    case Kill => s.(p := s.p.Generate(SIGQUIT, queues))
  }

  function MainStep(s: State, ok: bool): State {
    match s.p.main
    case Install => if ok then s.(p := s.p.(main := Block), disposition := Catch) else s.(alive := false)
    case Block =>
      if ok then s.(p := s.p.(main := Sleeping, mask := s.p.mask + {SIGQUIT}), oldmask := s.p.mask)
      else s.(alive := false)
    case Sleeping => s.(p := s.p.(main := AskPending))
    case AskPending =>
      if ok then s.(p := s.p.(main := if SIGQUIT in s.p.pending then PrintPending else Unblock)) else s.(alive := false)
    case PrintPending => s.(p := s.p.(main := Unblock), out := s.out + [Pending])
    case Unblock =>
      if ok then
        s.(p := s.p.(main := UnblockReturns(SIGQUIT in s.p.pending && SIGQUIT !in s.oldmask), mask := s.oldmask))
      else s.(alive := false)
    case UnblockReturns(_) => s.(p := s.p.(main := PrintUnblocked))
    case PrintUnblocked => s.(p := s.p.(main := SleepAgain), out := s.out + [Unblocked])
    case SleepAgain => s.(p := s.p.(main := Return))
    case Return => s.(alive := false)
    case _ => s
  }

  function SigQuitStep(s: State, ok: bool): State {
    match s.p.Running()
    case PrintCatch => s.(p := s.p.Goto(RestoreDefault), out := s.out + [Caught])
    case RestoreDefault =>
      if ok then s.(p := s.p.Goto(HandlerReturn), disposition := Default) else s.(alive := false)
    case HandlerReturn => if s.p.handlers == [] then s else s.(p := s.p.Return())
    case _ => s
  }

  function DeliverQuit(s: State): State {
    var main := if s.p.main == UnblockReturns(true) then UnblockReturns(false) else s.p.main;
    match s.disposition
    case Default => s.(alive := false)
    case Ignore => s.(p := s.p.(main := main, pending := s.p.pending - multiset{SIGQUIT}))
    case Catch => s.(p := s.p.Enter(SIGQUIT, PrintCatch, s.p.mask, true).(main := main))
  }

  function Exec(s: State, es: seq<Event>, queues: bool): State
    decreases es
  {
    if es == [] then s else Exec(Step(s, es[0], queues), es[1..], queues)
  }

  // ---------------------------------------------------------------- invariants

  predicate InWindow(pc: Pc) {
    pc.Sleeping? || pc.AskPending? || pc.PrintPending? || pc.Unblock?
  }

  predicate IsMain(pc: Pc) {
    || InWindow(pc) || pc.Install? || pc.Block? || pc.UnblockReturns?
    || pc.PrintUnblocked? || pc.SleepAgain? || pc.Return?
  }

  ghost predicate Masks(s: State, mask: set<Signal>) {
    && IsMain(s.p.main)
    && |s.p.handlers| <= 1
    && s.p.MaskBelow(0) == (if InWindow(s.p.main) then mask + {SIGQUIT} else mask)
    && (InWindow(s.p.main) ==> s.oldmask == mask && s.p.handlers == [])
    && (s.p.handlers != [] ==>
          && SIGQUIT !in mask && s.p.mask == mask + {SIGQUIT}
          && var pc := s.p.handlers[0].pc;
          pc.PrintCatch? || pc.RestoreDefault? || pc.HandlerReturn?)
  }

  predicate Busy(s: State, pc: Pc) {
    s.p.handlers != [] && s.p.handlers[0].pc == pc
  }

  /** The handler is installed until it has run, and it runs once. */
  predicate OneShot(s: State) {
    if s.p.main.Install? then !s.disposition.Catch? && s.out == [] && s.p.handlers == []
    else if Busy(s, PrintCatch) then s.disposition.Catch? && Caught !in s.out
    else if Busy(s, RestoreDefault) then s.disposition.Catch? && Caught in s.out
    else s.disposition == (if Caught in s.out then Default else Catch)
  }

  /** What has been printed when main stands at a given point. */
  predicate Printed(main: Pc, out: seq<Line>, pending: bool, catching: bool, free: bool) {
    match main
    case Install => out == []
    case Block => out == [] || out == [Caught]
    case Sleeping => out == [] || out == [Caught]
    case AskPending => out == [] || out == [Caught]
    case PrintPending => (out == [] || out == [Caught]) && pending
    case Unblock => out == [] || out == [Caught] || ((out == [Pending] || out == [Caught, Pending]) && pending)
    case UnblockReturns(owed) =>
      || out == [] || out == [Caught]
      || (out == [Pending] && (!free || owed || catching))
      || (out == [Caught, Pending] && owed)
      || (out == [Pending, Caught] && !owed)
    case PrintUnblocked => out == [] || out == [Caught] || out == [Pending, Caught] || (out == [Pending] && !free)
    case _ =>
      || out == [Unblocked] || out == [Caught, Unblocked] || out == [Unblocked, Caught]
      || out == [Pending, Caught, Unblocked] || (out == [Pending, Unblocked] && !free)
  }

  ghost predicate Inv(s: State, mask: set<Signal>) {
    && Masks(s, mask) && OneShot(s)
    && Printed(s.p.main, s.out, SIGQUIT in s.p.pending, Busy(s, PrintCatch), SIGQUIT !in mask)
    && (SIGQUIT in mask ==> Caught !in s.out)
    && (s.p.main == UnblockReturns(true) ==> s.p.handlers == [] && SIGQUIT in s.p.pending && SIGQUIT !in mask)
  }

  lemma Words(l: Line)
    ensures [] + [l] == [l] && [Caught] + [l] == [Caught, l] && [Pending] + [l] == [Pending, l]
    ensures [Unblocked] + [l] == [Unblocked, l] && [Pending, Caught] + [l] == [Pending, Caught, l]
  {
  }

  lemma StepKeepsInv(s: State, e: Event, mask: set<Signal>, queues: bool)
    requires Inv(s, mask)
    ensures Inv(Step(s, e, queues), mask)
  {
    if Enabled(s, e) {
      match e
      case Run(ok) =>
        if s.p.handlers == [] { MainKeepsInv(s, ok, mask); } else { QuitKeepsInv(s, ok, mask); }
      case Deliver => DeliverKeepsInv(s, mask);
      case Kill =>
    }
  }

  lemma PrintKeepsInv(s: State, ok: bool, mask: set<Signal>)
    requires Inv(s, mask) && s.p.handlers == [] && (s.p.main.PrintPending? || s.p.main.PrintUnblocked?)
    ensures Inv(MainStep(s, ok), mask)
  {
    if s.p.main.PrintPending? { Words(Pending); } else { Words(Unblocked); }
  }

  lemma CallKeepsInv(s: State, ok: bool, mask: set<Signal>)
    requires Inv(s, mask) && s.p.handlers == []
    requires s.p.main.Install? || s.p.main.Block? || s.p.main.AskPending? || s.p.main.Unblock?
    ensures Inv(MainStep(s, ok), mask)
  {
    match s.p.main
    case Install =>
    case Block =>
    case AskPending =>
    case Unblock =>
  }

  lemma MainKeepsInv(s: State, ok: bool, mask: set<Signal>)
    requires Inv(s, mask) && s.p.handlers == [] && s.p.main != UnblockReturns(true)
    ensures Inv(MainStep(s, ok), mask)
  {
    match s.p.main
    case PrintPending => PrintKeepsInv(s, ok, mask);
    case PrintUnblocked => PrintKeepsInv(s, ok, mask);
    case Sleeping =>
    case UnblockReturns(_) =>
    case SleepAgain =>
    case Return =>
    case _ => CallKeepsInv(s, ok, mask);
  }

  lemma CatchPrinted(main: Pc, out: seq<Line>, pending: bool)
    requires Printed(main, out, pending, true, true) && Caught !in out
    requires IsMain(main) && !InWindow(main) && !main.Install? && main != UnblockReturns(true)
    ensures Printed(main, out + [Caught], pending, false, true)
  {
    Words(Caught);
  }

  lemma CatchKeepsInv(s: State, ok: bool, mask: set<Signal>)
    requires Inv(s, mask) && s.p.handlers != [] && s.p.Running().PrintCatch?
    ensures Inv(SigQuitStep(s, ok), mask)
  {
    CatchPrinted(s.p.main, s.out, SIGQUIT in s.p.pending);
    assert Caught in s.out + [Caught];
  }

  lemma QuitKeepsInv(s: State, ok: bool, mask: set<Signal>)
    requires Inv(s, mask) && s.p.handlers != []
    ensures Inv(SigQuitStep(s, ok), mask)
  {
    match s.p.Running()
    case PrintCatch => CatchKeepsInv(s, ok, mask);
    case RestoreDefault =>
    case HandlerReturn =>
  }

  lemma DeliverKeepsInv(s: State, mask: set<Signal>)
    requires Inv(s, mask) && s.p.Deliverable(SIGQUIT)
    ensures Inv(DeliverQuit(s), mask)
  {
  }

  lemma {:induction false} ExecInv(s: State, es: seq<Event>, mask: set<Signal>, queues: bool)
    requires Inv(s, mask)
    ensures Inv(Exec(s, es, queues), mask)
    decreases es
  {
    if es != [] {
      StepKeepsInv(s, es[0], mask, queues);
      ExecInv(Step(s, es[0], queues), es[1..], mask, queues);
    }
  }

  // ---------------------------------------------------------------- theorems

  /** SIGQUIT is never caught inside the blocked window, and the handler is installed only until it has run. */
  lemma NoCatchInWindow(es: seq<Event>, mask: set<Signal>, ignored: bool, queues: bool)
    ensures var s := Exec(Init(mask, ignored), es, queues);
      && (InWindow(s.p.main) ==> s.p.handlers == [] && !s.p.Deliverable(SIGQUIT))
      && (s.p.handlers == [] && Caught in s.out ==> s.disposition == Default)
  {
    ExecInv(Init(mask, ignored), es, mask, queues);
  }

  /** All a run can have printed, for any number and timing of SIGQUITs. */
  predicate PossibleOutput(out: seq<Line>, free: bool) {
    if free then
      || out == [] || out == [Caught] || out == [Pending] || out == [Unblocked]
      || out == [Caught, Pending] || out == [Caught, Unblocked]
      || out == [Pending, Caught] || out == [Unblocked, Caught]
      || out == [Pending, Caught, Unblocked]
    else
      out == [] || out == [Pending] || out == [Unblocked] || out == [Pending, Unblocked]
  }

  /**
   Every output is one of those words, so "catch SIGQUIT" is printed at most once; and if SIGQUIT
   was not blocked at the start, "is pending" and a later "unblocked" have exactly one catch
   between them.
   */
  lemma OutputLanguage(es: seq<Event>, mask: set<Signal>, ignored: bool, queues: bool)
    ensures PossibleOutput(Exec(Init(mask, ignored), es, queues).out, SIGQUIT !in mask)
  {
    ExecInv(Init(mask, ignored), es, mask, queues);
    var s := Exec(Init(mask, ignored), es, queues);
    assert forall i | 0 <= i < |s.out| && s.out[i] == Caught :: SIGQUIT !in mask;
  }

  // ---------------------------------------------------------------- the program

  /** The process, updated in place; each method takes one step of the function it is named after. */
  class Program {
    var main: Pc
    var handlers: seq<Frame<Pc, Signal>>
    var mask: set<Signal>
    var pending: multiset<Signal>
    var alive: bool
    var disposition: Disposition
    var oldmask: set<Signal>
    var out: seq<Line>

    function View(): State
      reads this
    {
      State(Process(main, handlers, mask, pending), alive, disposition, oldmask, out)
    }

    constructor (inherited: set<Signal>, ignored: bool)
      ensures View() == Init(inherited, ignored)
    {
      main, handlers, mask, pending := Pc.Install, [], inherited, multiset{};
      alive, disposition, oldmask, out := true, if ignored then Ignore else Default, {}, [];
    }

    method RunMain(ok: bool)
      requires handlers == []
      modifies this
      ensures View() == MainStep(old(View()), ok)
    {
      match main
      case Install =>
        if ok { disposition, main := Catch, Block; } else { alive := false; }
      case Block =>
        if ok {
          oldmask := mask;
          mask := mask + {SIGQUIT};
          main := Sleeping;
        } else {
          alive := false;
        }
      case Sleeping => main := AskPending;
      case AskPending =>
        if ok { main := if SIGQUIT in pending then PrintPending else Unblock; } else { alive := false; }
      case PrintPending => out, main := out + [Pending], Unblock;
      case Unblock =>
        if ok {
          mask := oldmask;
          main := UnblockReturns(SIGQUIT in pending && SIGQUIT !in mask);
        } else {
          alive := false;
        }
      case UnblockReturns(_) => main := PrintUnblocked;
      case PrintUnblocked => out, main := out + [Unblocked], SleepAgain;
      case SleepAgain => main := Pc.Return;
      case Return => alive := false;
      case _ =>
    }

    method SigQuit(ok: bool)
      requires handlers != []
      modifies this
      ensures View() == SigQuitStep(old(View()), ok)
    {
      var top := |handlers| - 1;
      match handlers[top].pc
      case PrintCatch =>
        out := out + [Caught];
        handlers := handlers[top := handlers[top].(pc := RestoreDefault)];
      case RestoreDefault =>
        if ok {
          disposition := Default;
          handlers := handlers[top := handlers[top].(pc := HandlerReturn)];
        } else {
          alive := false;
        }
      case HandlerReturn =>
        mask := handlers[top].saved;
        handlers := handlers[..top];
      case _ =>
    }

    method Enter()
      modifies this`handlers, this`mask, this`pending
      ensures View().p == old(View().p).Enter(SIGQUIT, PrintCatch, old(mask), true)
    {
      handlers := handlers + [Frame(PrintCatch, SIGQUIT, mask)];
      mask := mask + {SIGQUIT};
      pending := pending - multiset{SIGQUIT};
    }

    method Interrupt()
      modifies this
      ensures View() == DeliverQuit(old(View()))
    {
      match disposition
      case Default => alive := false;
      case Ignore =>
        if main == UnblockReturns(true) { main := UnblockReturns(false); }
        pending := pending - multiset{SIGQUIT};
      case Catch =>
        Enter();
        if main == UnblockReturns(true) { main := UnblockReturns(false); }
    }

    method Happen(e: Event, queues: bool)
      modifies this
      ensures View() == Step(old(View()), e, queues)
    {
      if !alive {
        return;
      }
      match e
      case Run(ok) =>
        if handlers == [] {
          if main != UnblockReturns(true) { RunMain(ok); }
        } else if handlers[|handlers| - 1].pc != UnblockReturns(true) {
          SigQuit(ok);
        }
      case Deliver =>
        if SIGQUIT in pending && SIGQUIT !in mask { Interrupt(); }
      case Kill =>
        if queues || SIGQUIT !in pending { pending := pending + multiset{SIGQUIT}; }
    }

    method Execute(es: seq<Event>, queues: bool)
      modifies this
      ensures View() == Exec(old(View()), es, queues)
      ensures forall ignored :: old(View()) == Init(old(mask), ignored) ==> PossibleOutput(out, SIGQUIT !in old(mask))
    {
      ghost var start := View();
      for i := 0 to |es|
        invariant Exec(View(), es[i..], queues) == Exec(start, es, queues)
      {
        assert es[i..][0] == es[i] && es[i..][1..] == es[i + 1..];
        Happen(es[i], queues);
      }
      OutputLanguage(es, old(mask), true, queues);
      OutputLanguage(es, old(mask), false, queues);
    }
  }
}
