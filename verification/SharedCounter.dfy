/**
 advanced_io/mmap.c: parent and child print and increment a shared int, each increment guarded
 by a semaphore of initial value 1.  `printf(.., (*ptr)++)` is a load, a store and the output.
 A call that fails ends its process; a failing sem_post leaves the semaphore taken.
 */
module SharedCounter {

  datatype Who = Parent | Child

  datatype Pc = Test | Wait | Load | Store(tmp: int) | Print(tmp: int) | Post | Done | Failed | FailedInside

  datatype Looper = Looper(i: int, pc: Pc)

  type Line = (Who, int)

  datatype State = State(nloop: int, sem: nat, counter: int, parent: Looper, child: Looper, out: seq<Line>)
  {
    function Get(who: Who): Looper {
      if who.Parent? then parent else child
    }

    function Set(who: Who, p: Looper): State {
      if who.Parent? then this.(parent := p) else this.(child := p)
    }
  }

  /** One process takes a step; `ok` tells whether a system call in it succeeds. */
  datatype Event = Turn(who: Who, ok: bool)

  /** A mathematical integer as a 32-bit int. */
  function Wrap(x: int): int {
    (x + 0x8000_0000) % 0x1_0000_0000 - 0x8000_0000
  }

  function Init(nloop: int): State {
    State(nloop, 1, 0, Looper(0, Test), Looper(0, Test), [])
  }

  predicate Final(pc: Pc) {
    pc.Done? || pc.Failed? || pc.FailedInside?
  }

  /** sem_wait blocks while the semaphore is zero. */
  predicate Enabled(s: State, e: Event) {
    var pc := s.Get(e.who).pc;
    !Final(pc) && (pc.Wait? && e.ok ==> s.sem > 0)
  }

  function Step(s: State, e: Event): State {
    if !Enabled(s, e) then s else
    var p := s.Get(e.who);
    match p.pc
    case Test => s.Set(e.who, p.(pc := if p.i < s.nloop then Wait else Done))
    case Wait =>
      if e.ok then s.Set(e.who, p.(pc := Load)).(sem := s.sem - 1) else s.Set(e.who, p.(pc := Failed))
    case Load => s.Set(e.who, p.(pc := Store(s.counter)))
    case Store(tmp) => s.Set(e.who, p.(pc := Print(tmp))).(counter := Wrap(tmp + 1))
    case Print(tmp) => s.Set(e.who, p.(pc := Post)).(out := s.out + [(e.who, tmp)])
    case Post =>
      if e.ok then s.Set(e.who, Looper(p.i + 1, Test)).(sem := s.sem + 1) else s.Set(e.who, p.(pc := FailedInside))
    case _ => s
  }

  function Exec(s: State, es: seq<Event>): State
    decreases es
  {
    if es == [] then s else Exec(Step(s, es[0]), es[1..])
  }

  // ---------------------------------------------------------------- the specification

  /** A counter whose fetch-and-add is one step. */
  datatype Atomic = Atomic(next: nat, out: seq<Line>)

  function FetchAndAdd(a: Atomic, who: Who): Atomic {
    Atomic(a.next + 1, a.out + [(who, Wrap(a.next))])
  }

  function Sequential(order: seq<Who>): Atomic {
    if order == [] then Atomic(0, []) else FetchAndAdd(Sequential(order[..|order| - 1]), order[|order| - 1])
  }

  function Abs(s: State): Atomic {
    Atomic(|s.out|, s.out)
  }

  // ---------------------------------------------------------------- invariants

  predicate Inside(pc: Pc) {
    pc.Load? || pc.Store? || pc.Print? || pc.Post? || pc.FailedInside?
  }

  function InsideCount(s: State): nat {
    (if Inside(s.parent.pc) then 1 else 0) + (if Inside(s.child.pc) then 1 else 0)
  }

  function Max0(n: int): nat {
    if n > 0 then n else 0
  }

  /** How many lines `who` printed. */
  function Lines(out: seq<Line>, who: Who): nat {
    if out == [] then 0 else Lines(out[..|out| - 1], who) + (if out[|out| - 1].0 == who then 1 else 0)
  }

  predicate LooperInv(s: State, who: Who) {
    var p := s.Get(who);
    && 0 <= p.i <= Max0(s.nloop)
    && (p.pc.Wait? || Inside(p.pc) ==> p.i < s.nloop)
    && (p.pc.Done? ==> p.i == Max0(s.nloop))
    && Lines(s.out, who) == p.i + (if p.pc.Post? || p.pc.FailedInside? then 1 else 0)
    && (p.pc.Store? ==> p.pc.tmp == s.counter)
    && (p.pc.Print? ==> p.pc.tmp == Wrap(|s.out|))
  }

  predicate Printing(s: State) {
    s.parent.pc.Print? || s.child.pc.Print?
  }

  /** The printed values are 0, 1, 2, ... as ints. */
  predicate Numbered(out: seq<Line>) {
    forall j | 0 <= j < |out| :: out[j].1 == Wrap(j)
  }

  ghost predicate Inv(s: State) {
    && s.sem + InsideCount(s) == 1
    && s.counter == Wrap(if Printing(s) then |s.out| + 1 else |s.out|)
    && Numbered(s.out)
    && LooperInv(s, Parent) && LooperInv(s, Child)
  }

  lemma WrapSuccessor(x: int)
    ensures Wrap(Wrap(x) + 1) == Wrap(x + 1)
  {
  }

  lemma LinesAppend(out: seq<Line>, l: Line, who: Who)
    ensures Lines(out + [l], who) == Lines(out, who) + (if l.0 == who then 1 else 0)
  {
    assert (out + [l])[..|out|] == out;
  }

  lemma StoreKeepsInv(s: State, e: Event)
    requires Inv(s) && s.Get(e.who).pc.Store?
    ensures Inv(Step(s, e))
  {
    WrapSuccessor(|s.out|);
  }

  lemma NumberedAppend(out: seq<Line>, l: Line)
    requires Numbered(out) && l.1 == Wrap(|out|)
    ensures Numbered(out + [l])
  {
  }

  lemma PrintKeepsLooper(s: State, e: Event, who: Who)
    requires s.sem + InsideCount(s) == 1 && LooperInv(s, who) && s.Get(e.who).pc.Print?
    ensures LooperInv(Step(s, e), who)
  {
    LinesAppend(s.out, (e.who, s.Get(e.who).pc.tmp), who);
  }

  lemma PrintKeepsInv(s: State, e: Event)
    requires Inv(s) && s.Get(e.who).pc.Print?
    ensures Inv(Step(s, e))
  {
    NumberedAppend(s.out, (e.who, s.Get(e.who).pc.tmp));
    PrintKeepsLooper(s, e, Parent);
    PrintKeepsLooper(s, e, Child);
  }

  lemma SemaphoreKeepsInv(s: State, e: Event)
    requires Inv(s) && (s.Get(e.who).pc.Wait? || s.Get(e.who).pc.Post?)
    ensures Inv(Step(s, e))
  {
  }

  lemma StepKeepsInv(s: State, e: Event)
    requires Inv(s)
    ensures Inv(Step(s, e))
  {
    match s.Get(e.who).pc
    case Test =>
    case Wait => SemaphoreKeepsInv(s, e);
    case Load =>
    case Store(_) => StoreKeepsInv(s, e);
    case Print(_) => PrintKeepsInv(s, e);
    case Post => SemaphoreKeepsInv(s, e);
    case _ =>
  }

  lemma {:induction false} ExecInv(s: State, es: seq<Event>)
    requires Inv(s)
    ensures Inv(Exec(s, es)) && Exec(s, es).nloop == s.nloop
    decreases es
  {
    if es != [] {
      StepKeepsInv(s, es[0]);
      ExecInv(Step(s, es[0]), es[1..]);
    }
  }

  // ---------------------------------------------------------------- theorems

  /** Semaphore value plus processes in the critical section, those that failed there included, is 1. */
  lemma MutualExclusion(nloop: int, es: seq<Event>)
    ensures var s := Exec(Init(nloop), es);
      s.sem + InsideCount(s) == 1 && !(Inside(s.parent.pc) && Inside(s.child.pc))
  {
    ExecInv(Init(nloop), es);
  }

  /** The shared int is the abstract counter, one step ahead between a store and its output. */
  predicate MemoryFits(s: State, a: Atomic) {
    s.counter == Wrap(if Printing(s) then a.next + 1 else a.next)
  }

  /** Each step of the program is either invisible or one fetch-and-add, and the memory goes along. */
  lemma StepRefines(s: State, e: Event)
    requires Inv(s)
    ensures Abs(Step(s, e)) == Abs(s) || Abs(Step(s, e)) == FetchAndAdd(Abs(s), e.who)
    ensures MemoryFits(Step(s, e), Abs(Step(s, e)))
  {
    StepKeepsInv(s, e);
    InvFits(Step(s, e));
  }

  lemma {:induction false} ExecRefines(s: State, es: seq<Event>, order: seq<Who>) returns (order': seq<Who>)
    requires Inv(s) && Sequential(order) == Abs(s)
    ensures Sequential(order') == Abs(Exec(s, es))
    decreases es
  {
    order' := order;
    if es != [] {
      var t := Step(s, es[0]);
      StepRefines(s, es[0]);
      StepKeepsInv(s, es[0]);
      if Abs(t) != Abs(s) {
        order' := order + [es[0].who];
        assert order'[..|order|] == order;
      }
      order' := ExecRefines(t, es[1..], order');
    }
  }

  /**
   Atomic refinement: whatever the interleaving and whichever calls fail, the output is that of
   a sequential fetch-and-add counter, so the k lines printed carry 0, 1, ..., k-1 in order; and
   whenever no process is in the critical section the shared int is that counter.
   */
  lemma AtomicRefinement(nloop: int, es: seq<Event>)
    ensures var s := Exec(Init(nloop), es);
      exists order :: Sequential(order) == Abs(s) && MemoryFits(s, Sequential(order))
                      && (s.sem == 1 ==> s.counter == Wrap(Sequential(order).next))
    ensures Numbered(Exec(Init(nloop), es).out)
  {
    var order := ExecRefines(Init(nloop), es, []);
    ExecInv(Init(nloop), es);
    InvFits(Exec(Init(nloop), es));
  }

  lemma InvFits(s: State)
    requires Inv(s)
    ensures MemoryFits(s, Abs(s)) && (s.sem == 1 ==> s.counter == Wrap(Abs(s).next))
  {
    if s.sem == 1 { assert !Printing(s); }
  }

  /** No step of either process can succeed any more. */
  predicate Stuck(s: State) {
    !Enabled(s, Turn(Parent, true)) && !Enabled(s, Turn(Child, true))
  }

  /** A run is stuck before both processes ended exactly if one of them failed in sem_post and the other waits. */
  lemma StuckExactly(nloop: int, es: seq<Event>)
    ensures var s := Exec(Init(nloop), es);
      Stuck(s) <==>
        || (Final(s.parent.pc) && Final(s.child.pc))
        || (s.parent.pc.FailedInside? && s.child.pc.Wait?)
        || (s.child.pc.FailedInside? && s.parent.pc.Wait?)
  {
    ExecInv(Init(nloop), es);
  }

  lemma Before(s: State, e: Event, es: seq<Event>) returns (es': seq<Event>)
    ensures Exec(s, es') == Exec(Step(s, e), es)
  {
    es' := [e] + es;
    assert es'[1..] == es;
  }

  /** A failing sem_post in one process can leave the other waiting for ever, exactly if there is a round to do. */
  lemma StuckPossibleExactly(nloop: int)
    ensures (exists es :: var s := Exec(Init(nloop), es); s.parent.pc.FailedInside? && s.child.pc.Wait? && Stuck(s))
       <==> nloop > 0
  {
    forall es | Exec(Init(nloop), es).child.pc.Wait? ensures nloop > 0 { ExecInv(Init(nloop), es); }
    if nloop > 0 {
      var p := Turn(Parent, true);
      var s0 := Init(nloop);
      var s1 := Step(s0, Turn(Child, true));
      var s2 := Step(s1, p);
      var s3 := Step(s2, p);
      assert s3 == State(nloop, 0, 0, Looper(0, Load), Looper(0, Wait), []);
      var s4 := Step(s3, p);
      var s5 := Step(s4, p);
      var s6 := Step(s5, p);
      assert s6.parent == Looper(0, Post) && s6.child == Looper(0, Wait) && s6.sem == 0;
      var es := Before(s6, Turn(Parent, false), []);
      es := Before(s5, p, es);
      es := Before(s4, p, es);
      es := Before(s3, p, es);
      es := Before(s2, p, es);
      es := Before(s1, p, es);
      es := Before(s0, Turn(Child, true), es);
    }
  }

  /** Some step of the run is of the kind `p`. */
  predicate Happens(p: (State, Event) -> bool, s: State, es: seq<Event>)
    decreases es
  {
    es != [] && (p(s, es[0]) || Happens(p, Step(s, es[0]), es[1..]))
  }

  predicate WaitFails(s: State, e: Event, who: Who) {
    e == Turn(who, false) && s.Get(who).pc.Wait?
  }

  predicate PostFails(s: State, e: Event, who: Who) {
    e == Turn(who, false) && s.Get(who).pc.Post?
  }

  lemma {:induction false} ExecFailures(s: State, es: seq<Event>, who: Who)
    ensures Exec(s, es).Get(who).pc.Failed? <==>
            s.Get(who).pc.Failed? || Happens((s, e) => WaitFails(s, e, who), s, es)
    ensures Exec(s, es).Get(who).pc.FailedInside? <==>
            s.Get(who).pc.FailedInside? || Happens((s, e) => PostFails(s, e, who), s, es)
    decreases es
  {
    if es != [] { ExecFailures(Step(s, es[0]), es[1..], who); }
  }

  /** A process gives up before the critical section exactly if its sem_wait failed, inside exactly if sem_post did. */
  lemma FailuresExactly(nloop: int, es: seq<Event>, who: Who)
    ensures var s := Exec(Init(nloop), es);
      && (s.Get(who).pc.Failed? <==> Happens((s, e) => WaitFails(s, e, who), Init(nloop), es))
      && (s.Get(who).pc.FailedInside? <==> Happens((s, e) => PostFails(s, e, who), Init(nloop), es))
  {
    ExecFailures(Init(nloop), es, who);
  }

  function PcRank(pc: Pc): nat {
    match pc
    case Test => 7 case Wait => 6 case Load => 5 case Store(_) => 4 case Print(_) => 3 case Post => 2
    case _ => 0
  }

  function Rank(s: State, p: Looper): nat {
    if Final(p.pc) then 0 else 8 * Max0(s.nloop - p.i) + PcRank(p.pc)
  }

  function Measure(s: State): nat {
    Rank(s, s.parent) + Rank(s, s.child)
  }

  lemma StepsDecrease(s: State, e: Event)
    requires Inv(s) && Enabled(s, e)
    ensures Measure(Step(s, e)) < Measure(s)
  {
  }

  /** The events that are more than idle turns. */
  function Effective(s: State, es: seq<Event>): nat
    decreases es
  {
    if es == [] then 0 else (if Enabled(s, es[0]) then 1 else 0) + Effective(Step(s, es[0]), es[1..])
  }

  lemma {:induction false} RunsAreBounded(s: State, es: seq<Event>)
    requires Inv(s)
    ensures Effective(s, es) + Measure(Exec(s, es)) <= Measure(s)
    decreases es
  {
    if es != [] {
      StepKeepsInv(s, es[0]);
      if Enabled(s, es[0]) { StepsDecrease(s, es[0]); }
      RunsAreBounded(Step(s, es[0]), es[1..]);
    }
  }

  predicate NoFailure(es: seq<Event>) {
    forall i | 0 <= i < |es| :: es[i].ok
  }

  predicate HasFailed(pc: Pc) {
    pc.Failed? || pc.FailedInside?
  }

  lemma {:induction false} NoneFailed(s: State, es: seq<Event>)
    requires NoFailure(es)
    requires !HasFailed(s.parent.pc) && !HasFailed(s.child.pc)
    ensures !HasFailed(Exec(s, es).parent.pc) && !HasFailed(Exec(s, es).child.pc)
    decreases es
  {
    if es != [] {
      assert es[0].ok;
      NoneFailed(Step(s, es[0]), es[1..]);
    }
  }

  /**
   Progress: with no failing call every run can go on until both loops are done, no run is
   longer than 16 * nloop + 14 steps, and at the end the counter is 2 * nloop (or 0 if nloop is
   negative) and each process has printed nloop lines.
   */
  lemma ProgressAndFinalValue(nloop: int, es: seq<Event>)
    requires NoFailure(es)
    ensures Effective(Init(nloop), es) <= 16 * Max0(nloop) + 14
    ensures var s := Exec(Init(nloop), es);
      Stuck(s) ==>
        && s.parent.pc.Done? && s.child.pc.Done?
        && s.counter == Wrap(2 * Max0(nloop)) && |s.out| == 2 * Max0(nloop)
        && Lines(s.out, Parent) == Max0(nloop) == Lines(s.out, Child)
  {
    var s := Exec(Init(nloop), es);
    RunsAreBounded(Init(nloop), es);
    NoneFailed(Init(nloop), es);
    ExecInv(Init(nloop), es);
    StuckExactly(nloop, es);
    LinesTotal(s.out);
  }

  lemma {:induction false} LinesTotal(out: seq<Line>)
    ensures Lines(out, Parent) + Lines(out, Child) == |out|
  {
    if out != [] { LinesTotal(out[..|out| - 1]); }
  }

  /** While 2 * nloop is an int, nothing wraps and the printed values increase strictly. */
  lemma ValuesIncrease(nloop: int, es: seq<Event>)
    requires 2 * Max0(nloop) < 0x8000_0000
    ensures var out := Exec(Init(nloop), es).out;
      && (forall j | 0 <= j < |out| :: out[j].1 == j)
      && |out| <= 2 * Max0(nloop)
  {
    var s := Exec(Init(nloop), es);
    ExecInv(Init(nloop), es);
    LinesTotal(s.out);
    assert |s.out| <= 2 * Max0(nloop);
    forall j | 0 <= j < |s.out| ensures s.out[j].1 == j { NoWrap(j); }
  }

  lemma NoWrap(x: int)
    requires 0 <= x < 0x8000_0000
    ensures Wrap(x) == x
  {
  }

  // ---------------------------------------------------------------- the program

  /** The mapping, the semaphore and the two loops, updated in place. */
  class Mapping {
    const nloop: int
    var sem: nat
    var counter: int
    var parent: Looper
    var child: Looper
    var out: seq<Line>

    function View(): State
      reads this
    {
      State(nloop, sem, counter, parent, child, out)
    }

    constructor (n: int)
      ensures View() == Init(n)
    {
      nloop, sem, counter, out := n, 1, 0, [];
      parent, child := Looper(0, Test), Looper(0, Test);
    }

    method Move(who: Who, p: Looper)
      modifies this`parent, this`child
      ensures View() == old(View()).Set(who, p)
    {
      if who.Parent? { parent := p; } else { child := p; }
    }

    method Turn(who: Who, ok: bool)
      modifies this
      ensures View() == Step(old(View()), Event.Turn(who, ok))
    {
      var p := if who.Parent? then parent else child;
      match p.pc
      case Test => Move(who, p.(pc := if p.i < nloop then Wait else Done));
      case Wait =>
        if !ok {
          Move(who, p.(pc := Failed));
        } else if sem > 0 {
          sem := sem - 1;
          Move(who, p.(pc := Load));
        }
      case Load => Move(who, p.(pc := Store(counter)));
      case Store(tmp) =>
        counter := Wrap(tmp + 1);
        Move(who, p.(pc := Print(tmp)));
      case Print(tmp) =>
        out := out + [(who, tmp)];
        Move(who, p.(pc := Post));
      case Post =>
        if ok {
          sem := sem + 1;
          Move(who, Looper(p.i + 1, Test));
        } else {
          Move(who, p.(pc := FailedInside));
        }
      case _ =>
    }

    method Run(es: seq<Event>)
      modifies this
      ensures View() == Exec(old(View()), es)
      ensures old(View()) == Init(nloop) ==> Numbered(out)
    {
      ghost var start := View();
      for k := 0 to |es|
        invariant Exec(View(), es[k..]) == Exec(start, es)
      {
        assert es[k..][0] == es[k] && es[k..][1..] == es[k + 1..];
        Turn(es[k].who, es[k].ok);
      }
      if start == Init(nloop) { AtomicRefinement(nloop, es); }
    }
  }
}
