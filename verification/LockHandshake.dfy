/**
 advanced_io/mandatory_lock.c: the parent locks a file, tells its child through a pipe and waits
 for it; the child, once told, tries to lock the same file, expects to be refused, and then reads
 the file to find out whether the system enforces the parent's lock on reads.  Either process may
 exit early because a call fails; record locks die with their owner.
 */
module LockHandshake {

  datatype ParentPc = Fork | SetLock | TellChild | WaitPid | ParentExited(failed: bool)

  datatype Ending = Normal | CallFailed | PipeError | PipeEof | ReadLockSucceeded

  datatype ChildPc =
    | Unborn | ReadPipe | GetFlags | SetFlags | TryLock | Refused | Seek | MandatoryRead | ChildExited(how: Ending)

  /** What the child prints. */
  datatype Line = LockSucceeded | LockRefused | ReadFailed | ReadOk(buf: string)

  datatype State = State(
    parent: ParentPc, child: ChildPc,
    pipe: nat,              // bytes in fd1
    writeEnds: nat,         // open descriptors for fd1[1]
    locked: bool,           // the parent's write lock on the whole file
    waitpidFailed: bool,
    // the open file, which both processes share
    nonblock: bool, offset: nat,
    out: seq<Line>)

  /** One process takes a step; `ok` tells whether a call in it succeeds. */
  datatype Event = Parent(ok: bool) | Child(ok: bool)

  /** What the parent wrote to the file before TELL_WAIT. */
  const CONTENTS := "abcdef"

  /** After TELL_WAIT, before fork. */
  function Init(): State {
    State(Fork, Unborn, 0, 1, false, false, false, |CONTENTS|, [])
  }

  /** With mandatory locking, a read of the locked file blocks, or fails if it must not block. */
  predicate Enabled(s: State, e: Event, mandatory: bool) {
    match e
    case Parent(ok) => !s.parent.ParentExited? && (s.parent.WaitPid? && ok ==> s.child.ChildExited?)
    case Child(ok) =>
      && !s.child.Unborn? && !s.child.ChildExited?
      && (s.child.ReadPipe? && ok ==> s.pipe > 0 || s.writeEnds == 0)
      && (s.child.MandatoryRead? && ok && mandatory && s.locked ==> s.nonblock)
  }

  function Step(s: State, e: Event, mandatory: bool): State {
    if !Enabled(s, e, mandatory) then s
    else if e.Parent? then ParentStep(s, e.ok)
    else ChildStep(s, e.ok, mandatory)
  }

  /** Exit closes the parent's write end and drops its lock. */
  function ParentExit(s: State, failed: bool): State {
    s.(parent := ParentExited(failed), writeEnds := Less(s.writeEnds), locked := false)
  }

  function Less(n: nat): nat {
    if n == 0 then 0 else n - 1
  }

  function ParentStep(s: State, ok: bool): State {
    match s.parent
    case Fork =>
      if ok then s.(parent := SetLock, child := ReadPipe, writeEnds := s.writeEnds + 1) else ParentExit(s, true)
    case SetLock => if ok then s.(parent := TellChild, locked := true) else ParentExit(s, true)
    case TellChild => if ok then s.(parent := WaitPid, pipe := s.pipe + 1) else ParentExit(s, true)
    case WaitPid => ParentExit(s.(waitpidFailed := !ok), !ok)
    case ParentExited(_) => s
  }

  function ChildExit(s: State, how: Ending): State {
    s.(child := ChildExited(how), writeEnds := Less(s.writeEnds))
  }

  function ChildStep(s: State, ok: bool, mandatory: bool): State {
    match s.child
    case ReadPipe =>
      if !ok then ChildExit(s, PipeError)
      else if s.pipe > 0 then s.(child := GetFlags, pipe := s.pipe - 1)
      else ChildExit(s, PipeEof)
    case GetFlags => if ok then s.(child := SetFlags) else ChildExit(s, CallFailed)
    case SetFlags => if ok then s.(child := TryLock, nonblock := true) else ChildExit(s, CallFailed)
    case TryLock =>
      if ok && !s.locked then ChildExit(s.(out := s.out + [LockSucceeded]), ReadLockSucceeded)
      else s.(child := Refused)
    case Refused => s.(child := Seek, out := s.out + [LockRefused])
    case Seek => if ok then s.(child := MandatoryRead, offset := 0) else ChildExit(s, CallFailed)
    case MandatoryRead =>
      var line := if ok && !(mandatory && s.locked) then ReadOk(TwoBytes(s.offset)) else ReadFailed;
      ChildExit(s.(out := s.out + [line]), Normal)
    case _ => s
  }

  /** What read(fd, buf, 2) finds from `offset` on. */
  function TwoBytes(offset: nat): string {
    if offset >= |CONTENTS| then ""
    else if offset + 2 >= |CONTENTS| then CONTENTS[offset..]
    else CONTENTS[offset..offset + 2]
  }

  function Exec(s: State, es: seq<Event>, mandatory: bool): State
    decreases es
  {
    if es == [] then s else Exec(Step(s, es[0], mandatory), es[1..], mandatory)
  }

  // ---------------------------------------------------------------- invariants

  predicate Told(pc: ChildPc) {
    pc.GetFlags? || pc.SetFlags? || pc.TryLock? || pc.Refused? || pc.Seek? || pc.MandatoryRead?
  }

  /** What the child has printed and done to the open file when it stands at `pc`. */
  predicate Progress(pc: ChildPc, nonblock: bool, offset: nat, out: seq<Line>) {
    match pc
    case TryLock => nonblock && out == []
    case Refused => nonblock && out == []
    case Seek => nonblock && out == [LockRefused]
    case MandatoryRead => nonblock && offset == 0 && out == [LockRefused]
    case ChildExited(how) =>
      (match how
       case Normal => out == [LockRefused, ReadFailed] || out == [LockRefused, ReadOk("ab")]
       case CallFailed => out == [] || out == [LockRefused]
       case ReadLockSucceeded => out == [LockSucceeded]
       case _ => out == [])
    case _ => out == []
  }

  predicate Inv(s: State) {
    && (s.child.Unborn? ==> (s.parent.Fork? || s.parent.ParentExited?) && s.pipe == 0)
    && (s.parent.Fork? ==> s.child.Unborn?)
    && s.writeEnds == (if s.parent.ParentExited? then 0 else 1)
                      + (if s.child.Unborn? || s.child.ChildExited? then 0 else 1)
    && s.locked == (s.parent.TellChild? || s.parent.WaitPid?)
    && s.pipe <= 1
    && (s.parent.SetLock? || s.parent.TellChild? ==> s.pipe == 0 && !Told(s.child))
    && (s.waitpidFailed ==> s.parent == ParentExited(true))
    && (Told(s.child) ==> s.pipe == 0 && (s.parent.WaitPid? || s.waitpidFailed))
    && (s.pipe == 1 && s.child.ReadPipe? ==> s.parent.WaitPid? || s.waitpidFailed)
    && (s.parent.WaitPid? && s.child.ReadPipe? ==> s.pipe == 1)
    && s.child != ChildExited(PipeEof)
    && (s.child == ChildExited(ReadLockSucceeded) ==> s.waitpidFailed)
    && (s.parent == ParentExited(false) ==> s.child.ChildExited?)
    && Progress(s.child, s.nonblock, s.offset, s.out)
  }

  lemma ParentKeepsInv(s: State, ok: bool, mandatory: bool)
    requires Inv(s) && Enabled(s, Parent(ok), mandatory)
    ensures Inv(ParentStep(s, ok))
  {
    match s.parent
    case Fork =>
    case SetLock =>
    case TellChild =>
    case WaitPid =>
  }

  lemma ChildKeepsInv(s: State, ok: bool, mandatory: bool)
    requires Inv(s) && Enabled(s, Child(ok), mandatory)
    ensures Inv(ChildStep(s, ok, mandatory))
  {
    match s.child
    case ReadPipe =>
    case GetFlags =>
    case SetFlags =>
    case TryLock =>
    case Refused =>
    case Seek =>
    case MandatoryRead => assert TwoBytes(0) == "ab";
  }

  lemma StepKeepsInv(s: State, e: Event, mandatory: bool)
    requires Inv(s)
    ensures Inv(Step(s, e, mandatory))
  {
    if Enabled(s, e, mandatory) {
      match e
      case Parent(ok) => ParentKeepsInv(s, ok, mandatory);
      case Child(ok) => ChildKeepsInv(s, ok, mandatory);
    }
  }

  lemma {:induction false} ExecInv(s: State, es: seq<Event>, mandatory: bool)
    requires Inv(s)
    ensures Inv(Exec(s, es, mandatory))
    decreases es
  {
    if es != [] {
      StepKeepsInv(s, es[0], mandatory);
      ExecInv(Step(s, es[0], mandatory), es[1..], mandatory);
    }
  }

  // ---------------------------------------------------------------- failing calls

  /** Some step of the run is of the kind `p`. */
  predicate Happens(p: (State, Event) -> bool, s: State, es: seq<Event>, mandatory: bool)
    decreases es
  {
    es != [] && (p(s, es[0]) || Happens(p, Step(s, es[0], mandatory), es[1..], mandatory))
  }

  /** One of the parent's calls fails: fork, fcntl, write or waitpid. */
  predicate ParentFails(s: State, e: Event) {
    e == Parent(false) && !s.parent.ParentExited?
  }

  predicate WaitpidFails(s: State, e: Event) {
    e == Parent(false) && s.parent.WaitPid?
  }

  predicate PipeReadFails(s: State, e: Event) {
    e == Child(false) && s.child.ReadPipe?
  }

  /** fcntl(F_GETFL), fcntl(F_SETFL) or lseek fails. */
  predicate ChildFails(s: State, e: Event) {
    e == Child(false) && (s.child.GetFlags? || s.child.SetFlags? || s.child.Seek?)
  }

  /** The read of the file fails for a reason other than the lock. */
  predicate FileReadFails(s: State, e: Event) {
    e == Child(false) && s.child.MandatoryRead?
  }

  lemma StepFailures(s: State, e: Event, mandatory: bool)
    requires Inv(s)
    ensures var t := Step(s, e, mandatory);
      && (t.parent == ParentExited(true) <==> s.parent == ParentExited(true) || ParentFails(s, e))
      && (t.child == ChildExited(CallFailed) <==> s.child == ChildExited(CallFailed) || ChildFails(s, e))
      && (t.child == ChildExited(PipeError) <==> s.child == ChildExited(PipeError) || PipeReadFails(s, e))
  {
  }

  lemma {:induction false} ExecFailures(s: State, es: seq<Event>, mandatory: bool)
    requires Inv(s)
    ensures var t := Exec(s, es, mandatory);
      var parent, child := Happens(ParentFails, s, es, mandatory), Happens(ChildFails, s, es, mandatory);
      && (t.parent == ParentExited(true) <==> s.parent == ParentExited(true) || parent)
      && (t.child == ChildExited(CallFailed) <==> s.child == ChildExited(CallFailed) || child)
      && (t.child == ChildExited(PipeError)
          <==> (s.child == ChildExited(PipeError) || Happens(PipeReadFails, s, es, mandatory)))
    decreases es
  {
    if es != [] {
      StepKeepsInv(s, es[0], mandatory);
      StepFailures(s, es[0], mandatory);
      ExecFailures(Step(s, es[0], mandatory), es[1..], mandatory);
    }
  }

  lemma {:induction false} ExecWaitpid(s: State, es: seq<Event>, mandatory: bool)
    requires Inv(s)
    ensures Exec(s, es, mandatory).waitpidFailed <==> s.waitpidFailed || Happens(WaitpidFails, s, es, mandatory)
    decreases es
  {
    if es != [] {
      StepKeepsInv(s, es[0], mandatory);
      ExecWaitpid(Step(s, es[0], mandatory), es[1..], mandatory);
    }
  }

  /** Each process ends with an error exactly if one of its own calls failed, and the child exactly by which. */
  lemma FailuresExactly(es: seq<Event>, mandatory: bool)
    ensures var s := Exec(Init(), es, mandatory);
      && (s.parent == ParentExited(true) <==> Happens(ParentFails, Init(), es, mandatory))
      && (s.waitpidFailed <==> Happens(WaitpidFails, Init(), es, mandatory))
      && (s.child == ChildExited(CallFailed) <==> Happens(ChildFails, Init(), es, mandatory))
      && (s.child == ChildExited(PipeError) <==> Happens(PipeReadFails, Init(), es, mandatory))
  {
    ExecFailures(Init(), es, mandatory);
    ExecWaitpid(Init(), es, mandatory);
  }

  // ---------------------------------------------------------------- theorems

  /**
   In every run, once the child is past WAIT_PARENT and alive, its parent holds the lock and
   waits for it, up to the final mandatory read, unless waitpid failed; and the attempt to lock
   succeeds exactly if waitpid has failed by then.
   */
  lemma LockAlwaysRefused(es: seq<Event>, mandatory: bool)
    ensures var s := Exec(Init(), es, mandatory);
      && (Told(s.child) ==> (s.locked && s.parent.WaitPid?) || s.waitpidFailed)
      && (s.child.TryLock? ==>
            (Step(s, Child(true), mandatory).child == ChildExited(ReadLockSucceeded) <==> s.waitpidFailed))
  {
    ExecInv(Init(), es, mandatory);
  }

  /** So "child: read lock succeeded" is unreachable in every run where waitpid does not fail ... */
  lemma ReadLockUnreachable(es: seq<Event>, mandatory: bool)
    requires !Happens(WaitpidFails, Init(), es, mandatory)
    ensures Exec(Init(), es, mandatory).child != ChildExited(ReadLockSucceeded)
  {
    ExecInv(Init(), es, mandatory);
    ExecWaitpid(Init(), es, mandatory);
  }

  lemma Before(s: State, e: Event, es: seq<Event>, mandatory: bool) returns (es': seq<Event>)
    ensures Exec(s, es', mandatory) == Exec(Step(s, e, mandatory), es, mandatory)
  {
    es' := [e] + es;
    assert es'[1..] == es;
  }

  /** ... and reachable in general: a failing waitpid releases the lock while the child runs. */
  lemma ReadLockAfterFailure(mandatory: bool)
    ensures exists es :: Exec(Init(), es, mandatory).child == ChildExited(ReadLockSucceeded)
  {
    var s1 := Step(Init(), Parent(true), mandatory);
    var s2 := Step(s1, Parent(true), mandatory);
    var s3 := Step(s2, Parent(true), mandatory);
    var s4 := Step(s3, Parent(false), mandatory);
    var s5 := Step(s4, Child(true), mandatory);
    var s6 := Step(s5, Child(true), mandatory);
    var s7 := Step(s6, Child(true), mandatory);
    assert s7.child.TryLock? && !s7.locked;
    var es := Before(s7, Child(true), [], mandatory);
    es := Before(s6, Child(true), es, mandatory);
    es := Before(s5, Child(true), es, mandatory);
    es := Before(s4, Child(true), es, mandatory);
    es := Before(s3, Parent(false), es, mandatory);
    es := Before(s2, Parent(true), es, mandatory);
    es := Before(s1, Parent(true), es, mandatory);
    es := Before(Init(), Parent(true), es, mandatory);
  }

  /** The branch for end of file on the pipe is dead: the child keeps a write end open itself. */
  lemma EofUnreachable(es: seq<Event>, mandatory: bool)
    ensures var s := Exec(Init(), es, mandatory);
      s.child != ChildExited(PipeEof) && (s.child.ReadPipe? ==> s.writeEnds > 0)
  {
    ExecInv(Init(), es, mandatory);
  }

  /** A child whose parent exited before TELL_CHILD stays in its read, unless the read itself fails. */
  lemma {:induction false} OrphanStaysBlocked(s: State, es: seq<Event>, mandatory: bool)
    requires Inv(s) && s.parent.ParentExited? && s.pipe == 0
    requires s.child.ReadPipe? || s.child == ChildExited(PipeError)
    ensures Exec(s, es, mandatory).child.ReadPipe? || Exec(s, es, mandatory).child == ChildExited(PipeError)
    decreases es
  {
    if es != [] {
      StepKeepsInv(s, es[0], mandatory);
      OrphanStaysBlocked(Step(s, es[0], mandatory), es[1..], mandatory);
    }
  }

  predicate Stuck(s: State, mandatory: bool) {
    !Enabled(s, Parent(true), mandatory) && !Enabled(s, Child(true), mandatory)
  }

  /** The handshake gets stuck only that way; O_NONBLOCK keeps the last read from waiting for the lock. */
  lemma StuckExactly(es: seq<Event>, mandatory: bool)
    ensures var s := Exec(Init(), es, mandatory);
      Stuck(s, mandatory) <==>
        s.parent.ParentExited? &&
          (s.child.Unborn? || s.child.ChildExited? || (s.child.ReadPipe? && s.pipe == 0))
  {
    ExecInv(Init(), es, mandatory);
  }

  lemma {:induction false} ExecVerdict(s: State, es: seq<Event>, mandatory: bool, readFailed: bool)
    requires Inv(s) && !s.waitpidFailed && !Happens(WaitpidFails, s, es, mandatory)
    requires readFailed ==> s.child == ChildExited(Normal)
    requires s.child == ChildExited(Normal) ==> s.out == Verdict(mandatory || readFailed)
    ensures var t := Exec(s, es, mandatory);
      t.child == ChildExited(Normal) ==>
        t.out == Verdict(mandatory || readFailed || Happens(FileReadFails, s, es, mandatory))
    decreases es
  {
    if es != [] {
      var t := Step(s, es[0], mandatory);
      StepKeepsInv(s, es[0], mandatory);
      if FileReadFails(s, es[0]) { assert t.out == [LockRefused] + [ReadFailed]; }
      assert TwoBytes(0) == "ab";
      ExecVerdict(t, es[1..], mandatory, readFailed || FileReadFails(s, es[0]));
    }
  }

  function Verdict(failed: bool): seq<Line> {
    [LockRefused, if failed then ReadFailed else ReadOk("ab")]
  }

  /**
   The program's question answered: if waitpid does not fail, a child that gets to its end has been
   refused the lock and then reports that the read failed exactly if the system enforces the lock,
   or the read failed by itself; otherwise it has read the first two bytes of the file.
   */
  lemma MandatoryVerdict(es: seq<Event>, mandatory: bool)
    requires !Happens(WaitpidFails, Init(), es, mandatory)
    ensures var s := Exec(Init(), es, mandatory);
      s.child == ChildExited(Normal) ==>
        s.out == Verdict(mandatory || Happens(FileReadFails, Init(), es, mandatory))
  {
    ExecVerdict(Init(), es, mandatory, false);
  }

  /** Without a failing call the handshake stops only when both processes have ended normally. */
  lemma Completes(es: seq<Event>, mandatory: bool)
    requires !Happens(ParentFails, Init(), es, mandatory) && !Happens(ChildFails, Init(), es, mandatory)
    requires !Happens(PipeReadFails, Init(), es, mandatory)
    ensures var s := Exec(Init(), es, mandatory);
      Stuck(s, mandatory) ==> s.parent == ParentExited(false) && s.child == ChildExited(Normal)
  {
    FailuresExactly(es, mandatory);
    ExecInv(Init(), es, mandatory);
  }

  /** The parent holds the lock and waits; the child stands at `child`. */
  function Waiting(child: ChildPc, pipe: nat, nonblock: bool, offset: nat, out: seq<Line>): State {
    State(WaitPid, child, pipe, 2, true, false, nonblock, offset, out)
  }

  lemma ToldChild(es: seq<Event>, mandatory: bool) returns (es': seq<Event>)
    ensures Exec(Init(), es', mandatory) == Exec(Waiting(GetFlags, 0, false, 6, []), es, mandatory)
  {
    var s1 := Step(Init(), Parent(true), mandatory);
    var s2 := Step(s1, Parent(true), mandatory);
    var s3 := Step(s2, Parent(true), mandatory);
    assert s3 == Waiting(ReadPipe, 1, false, 6, []);
    es' := Before(s3, Child(true), es, mandatory);
    es' := Before(s2, Parent(true), es', mandatory);
    es' := Before(s1, Parent(true), es', mandatory);
    es' := Before(Init(), Parent(true), es', mandatory);
  }

  lemma RefusedChild(es: seq<Event>, mandatory: bool) returns (es': seq<Event>)
    ensures Exec(Waiting(GetFlags, 0, false, 6, []), es', mandatory)
         == Exec(Waiting(MandatoryRead, 0, true, 0, [LockRefused]), es, mandatory)
  {
    var s0 := Waiting(GetFlags, 0, false, 6, []);
    var s1 := Step(s0, Child(true), mandatory);
    var s2 := Step(s1, Child(true), mandatory);
    assert s2 == Waiting(TryLock, 0, true, 6, []);
    var s3 := Step(s2, Child(true), mandatory);
    var s4 := Step(s3, Child(true), mandatory);
    assert s4 == Waiting(Seek, 0, true, 6, [LockRefused]);
    es' := Before(s4, Child(true), es, mandatory);
    es' := Before(s3, Child(true), es', mandatory);
    es' := Before(s2, Child(true), es', mandatory);
    es' := Before(s1, Child(true), es', mandatory);
    es' := Before(s0, Child(true), es', mandatory);
  }

  /** On every system there is a run in which both processes end normally. */
  lemma NormalEnd(mandatory: bool)
    ensures exists es ::
      var s := Exec(Init(), es, mandatory);
      s.parent == ParentExited(false) && s.child == ChildExited(Normal) && s.out == Verdict(mandatory)
  {
    var s1 := Waiting(MandatoryRead, 0, true, 0, [LockRefused]);
    var s2 := Step(s1, Child(true), mandatory);
    assert TwoBytes(0) == "ab";
    assert s2.out == Verdict(mandatory);
    var es := Before(s2, Parent(true), [], mandatory);
    es := Before(s1, Child(true), es, mandatory);
    es := RefusedChild(es, mandatory);
    es := ToldChild(es, mandatory);
  }

  function Rank(s: State): nat {
    (match s.parent case Fork => 11 case SetLock => 3 case TellChild => 2 case WaitPid => 1 case ParentExited(_) => 0)
    + (match s.child
       case ReadPipe => 7 case GetFlags => 6 case SetFlags => 5 case TryLock => 4
       case Refused => 3 case Seek => 2 case MandatoryRead => 1 case _ => 0)
  }

  function Effective(s: State, es: seq<Event>, mandatory: bool): nat
    decreases es
  {
    if es == [] then 0
    else (if Enabled(s, es[0], mandatory) then 1 else 0) + Effective(Step(s, es[0], mandatory), es[1..], mandatory)
  }

  lemma StepsDecrease(s: State, e: Event, mandatory: bool)
    requires Inv(s) && Enabled(s, e, mandatory)
    ensures Rank(Step(s, e, mandatory)) < Rank(s)
  {
  }

  lemma {:induction false} RunsAreBounded(s: State, es: seq<Event>, mandatory: bool)
    requires Inv(s)
    ensures Effective(s, es, mandatory) + Rank(Exec(s, es, mandatory)) <= Rank(s)
    decreases es
  {
    if es != [] {
      StepKeepsInv(s, es[0], mandatory);
      if Enabled(s, es[0], mandatory) { StepsDecrease(s, es[0], mandatory); }
      RunsAreBounded(Step(s, es[0], mandatory), es[1..], mandatory);
    }
  }

  /** Every run ends after at most eleven steps. */
  lemma Termination(es: seq<Event>, mandatory: bool)
    ensures Effective(Init(), es, mandatory) <= 11
  {
    RunsAreBounded(Init(), es, mandatory);
  }

  // ---------------------------------------------------------------- the program

  /** Both processes, the pipe and the lock, updated in place. */
  class Processes {
    var parent: ParentPc
    var child: ChildPc
    var pipe: nat
    var writeEnds: nat
    var locked: bool
    var waitpidFailed: bool
    var nonblock: bool
    var offset: nat
    var out: seq<Line>
    const mandatory: bool

    function View(): State
      reads this
    {
      State(parent, child, pipe, writeEnds, locked, waitpidFailed, nonblock, offset, out)
    }

    constructor (enforced: bool)
      ensures View() == Init() && mandatory == enforced
    {
      parent, child, pipe, writeEnds, locked, waitpidFailed := Fork, Unborn, 0, 1, false, false;
      nonblock, offset, out, mandatory := false, |CONTENTS|, [], enforced;
    }

    method CloseWriteEnd()
      modifies this`writeEnds
      ensures writeEnds == Less(old(writeEnds))
    {
      if writeEnds > 0 { writeEnds := writeEnds - 1; }
    }

    method ExitParent(failed: bool)
      modifies this`parent, this`writeEnds, this`locked
      ensures View() == ParentExit(old(View()), failed)
    {
      CloseWriteEnd();
      parent, locked := ParentExited(failed), false;
    }

    method ExitChild(how: Ending)
      modifies this`child, this`writeEnds
      ensures View() == ChildExit(old(View()), how)
    {
      CloseWriteEnd();
      child := ChildExited(how);
    }

    method RunParent(ok: bool)
      modifies this
      ensures View() == Step(old(View()), Event.Parent(ok), mandatory)
    {
      match parent
      case Fork =>
        if ok { parent, child, writeEnds := SetLock, ReadPipe, writeEnds + 1; } else { ExitParent(true); }
      case SetLock =>
        if ok { parent, locked := ParentPc.TellChild, true; } else { ExitParent(true); }
      case TellChild =>
        if ok { parent, pipe := WaitPid, pipe + 1; } else { ExitParent(true); }
      case WaitPid =>
        if !ok || child.ChildExited? {
          waitpidFailed := !ok;
          ExitParent(!ok);
        }
      case ParentExited(_) =>
    }

    method RunChild(ok: bool)
      modifies this
      ensures View() == Step(old(View()), Event.Child(ok), mandatory)
    {
      match child
      case ReadPipe => WaitParent(ok);
      case GetFlags =>
        if ok { child := SetFlags; } else { ExitChild(CallFailed); }
      case SetFlags =>
        if ok { child, nonblock := TryLock, true; } else { ExitChild(CallFailed); }
      case TryLock =>
        if ok && !locked {
          out := out + [LockSucceeded];
          ExitChild(ReadLockSucceeded);
        } else {
          child := Refused;
        }
      case Refused => child, out := Seek, out + [LockRefused];
      case Seek =>
        if ok { child, offset := MandatoryRead, 0; } else { ExitChild(CallFailed); }
      case MandatoryRead =>
        if !(ok && mandatory && locked && !nonblock) { ReadFile(ok); }
      case _ =>
    }

    /** The last read of the child; it does not wait for the lock. */
    method ReadFile(ok: bool)
      requires child.MandatoryRead?
      modifies this
      ensures View() == ChildStep(old(View()), ok, mandatory)
    {
      out := out + [if ok && !(mandatory && locked) then ReadOk(TwoBytes(offset)) else ReadFailed];
      ExitChild(Normal);
    }

    method WaitParent(ok: bool)
      requires child.ReadPipe?
      modifies this
      ensures View() == Step(old(View()), Event.Child(ok), mandatory)
    {
      if !ok {
        ExitChild(PipeError);
      } else if pipe > 0 {
        pipe := pipe - 1;
        child := GetFlags;
      } else if writeEnds == 0 {
        ExitChild(PipeEof);
      }
    }

    method Run(es: seq<Event>)
      modifies this
      ensures View() == Exec(old(View()), es, mandatory)
      ensures old(View()) == Init() ==>
        child != ChildExited(PipeEof) && (child == ChildExited(ReadLockSucceeded) ==> waitpidFailed)
    {
      ghost var start := View();
      for i := 0 to |es|
        invariant Exec(View(), es[i..], mandatory) == Exec(start, es, mandatory)
      {
        assert es[i..][0] == es[i] && es[i..][1..] == es[i + 1..];
        match es[i]
        case Parent(ok) => RunParent(ok);
        case Child(ok) => RunChild(ok);
      }
      if start == Init() { ExecInv(Init(), es, mandatory); }
    }
  }
}
