/**
 interprocess_communication/sv_msq.c: main cuts standard input into messages and sends them
 through a message queue that a second thread empties; at the end of the input main removes
 the queue, wherever the other thread is.

 The kernel is assumed to fail a receive with EIDRM only if the receiver sleeps when the queue
 is removed, to fail a later receive with EINVAL, and to hand a message straight to a receiver
 that is asleep.
 */
module MessageQueue {
  import opened Fgets

  type Text = string

  datatype ProducerPc = Read | Send(text: Text) | Remove | Join | Returned

  datatype ConsumerPc = Start | Receive | Asleep | Print(text: Text) | Idrm | Over | Error

  /** `capacity` is MSGMAXSZ, the size of both text buffers; `queueBytes` is what the queue can hold. */
  datatype Sizes = Sizes(capacity: nat, queueBytes: nat)

  /** MSGMAXSZ is BUFSIZ - sizeof(long), so fgets has room for text. */
  type Config = c: Sizes | c.capacity > 1 witness Sizes(2, 0)

  datatype State = State(
    input: string, producer: ProducerPc, consumer: ConsumerPc,
    queue: seq<Text>, removed: bool,
    alive: bool,             // exit ends both threads
    // what happened so far
    readFailed: bool, chunks: seq<string>, sent: seq<Text>, received: seq<Text>, printed: seq<Text>, lost: seq<Text>)

  /** One thread takes a step; `ok` tells whether a call in it succeeds. */
  datatype Event = Producer(ok: bool) | Consumer(ok: bool)

  function Init(input: string): State {
    State(input, Read, Start, [], false, true, false, [], [], [], [], [])
  }

  /** Messages carry their terminating NUL. */
  function Size(t: Text): nat {
    |t| + 1
  }

  function Bytes(queue: seq<Text>): nat {
    if queue == [] then 0 else Size(queue[0]) + Bytes(queue[1..])
  }

  function Fits(s: State, t: Text, cfg: Config): bool {
    Bytes(s.queue) + Size(t) <= cfg.queueBytes
  }

  predicate Enabled(s: State, e: Event, cfg: Config) {
    s.alive &&
    match e
    case Producer(ok) =>
      (match s.producer
       case Send(t) => ok ==> Fits(s, t, cfg)
       case Join => s.consumer.Over?
       case Returned => false
       case _ => true)
    case Consumer(ok) =>
      (match s.consumer
       case Asleep => !ok
       case Over => false
       case Error => false
       case _ => true)
  }

  function Step(s: State, e: Event, cfg: Config): State
  {
    if !Enabled(s, e, cfg) then s
    else if e.Producer? then ProducerStep(s, e.ok, cfg)
    else ConsumerStep(s, e.ok)
  }

  function ProducerStep(s: State, ok: bool, cfg: Config): State
  {
    match s.producer
    case Read =>
      if !ok then s.(producer := Remove, readFailed := true)
      else if s.input == [] then s.(producer := Remove)
      else
        var n := Taken(s.input, cfg.capacity - 1);
        s.(producer := Send(Truncated(s.input[..n])), input := s.input[n..], chunks := s.chunks + [s.input[..n]])
    case Send(t) => if ok then SendStep(s, t) else s.(alive := false)
    case Remove => if ok then RemoveStep(s) else s.(alive := false)
    case Join => s.(producer := Returned)
    case Returned => s
  }

  function SendStep(s: State, t: Text): State {
    var u := s.(producer := Read, sent := s.sent + [t]);
    if s.consumer.Asleep? then u.(consumer := Print(t), received := s.received + [t])
    else u.(queue := s.queue + [t])
  }

  function RemoveStep(s: State): State {
    s.(producer := Join, removed := true, queue := [], lost := s.queue,
       consumer := if s.consumer.Asleep? then Idrm else s.consumer)
  }

  function ConsumerStep(s: State, ok: bool): State {
    match s.consumer
    case Start => if ok then s.(consumer := Receive) else Fail(s)
    case Receive =>
      if !ok || s.removed then Fail(s)
      else if s.queue == [] then s.(consumer := Asleep)
      else s.(consumer := Print(s.queue[0]), received := s.received + [s.queue[0]], queue := s.queue[1..])
    case Asleep => if ok then s else Fail(s)
    case Print(t) => s.(consumer := Receive, printed := s.printed + [t])
    case Idrm => s.(consumer := Over)
    case _ => s
  }

  /** msgrcv failed with anything but EIDRM: exit(1). */
  function Fail(s: State): State {
    s.(consumer := Error, alive := false)
  }

  function Exec(s: State, es: seq<Event>, cfg: Config): State
    decreases es
  {
    if es == [] then s else Exec(Step(s, es[0], cfg), es[1..], cfg)
  }

  // ---------------------------------------------------------------- invariants

  ghost predicate Flow(s: State) {
    && s.sent == s.received + s.queue + s.lost
    && (if s.removed then s.queue == [] else s.lost == [])
    && s.received == s.printed + (if s.consumer.Print? then [s.consumer.text] else [])
    && (s.consumer.Asleep? ==> s.queue == [] && !s.removed)
    && (s.consumer.Idrm? || s.consumer.Over? ==> s.removed && s.lost == [])
    && (s.consumer.Error? ==> !s.alive)
    && (s.removed <==> s.producer.Join? || s.producer.Returned?)
  }

  ghost predicate Cutting(s: State, input: string, cfg: Config)
  {
    && Chunks(input, cfg.capacity - 1) == s.chunks + Chunks(s.input, cfg.capacity - 1)
    && input == Concat(s.chunks) + s.input
    && Texts(s.chunks) == s.sent + (if s.producer.Send? then [s.producer.text] else [])
    && (s.producer.Remove? || s.removed ==> s.input == [] || s.readFailed)
  }

  lemma ProducerKeepsFlow(s: State, ok: bool, cfg: Config)
    requires Flow(s) && Enabled(s, Producer(ok), cfg)
    ensures Flow(ProducerStep(s, ok, cfg))
  {
    match s.producer
    case Read =>
    case Send(t) => assert s.received + (s.queue + [t]) + s.lost == s.received + s.queue + s.lost + [t];
    case Remove =>
    case Join =>
  }

  lemma ConsumerKeepsFlow(s: State, ok: bool)
    requires Flow(s)
    ensures Flow(ConsumerStep(s, ok))
  {
    match s.consumer
    case Receive =>
      if s.queue != [] {
        assert s.received + s.queue == s.received + [s.queue[0]] + s.queue[1..];
      }
    case _ =>
  }

  lemma ReadKeepsCutting(s: State, input: string, cfg: Config)
    requires Cutting(s, input, cfg) && s.producer.Read? && s.input != []
    ensures Cutting(ProducerStep(s, true, cfg), input, cfg)
  {
    ReadOne(s.chunks, s.input, cfg.capacity - 1);
  }

  lemma ProducerKeepsCutting(s: State, ok: bool, input: string, cfg: Config)
    requires Flow(s) && Cutting(s, input, cfg)
    ensures Cutting(ProducerStep(s, ok, cfg), input, cfg)
  {
    match s.producer
    case Read => if ok && s.input != [] { ReadKeepsCutting(s, input, cfg); }
    case Send(t) =>
    case Remove =>
    case Join =>
    case Returned =>
  }

  lemma ConsumerKeepsCutting(s: State, ok: bool, input: string, cfg: Config)
    requires Cutting(s, input, cfg)
    ensures Cutting(ConsumerStep(s, ok), input, cfg)
  {
    match s.consumer
    case Start =>
    case Receive =>
    case Asleep =>
    case Print(_) =>
    case Idrm =>
    case _ =>
  }

  ghost predicate Inv(s: State, input: string, cfg: Config)
  {
    Flow(s) && Cutting(s, input, cfg)
  }

  lemma StepKeepsInv(s: State, e: Event, input: string, cfg: Config)
    requires Inv(s, input, cfg)
    ensures Inv(Step(s, e, cfg), input, cfg)
  {
    if Enabled(s, e, cfg) {
      if e.Producer? {
        ProducerKeepsFlow(s, e.ok, cfg);
        ProducerKeepsCutting(s, e.ok, input, cfg);
      } else {
        ConsumerKeepsFlow(s, e.ok);
        ConsumerKeepsCutting(s, e.ok, input, cfg);
      }
    }
  }

  lemma {:induction false} ExecInv(s: State, es: seq<Event>, input: string, cfg: Config)
    requires Inv(s, input, cfg)
    ensures Inv(Exec(s, es, cfg), input, cfg)
    decreases es
  {
    if es != [] {
      StepKeepsInv(s, es[0], input, cfg);
      ExecInv(Step(s, es[0], cfg), es[1..], input, cfg);
    }
  }

  lemma Before(s: State, e: Event, es: seq<Event>, cfg: Config) returns (es': seq<Event>)
    ensures Exec(s, es', cfg) == Exec(Step(s, e, cfg), es, cfg)
  {
    es' := [e] + es;
    assert es'[1..] == es;
  }
}
