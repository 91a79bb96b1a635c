/** What holds in every run of sv_msq.c. */
module MessageQueueTheorems {
  import opened Fgets
  import opened MessageQueue

  lemma ReachedInv(input: string, es: seq<Event>, cfg: Config)
    ensures Inv(Exec(Init(input), es, cfg), input, cfg)
  {
    ExecInv(Init(input), es, input, cfg);
  }

  /** Until the removal what was sent is received or queued, in order; after it, received or lost. */
  lemma Conservation(input: string, es: seq<Event>, cfg: Config)
    ensures var s := Exec(Init(input), es, cfg);
      s.sent == s.received + (if s.removed then s.lost else s.queue)
  {
    ReachedInv(input, es, cfg);
  }

  /**
   Clean shutdown means complete output: when "msgrcv over" is reached, all that was sent has
   been received and printed.  If no read failed, that is the whole input, exactly if the
   input has no NUL in it.
   */
  lemma CleanShutdown(input: string, es: seq<Event>, cfg: Config)
    requires var s := Exec(Init(input), es, cfg); s.consumer.Idrm? || s.consumer.Over?
    ensures var s := Exec(Init(input), es, cfg);
      && s.printed == s.received == s.sent && s.lost == []
      && (!s.readFailed ==>
            && s.printed == Texts(Chunks(input, cfg.capacity - 1))
            && (Concat(s.printed) == input <==> NUL !in input))
  {
    ReachedInv(input, es, cfg);
    var s := Exec(Init(input), es, cfg);
    if !s.readFailed {
      assert s.chunks + Chunks([], cfg.capacity - 1) == s.chunks;
      TextsExactly(s.chunks);
    }
  }

  lemma {:induction false} PrefixText(chunks: seq<string>, k: nat)
    requires k <= |chunks|
    ensures |Texts(chunks)| == |chunks| && Texts(chunks)[..k] == Texts(chunks[..k])
  {
    if k > 0 {
      PrefixText(chunks[1..], k - 1);
      assert chunks[..k][1..] == chunks[1..][..k - 1];
    } else if chunks != [] {
      PrefixText(chunks[1..], 0);
    }
  }

  lemma ConcatPrefix(a: seq<string>, b: seq<string>)
    requires a <= b
    ensures Concat(a) <= Concat(b)
  {
    assert b == a + b[|a|..];
    ConcatAppend(a, b[|a|..]);
  }

  /** At any time the printed texts are, one by one, the first texts cut from the input ... */
  lemma PrintedTexts(input: string, es: seq<Event>, cfg: Config)
    ensures Exec(Init(input), es, cfg).printed <= Texts(Chunks(input, cfg.capacity - 1))
  {
    ReachedInv(input, es, cfg);
    var s := Exec(Init(input), es, cfg);
    TextsAppend(s.chunks, Chunks(s.input, cfg.capacity - 1));
  }

  /** ... so without NULs what was printed is always a prefix of the input. */
  lemma PrintsPrefix(input: string, es: seq<Event>, cfg: Config)
    requires NUL !in input
    ensures Concat(Exec(Init(input), es, cfg).printed) <= input
  {
    PrintedTexts(input, es, cfg);
    ChunksSound(input, cfg.capacity - 1);
    TextsLength(Chunks(input, cfg.capacity - 1));
    ConcatPrefix(Exec(Init(input), es, cfg).printed, Chunks(input, cfg.capacity - 1));
  }

  lemma {:induction false} TextAt(chunks: seq<string>, i: nat)
    requires i < |chunks|
    ensures |Texts(chunks)| == |chunks| && Texts(chunks)[i] == Truncated(chunks[i])
  {
    PrefixText(chunks, 0);
    if i > 0 { TextAt(chunks[1..], i - 1); }
  }

  lemma ChunkSize(input: string, i: nat, cfg: Config)
    requires i < |Texts(Chunks(input, cfg.capacity - 1))|
    ensures Size(Texts(Chunks(input, cfg.capacity - 1))[i]) <= cfg.capacity
  {
    var chunks := Chunks(input, cfg.capacity - 1);
    ChunksSound(input, cfg.capacity - 1);
    PrefixText(chunks, 0);
    TextAt(chunks, i);
    TruncatedExactly(chunks[i]);
    assert IsChunk(chunks[i], cfg.capacity - 1, i == |chunks| - 1);
  }

  /** Every message, its NUL included, fits the buffers of both threads. */
  lemma BufferFit(input: string, es: seq<Event>, cfg: Config)
    ensures forall t | t in Exec(Init(input), es, cfg).sent :: Size(t) <= cfg.capacity
  {
    ReachedInv(input, es, cfg);
    var s := Exec(Init(input), es, cfg);
    TextsAppend(s.chunks, Chunks(s.input, cfg.capacity - 1));
    var texts := Texts(Chunks(input, cfg.capacity - 1));
    forall t | t in s.sent ensures Size(t) <= cfg.capacity {
      var i :| 0 <= i < |s.sent| && s.sent[i] == t;
      assert texts[i] == t;
      ChunkSize(input, i, cfg);
    }
  }

  // ---------------------------------------------------------------- the limit on the queue

  /** The bytes in the queue, NULs included, counted from the texts as a whole. */
  function Occupied(queue: seq<Text>): nat {
    |Concat(queue)| + |queue|
  }

  lemma {:induction false} BytesExactly(queue: seq<Text>)
    ensures Bytes(queue) == Occupied(queue)
  {
    if queue != [] { BytesExactly(queue[1..]); }
  }

  lemma OccupiedAppend(queue: seq<Text>, t: Text)
    ensures Occupied(queue + [t]) == Occupied(queue) + |t| + 1
  {
    ConcatAppend(queue, [t]);
    assert Concat([t]) == t;
  }

  /** The queue keeps its limit, and so has every message that ever went through it. */
  predicate Limited(s: State, cfg: Config) {
    Occupied(s.queue) <= cfg.queueBytes && forall t | t in s.sent :: |t| + 1 <= cfg.queueBytes
  }

  lemma SendLimited(s: State, t: Text, cfg: Config)
    requires Limited(s, cfg) && Fits(s, t, cfg)
    ensures Limited(SendStep(s, t), cfg)
  {
    BytesExactly(s.queue);
    OccupiedAppend(s.queue, t);
  }

  lemma StepLimited(s: State, e: Event, cfg: Config)
    requires Limited(s, cfg)
    ensures Limited(Step(s, e, cfg), cfg)
  {
    if e.Producer? && e.ok && s.producer.Send? && Enabled(s, e, cfg) {
      SendLimited(s, s.producer.text, cfg);
    }
  }

  lemma {:induction false} ExecLimited(s: State, es: seq<Event>, cfg: Config)
    requires Limited(s, cfg)
    ensures Limited(Exec(s, es, cfg), cfg)
    decreases es
  {
    if es != [] {
      StepLimited(s, es[0], cfg);
      ExecLimited(Step(s, es[0], cfg), es[1..], cfg);
    }
  }

  /** The texts in the queue, each with its NUL, never take more room than it has. */
  lemma QueueLimit(input: string, es: seq<Event>, cfg: Config)
    ensures var s := Exec(Init(input), es, cfg);
      |Concat(s.queue)| + |s.queue| <= cfg.queueBytes && forall t | t in s.sent :: |t| + 1 <= cfg.queueBytes
  {
    ExecLimited(Init(input), es, cfg);
  }

  /** msgsnd goes on exactly if the text and its NUL fit behind what is queued, and then loses nothing. */
  lemma SendExactly(s: State, cfg: Config)
    requires s.alive && s.producer.Send?
    ensures var t := s.producer.text;
      Enabled(s, Producer(true), cfg) <==> |Concat(s.queue)| + |s.queue| + |t| + 1 <= cfg.queueBytes
    ensures Enabled(s, Producer(true), cfg) ==>
      Step(s, Producer(true), cfg).sent == s.sent + [s.producer.text]
  {
    BytesExactly(s.queue);
  }

  // ---------------------------------------------------------------- failing calls

  /** Some step of the run is of the kind `p`. */
  predicate Happens(p: (State, Event) -> bool, s: State, es: seq<Event>, cfg: Config)
    decreases es
  {
    es != [] && (p(s, es[0]) || Happens(p, Step(s, es[0], cfg), es[1..], cfg))
  }

  /** fgets fails; main takes that for the end of the input. */
  predicate ReadFails(s: State, e: Event) {
    s.alive && e == Producer(false) && s.producer.Read?
  }

  /** A call fails after which the program exits; a msgrcv after the removal always does. */
  predicate CallFails(s: State, e: Event) {
    s.alive &&
    match e
    case Producer(ok) => !ok && (s.producer.Send? || s.producer.Remove?)
    case Consumer(ok) =>
      || (!ok && (s.consumer.Start? || s.consumer.Receive? || s.consumer.Asleep?))
      || (s.consumer.Receive? && s.removed)
  }

  lemma StepFailures(s: State, e: Event, cfg: Config)
    ensures !Step(s, e, cfg).alive <==> !s.alive || CallFails(s, e)
    ensures Step(s, e, cfg).readFailed <==> s.readFailed || ReadFails(s, e)
  {
  }

  lemma {:induction false} ExecFailures(s: State, es: seq<Event>, cfg: Config)
    ensures !Exec(s, es, cfg).alive <==> !s.alive || Happens(CallFails, s, es, cfg)
    ensures Exec(s, es, cfg).readFailed <==> s.readFailed || Happens(ReadFails, s, es, cfg)
    decreases es
  {
    if es != [] {
      StepFailures(s, es[0], cfg);
      ExecFailures(Step(s, es[0], cfg), es[1..], cfg);
    }
  }

  /** The program exits early exactly if a call other than fgets failed. */
  lemma ExitsExactly(input: string, es: seq<Event>, cfg: Config)
    ensures !Exec(Init(input), es, cfg).alive <==> Happens(CallFails, Init(input), es, cfg)
    ensures Exec(Init(input), es, cfg).readFailed <==> Happens(ReadFails, Init(input), es, cfg)
  {
    ExecFailures(Init(input), es, cfg);
  }

  // ---------------------------------------------------------------- how the removal ends the consumer

  lemma {:induction false} BusyStaysUnclean(s: State, es: seq<Event>, cfg: Config)
    requires s.removed && !s.consumer.Idrm? && !s.consumer.Over? && !s.consumer.Asleep?
    requires s.producer.Join? || s.producer.Returned?
    ensures !Exec(s, es, cfg).consumer.Over?
    decreases es
  {
    if es != [] {
      BusyStaysUnclean(Step(s, es[0], cfg), es[1..], cfg);
    }
  }

  /** The consumer can end cleanly exactly if it is asleep in msgrcv when main removes the queue. */
  lemma CleanExactlyIfAsleep(input: string, es: seq<Event>, cfg: Config)
    requires var s := Exec(Init(input), es, cfg); s.alive && s.producer.Remove?
    ensures var s := Exec(Init(input), es, cfg);
      (exists es' :: Exec(RemoveStep(s), es', cfg).consumer.Over?) <==> s.consumer.Asleep?
  {
    ReachedInv(input, es, cfg);
    var s := Exec(Init(input), es, cfg);
    if s.consumer.Asleep? {
      var es' := Before(RemoveStep(s), Consumer(true), [], cfg);
      assert Exec(RemoveStep(s), es', cfg).consumer.Over?;
    } else {
      forall es' ensures !Exec(RemoveStep(s), es', cfg).consumer.Over? {
        BusyStaysUnclean(RemoveStep(s), es', cfg);
      }
    }
  }

  // ---------------------------------------------------------------- progress

  predicate Deadlocked(s: State, cfg: Config) {
    s.alive && !s.producer.Returned? && !Enabled(s, Producer(true), cfg) && !Enabled(s, Consumer(true), cfg)
  }

  predicate SomeTooBig(texts: seq<Text>, cfg: Config) {
    exists i :: 0 <= i < |texts| && Size(texts[i]) > cfg.queueBytes
  }

  lemma DeadlockMeansTooBig(input: string, es: seq<Event>, cfg: Config)
    requires Deadlocked(Exec(Init(input), es, cfg), cfg)
    ensures SomeTooBig(Texts(Chunks(input, cfg.capacity - 1)), cfg)
  {
    ReachedInv(input, es, cfg);
    var s := Exec(Init(input), es, cfg);
    TextsAppend(s.chunks, Chunks(s.input, cfg.capacity - 1));
    var texts := Texts(Chunks(input, cfg.capacity - 1));
    assert s.producer.Send? && s.consumer.Asleep?;
    assert texts[|s.sent|] == s.producer.text;
  }

  ghost predicate Ready(s: State) {
    s.alive && s.producer.Read? && s.consumer.Asleep? && s.queue == [] && !s.removed
  }

  /** With the consumer asleep, one message goes all the way and the consumer falls asleep again. */
  lemma OneMessage(s: State, cfg: Config) returns (t: State)
    requires Ready(s) && s.input != []
    requires Size(Truncated(s.input[..Taken(s.input, cfg.capacity - 1)])) <= cfg.queueBytes
    ensures Ready(t) && t.input == s.input[Taken(s.input, cfg.capacity - 1)..]
    ensures t.printed == s.printed + [Truncated(s.input[..Taken(s.input, cfg.capacity - 1)])]
    ensures var sent := Step(Step(s, Producer(true), cfg), Producer(true), cfg);
      t == Step(Step(sent, Consumer(true), cfg), Consumer(true), cfg)
  {
    var s1 := Step(s, Producer(true), cfg);
    var s2 := Step(s1, Producer(true), cfg);
    var s3 := Step(s2, Consumer(true), cfg);
    t := Step(s3, Consumer(true), cfg);
  }

  lemma FourSteps(s: State, a: Event, b: Event, c: Event, d: Event, es: seq<Event>, cfg: Config)
    returns (es': seq<Event>)
    ensures Exec(s, es', cfg) == Exec(Step(Step(Step(Step(s, a, cfg), b, cfg), c, cfg), d, cfg), es, cfg)
  {
    var t := Step(s, a, cfg);
    var u := Step(t, b, cfg);
    es' := Before(Step(u, c, cfg), d, es, cfg);
    es' := Before(u, c, es', cfg);
    es' := Before(t, b, es', cfg);
    es' := Before(s, a, es', cfg);
  }

  lemma {:induction false} TooBigDeadlocks(s: State, cfg: Config) returns (es: seq<Event>)
    requires Ready(s) && SomeTooBig(Texts(Chunks(s.input, cfg.capacity - 1)), cfg)
    ensures Deadlocked(Exec(s, es, cfg), cfg)
    decreases |s.input|
  {
    var room := cfg.capacity - 1;
    var n := Taken(s.input, room);
    var first := Truncated(s.input[..n]);
    if Size(first) > cfg.queueBytes {
      es := [Producer(true)];
      assert es[1..] == [];
    } else {
      var t := OneMessage(s, cfg);
      var texts, rest := Texts(Chunks(s.input, room)), Texts(Chunks(t.input, room));
      assert texts == [first] + rest;
      var i :| 0 <= i < |texts| && Size(texts[i]) > cfg.queueBytes;
      assert rest[i - 1] == texts[i];
      TakenIsChunk(s.input, room);
      es := TooBigDeadlocks(t, cfg);
      es := FourSteps(s, Producer(true), Producer(true), Consumer(true), Consumer(true), es, cfg);
    }
  }

  /** The two threads can block each other exactly if some message is larger than the whole queue. */
  lemma DeadlockExactly(input: string, cfg: Config)
    ensures (exists es :: Deadlocked(Exec(Init(input), es, cfg), cfg))
       <==> SomeTooBig(Texts(Chunks(input, cfg.capacity - 1)), cfg)
  {
    forall es | Deadlocked(Exec(Init(input), es, cfg), cfg)
      ensures SomeTooBig(Texts(Chunks(input, cfg.capacity - 1)), cfg)
    {
      DeadlockMeansTooBig(input, es, cfg);
    }
    if SomeTooBig(Texts(Chunks(input, cfg.capacity - 1)), cfg) {
      var s1 := Step(Init(input), Consumer(true), cfg);
      var s2 := Step(s1, Consumer(true), cfg);
      var es := TooBigDeadlocks(s2, cfg);
      es := Before(s1, Consumer(true), es, cfg);
      es := Before(Init(input), Consumer(true), es, cfg);
    }
  }

  lemma AllFit(first: Text, rest: seq<Text>, cfg: Config)
    requires !SomeTooBig([first] + rest, cfg)
    ensures Size(first) <= cfg.queueBytes && !SomeTooBig(rest, cfg)
  {
    var texts := [first] + rest;
    assert texts[0] == first && forall i | 0 <= i < |rest| :: rest[i] == texts[i + 1];
  }

  predicate EndsWith(s: State, printed: seq<Text>) {
    s.producer.Returned? && s.consumer.Over? && s.printed == printed
  }

  lemma AfterMessage(s: State, cfg: Config) returns (t: State)
    requires Ready(s) && s.input != []
    requires Size(Truncated(s.input[..Taken(s.input, cfg.capacity - 1)])) <= cfg.queueBytes
    ensures Ready(t) && t.input == s.input[Taken(s.input, cfg.capacity - 1)..]
    ensures t.printed == s.printed + [Truncated(s.input[..Taken(s.input, cfg.capacity - 1)])]
    ensures exists es :: Exec(s, es, cfg) == t
  {
    t := OneMessage(s, cfg);
    var es := FourSteps(s, Producer(true), Producer(true), Consumer(true), Consumer(true), [], cfg);
  }

  lemma ThroughQueue(s: State, t: State, es: seq<Event>, cfg: Config) returns (es': seq<Event>)
    requires exists first :: Exec(s, first, cfg) == t
    ensures Exec(s, es', cfg) == Exec(t, es, cfg)
  {
    var first :| Exec(s, first, cfg) == t;
    ExecAppend(s, first, es, cfg);
    es' := first + es;
  }

  lemma {:induction false} ExecAppend(s: State, a: seq<Event>, b: seq<Event>, cfg: Config)
    ensures Exec(s, a + b, cfg) == Exec(Exec(s, a, cfg), b, cfg)
    decreases a
  {
    if a == [] {
      assert a + b == b;
    } else {
      assert (a + b)[0] == a[0] && (a + b)[1..] == a[1..] + b;
      ExecAppend(Step(s, a[0], cfg), a[1..], b, cfg);
    }
  }

  /** If every text fits the queue, the input can be sent and printed message by message. */
  lemma {:induction false} AllPrinted(s: State, cfg: Config) returns (es: seq<Event>)
    requires Ready(s) && !SomeTooBig(Texts(Chunks(s.input, cfg.capacity - 1)), cfg)
    ensures EndsWith(Exec(s, es, cfg), s.printed + Texts(Chunks(s.input, cfg.capacity - 1)))
    decreases |s.input|
  {
    if s.input == [] {
      es := CleanEnd(s, cfg);
      assert s.printed + [] == s.printed;
    } else {
      var room := cfg.capacity - 1;
      var first, rest := Truncated(s.input[..Taken(s.input, room)]), s.input[Taken(s.input, room)..];
      assert Texts(Chunks(s.input, room)) == [first] + Texts(Chunks(rest, room));
      AllFit(first, Texts(Chunks(rest, room)), cfg);
      TakenIsChunk(s.input, room);
      assert s.printed + [first] + Texts(Chunks(rest, room)) == s.printed + ([first] + Texts(Chunks(rest, room)));
      var t := AfterMessage(s, cfg);
      es := AllPrinted(t, cfg);
      es := ThroughQueue(s, t, es, cfg);
    }
  }

  /** At the end of the input, with the consumer asleep, the removal ends both threads. */
  lemma CleanEnd(s: State, cfg: Config) returns (es: seq<Event>)
    requires Ready(s) && s.input == []
    ensures EndsWith(Exec(s, es, cfg), s.printed)
  {
    es := FourSteps(s, Producer(true), Producer(true), Consumer(true), Producer(true), [], cfg);
  }

  /** The program can print its whole input and return from main exactly if no text exceeds the queue. */
  lemma CompleteExactly(input: string, cfg: Config)
    ensures (exists es :: var s := Exec(Init(input), es, cfg);
               s.producer.Returned? && s.printed == Texts(Chunks(input, cfg.capacity - 1)))
       <==> !SomeTooBig(Texts(Chunks(input, cfg.capacity - 1)), cfg)
  {
    var texts := Texts(Chunks(input, cfg.capacity - 1));
    forall es | Exec(Init(input), es, cfg).printed == texts ensures !SomeTooBig(texts, cfg) {
      QueueLimit(input, es, cfg);
      Conservation(input, es, cfg);
      ReachedInv(input, es, cfg);
      var s := Exec(Init(input), es, cfg);
      forall i | 0 <= i < |texts| ensures Size(texts[i]) <= cfg.queueBytes { assert s.sent[i] == texts[i]; }
    }
    if !SomeTooBig(texts, cfg) {
      var s1 := Step(Init(input), Consumer(true), cfg);
      var s2 := Step(s1, Consumer(true), cfg);
      var es := AllPrinted(s2, cfg);
      es := Before(s1, Consumer(true), es, cfg);
      es := Before(Init(input), Consumer(true), es, cfg);
    }
  }

  /** A queue that holds one maximal message never deadlocks. */
  lemma NoDeadlock(input: string, es: seq<Event>, cfg: Config)
    requires cfg.capacity <= cfg.queueBytes
    ensures !Deadlocked(Exec(Init(input), es, cfg), cfg)
  {
    var texts := Texts(Chunks(input, cfg.capacity - 1));
    forall i: nat | i < |texts| ensures Size(texts[i]) <= cfg.queueBytes {
      ChunkSize(input, i, cfg);
    }
    if Deadlocked(Exec(Init(input), es, cfg), cfg) {
      DeadlockMeansTooBig(input, es, cfg);
    }
  }

  function ProducerRank(pc: ProducerPc): nat {
    match pc
    case Read => 4 case Send(_) => 9 case Remove => 2 case Join => 1 case Returned => 0
  }

  function ConsumerRank(pc: ConsumerPc): nat {
    match pc
    case Start => 3 case Receive => 2 case Asleep => 1 case Print(_) => 3 case Idrm => 1 case Over => 0 case Error => 0
  }

  function Measure(s: State): nat {
    if s.alive then 6 * |s.input| + 3 * |s.queue| + ProducerRank(s.producer) + ConsumerRank(s.consumer) else 0
  }

  lemma StepsDecrease(s: State, e: Event, cfg: Config)
    requires Enabled(s, e, cfg)
    ensures Measure(Step(s, e, cfg)) < Measure(s)
  {
    if s.input != [] { TakenIsChunk(s.input, cfg.capacity - 1); }
  }

  function Effective(s: State, es: seq<Event>, cfg: Config): nat
    decreases es
  {
    if es == [] then 0 else (if Enabled(s, es[0], cfg) then 1 else 0) + Effective(Step(s, es[0], cfg), es[1..], cfg)
  }

  lemma {:induction false} RunsAreBounded(s: State, es: seq<Event>, cfg: Config)
    ensures Effective(s, es, cfg) + Measure(Exec(s, es, cfg)) <= Measure(s)
    decreases es
  {
    if es != [] {
      if Enabled(s, es[0], cfg) { StepsDecrease(s, es[0], cfg); }
      RunsAreBounded(Step(s, es[0], cfg), es[1..], cfg);
    }
  }

  /** Every run is finite: six steps a byte of input, and seven more. */
  lemma Termination(input: string, es: seq<Event>, cfg: Config)
    ensures Effective(Init(input), es, cfg) <= 6 * |input| + 7
  {
    RunsAreBounded(Init(input), es, cfg);
  }
}
