/**
 The process-global asynchronous writer: Init, Log, Close, the writer goroutine
 and the goroutines that call Log, as a state machine.  Every atomic load or
 store, channel operation and sink call is a step of its own, and steps of
 different goroutines interleave freely.
 */
module Writer {
  import opened Common

  // Events are opaque to the writer.
  type Event = nat

  datatype Policy = Drop | Block

  /** What a caller passes to Init; policy is the code of a FullPolicy. */
  datatype Config = Config(service: string, hasSink: bool, capacity: int, batchSize: int, interval: int, policy: nat)

  datatype Settings = Settings(capacity: int, batchSize: int, interval: int, policy: Policy)

  /** Either the given number or, for zero, a positive default. */
  predicate Defaulted(given: int, value: int)
  {
    value >= 1 && (given != 0 ==> value == given)
  }

  /** normalizeConfig: incomplete, negative and unknown settings are refused, zero selects
      the default. */
  function NormalizeConfig(c: Config): (r: Result<Settings>)
    ensures r.Ok? <==> c.service != "" && c.hasSink && c.capacity >= 0 && c.batchSize >= 0 && c.interval >= 0 && c.policy <= 1
    ensures r.Ok? ==> Defaulted(c.capacity, r.value.capacity) && Defaulted(c.batchSize, r.value.batchSize) && Defaulted(c.interval, r.value.interval)
    ensures r.Ok? ==> (r.value.policy.Block? <==> c.policy == 1)
  {
    if c.service == "" then Err("Service is required")
    else if !c.hasSink then Err("Sink is required")
    else if c.capacity < 0 || c.batchSize < 0 || c.interval < 0 then Err("writer sizes and interval cannot be negative")
    else if c.policy != 0 && c.policy != 1 then Err("unknown full-buffer policy")
    else Ok(Settings(if c.capacity == 0 then 4096 else c.capacity,
                     if c.batchSize == 0 then 64 else c.batchSize,
                     if c.interval == 0 then 100_000_000 else c.interval,
                     if c.policy == 0 then Drop else Block))
  }

  /** What the writer goroutine does once a batch has been published. */
  datatype After = ToSelect | ToDraining | ToClose

  /** Program counter of the writer goroutine. */
  datatype Pc =
    | Select                   // the main select
    | Publishing(after: After) // about to call WriteBatch
    | Written(after: After)    // WriteBatch succeeded, before written.Add
    | Failed(after: After)     // WriteBatch failed, before publishErrors.Add
    | Lost(after: After)       // before dropped.Add
    | Settling(after: After)   // before buffered.Add(-count)
    | Waiting                  // waitForProducers: about to load inflight
    | Sleeping                 // waitForProducers: blocked on wake
    | Draining                 // the drain loop's select
    | ClosingSink              // about to call sink.Close
    | ClosingDone              // before close(done)
    | Done

  /** What a sink has observed. */
  datatype Sink = Sink(batches: seq<seq<Event>>, errors: seq<Option<string>>, closes: nat)

  /** One writer value: one generation between an Init and its Close.  The field
      accepted is the history of sends on queue. */
  datatype Gen = Gen(
    settings: Settings, queue: seq<Event>, accepting: bool, inflight: int, stop: bool, wake: bool,
    pc: Pc, batch: seq<Event>, publishErr: Option<string>, closeErr: Option<string>,
    accepted: seq<Event>, sink: Sink)

  /** Program counter of a goroutine that calls Log. */
  datatype Producer =
    | Idle
    | Loaded(current: Option<nat>)            // global.current has been loaded
    | Refused                                 // no writer or not accepting, before dropped.Add
    | Building(gen: nat, event: Event)        // first accepting check passed
    | Entered(gen: nat, event: Event)         // inflight incremented
    | Admitted(gen: nat, event: Event)        // second accepting check passed
    | Reserved(gen: nat, event: Event)        // buffered incremented, at the select
    | Unreserving(gen: nat)                   // the select gave up, before buffered.Add(-1)
    | Dropping(gen: nat)                      // before dropped.Add
    | Leaving(gen: nat)                       // before inflight.Add(-1)
    | Waking(gen: nat)                        // before the non-blocking send on wake

  /** The holder of global.mu inside Close, if any. */
  datatype Control = Free | Swapped(gen: nat) | Refusing(gen: nat) | Stopping(gen: nat)

  datatype Counters = Counters(written: nat, dropped: nat, buffered: nat, publishErrors: nat)

  /** calls is the number of Log calls started so far. */
  datatype State = State(
    gens: seq<Gen>, current: Option<nat>, control: Control,
    producers: seq<Producer>, counters: Counters, calls: nat)

  datatype Choice =
    | Receive | Tick | SeeStop | Drained | Proceed
    | Write(failure: Option<string>) | CloseSink(closeFailure: Option<string>)

  datatype Action =
    | Init(config: Config)
    | CloseSwap | CloseRefuse | CloseStop | CloseReturn
    | Log(p: nat, event: Event, send: bool)   // one step of producer p
    | Run(g: nat, choice: Choice)             // one step of writer goroutine g

  function Start(producers: nat): State
  {
    State([], None, Free, seq(producers, i => Idle), Counters(0, 0, 0, 0), 0)
  }

  function NewGen(settings: Settings): Gen
  {
    Gen(settings, [], true, 0, false, false, Select, [], None, None, [], Sink([], [], 0))
  }

  // ---- The writer goroutine ----

  predicate RunEnabled(w: Gen, c: Choice)
  {
    match w.pc
    case Select => (c.Receive? && w.queue != []) || (c.Tick? && w.batch != []) || (c.SeeStop? && w.stop)
    case Publishing(_) => c.Write?
    case Sleeping => c.Proceed? && w.wake
    case Draining => (c.Receive? && w.queue != []) || (c.Drained? && w.queue == [])
    case ClosingSink => c.CloseSink?
    case Done => false
    case _ => c.Proceed?
  }

  function Resume(after: After): Pc
  {
    match after case ToSelect => Select case ToDraining => Draining case ToClose => ClosingSink
  }

  /** Receiving appends to the batch and publishes it when it is full. */
  function ReceiveOne(w: Gen, after: After): Gen
    requires w.queue != []
  {
    var batch := w.batch + [w.queue[0]];
    w.(queue := w.queue[1..], batch := batch,
       pc := if |batch| == w.settings.batchSize then Publishing(after) else w.pc)
  }

  /** WriteBatch returned: the sink has seen the batch; the first failure is kept. */
  function WriteReturned(w: Gen, failure: Option<string>): Gen
    requires w.pc.Publishing?
  {
    w.(sink := w.sink.(batches := w.sink.batches + [w.batch], errors := w.sink.errors + [failure]),
       publishErr := if w.publishErr.None? then failure else w.publishErr,
       pc := if failure.Some? then Failed(w.pc.after) else Written(w.pc.after))
  }

  function RunNext(w: Gen, c: Choice): Gen
    requires RunEnabled(w, c)
  {
    match w.pc
    case Select =>
      if c.Receive? then ReceiveOne(w, ToSelect)
      else if c.Tick? then w.(pc := Publishing(ToSelect))
      else w.(pc := Waiting)
    case Publishing(_) => WriteReturned(w, c.failure)
    case Written(after) => w.(pc := Settling(after))
    case Failed(after) => w.(pc := Lost(after))
    case Lost(after) => w.(pc := Settling(after))
    case Settling(after) => w.(pc := Resume(after), batch := [])
    case Waiting => w.(pc := if w.inflight == 0 then Draining else Sleeping)
    case Sleeping => w.(pc := Waiting, wake := false)
    case Draining =>
      if c.Receive? then ReceiveOne(w, ToDraining)
      else w.(pc := if w.batch != [] then Publishing(ToClose) else ClosingSink)
    case ClosingSink => w.(pc := ClosingDone, closeErr := c.closeFailure, sink := w.sink.(closes := w.sink.closes + 1))
    case ClosingDone => w.(pc := Done)
  }

  function RunCounters(w: Gen, k: Counters): Counters
  {
    match w.pc
    case Written(_) => k.(written := Add64(k.written, |w.batch|))
    case Failed(_) => k.(publishErrors := Add64(k.publishErrors, 1))
    case Lost(_) => k.(dropped := Add64(k.dropped, |w.batch|))
    case Settling(_) => k.(buffered := Sub64(k.buffered, |w.batch|))
    case _ => k
  }

  // ---- Goroutines calling Log ----

  /** The generation a producer refers to. */
  function GenOf(p: Producer): Option<nat>
  {
    match p
    case Idle => None
    case Refused => None
    case Loaded(current) => current
    case _ => Some(p.gen)
  }

  predicate ValidRef(s: State, p: Producer)
  {
    GenOf(p).Some? ==> GenOf(p).value < |s.gens|
  }

  /** At its select a producer sends when there is room; it gives up when stop is
      closed (Block) or when the queue is full (Drop). */
  predicate LogEnabled(s: State, p: Producer, send: bool)
  {
    ValidRef(s, p) &&
    (p.Reserved? ==>
       var w := s.gens[p.gen];
       if send then |w.queue| < w.settings.capacity
       else if w.settings.policy == Block then w.stop
       else |w.queue| >= w.settings.capacity)
  }

  function LogNext(s: State, p: Producer, event: Event, send: bool): Producer
    requires LogEnabled(s, p, send)
  {
    match p
    case Idle => Loaded(s.current)
    case Loaded(current) => if current.Some? && s.gens[current.value].accepting then Building(current.value, event) else Refused
    case Refused => Idle
    case Building(g, e) => Entered(g, e)
    case Entered(g, e) => if s.gens[g].accepting then Admitted(g, e) else Dropping(g)
    case Admitted(g, e) => Reserved(g, e)
    case Reserved(g, e) => if send then Leaving(g) else Unreserving(g)
    case Unreserving(g) => Dropping(g)
    case Dropping(g) => Leaving(g)
    case Leaving(g) => Waking(g)
    case Waking(_) => Idle
  }

  /** The effect of a producer step on the writer it points to. */
  function LogGen(w: Gen, p: Producer, send: bool): Gen
  {
    match p
    case Building(_, _) => w.(inflight := w.inflight + 1)
    case Reserved(_, e) => if send then w.(queue := w.queue + [e], accepted := w.accepted + [e]) else w
    case Leaving(_) => w.(inflight := w.inflight - 1)
    case Waking(_) => w.(wake := true)
    case _ => w
  }

  function LogCounters(k: Counters, p: Producer): Counters
  {
    match p
    case Refused => k.(dropped := Add64(k.dropped, 1))
    case Admitted(_, _) => k.(buffered := Add64(k.buffered, 1))
    case Unreserving(_) => k.(buffered := Sub64(k.buffered, 1))
    case Dropping(_) => k.(dropped := Add64(k.dropped, 1))
    case _ => k
  }

  // ---- The whole process ----

  predicate Enabled(s: State, a: Action)
  {
    match a
    case Init(config) => s.control.Free? && s.current.None? && NormalizeConfig(config).Ok?
    case CloseSwap => s.control.Free? && s.current.Some?
    case CloseRefuse => s.control.Swapped? && s.control.gen < |s.gens|
    case CloseStop => s.control.Refusing? && s.control.gen < |s.gens|
    case CloseReturn => s.control.Stopping? && s.control.gen < |s.gens| && s.gens[s.control.gen].pc.Done?
    case Log(p, _, send) => p < |s.producers| && LogEnabled(s, s.producers[p], send)
    case Run(g, choice) => g < |s.gens| && RunEnabled(s.gens[g], choice)
  }

  function Next(s: State, a: Action): State
    requires Enabled(s, a)
  {
    match a
    case Init(config) =>
      s.(gens := s.gens + [NewGen(NormalizeConfig(config).value)], current := Some(|s.gens|))
    case CloseSwap => s.(current := None, control := Swapped(s.current.value))
    case CloseRefuse =>
      var g := s.control.gen;
      s.(gens := s.gens[g := s.gens[g].(accepting := false)], control := Refusing(g))
    case CloseStop =>
      var g := s.control.gen;
      s.(gens := s.gens[g := s.gens[g].(stop := true)], control := Stopping(g))
    case CloseReturn => s.(control := Free)
    case Log(i, event, send) =>
      var p := s.producers[i];
      var ref := GenOf(p);
      s.(producers := s.producers[i := LogNext(s, p, event, send)],
         gens := if ref.Some? then s.gens[ref.value := LogGen(s.gens[ref.value], p, send)] else s.gens,
         counters := LogCounters(s.counters, p),
         calls := if p.Idle? then s.calls + 1 else s.calls)
    case Run(g, choice) =>
      s.(gens := s.gens[g := RunNext(s.gens[g], choice)],
         counters := RunCounters(s.gens[g], s.counters))
  }

  /** A run: the actions can be taken one after another. */
  predicate CanRun(s: State, actions: seq<Action>)
    decreases |actions|
  {
    actions == [] || (Enabled(s, actions[0]) && CanRun(Next(s, actions[0]), actions[1..]))
  }

  function Reached(s: State, actions: seq<Action>): State
    requires CanRun(s, actions)
    decreases |actions|
  {
    if actions == [] then s else Reached(Next(s, actions[0]), actions[1..])
  }
}
