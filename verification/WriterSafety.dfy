/** Safety of the writer over every interleaving: exactly-once ordered delivery in
    bounded batches, a queue that stays empty once done is closed, and no lost
    wake-up in the shutdown wait. */
module WriterSafety {
  import opened Common
  import opened Writer

  // ---- Definitions ----

  function Flatten(batches: seq<seq<Event>>): seq<Event>
  {
    if batches == [] then [] else Flatten(batches[..|batches| - 1]) + batches[|batches| - 1]
  }

  function FirstError(errors: seq<Option<string>>): Option<string>
  {
    if errors == [] then None
    else if FirstError(errors[..|errors| - 1]).Some? then FirstError(errors[..|errors| - 1])
    else errors[|errors| - 1]
  }

  predicate InPublish(pc: Pc)
  {
    pc.Publishing? || pc.Written? || pc.Failed? || pc.Lost? || pc.Settling?
  }

  /** The writer has seen stop. */
  predicate Winding(pc: Pc)
  {
    if InPublish(pc) then !pc.after.ToSelect? else !pc.Select?
  }

  /** The writer has also seen inflight reach zero. */
  predicate Sealed(pc: Pc)
  {
    Winding(pc) && !pc.Waiting? && !pc.Sleeping?
  }

  /** The part of batch that WriteBatch has not been given yet. */
  function Unsent(w: Gen): seq<Event>
  {
    if InPublish(w.pc) && !w.pc.Publishing? then [] else w.batch
  }

  /** Nothing is left to drain. */
  predicate Emptied(pc: Pc)
  {
    if InPublish(pc) then pc.after.ToClose? else pc.ClosingSink? || pc.ClosingDone? || pc.Done?
  }

  predicate BatchesBounded(w: Gen)
  {
    forall i :: 0 <= i < |w.sink.batches| ==> 1 <= |w.sink.batches[i]| <= w.settings.batchSize
  }

  /** Sizes and positions of one writer value. */
  predicate ShapeInv(w: Gen)
  {
    && w.settings.capacity >= 1 && w.settings.batchSize >= 1
    && |w.queue| <= w.settings.capacity
    && |w.batch| <= w.settings.batchSize
    && (if InPublish(w.pc) then w.batch != [] else |w.batch| < w.settings.batchSize)
    && (Emptied(w.pc) ==> w.queue == [])
    && (Emptied(w.pc) && !InPublish(w.pc) ==> w.batch == [])
    && (Winding(w.pc) ==> w.stop)
    && w.sink.closes == (if w.pc.ClosingDone? || w.pc.Done? then 1 else 0)
  }

  /** What the sink has seen, the unsent batch and the queue make up the accepted events. */
  predicate OutputInv(w: Gen)
  {
    && BatchesBounded(w)
    && |w.sink.errors| == |w.sink.batches|
    && w.publishErr == FirstError(w.sink.errors)
    && w.accepted == Flatten(w.sink.batches) + Unsent(w) + w.queue
  }

  predicate GenInv(w: Gen)
  {
    ShapeInv(w) && OutputInv(w)
  }

  predicate Open(s: State, g: nat)
  {
    s.current == Some(g) || s.control == Swapped(g)
  }

  /** Close's stores on a writer follow the position of the holder of global.mu. */
  predicate Gated(s: State, g: nat)
    requires g < |s.gens|
  {
    && s.gens[g].accepting == Open(s, g)
    && s.gens[g].stop == (!Open(s, g) && s.control != Refusing(g))
    && (!Open(s, g) && s.control != Refusing(g) && s.control != Stopping(g) ==> s.gens[g].pc.Done?)
  }

  predicate ControlInv(s: State)
  {
    && (s.current.Some? ==> s.control.Free? && s.current.value < |s.gens|)
    && (!s.control.Free? ==> s.control.gen < |s.gens|)
    && forall g :: 0 <= g < |s.gens| ==> Gated(s, g)
  }

  predicate GensInv(s: State)
  {
    forall g :: 0 <= g < |s.gens| ==> GenInv(s.gens[g])
  }

  /** A producer that may still send never meets a sealed writer. */
  predicate CanSend(p: Producer)
  {
    p.Admitted? || p.Reserved?
  }

  predicate ProducerInv(s: State, p: Producer)
  {
    ValidRef(s, p) && (CanSend(p) ==> !Sealed(s.gens[p.gen].pc))
  }

  predicate ProducersInv(s: State)
  {
    forall i :: 0 <= i < |s.producers| ==> ProducerInv(s, s.producers[i])
  }

  /** Between inflight.Add(1) and inflight.Add(-1) of generation g. */
  predicate InFlight(p: Producer, g: nat)
  {
    (p.Entered? || p.Admitted? || p.Reserved? || p.Unreserving? || p.Dropping? || p.Leaving?) && p.gen == g
  }

  function Flying(ps: seq<Producer>, g: nat): nat
  {
    if ps == [] then 0 else Flying(ps[..|ps| - 1], g) + (if InFlight(ps[|ps| - 1], g) then 1 else 0)
  }

  predicate InflightInv(s: State)
  {
    forall g :: 0 <= g < |s.gens| ==> s.gens[g].inflight == Flying(s.producers, g)
  }

  /** A wake token is there, or a producer is about to put one there, or a producer
      that will has not left yet. */
  predicate WakeComing(s: State, g: nat)
    requires g < |s.gens|
  {
    s.gens[g].wake || s.gens[g].inflight != 0 || exists i :: 0 <= i < |s.producers| && s.producers[i] == Waking(g)
  }

  predicate WakeInv(s: State)
  {
    forall g :: 0 <= g < |s.gens| && s.gens[g].pc.Sleeping? ==> WakeComing(s, g)
  }

  predicate Inv(s: State)
  {
    ControlInv(s) && GensInv(s) && ProducersInv(s) && InflightInv(s) && WakeInv(s)
  }

  // ---- Counting producers in flight ----

  lemma {:induction false} FlyingUpdate(ps: seq<Producer>, i: nat, p: Producer, g: nat)
    requires i < |ps|
    ensures Flying(ps[i := p], g)
         == Flying(ps, g) - (if InFlight(ps[i], g) then 1 else 0) + (if InFlight(p, g) then 1 else 0)
  {
    var n := |ps| - 1;
    if i == n {
      assert ps[i := p][..n] == ps[..n];
    } else {
      assert ps[i := p][..n] == ps[..n][i := p];
      FlyingUpdate(ps[..n], i, p, g);
    }
  }

  lemma {:induction false} FlyingNone(ps: seq<Producer>, g: nat)
    ensures Flying(ps, g) == 0 <==> forall i :: 0 <= i < |ps| ==> !InFlight(ps[i], g)
  {
    if ps != [] {
      FlyingNone(ps[..|ps| - 1], g);
    }
  }

  // ---- Steps of the writer goroutine ----

  lemma FlattenSnoc(batches: seq<seq<Event>>, b: seq<Event>)
    ensures Flatten(batches + [b]) == Flatten(batches) + b
  {
    assert (batches + [b])[..|batches|] == batches;
  }

  lemma FirstErrorSnoc(errors: seq<Option<string>>, e: Option<string>)
    ensures FirstError(errors + [e]) == if FirstError(errors).Some? then FirstError(errors) else e
  {
    assert (errors + [e])[..|errors|] == errors;
  }

  lemma WriteKeepsOutput(w: Gen, failure: Option<string>)
    requires GenInv(w) && w.pc.Publishing?
    ensures OutputInv(WriteReturned(w, failure))
  {
    hide Flatten, FirstError;
    FlattenSnoc(w.sink.batches, w.batch);
    FirstErrorSnoc(w.sink.errors, failure);
    var v := WriteReturned(w, failure);
    assert BatchesBounded(v);
    assert w.accepted == Flatten(w.sink.batches) + w.batch + w.queue;
    assert Unsent(v) == [];
    assert Flatten(v.sink.batches) + [] == Flatten(v.sink.batches);
  }

  lemma ReceiveKeepsOutput(w: Gen, after: After)
    requires GenInv(w) && w.queue != []
    requires (w.pc.Select? && after.ToSelect?) || (w.pc.Draining? && after.ToDraining?)
    ensures OutputInv(ReceiveOne(w, after))
  {
    hide Flatten, FirstError;
    var v, out := ReceiveOne(w, after), Flatten(w.sink.batches);
    assert Unsent(v) == w.batch + [w.queue[0]] && Unsent(w) == w.batch;
    assert [w.queue[0]] + w.queue[1..] == w.queue;
    assert out + (w.batch + [w.queue[0]]) + w.queue[1..] == out + w.batch + ([w.queue[0]] + w.queue[1..]);
  }

  lemma RunKeepsShape(w: Gen, c: Choice)
    requires ShapeInv(w) && RunEnabled(w, c)
    ensures ShapeInv(RunNext(w, c))
  {
  }

  lemma RunKeepsGenInv(w: Gen, c: Choice)
    requires GenInv(w) && RunEnabled(w, c)
    ensures GenInv(RunNext(w, c))
  {
    hide ShapeInv, OutputInv;
    RunKeepsShape(w, c);
    match w.pc
    case Select => if c.Receive? { ReceiveKeepsOutput(w, ToSelect); } else { QuietKeepsOutput(w, c); }
    case Draining => if c.Receive? { ReceiveKeepsOutput(w, ToDraining); } else { QuietKeepsOutput(w, c); }
    case Publishing(_) => WriteKeepsOutput(w, c.failure);
    case _ => QuietKeepsOutput(w, c);
  }

  lemma QuietKeepsOutput(w: Gen, c: Choice)
    requires GenInv(w) && RunEnabled(w, c) && !w.pc.Publishing? && !c.Receive?
    ensures OutputInv(RunNext(w, c))
  {
    var v := RunNext(w, c);
    assert v.queue == w.queue && v.accepted == w.accepted && v.sink.batches == w.sink.batches && Unsent(v) == Unsent(w);
  }

  /** The fields the other goroutines rely on. */
  lemma RunFrame(w: Gen, c: Choice)
    requires GenInv(w) && RunEnabled(w, c)
    ensures Replaces(RunNext(w, c), w)
  {
  }

  lemma RunPreserves(s: State, g: nat, c: Choice)
    requires Inv(s) && Enabled(s, Run(g, c))
    ensures Inv(Next(s, Run(g, c)))
  {
    var w := s.gens[g];
    var t := s.(gens := s.gens[g := RunNext(w, c)], counters := RunCounters(w, s.counters));
    assert Gated(s, g);
    RunKeepsGenInv(w, c);
    RunFrame(w, c);
    UpdateKeepsControl(s, g, t.gens[g], t.counters);
    UpdateKeepsProducers(s, g, t.gens[g], t.counters);
    UpdateKeepsWake(s, g, t.gens[g], t.counters);
  }

  /** v may stand in for w as far as the other goroutines can tell. */
  predicate Replaces(v: Gen, w: Gen)
  {
    && v.accepting == w.accepting && v.stop == w.stop && v.inflight == w.inflight
    && !w.pc.Done?
    && (Sealed(v.pc) ==> Sealed(w.pc) || w.inflight == 0)
    && (v.pc.Sleeping? ==> w.inflight != 0)
  }

  lemma UpdateKeepsControl(s: State, g: nat, v: Gen, k: Counters)
    requires ControlInv(s) && InflightInv(s) && g < |s.gens| && Replaces(v, s.gens[g])
    ensures ControlInv(s.(gens := s.gens[g := v], counters := k))
    ensures InflightInv(s.(gens := s.gens[g := v], counters := k))
  {
    var t := s.(gens := s.gens[g := v], counters := k);
    forall h | 0 <= h < |t.gens| ensures Gated(t, h) {
      assert Gated(s, h);
    }
  }

  lemma UpdateKeepsProducers(s: State, g: nat, v: Gen, k: Counters)
    requires ProducersInv(s) && InflightInv(s) && g < |s.gens| && Replaces(v, s.gens[g])
    ensures ProducersInv(s.(gens := s.gens[g := v], counters := k))
  {
    var t := s.(gens := s.gens[g := v], counters := k);
    FlyingNone(s.producers, g);
    forall i | 0 <= i < |t.producers| ensures ProducerInv(t, t.producers[i]) {
      assert ProducerInv(s, s.producers[i]);
    }
  }

  lemma UpdateKeepsWake(s: State, g: nat, v: Gen, k: Counters)
    requires WakeInv(s) && g < |s.gens| && Replaces(v, s.gens[g])
    ensures WakeInv(s.(gens := s.gens[g := v], counters := k))
  {
  }

  // ---- Steps of producers ----

  lemma SendKeepsGenInv(w: Gen, e: Event)
    requires GenInv(w) && |w.queue| < w.settings.capacity && !Sealed(w.pc)
    ensures GenInv(w.(queue := w.queue + [e], accepted := w.accepted + [e]))
  {
  }

  /** The fields the invariants of other goroutines mention. */
  lemma LogFrame(s: State, p: Producer, event: Event, send: bool)
    requires LogEnabled(s, p, send) && GenOf(p).Some?
    ensures var g := GenOf(p).value; var w := s.gens[g]; var v := LogGen(w, p, send); var q := LogNext(s, p, event, send);
            && v.accepting == w.accepting && v.stop == w.stop && v.pc == w.pc && v.sink == w.sink
            && v.inflight == w.inflight + (if InFlight(q, g) then 1 else 0) - (if InFlight(p, g) then 1 else 0)
            && (forall h :: h != g ==> !InFlight(p, h) && !InFlight(q, h))
            && (p.Reserved? || (v.queue == w.queue && v.accepted == w.accepted && v.batch == w.batch))
            && (w.wake ==> v.wake)
  {
  }

  lemma LogKeepsGens(s: State, i: nat, event: Event, send: bool)
    requires Inv(s) && Enabled(s, Log(i, event, send))
    ensures GensInv(Next(s, Log(i, event, send)))
    ensures ControlInv(Next(s, Log(i, event, send)))
  {
    var p := s.producers[i];
    var t := Next(s, Log(i, event, send));
    assert ProducerInv(s, p);
    if GenOf(p).Some? {
      LogFrame(s, p, event, send);
      LogKeepsGenInv(s.gens[GenOf(p).value], p, send);
    }
    forall h | 0 <= h < |t.gens| ensures Gated(t, h) {
      assert Gated(s, h);
    }
  }

  lemma LogKeepsGenInv(w: Gen, p: Producer, send: bool)
    requires GenInv(w) && (p.Reserved? && send ==> |w.queue| < w.settings.capacity && !Sealed(w.pc))
    ensures GenInv(LogGen(w, p, send))
  {
    if p.Reserved? && send {
      SendKeepsGenInv(w, p.event);
    } else {
      assert Unsent(LogGen(w, p, send)) == Unsent(w);
    }
  }

  lemma LogKeepsProducers(s: State, i: nat, event: Event, send: bool)
    requires Inv(s) && Enabled(s, Log(i, event, send))
    ensures ProducersInv(Next(s, Log(i, event, send)))
  {
    var p := s.producers[i];
    var t := Next(s, Log(i, event, send));
    forall j | 0 <= j < |t.producers| ensures ProducerInv(t, t.producers[j]) {
      assert ProducerInv(s, s.producers[j]);
      if j == i && p.Entered? { assert Gated(s, p.gen); }
    }
  }

  lemma LogKeepsInflight(s: State, i: nat, event: Event, send: bool)
    requires Inv(s) && Enabled(s, Log(i, event, send))
    ensures InflightInv(Next(s, Log(i, event, send)))
  {
    var p := s.producers[i];
    var t := Next(s, Log(i, event, send));
    if GenOf(p).Some? { LogFrame(s, p, event, send); }
    forall g | 0 <= g < |t.gens| ensures t.gens[g].inflight == Flying(t.producers, g) {
      FlyingUpdate(s.producers, i, t.producers[i], g);
    }
  }

  /** The wake-up is never lost: leaving turns the producer into a waker, and waking
      leaves a token behind. */
  lemma LogKeepsWake(s: State, i: nat, event: Event, send: bool)
    requires Inv(s) && Enabled(s, Log(i, event, send))
    ensures WakeInv(Next(s, Log(i, event, send)))
  {
    var p := s.producers[i];
    var t := Next(s, Log(i, event, send));
    LogKeepsInflight(s, i, event, send);
    forall g | 0 <= g < |t.gens| && t.gens[g].pc.Sleeping? ensures WakeComing(t, g) {
      assert WakeComing(s, g);
      if !s.gens[g].wake && s.gens[g].inflight == 0 {
        var j :| 0 <= j < |s.producers| && s.producers[j] == Waking(g);
        assert t.producers[j] == Waking(g) || t.gens[g].wake;
      } else if p == Leaving(g) {
        assert t.producers[i] == Waking(g);
      }
    }
  }

  lemma LogPreserves(s: State, i: nat, event: Event, send: bool)
    requires Inv(s) && Enabled(s, Log(i, event, send))
    ensures Inv(Next(s, Log(i, event, send)))
  {
    LogKeepsGens(s, i, event, send);
    LogKeepsProducers(s, i, event, send);
    LogKeepsInflight(s, i, event, send);
    LogKeepsWake(s, i, event, send);
  }

  // ---- Init and Close ----

  lemma InitPreserves(s: State, config: Config)
    requires Inv(s) && Enabled(s, Init(config))
    ensures Inv(Next(s, Init(config)))
  {
    var t := Next(s, Init(config));
    var n := |s.gens|;
    forall g | 0 <= g < |t.gens| ensures Gated(t, g) {
      if g < n { assert Gated(s, g); }
    }
    forall i | 0 <= i < |s.producers| ensures !InFlight(s.producers[i], n) && ProducerInv(t, s.producers[i]) {
      assert ProducerInv(s, s.producers[i]);
    }
    FlyingNone(t.producers, n);
    forall g | 0 <= g < |t.gens| && t.gens[g].pc.Sleeping? ensures WakeComing(t, g) {
      assert WakeComing(s, g);
    }
  }

  lemma CloseKeepsGens(s: State, a: Action)
    requires GensInv(s) && Enabled(s, a) && (a.CloseSwap? || a.CloseRefuse? || a.CloseStop? || a.CloseReturn?)
    ensures GensInv(Next(s, a))
  {
  }

  lemma ClosePreserves(s: State, a: Action)
    requires Inv(s) && Enabled(s, a) && (a.CloseSwap? || a.CloseRefuse? || a.CloseStop? || a.CloseReturn?)
    ensures Inv(Next(s, a))
  {
    hide GenInv;
    CloseKeepsGens(s, a);
    var t := Next(s, a);
    forall g | 0 <= g < |t.gens| ensures Gated(t, g) {
      assert Gated(s, g);
    }
    forall i | 0 <= i < |t.producers| ensures ProducerInv(t, t.producers[i]) {
      assert ProducerInv(s, s.producers[i]);
    }
    forall g | 0 <= g < |t.gens| && t.gens[g].pc.Sleeping? ensures WakeComing(t, g) {
      assert WakeComing(s, g);
    }
  }

  // ---- Every run ----

  lemma StartInv(n: nat)
    ensures Inv(Start(n))
  {
  }

  lemma StepPreserves(s: State, a: Action)
    requires Inv(s) && Enabled(s, a)
    ensures Inv(Next(s, a))
  {
    match a
    case Init(config) => InitPreserves(s, config);
    case Log(i, event, send) => LogPreserves(s, i, event, send);
    case Run(g, c) => RunPreserves(s, g, c);
    case _ => ClosePreserves(s, a);
  }

  lemma {:induction false} RunKeepsInv(s: State, actions: seq<Action>)
    requires Inv(s) && CanRun(s, actions)
    ensures Inv(Reached(s, actions))
    decreases |actions|
  {
    if actions != [] {
      StepPreserves(s, actions[0]);
      RunKeepsInv(Next(s, actions[0]), actions[1..]);
    }
  }

  // ---- Main results ----

  /** Whatever happened, what a sink was given is a prefix of what its queue accepted,
      in order and without repetition, cut into batches of 1..batchSize; once done is
      closed it is all of it, sink.Close has run exactly once and both the queue and
      the batch are empty. */
  lemma {:induction false} DeliveredExactlyOnce(n: nat, actions: seq<Action>, g: nat)
    requires CanRun(Start(n), actions)
    requires g < |Reached(Start(n), actions).gens|
    ensures var w := Reached(Start(n), actions).gens[g];
            && Flatten(w.sink.batches) <= w.accepted
            && BatchesBounded(w)
            && w.sink.closes <= 1
            && w.publishErr == FirstError(w.sink.errors)
            && (w.sink.closes == 1 ==> Flatten(w.sink.batches) == w.accepted)
            && (w.pc.Done? ==> w.sink.closes == 1 && w.queue == [] && w.batch == [])
  {
    StartInv(n);
    RunKeepsInv(Start(n), actions);
    var w := Reached(Start(n), actions).gens[g];
    assert GenInv(w);
    assert w.accepted[..|Flatten(w.sink.batches)|] == Flatten(w.sink.batches);
  }

  predicate SameOutput(v: Gen, w: Gen)
  {
    w.pc.Done? && w.queue == v.queue && w.accepted == v.accepted && w.sink == v.sink
  }

  lemma DoneStep(s: State, a: Action, g: nat)
    requires Inv(s) && Enabled(s, a) && g < |s.gens| && s.gens[g].pc.Done?
    ensures g < |Next(s, a).gens| && SameOutput(s.gens[g], Next(s, a).gens[g])
  {
    hide InflightInv, WakeInv, GensInv, LogNext, LogCounters, RunNext, RunCounters;
    assert Gated(s, g);
    if a.Log? {
      var p := s.producers[a.p];
      assert ProducerInv(s, p);
      assert GenOf(p) == Some(g) ==> !CanSend(p);
    }
  }

  /** After done is closed the queue is never sent to again and the sink is never
      called again, across every later Init and Close. */
  lemma {:induction false} DoneIsFinal(s: State, actions: seq<Action>, g: nat)
    requires Inv(s) && CanRun(s, actions) && g < |s.gens| && s.gens[g].pc.Done?
    ensures g < |Reached(s, actions).gens| && SameOutput(s.gens[g], Reached(s, actions).gens[g])
    decreases |actions|
  {
    hide Inv, Enabled, Next;
    if actions != [] {
      StepPreserves(s, actions[0]);
      DoneStep(s, actions[0], g);
      DoneIsFinal(Next(s, actions[0]), actions[1..], g);
    }
  }

  /** In every reachable state at most one writer is not done. */
  lemma OneLiveWriter(n: nat, actions: seq<Action>, g: nat, h: nat)
    requires CanRun(Start(n), actions)
    requires var s := Reached(Start(n), actions);
             g < |s.gens| && h < |s.gens| && !s.gens[g].pc.Done? && !s.gens[h].pc.Done?
    ensures g == h
  {
    StartInv(n);
    RunKeepsInv(Start(n), actions);
    var s := Reached(Start(n), actions);
    assert Gated(s, g) && Gated(s, h);
  }
}
