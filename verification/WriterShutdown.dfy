/** Close terminates: once stop is closed every step that concerns the writer lowers
    a measure, and as long as the writer is not done such a step can be taken. */
module WriterShutdown {
  import opened Common
  import opened Writer
  import opened WriterSafety

  // ---- The measure ----

  /** What a producer holding generation g can still cost its writer: a send costs
      six writer steps, a wake-up costs two. */
  function Rank(p: Producer, g: nat): nat
  {
    if GenOf(p) != Some(g) then 0
    else match p
      case Loaded(_) => 15
      case Building(_, _) => 14
      case Entered(_, _) => 13
      case Admitted(_, _) => 12
      case Reserved(_, _) => 11
      case Unreserving(_) => 6
      case Dropping(_) => 5
      case Leaving(_) => 4
      case _ => 3
  }

  function Ranks(ps: seq<Producer>, g: nat): nat
  {
    if ps == [] then 0 else Ranks(ps[..|ps| - 1], g) + Rank(ps[|ps| - 1], g)
  }

  function Base(after: After): nat
  {
    match after case ToSelect => 5 case ToDraining => 3 case ToClose => 2
  }

  function Phase(w: Gen): nat
  {
    match w.pc
    case Select => 5 + 5 * |w.batch|
    case Publishing(after) => Base(after) + 4
    case Failed(after) => Base(after) + 3
    case Lost(after) => Base(after) + 2
    case Written(after) => Base(after) + 2
    case Settling(after) => Base(after) + 1
    case Waiting => 4 + 5 * |w.batch|
    case Sleeping => 3 + 5 * |w.batch|
    case Draining => 3 + 5 * |w.batch|
    case ClosingSink => 2
    case ClosingDone => 1
    case Done => 0
  }

  function GenCost(w: Gen): nat
  {
    6 * |w.queue| + (if w.wake then 2 else 0) + Phase(w)
  }

  function Measure(s: State, g: nat): nat
    requires g < |s.gens|
  {
    GenCost(s.gens[g]) + Ranks(s.producers, g)
  }

  /** Steps of writer g, or of a producer that refers to it. */
  predicate Concerns(s: State, a: Action, g: nat)
    requires Enabled(s, a)
  {
    (a.Run? && a.g == g) || (a.Log? && GenOf(s.producers[a.p]) == Some(g))
  }

  lemma {:induction false} RanksUpdate(ps: seq<Producer>, i: nat, p: Producer, g: nat)
    requires i < |ps|
    ensures Ranks(ps[i := p], g) == Ranks(ps, g) - Rank(ps[i], g) + Rank(p, g)
    ensures Ranks(ps, g) >= Rank(ps[i], g)
  {
    var n := |ps| - 1;
    if i == n {
      assert ps[i := p][..n] == ps[..n];
    } else {
      assert ps[i := p][..n] == ps[..n][i := p];
      RanksUpdate(ps[..n], i, p, g);
    }
  }

  lemma ReceiveLowersCost(w: Gen, after: After)
    requires w.queue != [] && ((w.pc.Select? && after.ToSelect?) || (w.pc.Draining? && after.ToDraining?))
    ensures GenCost(ReceiveOne(w, after)) < GenCost(w)
  {
  }

  lemma RunLowersCost(w: Gen, c: Choice)
    requires ShapeInv(w) && RunEnabled(w, c)
    ensures GenCost(RunNext(w, c)) < GenCost(w)
  {
    if c.Receive? {
      ReceiveLowersCost(w, if w.pc.Select? then ToSelect else ToDraining);
    } else {
      var v := RunNext(w, c);
      assert v.queue == w.queue;
      assert if w.pc.Sleeping? then Phase(v) == Phase(w) + 1 else Phase(v) < Phase(w);
    }
  }

  lemma LogLowersCost(s: State, p: Producer, event: Event, send: bool, g: nat)
    requires LogEnabled(s, p, send) && GenOf(p) == Some(g) && !s.gens[g].accepting && s.current != Some(g)
    ensures GenCost(LogGen(s.gens[g], p, send)) + Rank(LogNext(s, p, event, send), g) < GenCost(s.gens[g]) + Rank(p, g)
  {
  }

  lemma LogMeasure(s: State, i: nat, event: Event, send: bool, g: nat)
    requires Inv(s) && Enabled(s, Log(i, event, send)) && g < |s.gens| && s.gens[g].stop
    ensures var t := Next(s, Log(i, event, send));
            && t.gens[g].stop
            && Measure(t, g) <= Measure(s, g)
            && (GenOf(s.producers[i]) == Some(g) ==> Measure(t, g) < Measure(s, g))
  {
    assert Gated(s, g);
    var p := s.producers[i];
    var q := LogNext(s, p, event, send);
    RanksUpdate(s.producers, i, q, g);
    if GenOf(p) == Some(g) {
      LogFrame(s, p, event, send);
      LogLowersCost(s, p, event, send, g);
    } else {
      StrangerRank(s, p, event, send, g);
    }
  }

  lemma StrangerRank(s: State, p: Producer, event: Event, send: bool, g: nat)
    requires LogEnabled(s, p, send) && GenOf(p) != Some(g) && s.current != Some(g)
    ensures Rank(LogNext(s, p, event, send), g) == 0
  {
  }

  /** After close(stop), no step raises the measure and every step that concerns the
      writer lowers it. */
  lemma MeasureDecreases(s: State, a: Action, g: nat)
    requires Inv(s) && Enabled(s, a) && g < |s.gens| && s.gens[g].stop
    ensures Next(s, a).gens[g].stop
    ensures Measure(Next(s, a), g) <= Measure(s, g)
    ensures Concerns(s, a, g) ==> Measure(Next(s, a), g) < Measure(s, g)
  {
    if a.Log? {
      LogMeasure(s, a.p, a.event, a.send, g);
    } else if a.Run? && a.g == g {
      RunFrame(s.gens[g], a.choice);
      RunLowersCost(s.gens[g], a.choice);
    }
  }

  // ---- Progress ----

  /** A producer in flight can always move once stop is closed: at its select it either
      finds room or is released by stop. */
  lemma ProducerMoves(s: State, i: nat, g: nat) returns (a: Action)
    requires Inv(s) && g < |s.gens| && s.gens[g].stop
    requires i < |s.producers| && GenOf(s.producers[i]) == Some(g)
    ensures Enabled(s, a) && Concerns(s, a, g)
  {
    var w := s.gens[g];
    assert GenInv(w);
    var p := s.producers[i];
    a := Log(i, 0, |w.queue| < w.settings.capacity);
  }

  lemma FlyingWitness(ps: seq<Producer>, g: nat) returns (i: nat)
    requires Flying(ps, g) != 0
    ensures i < |ps| && InFlight(ps[i], g)
  {
    FlyingNone(ps, g);
    i :| 0 <= i < |ps| && InFlight(ps[i], g);
  }

  /** The shutdown never blocks: while the writer is not done, some step that concerns
      it is enabled. In particular a writer blocked on wake has a token, a waker or a
      producer in flight. */
  lemma ShutdownProgress(s: State, g: nat) returns (a: Action)
    requires Inv(s) && g < |s.gens| && s.gens[g].stop && !s.gens[g].pc.Done?
    ensures Enabled(s, a) && Concerns(s, a, g)
  {
    var w := s.gens[g];
    match w.pc
    case Select => a := Run(g, SeeStop);
    case Publishing(_) => a := Run(g, Write(None));
    case Draining => a := Run(g, if w.queue != [] then Receive else Drained);
    case ClosingSink => a := Run(g, CloseSink(None));
    case Sleeping =>
      assert WakeComing(s, g);
      if w.wake {
        a := Run(g, Proceed);
      } else if w.inflight != 0 {
        var i := FlyingWitness(s.producers, g);
        a := ProducerMoves(s, i, g);
      } else {
        var i :| 0 <= i < |s.producers| && s.producers[i] == Waking(g);
        a := ProducerMoves(s, i, g);
      }
    case _ => a := Run(g, Proceed);
  }

  // ---- Whole runs ----

  /** How many steps of a run concern writer g. */
  function Concerning(s: State, actions: seq<Action>, g: nat): nat
    requires CanRun(s, actions)
    decreases |actions|
  {
    if actions == [] then 0
    else (if Concerns(s, actions[0], g) then 1 else 0) + Concerning(Next(s, actions[0]), actions[1..], g)
  }

  /** However producers, the writer and later generations interleave after close(stop),
      at most Measure(s, g) steps concern the writer, and unless it is done by then
      another one is enabled: Close returns in every run that keeps taking them. */
  lemma {:induction false} ShutdownIsBounded(s: State, actions: seq<Action>, g: nat)
    requires Inv(s) && CanRun(s, actions) && g < |s.gens| && s.gens[g].stop
    ensures g < |Reached(s, actions).gens|
    ensures Concerning(s, actions, g) + Measure(Reached(s, actions), g) <= Measure(s, g)
    ensures Reached(s, actions).gens[g].pc.Done?
            || exists a :: Enabled(Reached(s, actions), a) && Concerns(Reached(s, actions), a, g)
    decreases |actions|
  {
    if actions == [] {
      if !s.gens[g].pc.Done? {
        var a := ShutdownProgress(s, g);
      }
    } else {
      StepPreserves(s, actions[0]);
      MeasureDecreases(s, actions[0], g);
      ShutdownIsBounded(Next(s, actions[0]), actions[1..], g);
    }
  }

  /** From any state in which Close has closed stop, done can be closed and Close can
      return within Measure(s, g) + 1 steps. */
  lemma {:induction false} CloseCanReturn(s: State, g: nat) returns (actions: seq<Action>)
    requires Inv(s) && g < |s.gens| && s.control == Stopping(g)
    ensures CanRun(s, actions) && |actions| <= Measure(s, g) + 1
    ensures g < |Reached(s, actions).gens| && Reached(s, actions).gens[g].pc.Done? && Reached(s, actions).control.Free?
    decreases Measure(s, g)
  {
    assert Gated(s, g);
    if s.gens[g].pc.Done? {
      actions := [CloseReturn];
      assert CanRun(Next(s, CloseReturn), actions[1..]);
    } else {
      var a := ShutdownProgress(s, g);
      StepPreserves(s, a);
      MeasureDecreases(s, a, g);
      var rest := CloseCanReturn(Next(s, a), g);
      actions := [a] + rest;
      assert actions[1..] == rest;
    }
  }
}
