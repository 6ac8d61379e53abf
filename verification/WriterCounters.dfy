/** The process-wide statistics over every interleaving and every generation.  The
    counters are uint64 with wrap-around, so the statements are modulo 2^64. */
module WriterCounters {
  import opened Common
  import opened Writer
  import opened WriterSafety

  /** The two tallies: what the gauge buffered must show, and which Log calls have not
      been counted as written or dropped yet. */
  datatype Tally = Gauge | Open

  function ProducerLoad(p: Producer, t: Tally): nat
  {
    match t
    case Gauge => if p.Reserved? || p.Unreserving? then 1 else 0
    case Open => if p.Idle? || p.Leaving? || p.Waking? then 0 else 1
  }

  function GenLoad(w: Gen, t: Tally): nat
  {
    |w.queue| + (if t.Open? && w.pc.Settling? then 0 else |w.batch|)
  }

  function ProducersLoad(ps: seq<Producer>, t: Tally): nat
  {
    if ps == [] then 0 else ProducersLoad(ps[..|ps| - 1], t) + ProducerLoad(ps[|ps| - 1], t)
  }

  function GensLoad(ws: seq<Gen>, t: Tally): nat
  {
    if ws == [] then 0 else GensLoad(ws[..|ws| - 1], t) + GenLoad(ws[|ws| - 1], t)
  }

  function Total(s: State, t: Tally): nat
  {
    GensLoad(s.gens, t) + ProducersLoad(s.producers, t)
  }

  predicate CountersInv(s: State)
  {
    && s.counters.buffered == Total(s, Gauge) % UINT64
    && (s.counters.written + s.counters.dropped + Total(s, Open)) % UINT64 == s.calls % UINT64
  }

  lemma {:induction false} ProducersLoadUpdate(ps: seq<Producer>, i: nat, p: Producer, t: Tally)
    requires i < |ps|
    ensures ProducersLoad(ps[i := p], t) == ProducersLoad(ps, t) - ProducerLoad(ps[i], t) + ProducerLoad(p, t)
    ensures ProducersLoad(ps, t) >= ProducerLoad(ps[i], t)
  {
    var n := |ps| - 1;
    if i == n {
      assert ps[i := p][..n] == ps[..n];
    } else {
      assert ps[i := p][..n] == ps[..n][i := p];
      ProducersLoadUpdate(ps[..n], i, p, t);
    }
  }

  lemma {:induction false} GensLoadUpdate(ws: seq<Gen>, g: nat, w: Gen, t: Tally)
    requires g < |ws|
    ensures GensLoad(ws[g := w], t) == GensLoad(ws, t) - GenLoad(ws[g], t) + GenLoad(w, t)
    ensures GensLoad(ws, t) >= GenLoad(ws[g], t)
  {
    var n := |ws| - 1;
    if g == n {
      assert ws[g := w][..n] == ws[..n];
    } else {
      assert ws[g := w][..n] == ws[..n][g := w];
      GensLoadUpdate(ws[..n], g, w, t);
    }
  }

  /** Counting n open calls in one of the two monotone counters keeps the balance. */
  lemma CountKeepsBalance(counted: nat, other: nat, open: nat, n: nat, calls: nat)
    requires n <= open && (counted + other + open) % UINT64 == calls % UINT64
    ensures (Add64(counted, n) + other + (open - n)) % UINT64 == calls % UINT64
  {
  }

  /** How a writer step moves its own load: settling takes the batch off the gauge,
      counting it as written or dropped closes its calls. */
  lemma RunLoads(w: Gen, c: Choice)
    requires GenInv(w) && RunEnabled(w, c)
    ensures GenLoad(RunNext(w, c), Gauge) == GenLoad(w, Gauge) - (if w.pc.Settling? then |w.batch| else 0)
    ensures GenLoad(RunNext(w, c), Open) == GenLoad(w, Open) - (if w.pc.Written? || w.pc.Lost? then |w.batch| else 0)
  {
  }

  lemma RunTotals(s: State, g: nat, c: Choice)
    requires Inv(s) && Enabled(s, Run(g, c))
    ensures var w := s.gens[g]; var t := Next(s, Run(g, c));
            && Total(t, Gauge) == Total(s, Gauge) - (if w.pc.Settling? then |w.batch| else 0)
            && Total(t, Open) == Total(s, Open) - (if w.pc.Written? || w.pc.Lost? then |w.batch| else 0)
  {
    var w := s.gens[g];
    RunLoads(w, c);
    GensLoadUpdate(s.gens, g, RunNext(w, c), Gauge);
    GensLoadUpdate(s.gens, g, RunNext(w, c), Open);
  }

  lemma RunCount(s: State, g: nat, c: Choice)
    requires Inv(s) && CountersInv(s) && Enabled(s, Run(g, c))
    ensures CountersInv(Next(s, Run(g, c)))
  {
    hide Inv, Total, RunNext, Add64, Sub64;
    var w := s.gens[g];
    RunTotals(s, g, c);
    var k := s.counters;
    if w.pc.Settling? {
      Sub64Tracks(k.buffered, Total(s, Gauge), |w.batch|);
    } else if w.pc.Written? {
      CountKeepsBalance(k.written, k.dropped, Total(s, Open), |w.batch|, s.calls);
    } else if w.pc.Lost? {
      CountKeepsBalance(k.dropped, k.written, Total(s, Open), |w.batch|, s.calls);
    }
  }

  /** How a producer step moves the load of its writer and of itself. */
  lemma LogLoads(s: State, p: Producer, event: Event, send: bool)
    requires LogEnabled(s, p, send)
    ensures var q := LogNext(s, p, event, send);
            var sent := if p.Reserved? && send then 1 else 0;
            && ProducerLoad(q, Gauge) == ProducerLoad(p, Gauge) - sent
                 + (if p.Admitted? then 1 else 0) - (if p.Unreserving? then 1 else 0)
            && ProducerLoad(q, Open) == ProducerLoad(p, Open) - sent
                 + (if p.Idle? then 1 else 0) - (if p.Refused? || p.Dropping? then 1 else 0)
            && (GenOf(p).Some? ==>
                  forall t :: GenLoad(LogGen(s.gens[GenOf(p).value], p, send), t) == GenLoad(s.gens[GenOf(p).value], t) + sent)
            && (GenOf(p).None? ==> sent == 0)
  {
  }

  lemma LogTotals(s: State, i: nat, event: Event, send: bool)
    requires Enabled(s, Log(i, event, send))
    ensures var p := s.producers[i]; var t := Next(s, Log(i, event, send));
            && Total(t, Gauge) == Total(s, Gauge) + (if p.Admitted? then 1 else 0) - (if p.Unreserving? then 1 else 0)
            && Total(t, Open) == Total(s, Open) + (if p.Idle? then 1 else 0) - (if p.Refused? || p.Dropping? then 1 else 0)
  {
    var p := s.producers[i];
    var q := LogNext(s, p, event, send);
    LogLoads(s, p, event, send);
    ProducersLoadUpdate(s.producers, i, q, Gauge);
    ProducersLoadUpdate(s.producers, i, q, Open);
    if GenOf(p).Some? {
      var g := GenOf(p).value;
      GensLoadUpdate(s.gens, g, LogGen(s.gens[g], p, send), Gauge);
      GensLoadUpdate(s.gens, g, LogGen(s.gens[g], p, send), Open);
    }
  }

  lemma CallKeepsBalance(x: nat, calls: nat)
    requires x % UINT64 == calls % UINT64
    ensures (x + 1) % UINT64 == (calls + 1) % UINT64
  {
  }

  lemma LogCount(s: State, i: nat, event: Event, send: bool)
    requires CountersInv(s) && Enabled(s, Log(i, event, send))
    ensures CountersInv(Next(s, Log(i, event, send)))
  {
    var p := s.producers[i];
    var k := s.counters;
    LogTotals(s, i, event, send);
    if p.Unreserving? {
      Sub64Tracks(k.buffered, Total(s, Gauge), 1);
    } else if p.Admitted? {
      Add64Tracks(k.buffered, Total(s, Gauge), 1);
    } else if p.Refused? || p.Dropping? {
      CountKeepsBalance(k.dropped, k.written, Total(s, Open), 1, s.calls);
    } else if p.Idle? {
      CallKeepsBalance(k.written + k.dropped + Total(s, Open), s.calls);
    }
  }

  lemma OtherCount(s: State, a: Action)
    requires CountersInv(s) && Enabled(s, a) && !a.Run? && !a.Log?
    ensures CountersInv(Next(s, a))
  {
    if a.Init? {
      var gens := s.gens + [NewGen(NormalizeConfig(a.config).value)];
      assert gens[..|gens| - 1] == s.gens;
    } else if a.CloseRefuse? || a.CloseStop? {
      var g := s.control.gen;
      GensLoadUpdate(s.gens, g, Next(s, a).gens[g], Gauge);
      GensLoadUpdate(s.gens, g, Next(s, a).gens[g], Open);
    }
  }

  lemma {:induction false} RunKeepsCounters(s: State, actions: seq<Action>)
    requires Inv(s) && CountersInv(s) && CanRun(s, actions)
    ensures Inv(Reached(s, actions)) && CountersInv(Reached(s, actions))
    decreases |actions|
  {
    if actions != [] {
      var a := actions[0];
      StepPreserves(s, a);
      match a {
        case Run(g, c) => RunCount(s, g, c);
        case Log(i, event, send) => LogCount(s, i, event, send);
        case _ => OtherCount(s, a);
      }
      RunKeepsCounters(Next(s, a), actions[1..]);
    }
  }

  lemma StartCounters(n: nat)
    ensures CountersInv(Start(n))
  {
    QuietProducers(Start(n).producers, Gauge);
    QuietProducers(Start(n).producers, Open);
  }

  /** In every reachable state, modulo 2^64, buffered counts the events in queues and
      unsettled batches and the producers between reserving and resolving, and every
      Log call so far is written, dropped or still open. */
  lemma {:induction false} CountersAccount(n: nat, actions: seq<Action>)
    requires CanRun(Start(n), actions)
    ensures CountersInv(Reached(Start(n), actions))
  {
    StartInv(n);
    StartCounters(n);
    RunKeepsCounters(Start(n), actions);
  }

  /** The decrements of buffered never underflow: what they take off is there. */
  lemma BufferedCovers(s: State, a: Action)
    requires Inv(s) && Enabled(s, a)
    ensures a.Run? && s.gens[a.g].pc.Settling? ==> |s.gens[a.g].batch| <= Total(s, Gauge)
    ensures a.Log? && s.producers[a.p].Unreserving? ==> 1 <= Total(s, Gauge)
  {
    if a.Run? {
      GensLoadUpdate(s.gens, a.g, s.gens[a.g], Gauge);
    } else if a.Log? {
      ProducersLoadUpdate(s.producers, a.p, s.producers[a.p], Gauge);
    }
  }

  predicate Quiet(s: State)
  {
    && s.current.None? && s.control.Free?
    && forall i :: 0 <= i < |s.producers| ==> s.producers[i].Idle?
  }

  lemma {:induction false} QuietGens(ws: seq<Gen>, t: Tally)
    requires forall g :: 0 <= g < |ws| ==> GenInv(ws[g]) && ws[g].pc.Done?
    ensures GensLoad(ws, t) == 0
  {
    if ws != [] { QuietGens(ws[..|ws| - 1], t); }
  }

  lemma {:induction false} QuietProducers(ps: seq<Producer>, t: Tally)
    requires forall i :: 0 <= i < |ps| ==> ps[i].Idle?
    ensures ProducersLoad(ps, t) == 0
  {
    if ps != [] { QuietProducers(ps[..|ps| - 1], t); }
  }

  /** With no active writer and no Log call in progress the gauge is zero and every
      call has been counted once, as written or as dropped. */
  lemma {:induction false} QuietCounters(n: nat, actions: seq<Action>)
    requires CanRun(Start(n), actions) && Quiet(Reached(Start(n), actions))
    ensures var s := Reached(Start(n), actions);
            && s.counters.buffered == 0
            && (s.counters.written + s.counters.dropped) % UINT64 == s.calls % UINT64
  {
    var s := Reached(Start(n), actions);
    StartInv(n);
    RunKeepsInv(Start(n), actions);
    CountersAccount(n, actions);
    forall g | 0 <= g < |s.gens| ensures s.gens[g].pc.Done? { assert Gated(s, g); }
    QuietGens(s.gens, Gauge);
    QuietGens(s.gens, Open);
    QuietProducers(s.producers, Gauge);
    QuietProducers(s.producers, Open);
  }
}
