/** A run that many goroutines may ask for and that never overlaps itself: two flags, one atomic step at a time. */
module Coalesced {
  import opened Basics

  /** Where a goroutine stands.
      Idle: outside. Asking: about to store pending. Stored: has stored it, about
      to compare and swap running. Looping: about to swap pending. Running: in the
      run itself. Leaving: the loop is over, running still set. Left: running
      cleared, about to look at pending again. */
  datatype Pc = Idle | Asking | Stored | Looping | Running | Leaving | Left

  type Threads = map<nat, Pc>

  /** clock counts steps; lastAsk and lastStart are the steps of the latest
      request's store and of the latest start of a run, zero for never. */
  datatype State = State(pending: bool, running: bool, threads: Threads, clock: nat, lastAsk: nat, lastStart: nat)

  datatype Step =
    | Ask(t: nat)             // a caller enters request
    | Store(t: nat)
    | Cas(t: nat, spawned: nat)
    | Swap(t: nat)
    | Finish(t: nat)          // the run returns
    | Panic(t: nat)           // or does not
    | Clear(t: nat)
    | Look(t: nat)

  function At(threads: Threads, t: nat): Pc { if t in threads then threads[t] else Idle }

  function Move(s: State, t: nat, pc: Pc): State { s.(threads := s.threads[t := pc], clock := s.clock + 1) }

  function Cas(s: State, t: nat, spawned: nat): Option<State> {
    if At(s.threads, t) != Stored then None
    else if s.running then Some(Move(s, t, Idle))
    else if spawned != t && At(s.threads, spawned) != Idle then None
    else Some(Move(Move(s, t, Idle), spawned, Looping).(running := true))
  }

  function Swap(s: State, t: nat): Option<State> {
    if At(s.threads, t) != Looping then None
    else if s.pending then Some(Move(s, t, Running).(pending := false, lastStart := s.clock + 1))
    else Some(Move(s, t, Leaving))
  }

  function Apply(s: State, step: Step): Option<State> {
    match step
    case Ask(t) => if At(s.threads, t) == Idle then Some(Move(s, t, Asking)) else None
    case Store(t) =>
      if At(s.threads, t) == Asking then Some(Move(s, t, Stored).(pending := true, lastAsk := s.clock + 1)) else None
    case Cas(t, spawned) => Cas(s, t, spawned)
    case Swap(t) => Swap(s, t)
    case Finish(t) => if At(s.threads, t) == Running then Some(Move(s, t, Looping)) else None
    case Panic(t) => if At(s.threads, t) == Running then Some(Move(s, t, Leaving)) else None
    case Clear(t) => if At(s.threads, t) == Leaving then Some(Move(s, t, Left).(running := false)) else None
    case Look(t) => if At(s.threads, t) == Left then Some(Move(s, t, if s.pending then Asking else Idle)) else None
  }

  const START := State(false, false, map[], 0, 0, 0)

  function Run(s: State, steps: seq<Step>): Option<State>
    decreases |steps|
  {
    if steps == [] then Some(s)
    else match Apply(s, steps[0])
      case None => None
      case Some(s') => Run(s', steps[1..])
  }

  // ---- the invariant ----

  /** The goroutine that holds running. */
  predicate Holds(pc: Pc) { pc == Looping || pc == Running || pc == Leaving }

  /** A goroutine that will yet look at pending or compare and swap. */
  predicate Returns(pc: Pc) { pc == Asking || pc == Stored || pc == Left }

  ghost predicate SomeHolds(ts: Threads) { exists t: nat :: Holds(At(ts, t)) }

  ghost predicate SomeReturns(ts: Threads) { exists t: nat :: Returns(At(ts, t)) }

  ghost predicate Inv(s: State) {
    && (forall t: nat, u: nat :: Holds(At(s.threads, t)) && Holds(At(s.threads, u)) ==> t == u)
    && (s.running <==> SomeHolds(s.threads))
    && (s.pending ==> s.running || SomeReturns(s.threads))
    && s.lastAsk <= s.clock && s.lastStart <= s.clock
    && (!s.pending ==> s.lastAsk == 0 || s.lastAsk < s.lastStart)
  }

  ghost predicate Moves(ts: Threads, ts': Threads, t: nat) { forall u: nat :: u != t ==> At(ts', u) == At(ts, u) }

  lemma OthersStay(ts: Threads, ts': Threads, t: nat)
    requires Moves(ts, ts', t)
    ensures SomeHolds(ts) ==> SomeHolds(ts') || Holds(At(ts, t))
    ensures SomeHolds(ts') ==> SomeHolds(ts) || Holds(At(ts', t))
    ensures SomeReturns(ts) ==> SomeReturns(ts') || Returns(At(ts, t))
    ensures Holds(At(ts', t)) ==> SomeHolds(ts')
    ensures Returns(At(ts', t)) ==> SomeReturns(ts')
  {
    if SomeHolds(ts) {
      var u: nat :| Holds(At(ts, u));
      assert At(ts', u) == At(ts, u) || u == t;
    }
    if SomeHolds(ts') {
      var u: nat :| Holds(At(ts', u));
      assert At(ts', u) == At(ts, u) || u == t;
    }
    if SomeReturns(ts) {
      var u: nat :| Returns(At(ts, u));
      assert At(ts', u) == At(ts, u) || u == t;
    }
  }

  lemma SimpleStepKeeps(s: State, step: Step)
    requires Inv(s) && Apply(s, step).Some? && !step.Cas?
    ensures Inv(Apply(s, step).value)
  {
    OthersStay(s.threads, Apply(s, step).value.threads, step.t);
  }

  lemma CasKeeps(s: State, t: nat, spawned: nat)
    requires Inv(s) && Cas(s, t, spawned).Some?
    ensures Inv(Cas(s, t, spawned).value)
  {
    var mid := Move(s, t, Idle);
    OthersStay(s.threads, mid.threads, t);
    if !s.running {
      OthersStay(mid.threads, Move(mid, spawned, Looping).threads, spawned);
    }
  }

  lemma {:induction false} RunKeepsInv(s: State, steps: seq<Step>)
    requires Inv(s) && Run(s, steps).Some?
    ensures Inv(Run(s, steps).value)
    decreases |steps|
  {
    if steps != [] {
      if steps[0].Cas? {
        CasKeeps(s, steps[0].t, steps[0].spawned);
      } else {
        SimpleStepKeeps(s, steps[0]);
      }
      RunKeepsInv(Apply(s, steps[0]).value, steps[1..]);
    }
  }

  // ---- what every run promises ----

  /** In every interleaving of any number of requesters, two runs never overlap. */
  lemma RunsNeverOverlap(steps: seq<Step>, s: State, t: nat, u: nat)
    requires Run(START, steps) == Some(s)
    requires At(s.threads, t) == Running && At(s.threads, u) == Running
    ensures t == u && s.running
  {
    RunKeepsInv(START, steps);
    assert Holds(At(s.threads, t)) && Holds(At(s.threads, u));
  }

  /** A request is never stranded: while pending is set the loop is running, or a
      goroutine has yet to compare and swap or to look at pending again; and a
      request whose mark is gone was followed by the start of a run. */
  lemma RequestsAreServed(steps: seq<Step>, s: State)
    requires Run(START, steps) == Some(s)
    ensures s.pending ==> SomeHolds(s.threads) || SomeReturns(s.threads)
    ensures !s.pending && s.lastAsk > 0 ==> s.lastAsk < s.lastStart
  {
    RunKeepsInv(START, steps);
  }

  /** Once everyone is outside, the latest request had a run start after it. */
  lemma QuietMeansServed(steps: seq<Step>, s: State)
    requires Run(START, steps) == Some(s) && forall t: nat :: At(s.threads, t) == Idle
    ensures !s.pending && !s.running && (s.lastAsk > 0 ==> s.lastAsk < s.lastStart)
  {
    RunKeepsInv(START, steps);
  }

  /** And whoever is inside can go on: the protocol never blocks. */
  lemma NobodyBlocks(s: State, t: nat)
    requires At(s.threads, t) != Idle
    ensures exists step: Step :: step.t == t && !step.Ask? && Apply(s, step).Some?
  {
    match At(s.threads, t)
    case Asking => assert Apply(s, Store(t)).Some?;
    case Stored => assert Apply(s, Step.Cas(t, t)).Some?;
    case Looping => assert Apply(s, Step.Swap(t)).Some?;
    case Running => assert Apply(s, Finish(t)).Some?;
    case Leaving => assert Apply(s, Clear(t)).Some?;
    case Left => assert Apply(s, Look(t)).Some?;
  }
}
