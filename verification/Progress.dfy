/** The drain gets done: left alone, its goroutines always finish, in whatever order they run. */
module Progress {
  import opened Basics
  import opened Drain

  /** A step of the protocol that begins nothing: neither a new note, nor a wake-up
      of the engine's own timer, nor a change of the topology. */
  predicate Work(step: Step) {
    !step.Tick? && !step.Look? && !step.LookTest? && !step.Wake? && !step.Refresh? && !step.Shut?
  }

  // ---- counting goroutines ----

  function Those(ts: Threads, p: Pc -> bool): set<nat> { set t | t in ts && p(ts[t]) }

  function One(b: bool): int { if b then 1 else 0 }

  lemma CountMoves(ts: Threads, t: nat, pc: Pc, p: Pc -> bool)
    requires !p(Idle)
    ensures |Those(ts[t := pc], p)| == |Those(ts, p)| - One(p(At(ts, t))) + One(p(pc))
  {
    var was, now := Those(ts, p), Those(ts[t := pc], p);
    if p(pc) { assert now == was + {t}; } else { assert now == was - {t}; }
    assert t in was <==> p(At(ts, t));
  }

  predicate Undecided(pc: Pc) { pc.Found? || pc.FoundTest? || pc.Noted? || pc.Loaded? }

  predicate IsRaised(pc: Pc) { pc.Raised? }

  predicate IsArming(pc: Pc) { pc.Arming? }

  predicate IsCalling(pc: Pc) { pc.Queued? || pc.Locked? }

  predicate HasFound(pc: Pc) { pc.Found? || pc.FoundTest? }

  predicate IsNoted(pc: Pc) { pc.Noted? }

  predicate IsQueued(pc: Pc) { pc.Queued? }

  function IsFresh(pending: nat): Pc -> bool { (pc: Pc) => pc.Loaded? && pc.seen == pending }

  function IsStale(pending: nat): Pc -> bool { (pc: Pc) => pc.Loaded? && pc.seen != pending }

  // ---- the rank ----

  /** What is left to arm and to fire: it falls whenever drainPending changes. */
  function Ahead(ts: Threads, armed: bool): int {
    5 * |Those(ts, Undecided)| + 4 * |Those(ts, IsRaised)| + 3 * |Those(ts, IsArming)| + |Those(ts, IsCalling)|
      + 2 * One(armed)
  }

  function AheadOf(pc: Pc): int { 5 * One(Undecided(pc)) + 4 * One(IsRaised(pc)) + 3 * One(IsArming(pc)) + One(IsCalling(pc)) }

  /** What is left to decide at one value of drainPending. */
  function Deciders(ts: Threads, pending: nat): int {
    4 * |Those(ts, HasFound)| + 2 * |Those(ts, IsNoted)| + |Those(ts, IsFresh(pending))| + 3 * |Those(ts, IsStale(pending))|
      + |Those(ts, IsQueued)|
  }

  function DecidersOf(pc: Pc, pending: nat): int {
    4 * One(HasFound(pc)) + 2 * One(IsNoted(pc)) + One(IsFresh(pending)(pc)) + 3 * One(IsStale(pending)(pc)) + One(IsQueued(pc))
  }

  /** What is left to the drainer. */
  function Draining(s: State): nat {
    |s.notes.queue| + match s.mu
      case None => 0
      case Some(t) => match At(s.threads, t) case Swapping(todo) => |todo| + 2 case Pulling => 1 case _ => 0
  }

  lemma AheadMoves(ts: Threads, t: nat, pc: Pc, before: bool, after: bool)
    ensures Ahead(ts[t := pc], after) == Ahead(ts, before) - AheadOf(At(ts, t)) + AheadOf(pc) + 2 * One(after) - 2 * One(before)
  {
    CountMoves(ts, t, pc, Undecided);
    CountMoves(ts, t, pc, IsRaised);
    CountMoves(ts, t, pc, IsArming);
    CountMoves(ts, t, pc, IsCalling);
  }

  lemma DecidersMove(ts: Threads, t: nat, pc: Pc, pending: nat)
    ensures Deciders(ts[t := pc], pending) == Deciders(ts, pending) - DecidersOf(At(ts, t), pending) + DecidersOf(pc, pending)
  {
    CountMoves(ts, t, pc, HasFound);
    CountMoves(ts, t, pc, IsNoted);
    CountMoves(ts, t, pc, IsFresh(pending));
    CountMoves(ts, t, pc, IsStale(pending));
    CountMoves(ts, t, pc, IsQueued);
  }

  function FirstRank(s: State): nat { Ahead(s.threads, s.plan.armed.Some?) }

  function SecondRank(s: State): nat { Deciders(s.threads, s.plan.pending) }

  /** The rank of a state falls lexicographically. */
  predicate Falls(s: State, s': State) {
    || FirstRank(s') < FirstRank(s)
    || (FirstRank(s') == FirstRank(s) && SecondRank(s') < SecondRank(s))
    || (FirstRank(s') == FirstRank(s) && SecondRank(s') == SecondRank(s) && Draining(s') < Draining(s))
  }

  /** One goroutine moved on to pc. */
  lemma Counted(s: State, s': State, t: nat, pc: Pc)
    requires s'.threads == s.threads[t := pc]
    ensures FirstRank(s') == FirstRank(s) - AheadOf(At(s.threads, t)) + AheadOf(pc)
      + 2 * One(s'.plan.armed.Some?) - 2 * One(s.plan.armed.Some?)
    ensures s'.plan.pending == s.plan.pending ==>
      SecondRank(s') == SecondRank(s) - DecidersOf(At(s.threads, t), s.plan.pending) + DecidersOf(pc, s.plan.pending)
  {
    AheadMoves(s.threads, t, pc, s.plan.armed.Some?, s'.plan.armed.Some?);
    DecidersMove(s.threads, t, pc, s.plan.pending);
  }

  lemma BumpFalls(s: State, t: nat)
    requires Apply(s, Bump(t)).Some?
    ensures Falls(s, Apply(s, Bump(t)).value)
  {
    Counted(s, Apply(s, Bump(t)).value, t, At(Apply(s, Bump(t)).value.threads, t));
  }

  lemma SendFalls(s: State, t: nat)
    requires Apply(s, Send(t)).Some?
    ensures Falls(s, Apply(s, Send(t)).value)
  {
    Counted(s, Apply(s, Send(t)).value, t, At(Apply(s, Send(t)).value.threads, t));
  }

  lemma LoadFalls(s: State, t: nat)
    requires Apply(s, Load(t)).Some?
    ensures Falls(s, Apply(s, Load(t)).value)
  {
    Counted(s, Apply(s, Load(t)).value, t, At(Apply(s, Load(t)).value.threads, t));
  }

  lemma CasFalls(s: State, t: nat)
    requires Apply(s, Cas(t)).Some?
    ensures Falls(s, Apply(s, Cas(t)).value)
  {
    Counted(s, Apply(s, Cas(t)).value, t, At(Apply(s, Cas(t)).value.threads, t));
  }

  lemma EnterFalls(s: State, t: nat)
    requires Apply(s, Enter(t)).Some?
    ensures Falls(s, Apply(s, Enter(t)).value)
  {
    Counted(s, Apply(s, Enter(t)).value, t, At(Apply(s, Enter(t)).value.threads, t));
  }

  lemma ArmFalls(s: State, t: nat)
    requires Apply(s, Arm(t)).Some?
    ensures Falls(s, Apply(s, Arm(t)).value)
  {
    Counted(s, Apply(s, Arm(t)).value, t, At(Apply(s, Arm(t)).value.threads, t));
  }

  lemma FireFalls(s: State, t: nat)
    requires Apply(s, Fire(t)).Some?
    ensures Falls(s, Apply(s, Fire(t)).value)
  {
    Counted(s, Apply(s, Fire(t)).value, t, At(Apply(s, Fire(t)).value.threads, t));
  }

  lemma LockFalls(s: State, t: nat)
    requires Apply(s, Lock(t)).Some?
    ensures Falls(s, Apply(s, Lock(t)).value)
  {
    Counted(s, Apply(s, Lock(t)).value, t, At(Apply(s, Lock(t)).value.threads, t));
  }

  lemma ResetFalls(s: State, t: nat)
    requires Apply(s, Reset(t)).Some?
    ensures Falls(s, Apply(s, Reset(t)).value)
  {
    Counted(s, Apply(s, Reset(t)).value, t, At(Apply(s, Reset(t)).value.threads, t));
  }

  lemma SwappedFalls(s: State, t: nat)
    requires Apply(s, Swapped(t)).Some? && s.mu == Some(t)
    ensures Falls(s, Apply(s, Swapped(t)).value)
  {
    Counted(s, Apply(s, Swapped(t)).value, t, At(Apply(s, Swapped(t)).value.threads, t));
  }

  lemma SwapFalls(s: State, t: nat, slot: Slot)
    requires Apply(s, Swap(t, slot)).Some? && s.mu == Some(t)
    ensures Falls(s, Apply(s, Swap(t, slot)).value)
  {
    Counted(s, Apply(s, Swap(t, slot)).value, t, At(Apply(s, Swap(t, slot)).value.threads, t));
  }

  lemma PullFalls(s: State, t: nat)
    requires Apply(s, Pull(t)).Some? && s.mu == Some(t)
    ensures Falls(s, Apply(s, Pull(t)).value)
  {
    if s.notes.queue == [] { Counted(s, Apply(s, Pull(t)).value, t, Idle); }
  }

  /** Every step of work makes the rank fall: none can go on for ever, whoever is
      scheduled, and however often a compare and swap is lost. */
  lemma WorkFalls(s: State, step: Step)
    requires Inv(s) && Work(step) && Apply(s, step).Some?
    ensures Falls(s, Apply(s, step).value)
  {
    match step
    case Bump(t) => BumpFalls(s, t);
    case Send(t) => SendFalls(s, t);
    case Load(t) => LoadFalls(s, t);
    case Cas(t) => CasFalls(s, t);
    case Enter(t) => EnterFalls(s, t);
    case Arm(t) => ArmFalls(s, t);
    case Fire(t) => FireFalls(s, t);
    case Lock(t) => LockFalls(s, t);
    case Reset(t) => ResetFalls(s, t);
    case Swap(t, slot) => HolderHolds(s, t); SwapFalls(s, t, slot);
    case Swapped(t) => HolderHolds(s, t); SwappedFalls(s, t);
    case Pull(t) => HolderHolds(s, t); PullFalls(s, t);
  }

  lemma HolderHolds(s: State, t: nat)
    requires Locks(s.threads, s.drainMu, s.mu) && HoldsMu(At(s.threads, t))
    ensures s.mu == Some(t)
  {}

  // ---- until nothing is left ----

  /** A step of the goroutine that some pc names, if it can go on. */
  function NextOf(s: State, t: nat): Step {
    match At(s.threads, t)
    case Found(_) => Bump(t)
    case FoundTest(_) => Send(t)
    case Noted(_) => Load(t)
    case Loaded(_, _) => Cas(t)
    case Raised => Enter(t)
    case Arming(_) => Arm(t)
    case Queued(_) => Lock(t)
    case Locked(_) => Reset(t)
    case Swapping(todo) => if todo == {} then Swapped(t) else Pull(t)
    case _ => Pull(t)
  }

  /** Whoever waits for a lock waits for one who can go on. */
  lemma HolderGoesOn(s: State) returns (step: Step)
    requires Locks(s.threads, s.drainMu, s.mu) && (s.drainMu.Some? || s.mu.Some?)
    ensures Work(step) && Apply(s, step).Some?
  {
    if s.drainMu.Some? {
      step := Arm(s.drainMu.value);
      assert At(s.threads, s.drainMu.value).Arming?;
    } else {
      var t := s.mu.value;
      assert HoldsMu(At(s.threads, t));
      step := NextOf(s, t);
      match At(s.threads, t) {
        case Swapping(todo) =>
          if todo != {} {
            var slot :| slot in todo;
            step := Swap(t, slot);
          }
        case _ =>
      }
    }
  }

  /** While somebody is inside or a timer is armed, someone can go on, at the
      latest once the drain's due time has come. */
  lemma SomeoneGoesOn(s: State) returns (step: Step)
    requires Inv(s) && !Quiet(s)
    ensures Work(step) && Apply(AtDue(s), step).Some?
  {
    var s' := AtDue(s);
    if s.drainMu.Some? || s.mu.Some? {
      step := HolderGoesOn(s');
    } else if t: nat :| At(s.threads, t) != Idle {
      step := NextOf(s, t);
      assert !At(s.threads, t).Arming? && !HoldsMu(At(s.threads, t));
    } else {
      var t := FreshGoroutine(s.threads.Keys);
      step := Fire(t);
    }
  }

  lemma TickKeeps(s: State)
    requires Inv(s)
    ensures Inv(AtDue(s)) && FirstRank(AtDue(s)) == FirstRank(s) && SecondRank(AtDue(s)) == SecondRank(s)
    ensures Draining(AtDue(s)) == Draining(s) && (AtDue(s) == s || Apply(s, Tick(s.plan.drainAt.value)) == Some(AtDue(s)))
  {
    if s.plan.drainAt.Some? { StepKeepsInv(s, Tick(s.plan.drainAt.value)); }
  }

  // ---- and then all is delivered ----

  lemma WorkKeepsMap(s: State, step: Step)
    requires Work(step) && Apply(s, step).Some?
    ensures var s' := Apply(s, step).value; s'.closed == s.closed && s'.counters == s.counters
  {}

  /** Nothing but work and the clock. */
  predicate OnlyWork(steps: seq<Step>) { forall k :: 0 <= k < |steps| ==> steps[k].Tick? || Work(steps[k]) }

  lemma {:induction false} RunJoins(s: State, a: seq<Step>, b: seq<Step>)
    requires Run(s, a).Some?
    ensures Run(s, a + b) == Run(Run(s, a).value, b)
    decreases |a|
  {
    if a == [] {
      assert a + b == b;
    } else {
      assert (a + b)[0] == a[0] && (a + b)[1..] == a[1..] + b;
      RunJoins(Apply(s, a[0]).value, a[1..], b);
    }
  }

  /** A step at the due time, and the run that goes on from it. */
  lemma RunFrom(s: State, step: Step, rest: seq<Step>) returns (steps: seq<Step>)
    requires Inv(s) && Work(step) && Apply(AtDue(s), step).Some? && OnlyWork(rest)
    ensures OnlyWork(steps) && Run(s, steps) == Run(Apply(AtDue(s), step).value, rest)
  {
    TickKeeps(s);
    steps := [step] + rest;
    assert steps[1..] == rest;
    if AtDue(s) != s {
      var tick := Tick(s.plan.drainAt.value);
      assert ([tick] + steps)[1..] == steps;
      steps := [tick] + steps;
    }
  }

  /** Left to its goroutines and the clock the engine falls quiet. */
  lemma {:induction false} FallsQuiet(s: State) returns (steps: seq<Step>, q: State)
    requires Inv(s)
    ensures OnlyWork(steps) && Run(s, steps) == Some(q) && Quiet(q) && q.closed == s.closed && q.counters == s.counters
    decreases FirstRank(s), SecondRank(s), Draining(s)
  {
    if Quiet(s) {
      return [], s;
    }
    var step := SomeoneGoesOn(s);
    TickKeeps(s);
    var s' := Apply(AtDue(s), step).value;
    StepKeepsInv(AtDue(s), step);
    WorkFalls(AtDue(s), step);
    WorkKeepsMap(AtDue(s), step);
    var rest;
    rest, q := FallsQuiet(s');
    steps := RunFrom(s, step, rest);
  }

  /** From every reachable state of an open engine, with no new note and whatever
      else is under way, the goroutines inside and the clock bring about a state in
      which every note on a node it keeps has been handed over exactly once and
      every queued test in order; and as their every step makes the rank fall, they
      cannot put it off for ever. */
  lemma EverythingIsDelivered(before: seq<Step>, s: State) returns (steps: seq<Step>, q: State)
    requires Reaches(before, s) && !s.closed
    ensures OnlyWork(steps) && Run(s, steps) == Some(q) && Quiet(q)
    ensures forall n, f :: n in s.counters ==>
      Get(q.notes.drained, Slot(s.counters[n], f)) == Get(q.notes.noted, Slot(s.counters[n], f))
    ensures q.notes.pulled == q.notes.sent
  {
    ReachesInv(before, s);
    steps, q := FallsQuiet(s);
    RunJoins(START, before, steps);
    QuietMeansDelivered(before + steps, q);
  }
}
