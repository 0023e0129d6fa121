/** The engine's coalesced drain, one atomic step at a time, over any number of goroutines in any order. */
module Drain {
  import opened Basics

  const FAILURE_DRAIN_DELAY := 250
  const TRAFFIC_DRAIN_DELAY := 2000
  const URL_TEST_QUEUE := 256

  /** One atomic counter of one node: its traffic or its fails. */
  datatype Slot = Slot(counter: nat, fails: bool)

  datatype Test = Test(node: string, ms: int)

  /** Where a goroutine stands.
      Idle: outside the protocol. Found: has the counter, has not added.
      FoundTest: may send the test. Noted: has recorded its note, about to load
      drainPending. Loaded: about to compare and swap. Raised: swapped, heading
      for drainMu. Arming: holds drainMu and has read drainPending. Queued: a
      callback waiting for the engine lock. Locked: holds it. Swapping: has
      reset, still to swap these slots. Pulling: empties the queue. */
  datatype Pc =
    | Idle
    | Found(slot: Slot) | FoundTest(test: Test)
    | Noted(priority: nat) | Loaded(priority: nat, seen: nat)
    | Raised | Arming(read: nat)
    | Queued(revision: nat) | Locked(revision: nat)
    | Swapping(todo: set<Slot>) | Pulling

  type Threads = map<nat, Pc>

  /** Notes: what was recorded, what still counts, what drains were handed. */
  datatype Notes = Notes(
    values: map<Slot, nat>, noted: map<Slot, nat>, drained: map<Slot, nat>,
    queue: seq<Test>, sent: seq<Test>, pulled: seq<Test>)

  /** The drain's schedule: drainPending, drainRevision, drainAt, and the
      revision of the timer while it has not fired. */
  datatype Plan = Plan(pending: nat, revision: nat, drainAt: Option<nat>, armed: Option<nat>)

  datatype State = State(
    now: nat, closed: bool,
    counters: map<string, nat>, nextCounter: nat,
    notes: Notes, plan: Plan,
    drainMu: Option<nat>, mu: Option<nat>,   // the goroutine holding each lock
    threads: Threads)

  datatype Step =
    | Tick(passed: nat)
    | Look(t: nat, node: string, failed: bool)
    | Bump(t: nat)
    | LookTest(t: nat, test: Test)
    | Send(t: nat)
    | Load(t: nat)
    | Cas(t: nat)
    | Enter(t: nat)
    | Arm(t: nat)
    | Fire(t: nat)
    | Wake(t: nat)
    | Lock(t: nat)
    | Reset(t: nat)
    | Swap(t: nat, slot: Slot)
    | Swapped(t: nat)
    | Pull(t: nat)
    | Refresh(names: seq<string>)
    | Shut

  function At(threads: Threads, t: nat): Pc { if t in threads then threads[t] else Idle }

  function Get(m: map<Slot, nat>, slot: Slot): nat { if slot in m then m[slot] else 0 }

  function Delay(pending: nat): nat { if pending == 2 then FAILURE_DRAIN_DELAY else TRAFFIC_DRAIN_DELAY }

  function Slots(counters: map<string, nat>): set<Slot> {
    set n, f | n in counters && f in {false, true} :: Slot(counters[n], f)
  }

  function Move(s: State, t: nat, pc: Pc): State { s.(threads := s.threads[t := pc]) }

  /** cancelDrainLocked. */
  function Cancelled(plan: Plan): Plan { Plan(0, plan.revision + 1, None, None) }

  /** refreshCounters: a name kept keeps its counter, a new one gets a fresh one. */
  function Refreshed(names: seq<string>, previous: map<string, nat>, next: nat): (r: (map<string, nat>, nat))
    ensures r.1 >= next
    ensures forall n :: n in r.0 ==> (n in previous && r.0[n] == previous[n]) || (n !in previous && next <= r.0[n] < r.1)
    ensures forall n :: n in names <==> n in r.0
  {
    if names == [] then (map[], next)
    else
      var (rest, free) := Refreshed(names[1..], previous, next);
      var n := names[0];
      if n in rest then (rest, free)
      else if n in previous then (rest[n := previous[n]], free)
      else (rest[n := free], free + 1)
  }

  // ---- the steps ----

  /** counter(node): the map is read once; the counter found stays reachable. */
  function Look(s: State, t: nat, node: string, failed: bool): Option<State> {
    if At(s.threads, t) != Idle || node !in s.counters then None
    else Some(Move(s, t, Found(Slot(s.counters[node], failed))))
  }

  function Bumped(notes: Notes, slot: Slot): Notes {
    notes.(values := notes.values[slot := Get(notes.values, slot) + 1],
           noted := notes.noted[slot := Get(notes.noted, slot) + 1])
  }

  function Bump(s: State, t: nat): Option<State> {
    match At(s.threads, t)
    case Found(slot) => Some(Move(s, t, Noted(if slot.fails then 2 else 1)).(notes := Bumped(s.notes, slot)))
    case _ => None
  }

  function LookTest(s: State, t: nat, test: Test): Option<State> {
    if At(s.threads, t) != Idle || test.node !in s.counters then None else Some(Move(s, t, FoundTest(test)))
  }

  function Sent(notes: Notes, test: Test): Notes {
    notes.(queue := notes.queue + [test], sent := notes.sent + [test])
  }

  /** A full queue drops the test, and nothing is scheduled for it. */
  function Send(s: State, t: nat): Option<State> {
    match At(s.threads, t)
    case FoundTest(test) =>
      if |s.notes.queue| >= URL_TEST_QUEUE then Some(Move(s, t, Idle))
      else Some(Move(s, t, Noted(1)).(notes := Sent(s.notes, test)))
    case _ => None
  }

  function Load(s: State, t: nat): Option<State> {
    match At(s.threads, t)
    case Noted(priority) =>
      Some(Move(s, t, if s.plan.pending >= priority then Idle else Loaded(priority, s.plan.pending)))
    case _ => None
  }

  function Cas(s: State, t: nat): Option<State> {
    match At(s.threads, t)
    case Loaded(priority, seen) =>
      if s.plan.pending == seen then Some(Move(s, t, Raised).(plan := s.plan.(pending := priority)))
      else Some(Move(s, t, Noted(priority)))
    case _ => None
  }

  /** Taking drainMu up to the read of drainPending. */
  function Enter(s: State, t: nat): Option<State> {
    if At(s.threads, t) != Raised || s.drainMu.Some? then None
    else if s.closed then Some(Move(s, t, Idle).(plan := s.plan.(pending := 0)))
    else if s.plan.pending == 0 then Some(Move(s, t, Idle))
    else Some(Move(s, t, Arming(s.plan.pending)).(drainMu := Some(t)))
  }

  function Armed(plan: Plan, due: nat): Plan {
    if plan.drainAt.Some? && due >= plan.drainAt.value then plan
    else Plan(plan.pending, plan.revision + 1, Some(due), Some(plan.revision + 1))
  }

  /** From that read to the release of drainMu. */
  function Arm(s: State, t: nat): Option<State> {
    match At(s.threads, t)
    case Arming(read) => Some(Move(s, t, Idle).(drainMu := None, plan := Armed(s.plan, s.now + Delay(read))))
    case _ => None
  }

  /** The timer fires once its delay has passed; its callback is a goroutine. */
  function Fire(s: State, t: nat): Option<State> {
    if At(s.threads, t) != Idle || s.plan.armed.None? then None
    else if s.plan.drainAt.Some? && s.now < s.plan.drainAt.value then None
    else Some(Move(s, t, Queued(s.plan.armed.value)).(plan := s.plan.(armed := None)))
  }

  /** The engine's own timer drains whatever the revision. */
  function Wake(s: State, t: nat): Option<State> {
    if At(s.threads, t) != Idle then None else Some(Move(s, t, Queued(0)))
  }

  function Lock(s: State, t: nat): Option<State> {
    match At(s.threads, t)
    case Queued(revision) => if s.mu.Some? then None else Some(Move(s, t, Locked(revision)).(mu := Some(t)))
    case _ => None
  }

  /** drainLocked's critical section. */
  function Reset(s: State, t: nat): Option<State> {
    match At(s.threads, t)
    case Locked(revision) =>
      if s.drainMu.Some? then None
      else if s.closed || (revision != 0 && revision != s.plan.revision) then Some(Move(s, t, Idle).(mu := None))
      else Some(Move(s, t, Swapping(Slots(s.counters))).(plan := Cancelled(s.plan)))
    case _ => None
  }

  function Taken(notes: Notes, slot: Slot): Notes {
    notes.(values := notes.values[slot := 0],
           drained := notes.drained[slot := Get(notes.drained, slot) + Get(notes.values, slot)])
  }

  function Swap(s: State, t: nat, slot: Slot): Option<State> {
    match At(s.threads, t)
    case Swapping(todo) =>
      if slot !in todo then None else Some(Move(s, t, Swapping(todo - {slot})).(notes := Taken(s.notes, slot)))
    case _ => None
  }

  function Swapped(s: State, t: nat): Option<State> {
    if At(s.threads, t) != Swapping({}) then None else Some(Move(s, t, Pulling))
  }

  function Pulled(notes: Notes): Notes
    requires notes.queue != []
  {
    notes.(queue := notes.queue[1..], pulled := notes.pulled + [notes.queue[0]])
  }

  function Pull(s: State, t: nat): Option<State> {
    if At(s.threads, t) != Pulling then None
    else if s.notes.queue == [] then Some(Move(s, t, Idle).(mu := None))
    else Some(s.(notes := Pulled(s.notes)))
  }

  /** A new topology: under the engine lock, so no drain is under way. */
  function Refresh(s: State, names: seq<string>): Option<State> {
    if s.mu.Some? || s.closed then None
    else
      var (counters, next) := Refreshed(names, s.counters, s.nextCounter);
      Some(s.(counters := counters, nextCounter := next))
  }

  function Shut(s: State): Option<State> {
    if s.mu.Some? || s.drainMu.Some? || s.closed then None
    else Some(s.(closed := true, counters := map[], plan := Cancelled(s.plan)))
  }

  function Apply(s: State, step: Step): Option<State> {
    match step
    case Tick(passed) => Some(s.(now := s.now + passed))
    case Look(t, node, failed) => Look(s, t, node, failed)
    case Bump(t) => Bump(s, t)
    case LookTest(t, test) => LookTest(s, t, test)
    case Send(t) => Send(s, t)
    case Load(t) => Load(s, t)
    case Cas(t) => Cas(s, t)
    case Enter(t) => Enter(s, t)
    case Arm(t) => Arm(s, t)
    case Fire(t) => Fire(s, t)
    case Wake(t) => Wake(s, t)
    case Lock(t) => Lock(s, t)
    case Reset(t) => Reset(s, t)
    case Swap(t, slot) => Swap(s, t, slot)
    case Swapped(t) => Swapped(s, t)
    case Pull(t) => Pull(s, t)
    case Refresh(names) => Refresh(s, names)
    case Shut => Shut(s)
  }

  const START := State(0, false, map[], 0, Notes(map[], map[], map[], [], [], []), Plan(0, 0, None, None), None, None, map[])

  function Run(s: State, steps: seq<Step>): Option<State>
    decreases |steps|
  {
    if steps == [] then Some(s)
    else match Apply(s, steps[0])
      case None => None
      case Some(s') => Run(s', steps[1..])
  }

  // ---- the invariant ----

  /** A noter that has recorded its note and not yet decided whether to raise. */
  predicate Deciding(pc: Pc) { pc.Noted? || pc.Loaded? }

  predicate Heading(pc: Pc) { pc.Raised? || pc.Arming? }

  predicate HoldsMu(pc: Pc) { pc.Locked? || pc.Swapping? || pc.Pulling? }

  predicate Drains(pc: Pc) { pc.Swapping? || pc.Pulling? }

  predicate Takes(pc: Pc, slot: Slot) { pc.Swapping? && slot in pc.todo }

  predicate Calling(pc: Pc, revision: nat) { (pc.Queued? || pc.Locked?) && pc.revision == revision }

  ghost predicate SomeDeciding(ts: Threads) { exists t: nat :: Deciding(At(ts, t)) }

  ghost predicate SomeRaised(ts: Threads) { exists t: nat :: At(ts, t).Raised? }

  ghost predicate SomeHeading(ts: Threads) { exists t: nat :: Heading(At(ts, t)) }

  ghost predicate SomeTakes(ts: Threads, slot: Slot) { exists t: nat :: Takes(At(ts, t), slot) }

  ghost predicate SomeDrains(ts: Threads) { exists t: nat :: Drains(At(ts, t)) }

  ghost predicate SomeCalling(ts: Threads, revision: nat) { exists t: nat :: Calling(At(ts, t), revision) }

  ghost predicate Locks(ts: Threads, drainMu: Option<nat>, mu: Option<nat>) {
    && (forall t: nat :: At(ts, t).Arming? <==> drainMu == Some(t))
    && (forall t: nat :: HoldsMu(At(ts, t)) <==> mu == Some(t))
  }

  predicate Fits(pc: Pc, next: nat) {
    match pc
    case Found(slot) => slot.counter < next
    case Noted(priority) => 1 <= priority <= 2
    case Loaded(priority, seen) => seen < priority <= 2
    case Arming(read) => 1 <= read <= 2
    case Swapping(todo) => forall slot :: slot in todo ==> slot.counter < next
    case _ => true
  }

  ghost predicate Shapes(s: State) {
    && s.plan.pending <= 2
    && (forall t: nat :: Fits(At(s.threads, t), s.nextCounter))
    && (forall n :: n in s.counters ==> s.counters[n] < s.nextCounter)
    && (forall slot :: slot in s.notes.values ==> slot.counter < s.nextCounter)
  }

  /** Every note recorded is still counted or was handed to a drain, once. */
  ghost predicate Conserved(notes: Notes) {
    && (forall slot :: Get(notes.noted, slot) == Get(notes.values, slot) + Get(notes.drained, slot))
    && notes.sent == notes.pulled + notes.queue
  }

  /** A nonzero counter of a node in the map, or a queued test, is covered: a
      drain is pending, a noter has yet to decide, or a drain that has reset has
      yet to read it. */
  ghost predicate Covered(counters: map<string, nat>, notes: Notes, pending: nat, ts: Threads) {
    && (forall slot :: slot in Slots(counters) && Get(notes.values, slot) > 0 ==>
      pending > 0 || SomeDeciding(ts) || SomeTakes(ts, slot))
    && (notes.queue != [] ==> pending > 0 || SomeDeciding(ts) || SomeDrains(ts))
  }

  /** A drain is on its way: its timer is armed, or its callback is running up. */
  ghost predicate Coming(plan: Plan, ts: Threads) {
    plan.armed == Some(plan.revision) || SomeCalling(ts, plan.revision)
  }

  /** A pending drain is coming, no later than its delay from now, or someone is
      heading for drainMu to see to it; whoever arms has read the latest pending
      value, or someone who raised it since is still heading there. */
  ghost predicate Scheduled(now: nat, plan: Plan, ts: Threads) {
    && (plan.armed.Some? ==> plan.armed == Some(plan.revision) && plan.drainAt.Some?)
    && (plan.drainAt.Some? ==> Coming(plan, ts))
    && (plan.pending > 0 && !SomeHeading(ts) ==> plan.drainAt.Some? && plan.drainAt.value <= now + Delay(plan.pending))
    && (plan.pending > 0 && !SomeRaised(ts) ==> forall t: nat :: At(ts, t).Arming? ==> At(ts, t).read == plan.pending)
  }

  ghost predicate Inv(s: State) {
    && Locks(s.threads, s.drainMu, s.mu)
    && Shapes(s)
    && Conserved(s.notes)
    && (!s.closed ==> Covered(s.counters, s.notes, s.plan.pending, s.threads) && Scheduled(s.now, s.plan, s.threads))
  }

  // ---- one goroutine moves ----

  ghost predicate Moves(ts: Threads, ts': Threads, t: nat) {
    forall u :: u != t ==> At(ts', u) == At(ts, u)
  }

  /** What one goroutine's move leaves: whoever else covered a note, headed for
      drainMu or ran up still does, and nobody else newly does. */
  lemma OthersStay(ts: Threads, ts': Threads, t: nat)
    requires Moves(ts, ts', t)
    ensures SomeDeciding(ts) ==> SomeDeciding(ts') || Deciding(At(ts, t))
    ensures SomeRaised(ts) ==> SomeRaised(ts') || At(ts, t).Raised?
    ensures SomeHeading(ts) ==> SomeHeading(ts') || Heading(At(ts, t))
    ensures SomeDrains(ts) ==> SomeDrains(ts') || Drains(At(ts, t))
    ensures forall slot :: SomeTakes(ts, slot) ==> SomeTakes(ts', slot) || Takes(At(ts, t), slot)
    ensures forall r :: SomeCalling(ts, r) ==> SomeCalling(ts', r) || Calling(At(ts, t), r)
    ensures Deciding(At(ts', t)) ==> SomeDeciding(ts')
    ensures At(ts', t).Raised? ==> SomeRaised(ts')
    ensures Heading(At(ts', t)) ==> SomeHeading(ts')
    ensures Drains(At(ts', t)) ==> SomeDrains(ts')
    ensures forall slot :: Takes(At(ts', t), slot) ==> SomeTakes(ts', slot)
    ensures forall r :: Calling(At(ts', t), r) ==> SomeCalling(ts', r)
  {
    if SomeDeciding(ts) {
      var u :| Deciding(At(ts, u));
      assert At(ts', u) == At(ts, u) || u == t;
    }
    if SomeRaised(ts) {
      var u :| At(ts, u).Raised?;
      assert At(ts', u) == At(ts, u) || u == t;
    }
    if SomeHeading(ts) {
      var u :| Heading(At(ts, u));
      assert At(ts', u) == At(ts, u) || u == t;
    }
    if SomeDrains(ts) {
      var u :| Drains(At(ts, u));
      assert At(ts', u) == At(ts, u) || u == t;
    }
    forall slot | SomeTakes(ts, slot)
      ensures SomeTakes(ts', slot) || Takes(At(ts, t), slot)
    {
      var u :| Takes(At(ts, u), slot);
      assert At(ts', u) == At(ts, u) || u == t;
    }
    forall r | SomeCalling(ts, r)
      ensures SomeCalling(ts', r) || Calling(At(ts, t), r)
    {
      var u :| Calling(At(ts, u), r);
      assert At(ts', u) == At(ts, u) || u == t;
    }
  }

  /** What becomes of a lock when t, which did or did not hold it, now does or does not. */
  predicate Handed(lock: Option<nat>, lock': Option<nat>, t: nat, holds: bool) {
    if lock == Some(t) then lock' == if holds then lock else None
    else if holds then lock == None && lock' == Some(t)
    else lock' == lock
  }

  lemma LocksMove(ts: Threads, drainMu: Option<nat>, mu: Option<nat>, ts': Threads, drainMu': Option<nat>,
      mu': Option<nat>, t: nat)
    requires Locks(ts, drainMu, mu) && Moves(ts, ts', t)
    requires Handed(drainMu, drainMu', t, At(ts', t).Arming?) && Handed(mu, mu', t, HoldsMu(At(ts', t)))
    ensures Locks(ts', drainMu', mu')
  {}

  /** A move that touches no note and no plan keeps them covered, unless it was
      the mover who covered them. */
  lemma CoveredMove(counters: map<string, nat>, notes: Notes, pending: nat, ts: Threads, ts': Threads, t: nat)
    requires Covered(counters, notes, pending, ts) && Moves(ts, ts', t)
    requires Deciding(At(ts, t)) ==> Deciding(At(ts', t)) || pending > 0
    requires Drains(At(ts, t)) ==> Drains(At(ts', t)) || notes.queue == []
    requires forall slot :: Takes(At(ts, t), slot) ==> Takes(At(ts', t), slot)
    ensures Covered(counters, notes, pending, ts')
  {
    OthersStay(ts, ts', t);
  }

  /** A move that touches no plan keeps the schedule, unless the mover was
      heading for drainMu or running up. */
  lemma ScheduledMove(now: nat, plan: Plan, ts: Threads, ts': Threads, t: nat)
    requires Scheduled(now, plan, ts) && Moves(ts, ts', t)
    requires !Heading(At(ts, t)) && !At(ts', t).Arming?
    requires Calling(At(ts, t), plan.revision) ==> Calling(At(ts', t), plan.revision)
    ensures Scheduled(now, plan, ts')
  {
    OthersStay(ts, ts', t);
  }

  // ---- every step keeps the invariant ----

  lemma LookKeeps(s: State, t: nat, node: string, failed: bool)
    requires Inv(s) && Look(s, t, node, failed).Some?
    ensures Inv(Look(s, t, node, failed).value)
  {
    var s' := Look(s, t, node, failed).value;
    LocksMove(s.threads, s.drainMu, s.mu, s'.threads, s'.drainMu, s'.mu, t);
    if !s.closed {
      CoveredMove(s.counters, s.notes, s.plan.pending, s.threads, s'.threads, t);
      ScheduledMove(s.now, s.plan, s.threads, s'.threads, t);
    }
  }

  lemma BumpKeeps(s: State, t: nat)
    requires Inv(s) && Bump(s, t).Some?
    ensures Inv(Bump(s, t).value)
  {
    var s' := Bump(s, t).value;
    LocksMove(s.threads, s.drainMu, s.mu, s'.threads, s'.drainMu, s'.mu, t);
    if !s.closed {
      OthersStay(s.threads, s'.threads, t);
      ScheduledMove(s.now, s.plan, s.threads, s'.threads, t);
    }
  }

  lemma LookTestKeeps(s: State, t: nat, test: Test)
    requires Inv(s) && LookTest(s, t, test).Some?
    ensures Inv(LookTest(s, t, test).value)
  {
    var s' := LookTest(s, t, test).value;
    LocksMove(s.threads, s.drainMu, s.mu, s'.threads, s'.drainMu, s'.mu, t);
    if !s.closed {
      CoveredMove(s.counters, s.notes, s.plan.pending, s.threads, s'.threads, t);
      ScheduledMove(s.now, s.plan, s.threads, s'.threads, t);
    }
  }

  lemma SendKeeps(s: State, t: nat)
    requires Inv(s) && Send(s, t).Some?
    ensures Inv(Send(s, t).value)
  {
    var s' := Send(s, t).value;
    LocksMove(s.threads, s.drainMu, s.mu, s'.threads, s'.drainMu, s'.mu, t);
    if !s.closed {
      OthersStay(s.threads, s'.threads, t);
      ScheduledMove(s.now, s.plan, s.threads, s'.threads, t);
    }
  }

  lemma LoadKeeps(s: State, t: nat)
    requires Inv(s) && Load(s, t).Some?
    ensures Inv(Load(s, t).value)
  {
    var s' := Load(s, t).value;
    LocksMove(s.threads, s.drainMu, s.mu, s'.threads, s'.drainMu, s'.mu, t);
    if !s.closed {
      CoveredMove(s.counters, s.notes, s.plan.pending, s.threads, s'.threads, t);
      ScheduledMove(s.now, s.plan, s.threads, s'.threads, t);
    }
  }

  lemma CasKeeps(s: State, t: nat)
    requires Inv(s) && Cas(s, t).Some?
    ensures Inv(Cas(s, t).value)
  {
    var s' := Cas(s, t).value;
    LocksMove(s.threads, s.drainMu, s.mu, s'.threads, s'.drainMu, s'.mu, t);
    if !s.closed {
      OthersStay(s.threads, s'.threads, t);
    }
  }

  lemma EnterKeeps(s: State, t: nat)
    requires Inv(s) && Enter(s, t).Some?
    ensures Inv(Enter(s, t).value)
  {
    var s' := Enter(s, t).value;
    LocksMove(s.threads, s.drainMu, s.mu, s'.threads, s'.drainMu, s'.mu, t);
    if !s.closed {
      CoveredMove(s.counters, s.notes, s.plan.pending, s.threads, s'.threads, t);
      OthersStay(s.threads, s'.threads, t);
    }
  }

  lemma ArmKeeps(s: State, t: nat)
    requires Inv(s) && Arm(s, t).Some?
    ensures Inv(Arm(s, t).value)
  {
    var s' := Arm(s, t).value;
    LocksMove(s.threads, s.drainMu, s.mu, s'.threads, s'.drainMu, s'.mu, t);
    if !s.closed {
      CoveredMove(s.counters, s.notes, s.plan.pending, s.threads, s'.threads, t);
      OthersStay(s.threads, s'.threads, t);
    }
  }

  lemma FireKeeps(s: State, t: nat)
    requires Inv(s) && Fire(s, t).Some?
    ensures Inv(Fire(s, t).value)
  {
    var s' := Fire(s, t).value;
    LocksMove(s.threads, s.drainMu, s.mu, s'.threads, s'.drainMu, s'.mu, t);
    if !s.closed {
      CoveredMove(s.counters, s.notes, s.plan.pending, s.threads, s'.threads, t);
      OthersStay(s.threads, s'.threads, t);
    }
  }

  lemma WakeKeeps(s: State, t: nat)
    requires Inv(s) && Wake(s, t).Some?
    ensures Inv(Wake(s, t).value)
  {
    var s' := Wake(s, t).value;
    LocksMove(s.threads, s.drainMu, s.mu, s'.threads, s'.drainMu, s'.mu, t);
    if !s.closed {
      CoveredMove(s.counters, s.notes, s.plan.pending, s.threads, s'.threads, t);
      ScheduledMove(s.now, s.plan, s.threads, s'.threads, t);
    }
  }

  lemma LockKeeps(s: State, t: nat)
    requires Inv(s) && Lock(s, t).Some?
    ensures Inv(Lock(s, t).value)
  {
    var s' := Lock(s, t).value;
    LocksMove(s.threads, s.drainMu, s.mu, s'.threads, s'.drainMu, s'.mu, t);
    if !s.closed {
      CoveredMove(s.counters, s.notes, s.plan.pending, s.threads, s'.threads, t);
      ScheduledMove(s.now, s.plan, s.threads, s'.threads, t);
    }
  }

  lemma ResetKeeps(s: State, t: nat)
    requires Inv(s) && Reset(s, t).Some?
    ensures Inv(Reset(s, t).value)
  {
    var s' := Reset(s, t).value;
    LocksMove(s.threads, s.drainMu, s.mu, s'.threads, s'.drainMu, s'.mu, t);
    if !s.closed {
      OthersStay(s.threads, s'.threads, t);
    }
  }

  lemma SwapKeeps(s: State, t: nat, slot: Slot)
    requires Inv(s) && Swap(s, t, slot).Some?
    ensures Inv(Swap(s, t, slot).value)
  {
    var s' := Swap(s, t, slot).value;
    LocksMove(s.threads, s.drainMu, s.mu, s'.threads, s'.drainMu, s'.mu, t);
    if !s.closed {
      OthersStay(s.threads, s'.threads, t);
      ScheduledMove(s.now, s.plan, s.threads, s'.threads, t);
    }
  }

  lemma SwappedKeeps(s: State, t: nat)
    requires Inv(s) && Swapped(s, t).Some?
    ensures Inv(Swapped(s, t).value)
  {
    var s' := Swapped(s, t).value;
    LocksMove(s.threads, s.drainMu, s.mu, s'.threads, s'.drainMu, s'.mu, t);
    if !s.closed {
      CoveredMove(s.counters, s.notes, s.plan.pending, s.threads, s'.threads, t);
      ScheduledMove(s.now, s.plan, s.threads, s'.threads, t);
    }
  }

  lemma PullKeeps(s: State, t: nat)
    requires Inv(s) && Pull(s, t).Some?
    ensures Inv(Pull(s, t).value)
  {
    var s' := Pull(s, t).value;
    LocksMove(s.threads, s.drainMu, s.mu, s'.threads, s'.drainMu, s'.mu, t);
    if !s.closed {
      OthersStay(s.threads, s'.threads, t);
      ScheduledMove(s.now, s.plan, s.threads, s'.threads, t);
    }
  }

  lemma RefreshKeeps(s: State, names: seq<string>)
    requires Inv(s) && Refresh(s, names).Some?
    ensures Inv(Refresh(s, names).value)
  {}

  lemma ShutKeeps(s: State)
    requires Inv(s) && Shut(s).Some?
    ensures Inv(Shut(s).value)
  {}

  lemma TickKeeps(s: State, passed: nat)
    requires Inv(s)
    ensures Inv(s.(now := s.now + passed))
  {}

  lemma NoterKeepsInv(s: State, step: Step)
    requires Inv(s) && Apply(s, step).Some?
    requires step.Look? || step.Bump? || step.LookTest? || step.Send? || step.Load? || step.Cas?
    ensures Inv(Apply(s, step).value)
  {
    match step
    case Look(t, node, failed) => LookKeeps(s, t, node, failed);
    case Bump(t) => BumpKeeps(s, t);
    case LookTest(t, test) => LookTestKeeps(s, t, test);
    case Send(t) => SendKeeps(s, t);
    case Load(t) => LoadKeeps(s, t);
    case Cas(t) => CasKeeps(s, t);
  }

  lemma TimerKeepsInv(s: State, step: Step)
    requires Inv(s) && Apply(s, step).Some?
    requires step.Tick? || step.Enter? || step.Arm? || step.Fire? || step.Wake? || step.Lock?
    ensures Inv(Apply(s, step).value)
  {
    match step
    case Tick(passed) => TickKeeps(s, passed);
    case Enter(t) => EnterKeeps(s, t);
    case Arm(t) => ArmKeeps(s, t);
    case Fire(t) => FireKeeps(s, t);
    case Wake(t) => WakeKeeps(s, t);
    case Lock(t) => LockKeeps(s, t);
  }

  lemma DrainerKeepsInv(s: State, step: Step)
    requires Inv(s) && Apply(s, step).Some?
    requires step.Reset? || step.Swap? || step.Swapped? || step.Pull? || step.Refresh? || step.Shut?
    ensures Inv(Apply(s, step).value)
  {
    match step
    case Reset(t) => ResetKeeps(s, t);
    case Swap(t, slot) => SwapKeeps(s, t, slot);
    case Swapped(t) => SwappedKeeps(s, t);
    case Pull(t) => PullKeeps(s, t);
    case Refresh(names) => RefreshKeeps(s, names);
    case Shut => ShutKeeps(s);
  }

  lemma StepKeepsInv(s: State, step: Step)
    requires Inv(s) && Apply(s, step).Some?
    ensures Inv(Apply(s, step).value)
  {
    if step.Look? || step.Bump? || step.LookTest? || step.Send? || step.Load? || step.Cas? {
      NoterKeepsInv(s, step);
    } else if step.Tick? || step.Enter? || step.Arm? || step.Fire? || step.Wake? || step.Lock? {
      TimerKeepsInv(s, step);
    } else {
      DrainerKeepsInv(s, step);
    }
  }

  lemma {:induction false} RunKeepsInv(s: State, steps: seq<Step>)
    requires Inv(s) && Run(s, steps).Some?
    ensures Inv(Run(s, steps).value)
    decreases |steps|
  {
    if steps != [] {
      StepKeepsInv(s, steps[0]);
      RunKeepsInv(Apply(s, steps[0]).value, steps[1..]);
    }
  }

  lemma StartInv()
    ensures Inv(START)
  {}

  /** A run from a fresh engine. */
  ghost predicate Reaches(steps: seq<Step>, s: State) { Run(START, steps) == Some(s) }

  lemma ReachesInv(steps: seq<Step>, s: State)
    requires Reaches(steps, s)
    ensures Inv(s)
  {
    StartInv();
    RunKeepsInv(START, steps);
  }

  // ---- what every run promises ----

  /** No note is lost: in every interleaving, an open engine whose map holds a
      node with a nonzero counter, or whose queue holds a test, has a drain
      pending, a noter yet to decide, or a drainer that has reset and not read. */
  lemma NoNoteLost(steps: seq<Step>, s: State)
    requires Reaches(steps, s) && !s.closed
    ensures forall n, f :: n in s.counters && Get(s.notes.values, Slot(s.counters[n], f)) > 0 ==>
      s.plan.pending > 0 || SomeDeciding(s.threads) || SomeTakes(s.threads, Slot(s.counters[n], f))
    ensures s.notes.queue != [] ==> s.plan.pending > 0 || SomeDeciding(s.threads) || SomeDrains(s.threads)
  {
    ReachesInv(steps, s);
    forall n, f | n in s.counters && Get(s.notes.values, Slot(s.counters[n], f)) > 0
      ensures s.plan.pending > 0 || SomeDeciding(s.threads) || SomeTakes(s.threads, Slot(s.counters[n], f))
    {
      assert Slot(s.counters[n], f) in Slots(s.counters);
    }
  }

  /** A pending drain is on its way: unless a goroutine is still heading for
      drainMu, a timer of the current revision is armed or its callback is
      waiting, and it is due within the delay its priority asks for. */
  lemma PendingIsScheduled(steps: seq<Step>, s: State)
    requires Reaches(steps, s) && !s.closed && s.plan.pending > 0
    ensures SomeHeading(s.threads) || Coming(s.plan, s.threads)
    ensures SomeHeading(s.threads) || (s.plan.drainAt.Some? && s.plan.drainAt.value <= s.now + Delay(s.plan.pending))
  {
    ReachesInv(steps, s);
  }

  /** Nobody is at work and no timer is armed. */
  ghost predicate Quiet(s: State) { (forall t: nat :: At(s.threads, t) == Idle) && s.plan.armed.None? }

  /** When an open engine falls quiet, every note on a node it keeps has been
      handed to a drain exactly once, and every test queued was handed over in order. */
  lemma QuietMeansDelivered(steps: seq<Step>, s: State)
    requires Reaches(steps, s) && !s.closed && Quiet(s)
    ensures forall n, f :: n in s.counters ==>
      Get(s.notes.drained, Slot(s.counters[n], f)) == Get(s.notes.noted, Slot(s.counters[n], f))
    ensures s.notes.pulled == s.notes.sent
  {
    ReachesInv(steps, s);
    assert s.plan.pending == 0;
    NoNoteLost(steps, s);
  }

  /** Whatever happens, closed or open, no note is handed over twice or made up. */
  lemma NothingMadeUp(steps: seq<Step>, s: State)
    requires Reaches(steps, s)
    ensures forall slot :: Get(s.notes.drained, slot) + Get(s.notes.values, slot) == Get(s.notes.noted, slot)
    ensures s.notes.sent == s.notes.pulled + s.notes.queue
  {
    ReachesInv(steps, s);
  }

  // ---- progress ----

  /** A goroutine inside the protocol can take a step that carries a note on. */
  predicate Steps(s: State, t: nat) {
    match At(s.threads, t)
    case Noted(_) => Load(s, t).Some?
    case Loaded(_, _) => Cas(s, t).Some?
    case Raised => Enter(s, t).Some?
    case Arming(_) => Arm(s, t).Some?
    case Queued(_) => Lock(s, t).Some?
    case Locked(_) => Reset(s, t).Some?
    case Swapping(todo) => Swapped(s, t).Some? || exists slot :: slot in todo && Swap(s, t, slot).Some?
    case Pulling => Pull(s, t).Some?
    case _ => false
  }

  ghost predicate SomeSteps(s: State) { exists t: nat :: Steps(s, t) }

  /** The same state once the clock has passed the drain's due time. */
  function AtDue(s: State): State {
    if s.plan.drainAt.None? then s else s.(now := s.now + s.plan.drainAt.value)
  }

  /** All that is missing is time: the timer is armed and will fire once due. */
  ghost predicate TimerSteps(s: State) { exists t: nat :: Fire(AtDue(s), t).Some? }

  /** Whoever holds a lock can go on: the locks are taken in one order. */
  lemma HolderSteps(s: State)
    requires Inv(s) && (s.drainMu.Some? || s.mu.Some?)
    ensures SomeSteps(s)
  {
    if s.drainMu.Some? {
      assert Steps(s, s.drainMu.value);
    } else {
      var t := s.mu.value;
      match At(s.threads, t) {
        case Swapping(todo) =>
          if todo != {} {
            var slot :| slot in todo;
            assert Swap(s, t, slot).Some?;
          }
        case _ =>
      }
      assert HoldsMu(At(s.threads, t));
      assert Steps(s, t);
    }
  }

  lemma FreshGoroutine(used: set<nat>) returns (t: nat)
    ensures t !in used
  {
    if used == {} { return 0; }
    var n: nat :| n in used;
    t := n + 1;
    ghost var rest := used;
    while t in used
      invariant exists m: nat :: m in used && m + 1 == t
      invariant forall m: nat :: m in rest ==> m in used
      invariant forall m: nat :: m in used && m >= t ==> m in rest
      decreases |rest|
    {
      rest := rest - {t};
      t := t + 1;
    }
  }

  /** The protocol never gets stuck: while an open engine has a pending drain,
      some goroutine can take a step, or a timer is armed whose callback a new
      goroutine can run once its due time has come. */
  lemma PendingMovesOn(steps: seq<Step>, s: State)
    requires Reaches(steps, s) && !s.closed && s.plan.pending > 0
    ensures SomeSteps(s) || TimerSteps(s)
  {
    ReachesInv(steps, s);
    if s.drainMu.Some? || s.mu.Some? {
      HolderSteps(s);
    } else if SomeHeading(s.threads) {
      var t: nat :| Heading(At(s.threads, t));
      assert Steps(s, t);
    } else if SomeCalling(s.threads, s.plan.revision) {
      var t: nat :| Calling(At(s.threads, t), s.plan.revision);
      assert Steps(s, t);
    } else {
      var t := FreshGoroutine(s.threads.Keys);
      assert Fire(AtDue(s), t).Some?;
    }
  }

  /** While a note is undelivered the protocol is not stuck: some goroutine can take
      a step, or only the clock has to move. */
  lemma UndeliveredMovesOn(steps: seq<Step>, s: State, node: string, failed: bool)
    requires Reaches(steps, s) && !s.closed && node in s.counters
    requires Get(s.notes.values, Slot(s.counters[node], failed)) > 0 || s.notes.queue != []
    ensures SomeSteps(s) || TimerSteps(s)
  {
    ReachesInv(steps, s);
    NoNoteLost(steps, s);
    var slot := Slot(s.counters[node], failed);
    if s.plan.pending > 0 {
      PendingMovesOn(steps, s);
    } else if SomeDeciding(s.threads) {
      var t: nat :| Deciding(At(s.threads, t));
      assert Steps(s, t);
    } else if Get(s.notes.values, slot) > 0 {
      var t: nat :| Takes(At(s.threads, t), slot);
      HolderSteps(s);
    } else {
      var t: nat :| Drains(At(s.threads, t));
      HolderSteps(s);
    }
  }
}
