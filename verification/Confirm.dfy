/** Checks in flight and the paired confirmation that may condemn a node. */
module Confirm {
  import opened Basics
  import opened Evidence

  const PROBE_CONCURRENCY := 2
  const PROBE_REPEAT_GAP := MINUTE
  const LINK_WINDOW := MINUTE

  datatype Kind = UserCheck | ConfirmCheck | StandbyCheck | OtherCheck

  datatype Job = Job(group: string, key: string, kind: Kind)

  /** A pair sent together: the suspect's check and that of a standby, if one was
      sent. since says how many answers had come when it was sent. */
  datatype Confirmation = Confirmation(
    key: string, standby: Option<string>, pending: int, failed: bool, standbyDown: bool, since: nat)

  datatype Answer = Answer(job: Job, failed: bool)

  datatype Verdict = Cleared | NetworkSuspect | Condemned

  /** What came of a pair, and when the link was last proven then. */
  datatype Ruling = Ruling(group: string, pair: Confirmation, verdict: Verdict, at: Time, linkOkAt: Time)

  /** Checks in flight by key, when each key was last checked, each bound group's
      pair, the link's last proof, and the answers and rulings so far. */
  datatype State = State(
    inflight: map<string, Job>, lastProbe: map<string, Time>, groups: map<string, Option<Confirmation>>,
    linkOkAt: Time, answers: seq<Answer>, rulings: seq<Ruling>)

  datatype Step =
    | Add(job: Job, paid: bool, at: Time)
    | AddUser(group: string, key: string, at: Time)
    | Send(group: string, key: string, paid: bool, standby: Option<string>, standbyPaid: bool, at: Time)
    | Result(key: string, failed: bool, at: Time)
    | LinkOk(at: Time)
    | LinkReset
    | Bind(group: string)
    | Unbind(group: string)

  const START := State(map[], map[], map[], 0, [], [])

  predicate Paired(kind: Kind) { kind == ConfirmCheck || kind == StandbyCheck }

  predicate LinkProven(linkOkAt: Time, now: Time) { linkOkAt != 0 && now - linkOkAt <= LINK_WINDOW }

  function Without<V>(m: map<string, V>, key: string): map<string, V> { map k | k in m && k != key :: m[k] }

  // ---- the steps ----

  /** add, in plan: not beyond the free places, not a key that is busy or was
      just checked, not what the budget refuses. */
  predicate Admits(s: State, job: Job, paid: bool, at: Time) {
    && |s.inflight| < PROBE_CONCURRENCY && job.key !in s.inflight
    && (job.key in s.lastProbe && at - s.lastProbe[job.key] < PROBE_REPEAT_GAP ==> job.kind == ConfirmCheck)
    && paid
  }

  function Flying(s: State, job: Job, at: Time): State {
    s.(inflight := s.inflight[job.key := job], lastProbe := s.lastProbe[job.key := at])
  }

  /** The confirming check of a suspect and, with it, one of the best standby. */
  function Sent(s: State, group: string, key: string, paid: bool, standby: Option<string>, standbyPaid: bool,
      at: Time): State {
    var job := Job(group, key, ConfirmCheck);
    if group !in s.groups || s.groups[group].Some? || !Admits(s, job, paid, at) then s
    else
      var first := Flying(s, job, at);
      var other := Job(group, if standby.Some? then standby.value else "", StandbyCheck);
      var both := standby.Some? && Admits(first, other, standbyPaid, at);
      var pair := Confirmation(key, if both then standby else None, if both then 2 else 1, false, false, |s.answers|);
      (if both then Flying(first, other, at) else first).(groups := s.groups[group := Some(pair)])
  }

  function Recorded(c: Confirmation, job: Job, failed: bool): Confirmation {
    if job.kind == ConfirmCheck then c.(pending := c.pending - 1, failed := failed)
    else c.(pending := c.pending - 1, standbyDown := failed)
  }

  /** resolveConfirm: a suspect that answered is cleared; when the standby is down
      too, or there was none and nothing proves the link, the network is suspect. */
  function Judge(c: Confirmation, linkOkAt: Time, now: Time): Verdict {
    if !c.failed then Cleared
    else if c.standby.Some? && c.standbyDown then NetworkSuspect
    else if c.standby.None? && !LinkProven(linkOkAt, now) then NetworkSuspect
    else Condemned
  }

  /** onProbeResult, as far as pairs go. */
  function Answered(s: State, job: Job, failed: bool, at: Time): State {
    var s := s.(inflight := Without(s.inflight, job.key), answers := s.answers + [Answer(job, failed)],
                linkOkAt := if failed then s.linkOkAt else at);
    if job.group !in s.groups || s.groups[job.group].None? || !Paired(job.kind) then s
    else
      var c := Recorded(s.groups[job.group].value, job, failed);
      if c.pending > 0 then s.(groups := s.groups[job.group := Some(c)])
      else s.(groups := s.groups[job.group := None],
              rulings := s.rulings + [Ruling(job.group, c, Judge(c, s.linkOkAt, at), at, s.linkOkAt)])
  }

  function Apply(s: State, step: Step): Option<State> {
    match step
    case Add(job, paid, at) =>
      if job.kind != OtherCheck then None else Some(if Admits(s, job, paid, at) then Flying(s, job, at) else s)
    case AddUser(group, key, at) =>
      Some(if key in s.inflight then s else Flying(s, Job(group, key, UserCheck), at))
    case Send(group, key, paid, standby, standbyPaid, at) => Some(Sent(s, group, key, paid, standby, standbyPaid, at))
    case Result(key, failed, at) =>
      if key !in s.inflight || s.inflight[key].key != key then None else Some(Answered(s, s.inflight[key], failed, at))
    case LinkOk(at) => Some(s.(linkOkAt := at))
    case LinkReset => Some(s.(linkOkAt := 0))
    case Bind(group) => Some(if group in s.groups then s else s.(groups := s.groups[group := None]))
    case Unbind(group) => Some(s.(groups := Without(s.groups, group)))
  }

  function Run(s: State, steps: seq<Step>): Option<State>
    decreases |steps|
  {
    if steps == [] then Some(s)
    else match Apply(s, steps[0])
      case None => None
      case Some(s') => Run(s', steps[1..])
  }

  // ---- at most two, none overwritten ----

  /** The checks in flight that no user asked for. */
  function Bought(inflight: map<string, Job>): set<string> { set k | k in inflight && inflight[k].kind != UserCheck }

  ghost predicate Within(s: State) {
    && |Bought(s.inflight)| <= PROBE_CONCURRENCY
    && forall k :: k in s.inflight ==> s.inflight[k].key == k
  }

  lemma SubsetSize<T>(a: set<T>, b: set<T>)
    requires a <= b
    ensures |a| <= |b|
    decreases |a|
  {
    if a != {} {
      var x :| x in a;
      SubsetSize(a - {x}, b - {x});
    }
  }

  lemma AddingIsWithin(s: State, job: Job, paid: bool, at: Time)
    requires Within(s) && Admits(s, job, paid, at)
    ensures Within(Flying(s, job, at))
  {
    SubsetSize(Bought(s.inflight), s.inflight.Keys);
    SubsetSize(Bought(s.inflight[job.key := job]), Bought(s.inflight) + {job.key});
  }

  lemma UserAddsWithin(s: State, job: Job, at: Time)
    requires Within(s) && job.kind == UserCheck && job.key !in s.inflight
    ensures Within(Flying(s, job, at))
  {
    assert Bought(s.inflight[job.key := job]) == Bought(s.inflight);
  }

  lemma SendingIsWithin(s: State, step: Step)
    requires Within(s) && step.Send?
    ensures Within(Apply(s, step).value)
  {
    var job := Job(step.group, step.key, ConfirmCheck);
    if step.group in s.groups && s.groups[step.group].None? && Admits(s, job, step.paid, step.at) {
      AddingIsWithin(s, job, step.paid, step.at);
      var first := Flying(s, job, step.at);
      if step.standby.Some? {
        var other := Job(step.group, step.standby.value, StandbyCheck);
        if Admits(first, other, step.standbyPaid, step.at) { AddingIsWithin(first, other, step.standbyPaid, step.at); }
      }
    }
  }

  lemma StepIsWithin(s: State, step: Step)
    requires Within(s) && Apply(s, step).Some?
    ensures Within(Apply(s, step).value)
  {
    match step
    case Add(job, paid, at) => if Admits(s, job, paid, at) { AddingIsWithin(s, job, paid, at); }
    case AddUser(group, key, at) => if key !in s.inflight { UserAddsWithin(s, Job(group, key, UserCheck), at); }
    case Send(_, _, _, _, _, _) => SendingIsWithin(s, step);
    case Result(key, failed, at) => SubsetSize(Bought(Without(s.inflight, key)), Bought(s.inflight));
    case _ =>
  }

  lemma {:induction false} RunIsWithin(s: State, steps: seq<Step>)
    requires Within(s) && Run(s, steps).Some?
    ensures Within(Run(s, steps).value)
    decreases |steps|
  {
    if steps != [] {
      StepIsWithin(s, steps[0]);
      RunIsWithin(Apply(s, steps[0]).value, steps[1..]);
    }
  }

  /** In every reachable state at most two checks no user asked for are in flight,
      whatever is asked of the planner and however many the user started. */
  lemma AtMostTwoBought(steps: seq<Step>, s: State)
    requires Run(START, steps) == Some(s)
    ensures |Bought(s.inflight)| <= PROBE_CONCURRENCY
  {
    RunIsWithin(START, steps);
  }

  /** No live check is overwritten: it leaves only by its own result. */
  lemma LiveJobsStay(s: State, step: Step, key: string)
    requires Apply(s, step).Some? && key in s.inflight
    ensures var s' := Apply(s, step).value;
      if step.Result? && step.key == key then key !in s'.inflight
      else key in s'.inflight && s'.inflight[key] == s.inflight[key]
  {}

  // ---- what a pair's count means ----

  predicate Out(s: State, job: Job) { job.key in s.inflight && s.inflight[job.key] == job }

  function OutCount(s: State, job: Job): int { if Out(s, job) then 1 else 0 }

  ghost predicate HasAnswer(answers: seq<Answer>, from: nat, job: Job, failed: bool) {
    exists n :: from <= n < |answers| && answers[n] == Answer(job, failed)
  }

  function Own(group: string, c: Confirmation): Job { Job(group, c.key, ConfirmCheck) }

  function Other(group: string, c: Confirmation): Job {
    Job(group, if c.standby.Some? then c.standby.value else c.key, StandbyCheck)
  }

  /** A bound group's pair: pending counts its checks in flight, and what is back
      has been recorded as it came. */
  ghost predicate PairSound(s: State, group: string, c: Confirmation) {
    && c.pending == OutCount(s, Own(group, c)) + OutCount(s, Other(group, c)) && c.pending > 0 && c.since <= |s.answers|
    && (c.standby.None? ==> !Out(s, Other(group, c)) && !c.standbyDown)
    && (!Out(s, Own(group, c)) ==> HasAnswer(s.answers, c.since, Own(group, c), c.failed))
    && (c.standby.Some? && !Out(s, Other(group, c)) ==> HasAnswer(s.answers, c.since, Other(group, c), c.standbyDown))
  }

  ghost predicate GroupSound(s: State, group: string) {
    group in s.groups && s.groups[group].Some? ==> PairSound(s, group, s.groups[group].value)
  }

  /** A pair condemns only when its own check failed, and the standby answered or
      there was none and the link was proven within the window. */
  ghost predicate Justified(answers: seq<Answer>, r: Ruling) {
    r.verdict == Condemned ==>
      && HasAnswer(answers, r.pair.since, Own(r.group, r.pair), true)
      && (if r.pair.standby.Some? then HasAnswer(answers, r.pair.since, Other(r.group, r.pair), false)
          else LinkProven(r.linkOkAt, r.at))
  }

  ghost predicate Sound(s: State) {
    && (forall k :: k in s.inflight ==> s.inflight[k].key == k)
    && (forall g :: GroupSound(s, g))
    && (forall n :: 0 <= n < |s.rulings| ==> Justified(s.answers, s.rulings[n]))
  }

  predicate OfPair(group: string, c: Confirmation, job: Job) { job == Own(group, c) || job == Other(group, c) }

  /** A check of an earlier pair comes back while its group has another: the code
      tells pairs apart by group alone. */
  predicate Stray(s: State, step: Step) {
    && step.Result? && step.key in s.inflight && Paired(s.inflight[step.key].kind)
    && var job := s.inflight[step.key];
      job.group in s.groups && s.groups[job.group].Some? && !OfPair(job.group, s.groups[job.group].value, job)
  }

  lemma AnswersGrow(answers: seq<Answer>, a: Answer, from: nat, job: Job, failed: bool)
    ensures HasAnswer(answers, from, job, failed) ==> HasAnswer(answers + [a], from, job, failed)
    ensures from <= |answers| && a == Answer(job, failed) ==> HasAnswer(answers + [a], from, job, failed)
  {
    if HasAnswer(answers, from, job, failed) {
      var n :| from <= n < |answers| && answers[n] == Answer(job, failed);
      assert (answers + [a])[n] == Answer(job, failed);
    }
    if from <= |answers| && a == Answer(job, failed) { assert (answers + [a])[|answers|] == a; }
  }

  lemma RulingsStay(answers: seq<Answer>, a: Answer, r: Ruling)
    requires Justified(answers, r)
    ensures Justified(answers + [a], r)
  {
    AnswersGrow(answers, a, r.pair.since, Own(r.group, r.pair), true);
    AnswersGrow(answers, a, r.pair.since, Other(r.group, r.pair), false);
  }

  /** A check of no pair put in flight under a free key disturbs no group. */
  lemma FlyingIsSound(s: State, job: Job, at: Time)
    requires Sound(s) && job.key !in s.inflight && !Paired(job.kind)
    ensures Sound(Flying(s, job, at))
  {
    var s' := Flying(s, job, at);
    forall g ensures GroupSound(s', g) {
      assert GroupSound(s, g);
    }
  }

  /** What a pair sent leaves of the other groups. */
  lemma SendingLeavesOthers(s: State, step: Step, g: string)
    requires Sound(s) && step.Send? && g != step.group
    ensures GroupSound(Apply(s, step).value, g)
  {
    assert GroupSound(s, g);
  }

  lemma SendingStartsAPair(s: State, step: Step)
    requires Sound(s) && step.Send?
    ensures GroupSound(Apply(s, step).value, step.group)
  {
    assert GroupSound(s, step.group);
  }

  lemma SendingIsSound(s: State, step: Step)
    requires Sound(s) && step.Send?
    ensures Sound(Apply(s, step).value)
  {
    var s' := Apply(s, step).value;
    forall g ensures GroupSound(s', g) {
      if g == step.group { SendingStartsAPair(s, step); } else { SendingLeavesOthers(s, step, g); }
    }
  }

  /** A check gone that is not one of a group's pair leaves what is out of it. */
  lemma OthersStayOut(s: State, job: Job, g: string, c: Confirmation)
    requires Sound(s) && Out(s, job) && (g != job.group || !Paired(job.kind))
    ensures var left := s.(inflight := Without(s.inflight, job.key));
      Out(left, Own(g, c)) == Out(s, Own(g, c)) && Out(left, Other(g, c)) == Out(s, Other(g, c))
  {}

  /** What an answer changes besides its own group's pair. */
  lemma AnsweredParts(s: State, job: Job, failed: bool, at: Time, g: string)
    ensures var s' := Answered(s, job, failed, at);
      && s'.inflight == Without(s.inflight, job.key) && s'.answers == s.answers + [Answer(job, failed)]
      && (g in s'.groups <==> g in s.groups)
      && (g in s.groups && (g != job.group || !Paired(job.kind)) ==> s'.groups[g] == s.groups[g])
  {}

  /** The answer of another group's check, or of no pair's, leaves a group's pair alone. */
  lemma OthersAreLeft(s: State, s': State, job: Job, failed: bool, g: string)
    requires Sound(s) && Out(s, job) && (g != job.group || !Paired(job.kind)) && g in s.groups && g in s'.groups
    requires s'.inflight == Without(s.inflight, job.key) && s'.answers == s.answers + [Answer(job, failed)]
    requires s'.groups[g] == s.groups[g]
    ensures GroupSound(s', g)
  {
    assert GroupSound(s, g);
    if s.groups[g].Some? {
      var c := s.groups[g].value;
      OthersStayOut(s, job, g, c);
      AnswersGrow(s.answers, Answer(job, failed), c.since, Own(g, c), c.failed);
      AnswersGrow(s.answers, Answer(job, failed), c.since, Other(g, c), c.standbyDown);
    }
  }

  /** The answer of a pair's check is recorded where it belongs. */
  lemma RecordedIsSound(s: State, job: Job, failed: bool, at: Time)
    requires Sound(s) && Out(s, job) && Paired(job.kind) && job.group in s.groups && s.groups[job.group].Some?
    requires OfPair(job.group, s.groups[job.group].value, job)
    ensures var c := Recorded(s.groups[job.group].value, job, failed);
      var s' := Answered(s, job, failed, at);
      && c.pending == OutCount(s', Own(job.group, c)) + OutCount(s', Other(job.group, c)) && c.since <= |s'.answers|
      && (c.standby.None? ==> !Out(s', Other(job.group, c)) && !c.standbyDown)
      && (!Out(s', Own(job.group, c)) ==> HasAnswer(s'.answers, c.since, Own(job.group, c), c.failed))
      && (c.standby.Some? && !Out(s', Other(job.group, c)) ==> HasAnswer(s'.answers, c.since, Other(job.group, c), c.standbyDown))
  {
    assert GroupSound(s, job.group);
    var c := s.groups[job.group].value;
    AnswersGrow(s.answers, Answer(job, failed), c.since, Own(job.group, c), c.failed);
    AnswersGrow(s.answers, Answer(job, failed), c.since, Own(job.group, c), failed);
    AnswersGrow(s.answers, Answer(job, failed), c.since, Other(job.group, c), c.standbyDown);
    AnswersGrow(s.answers, Answer(job, failed), c.since, Other(job.group, c), failed);
  }

  lemma ResultIsSound(s: State, key: string, failed: bool, at: Time)
    requires Sound(s) && key in s.inflight && !Stray(s, Result(key, failed, at))
    ensures Sound(Answered(s, s.inflight[key], failed, at))
  {
    var job := s.inflight[key];
    var s' := Answered(s, job, failed, at);
    forall g ensures GroupSound(s', g) {
      AnsweredParts(s, job, failed, at, g);
      if g in s.groups && (g != job.group || !Paired(job.kind)) {
        OthersAreLeft(s, s', job, failed, g);
      } else if g in s.groups && s.groups[g].Some? {
        RecordedIsSound(s, job, failed, at);
      } else {
        assert GroupSound(s, g);
      }
    }
    forall n | 0 <= n < |s'.rulings| ensures Justified(s'.answers, s'.rulings[n]) {
      if n < |s.rulings| {
        RulingsStay(s.answers, Answer(job, failed), s.rulings[n]);
      } else {
        RecordedIsSound(s, job, failed, at);
      }
    }
  }

  lemma BindingIsSound(s: State, step: Step)
    requires Sound(s) && (step.Bind? || step.Unbind? || step.LinkOk? || step.LinkReset?)
    ensures Sound(Apply(s, step).value)
  {
    var s' := Apply(s, step).value;
    forall g ensures GroupSound(s', g) {
      assert GroupSound(s, g);
    }
  }

  lemma StepIsSound(s: State, step: Step)
    requires Sound(s) && !Stray(s, step) && Apply(s, step).Some?
    ensures Sound(Apply(s, step).value)
  {
    match step
    case Add(job, paid, at) => if Admits(s, job, paid, at) { FlyingIsSound(s, job, at); }
    case AddUser(group, key, at) => if key !in s.inflight { FlyingIsSound(s, Job(group, key, UserCheck), at); }
    case Send(_, _, _, _, _, _) => SendingIsSound(s, step);
    case Result(key, failed, at) => ResultIsSound(s, key, failed, at);
    case _ => BindingIsSound(s, step);
  }

  /** No stray answer comes back in the run. */
  predicate NoStray(s: State, steps: seq<Step>)
    decreases |steps|
  {
    steps == [] || (!Stray(s, steps[0]) && (Apply(s, steps[0]).Some? ==> NoStray(Apply(s, steps[0]).value, steps[1..])))
  }

  lemma {:induction false} RunIsSound(s: State, steps: seq<Step>)
    requires Sound(s) && Run(s, steps).Some? && NoStray(s, steps)
    ensures Sound(Run(s, steps).value)
    decreases |steps|
  {
    if steps != [] {
      StepIsSound(s, steps[0]);
      RunIsSound(Apply(s, steps[0]).value, steps[1..]);
    }
  }

  /** While no stray answer comes back, a bound group's pending count is the number
      of its pair's checks in flight. */
  lemma PendingCountsThePair(steps: seq<Step>, s: State, group: string)
    requires Run(START, steps) == Some(s) && NoStray(START, steps) && group in s.groups && s.groups[group].Some?
    ensures var c := s.groups[group].value;
      0 < c.pending == OutCount(s, Own(group, c)) + OutCount(s, Other(group, c))
  {
    RunIsSound(START, steps);
    assert GroupSound(s, group);
  }

  /** And every node condemned by a pair failed its own check of that pair, while
      the standby of the pair answered, or none was sent and the link had been
      proven within the last minute. */
  lemma CondemnedWithCause(steps: seq<Step>, s: State, n: nat)
    requires Run(START, steps) == Some(s) && NoStray(START, steps) && n < |s.rulings|
    ensures Justified(s.answers, s.rulings[n])
  {
    RunIsSound(START, steps);
  }

  // ---- exactly then ----

  ghost predicate Counted(s: State, group: string) {
    group in s.groups && s.groups[group].Some? ==>
      var c := s.groups[group].value; c.pending == OutCount(s, Own(group, c)) + OutCount(s, Other(group, c))
  }

  /** Every pair's count is that of its checks in flight. */
  ghost predicate Exact(s: State) { forall g :: Counted(s, g) }

  /** No pair was judged by the step with one of its checks still out. */
  predicate JudgedWhole(s: State, s': State) {
    |s.rulings| < |s'.rulings| ==>
      var r := s'.rulings[|s'.rulings| - 1]; !Out(s', Own(r.group, r.pair)) && !Out(s', Other(r.group, r.pair))
  }

  /** Through the whole run counts are exact and pairs are judged whole. */
  ghost predicate ExactRun(s: State, steps: seq<Step>)
    decreases |steps|
  {
    Exact(s) && (steps == [] || (Apply(s, steps[0]).Some? ==>
      JudgedWhole(s, Apply(s, steps[0]).value) && ExactRun(Apply(s, steps[0]).value, steps[1..])))
  }

  lemma SoundIsExact(s: State)
    requires Sound(s)
    ensures Exact(s)
  {
    forall g ensures Counted(s, g) { assert GroupSound(s, g); }
  }

  /** Only an answer judges. */
  lemma JudgedIsWhole(s: State, step: Step)
    requires Sound(s) && !Stray(s, step) && Apply(s, step).Some?
    ensures JudgedWhole(s, Apply(s, step).value)
  {
    if step.Result? {
      var job := s.inflight[step.key];
      if job.group in s.groups && s.groups[job.group].Some? && Paired(job.kind) {
        RecordedIsSound(s, job, step.failed, step.at);
      }
    }
  }

  /** A stray answer takes a check off a count that is still out, or judges the pair without it. */
  lemma StrayBreaks(s: State, step: Step)
    requires Sound(s) && Stray(s, step) && Apply(s, step).Some?
    ensures !Exact(Apply(s, step).value) || !JudgedWhole(s, Apply(s, step).value)
  {
    var job, s' := s.inflight[step.key], Apply(s, step).value;
    assert GroupSound(s, job.group);
    var c := s.groups[job.group].value;
    var d := Recorded(c, job, step.failed);
    assert Out(s', Own(job.group, d)) == Out(s, Own(job.group, c)) && Out(s', Other(job.group, d)) == Out(s, Other(job.group, c));
    if d.pending > 0 {
      assert !Counted(s', job.group);
    } else {
      assert s'.rulings[|s'.rulings| - 1].pair == d;
    }
  }

  lemma {:induction false} ExactFrom(s: State, steps: seq<Step>)
    requires Sound(s) && Run(s, steps).Some?
    ensures ExactRun(s, steps) <==> NoStray(s, steps)
    decreases |steps|
  {
    SoundIsExact(s);
    if steps != [] {
      var s' := Apply(s, steps[0]).value;
      if Stray(s, steps[0]) {
        StrayBreaks(s, steps[0]);
      } else {
        StepIsSound(s, steps[0]);
        JudgedIsWhole(s, steps[0]);
        ExactFrom(s', steps[1..]);
      }
    }
  }

  /** Pairs are counted and judged as they should be through a whole run if and
      only if no stray answer comes back in it. */
  lemma ExactUnlessStray(steps: seq<Step>)
    requires Run(START, steps).Some?
    ensures ExactRun(START, steps) <==> NoStray(START, steps)
  {
    ExactFrom(START, steps);
  }

  // ---- bindings that let no answer stray ----

  /** None of a pair's checks is in flight for the group. */
  predicate NoPairOut(s: State, group: string) {
    forall k :: k in s.inflight && s.inflight[k].group == group ==> !Paired(s.inflight[k].kind)
  }

  /** A group is bound anew only when none of an earlier pair's checks is in flight. */
  predicate Clean(s: State, step: Step) {
    step.Bind? && step.group !in s.groups ==> NoPairOut(s, step.group)
  }

  /** Every binding of the run is clean. */
  predicate CleanRun(s: State, steps: seq<Step>)
    decreases |steps|
  {
    steps == [] || (Clean(s, steps[0]) && (Apply(s, steps[0]).Some? ==> CleanRun(Apply(s, steps[0]).value, steps[1..])))
  }

  predicate IsPairs(group: string, job: Job) { job.group == group && Paired(job.kind) }

  /** Of a bound group's pairs only the present one's checks are in flight. */
  predicate OnlyPair(s: State, g: string) {
    g in s.groups ==> match s.groups[g]
      case None => NoPairOut(s, g)
      case Some(c) => forall k :: k in s.inflight && IsPairs(g, s.inflight[k]) ==> OfPair(g, c, s.inflight[k])
  }

  ghost predicate OnlyPairs(s: State) { Sound(s) && forall g :: OnlyPair(s, g) }

  lemma NothingStrays(s: State, step: Step)
    requires OnlyPairs(s)
    ensures !Stray(s, step)
  {
    if step.Result? && step.key in s.inflight { assert OnlyPair(s, s.inflight[step.key].group); }
  }

  lemma AnswerKeepsOnlyPairs(s: State, step: Step, g: string)
    requires OnlyPairs(s) && step.Result? && Apply(s, step).Some?
    ensures OnlyPair(Apply(s, step).value, g)
  {
    NothingStrays(s, step);
    assert OnlyPair(s, g);
    var job := s.inflight[step.key];
    AnsweredParts(s, job, step.failed, step.at, g);
    if g == job.group && Paired(job.kind) && g in s.groups && s.groups[g].Some? {
      RecordedIsSound(s, job, step.failed, step.at);
    }
  }

  lemma SendKeepsOnlyPairs(s: State, step: Step, g: string)
    requires OnlyPairs(s) && step.Send?
    ensures OnlyPair(Apply(s, step).value, g)
  {
    assert OnlyPair(s, g);
  }

  lemma StepKeepsOnlyPairs(s: State, step: Step)
    requires OnlyPairs(s) && Clean(s, step) && Apply(s, step).Some?
    ensures OnlyPairs(Apply(s, step).value)
  {
    NothingStrays(s, step);
    StepIsSound(s, step);
    forall g ensures OnlyPair(Apply(s, step).value, g) {
      assert OnlyPair(s, g);
      if step.Result? { AnswerKeepsOnlyPairs(s, step, g); }
      if step.Send? { SendKeepsOnlyPairs(s, step, g); }
    }
  }

  lemma {:induction false} CleanHasNoStray(s: State, steps: seq<Step>)
    requires OnlyPairs(s) && Run(s, steps).Some? && CleanRun(s, steps)
    ensures NoStray(s, steps)
    decreases |steps|
  {
    if steps != [] {
      NothingStrays(s, steps[0]);
      StepKeepsOnlyPairs(s, steps[0]);
      CleanHasNoStray(Apply(s, steps[0]).value, steps[1..]);
    }
  }

  /** It is enough that no group is bound anew under a pair's checks in flight. */
  lemma CleanIsExact(steps: seq<Step>)
    requires Run(START, steps).Some? && CleanRun(START, steps)
    ensures ExactRun(START, steps)
  {
    CleanHasNoStray(START, steps);
    ExactUnlessStray(steps);
  }

  // ---- bound anew too soon ----

  const LATE := Job("g", "a", ConfirmCheck)
  const NEXT := Job("g", "b", ConfirmCheck)
  const FIRST_PAIR := Confirmation("a", None, 1, false, false, 0)
  const NEXT_PAIR := Confirmation("b", None, 1, false, false, 0)

  /** The group is dropped and bound again while its first pair is in flight; the
      late answer is then taken for the new pair's. */
  const TOO_SOON: seq<Step> := [
    Bind("g"), Send("g", "a", true, None, false, 1), Unbind("g"), Bind("g"), LinkOk(2),
    Send("g", "b", true, None, false, 3), Result("a", true, 4)]

  const SENT := State(map["a" := LATE], map["a" := 1], map["g" := Some(FIRST_PAIR)], 0, [], [])
  const DROPPED := SENT.(groups := map[])
  const REBOUND := SENT.(groups := map["g" := None], linkOkAt := 2)
  const RESENT := State(map["a" := LATE, "b" := NEXT], map["a" := 1, "b" := 3], map["g" := Some(NEXT_PAIR)], 2, [], [])
  const MISJUDGED := State(map["b" := NEXT], map["a" := 1, "b" := 3], map["g" := None], 2, [Answer(LATE, true)],
    [Ruling("g", NEXT_PAIR.(pending := 0, failed := true), Condemned, 4, 2)])

  lemma SendsFirst()
    ensures Apply(START.(groups := map["g" := None]), TOO_SOON[1]) == Some(SENT)
  {
    var s := START.(groups := map["g" := None]);
    assert Admits(s, LATE, true, 1);
    assert s.groups["g" := Some(FIRST_PAIR)] == SENT.groups;
  }

  lemma DropsIt()
    ensures Apply(SENT, TOO_SOON[2]) == Some(DROPPED) && !Clean(DROPPED, TOO_SOON[3])
  {
    assert "a" in DROPPED.inflight;
  }

  lemma SendsNext()
    ensures Apply(REBOUND, TOO_SOON[5]) == Some(RESENT)
  {
    assert |REBOUND.inflight| == 1 && Admits(REBOUND, NEXT, true, 3);
    var s := Flying(REBOUND, NEXT, 3);
    assert s.inflight == RESENT.inflight && s.lastProbe == RESENT.lastProbe;
    assert s.groups["g" := Some(NEXT_PAIR)] == RESENT.groups;
  }

  lemma TakesTheLateAnswer()
    ensures Apply(RESENT, TOO_SOON[6]) == Some(MISJUDGED)
  {
    assert Without(RESENT.inflight, "a") == map["b" := NEXT];
    assert RESENT.groups["g" := None] == MISJUDGED.groups;
    var c := Recorded(NEXT_PAIR, LATE, true);
    assert c == NEXT_PAIR.(pending := 0, failed := true) && Judge(c, 2, 4) == Condemned;
    assert [] + [Answer(LATE, true)] == MISJUDGED.answers;
    assert [] + [Ruling("g", c, Condemned, 4, 2)] == MISJUDGED.rulings;
  }

  lemma RunFrom(s: State, steps: seq<Step>, n: nat, s': State)
    requires n < |steps| && Apply(s, steps[n]) == Some(s')
    ensures Run(s, steps[n..]) == Run(s', steps[n + 1..])
    ensures CleanRun(s, steps[n..]) ==> Clean(s, steps[n]) && CleanRun(s', steps[n + 1..])
  {
    assert steps[n..][1..] == steps[n + 1..];
  }

  lemma TooSoonRuns()
    ensures Run(START, TOO_SOON) == Some(MISJUDGED) && !CleanRun(START, TOO_SOON)
  {
    assert TOO_SOON[0..] == TOO_SOON;
    SendsFirst();
    DropsIt();
    SendsNext();
    TakesTheLateAnswer();
    RunFrom(START, TOO_SOON, 0, START.(groups := map["g" := None]));
    RunFrom(START.(groups := map["g" := None]), TOO_SOON, 1, SENT);
    RunFrom(SENT, TOO_SOON, 2, DROPPED);
    RunFrom(DROPPED, TOO_SOON, 3, REBOUND.(linkOkAt := 0));
    RunFrom(REBOUND.(linkOkAt := 0), TOO_SOON, 4, REBOUND);
    RunFrom(REBOUND, TOO_SOON, 5, RESENT);
    RunFrom(RESENT, TOO_SOON, 6, MISJUDGED);
  }

  /** b is condemned while its check is still in flight: it never failed one. */
  lemma BoundTooSoonCondemnsAnother()
    ensures Run(START, TOO_SOON) == Some(MISJUDGED) && !CleanRun(START, TOO_SOON) && !NoStray(START, TOO_SOON)
    ensures MISJUDGED.rulings[0].verdict == Condemned && MISJUDGED.rulings[0].pair.key == "b" && Out(MISJUDGED, NEXT)
    ensures !Justified(MISJUDGED.answers, MISJUDGED.rulings[0])
  {
    TooSoonRuns();
    assert Own("g", MISJUDGED.rulings[0].pair) == NEXT;
    if NoStray(START, TOO_SOON) { CondemnedWithCause(TOO_SOON, MISJUDGED, 0); }
  }

  // ---- the machine's part, as it runs ----

  class Checks {
    var inflight: map<string, Job>
    var lastProbe: map<string, Time>
    var groups: map<string, Option<Confirmation>>
    var linkOkAt: Time
    ghost var answers: seq<Answer>
    ghost var rulings: seq<Ruling>
    var answered: nat

    constructor ()
      ensures Value() == START && answered == 0
    {
      inflight, lastProbe, groups, linkOkAt, answers, rulings, answered := map[], map[], map[], 0, [], [], 0;
    }

    ghost function Value(): State
      reads this
    {
      State(inflight, lastProbe, groups, linkOkAt, answers, rulings)
    }

    /** add, inside plan. */
    method Add(job: Job, paid: bool, at: Time) returns (added: bool)
      modifies this`inflight, this`lastProbe
      ensures added == Admits(old(Value()), job, paid, at)
      ensures Value() == if added then Flying(old(Value()), job, at) else old(Value())
    {
      if |inflight| >= PROBE_CONCURRENCY { return false; }
      if job.key in inflight { return false; }
      if job.key in lastProbe && at - lastProbe[job.key] < PROBE_REPEAT_GAP && job.kind != ConfirmCheck { return false; }
      if !paid { return false; }
      inflight := inflight[job.key := job];
      lastProbe := lastProbe[job.key := at];
      added := true;
    }

    /** The suspect's turn in plan. */
    method SendPair(group: string, key: string, paid: bool, standby: Option<string>, standbyPaid: bool, at: Time)
      requires answered == |answers|
      modifies this
      ensures Value() == Sent(old(Value()), group, key, paid, standby, standbyPaid, at) && answered == |answers|
    {
      if group !in groups || groups[group].Some? { return; }
      var added := Add(Job(group, key, ConfirmCheck), paid, at);
      if !added { return; }
      var pair := Confirmation(key, None, 1, false, false, answered);
      if standby.Some? {
        added := Add(Job(group, standby.value, StandbyCheck), standbyPaid, at);
        if added { pair := pair.(standby := standby, pending := pair.pending + 1); }
      }
      groups := groups[group := Some(pair)];
    }

    /** onProbeResult, as far as pairs go. */
    method OnResult(job: Job, failed: bool, at: Time)
      requires answered == |answers|
      modifies this
      ensures Value() == Answered(old(Value()), job, failed, at) && answered == |answers|
    {
      inflight := Without(inflight, job.key);
      answers, answered := answers + [Answer(job, failed)], answered + 1;
      if !failed { linkOkAt := at; }
      if job.group in groups && groups[job.group].Some? && Paired(job.kind) {
        var c := Recorded(groups[job.group].value, job, failed);
        groups := groups[job.group := Some(c)];
        if c.pending <= 0 { Resolve(job.group, c, at); }
      }
    }

    /** resolveConfirm. */
    method Resolve(group: string, c: Confirmation, at: Time)
      modifies this`groups, this`rulings
      ensures groups == old(groups)[group := None]
      ensures rulings == old(rulings) + [Ruling(group, c, Judge(c, linkOkAt, at), at, linkOkAt)]
    {
      groups := groups[group := None];
      ghost var verdict;
      if !c.failed {
        verdict := Cleared;
      } else if (c.standby.Some? && c.standbyDown) || (c.standby.None? && !LinkProven(linkOkAt, at)) {
        verdict := NetworkSuspect;
      } else {
        verdict := Condemned;
      }
      rulings := rulings + [Ruling(group, c, verdict, at, linkOkAt)];
    }
  }
}
