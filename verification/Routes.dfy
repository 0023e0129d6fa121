/** Putting a scenario's routes in front of a config's rules, dropping the routes
    the config parser rejects until it accepts. */
module Routes {
  import opened Basics

  /** A route: its own group unless it goes to another target. matches is None
      when a rule set it names is not in the config. */
  datatype Route = Route(name: string, target: string, matches: Option<seq<string>>)

  datatype Rule = Own(text: string) | Injected(match_: string, target: string)

  /** The parts of a config the routes touch: names of its proxies and groups, and its rules. */
  datatype Raw = Raw(proxies: seq<string>, groups: seq<string>, rules: seq<Rule>)

  /** What the parser blames, read off its message. */
  datatype Blame = RuleBlame(index: nat) | GroupBlame(index: nat) | OtherBlame

  datatype Problem = NameTaken | TargetMissing | Invalid

  /** One attempt: the config as tried, the route owning each injected rule, the
      routes that got a group, and the routes that got in. */
  datatype Trial = Trial(
    raw: Raw, owners: seq<string>, groups: seq<string>, admitted: seq<string>, problems: map<string, Problem>)

  const BUILTIN := ["DIRECT", "REJECT", "REJECT-DROP", "PASS", "COMPATIBLE", "GLOBAL"]

  /** The names no route may have for its group. */
  function Taken(raw: Raw): set<string> {
    (set n | n in BUILTIN) + (set n | n in raw.proxies) + (set n | n in raw.groups)
  }

  /** The targets a route may go to in a trial: what the config has, and the
      groups of the routes still in. */
  function Targets(raw: Raw, routes: seq<Route>, dropped: set<string>): set<string> {
    Taken(raw) + (set r | r in routes && r.target == "" && r.name !in dropped && r.name !in Taken(raw) :: r.name)
  }

  /** Why a route that is not dropped stays out, if it does. */
  function Refusal(raw: Raw, targets: set<string>, r: Route): Option<Problem> {
    if r.target == "" && r.name in Taken(raw) then Some(NameTaken)
    else if r.target != "" && r.target !in targets then Some(TargetMissing)
    else if r.matches.None? then Some(Invalid)
    else None
  }

  function RulesOf(r: Route): seq<Rule>
    requires r.matches.Some?
  {
    Lines(r.matches.value, if r.target == "" then r.name else r.target)
  }

  function Lines(matches: seq<string>, target: string): seq<Rule> {
    if matches == [] then [] else [Injected(matches[0], target)] + Lines(matches[1..], target)
  }

  function Repeat(name: string, n: nat): seq<string> { if n == 0 then [] else [name] + Repeat(name, n - 1) }

  /** The routes that get in, in route order. */
  function Admitted(raw: Raw, targets: set<string>, routes: seq<Route>, dropped: set<string>): seq<Route> {
    if routes == [] then []
    else if routes[0].name in dropped || Refusal(raw, targets, routes[0]).Some? then Admitted(raw, targets, routes[1..], dropped)
    else [routes[0]] + Admitted(raw, targets, routes[1..], dropped)
  }

  function AllRules(admitted: seq<Route>): seq<Rule>
    requires forall k :: 0 <= k < |admitted| ==> admitted[k].matches.Some?
  {
    if admitted == [] then [] else RulesOf(admitted[0]) + AllRules(admitted[1..])
  }

  function AllOwners(admitted: seq<Route>): seq<string>
    requires forall k :: 0 <= k < |admitted| ==> admitted[k].matches.Some?
  {
    if admitted == [] then [] else Repeat(admitted[0].name, |RulesOf(admitted[0])|) + AllOwners(admitted[1..])
  }

  function OwnGroups(admitted: seq<Route>): seq<string> {
    if admitted == [] then [] else (if admitted[0].target == "" then [admitted[0].name] else []) + OwnGroups(admitted[1..])
  }

  function NamesOf(routes: seq<Route>): seq<string> { if routes == [] then [] else [routes[0].name] + NamesOf(routes[1..]) }

  /** The refusals of a trial, added to the problems known. */
  function Refusals(raw: Raw, targets: set<string>, routes: seq<Route>, dropped: set<string>,
      problems: map<string, Problem>): map<string, Problem> {
    if routes == [] then problems
    else
      var refusal := Refusal(raw, targets, routes[0]);
      Refusals(raw, targets, routes[1..], dropped,
               if routes[0].name !in dropped && refusal.Some? then problems[routes[0].name := refusal.value] else problems)
  }

  lemma {:induction false} AdmittedAre(raw: Raw, targets: set<string>, routes: seq<Route>, dropped: set<string>)
    ensures forall r :: r in Admitted(raw, targets, routes, dropped) <==>
      r in routes && r.name !in dropped && Refusal(raw, targets, r).None?
    ensures forall k :: 0 <= k < |Admitted(raw, targets, routes, dropped)| ==>
      Admitted(raw, targets, routes, dropped)[k].matches.Some?
    decreases |routes|
  {
    if routes != [] { AdmittedAre(raw, targets, routes[1..], dropped); }
  }

  /** injectRoutes. */
  function Inject(raw: Raw, routes: seq<Route>, dropped: set<string>, problems: map<string, Problem>): Trial {
    var targets := Targets(raw, routes, dropped);
    var admitted := Admitted(raw, targets, routes, dropped);
    AdmittedAre(raw, targets, routes, dropped);
    Trial(Raw(raw.proxies, raw.groups + OwnGroups(admitted), AllRules(admitted) + raw.rules),
          AllOwners(admitted), OwnGroups(admitted), NamesOf(admitted), Refusals(raw, targets, routes, dropped, problems))
  }

  /** owner: the admitted route a rejected rule or group belongs to, if any. */
  function OwnerOf(trial: Trial, blame: Blame): Option<string> {
    match blame
    case RuleBlame(i) => if i < |trial.owners| then Some(trial.owners[i]) else None
    case GroupBlame(i) =>
      if i < |trial.raw.groups| && trial.raw.groups[i] in trial.groups then Some(trial.raw.groups[i]) else None
    case OtherBlame => None
  }

  /** The outcome: the config as parsed, the routes it carries and every problem. */
  datatype Outcome = Failed | Parsed(raw: Raw, admitted: seq<string>, problems: map<string, Problem>)

  // ---- what a trial says of each route ----

  lemma {:induction false} OwnersAreAdmitted(admitted: seq<Route>, name: string)
    requires forall k :: 0 <= k < |admitted| ==> admitted[k].matches.Some?
    ensures name in AllOwners(admitted) || name in OwnGroups(admitted) ==> name in NamesOf(admitted)
    ensures |AllOwners(admitted)| == |AllRules(admitted)|
    decreases |admitted|
  {
    if admitted != [] {
      OwnersAreAdmitted(admitted[1..], name);
      RepeatIsOne(admitted[0].name, |RulesOf(admitted[0])|, name);
    }
  }

  lemma {:induction false} RepeatIsOne(name: string, n: nat, other: string)
    ensures other in Repeat(name, n) ==> other == name
    ensures |Repeat(name, n)| == n
    decreases n
  {
    if n > 0 { RepeatIsOne(name, n - 1, other); }
  }

  lemma {:induction false} NamesAre(routes: seq<Route>, name: string)
    ensures name in NamesOf(routes) <==> exists r :: r in routes && r.name == name
    decreases |routes|
  {
    if routes != [] {
      NamesAre(routes[1..], name);
      assert forall r :: r in routes <==> r == routes[0] || r in routes[1..];
      if routes[0].name == name { assert routes[0] in routes; }
    }
  }

  lemma {:induction false} RefusalsAre(raw: Raw, targets: set<string>, routes: seq<Route>, dropped: set<string>,
      problems: map<string, Problem>, name: string)
    ensures name in Refusals(raw, targets, routes, dropped, problems) <==>
      name in problems || exists r :: r in routes && r.name == name && name !in dropped && Refusal(raw, targets, r).Some?
    decreases |routes|
  {
    if routes != [] {
      var refusal := Refusal(raw, targets, routes[0]);
      var problems' :=
        if routes[0].name !in dropped && refusal.Some? then problems[routes[0].name := refusal.value] else problems;
      RefusalsAre(raw, targets, routes[1..], dropped, problems', name);
      assert forall r :: r in routes <==> r == routes[0] || r in routes[1..];
    }
  }

  predicate DistinctRoutes(routes: seq<Route>) {
    forall i, j :: 0 <= i < j < |routes| ==> routes[i].name != routes[j].name
  }

  lemma OneRoute(routes: seq<Route>, a: Route, b: Route)
    requires DistinctRoutes(routes) && a in routes && b in routes && a.name == b.name
    ensures a == b
  {
    var i, j :| 0 <= i < |routes| && 0 <= j < |routes| && routes[i] == a && routes[j] == b;
  }

  /** Dropping more routes only takes targets away: a route refused stays refused. */
  lemma RefusedStaysRefused(raw: Raw, routes: seq<Route>, dropped: set<string>, more: set<string>, r: Route)
    requires dropped <= more && Refusal(raw, Targets(raw, routes, dropped), r).Some?
    ensures Refusal(raw, Targets(raw, routes, more), r).Some?
  {
    assert Targets(raw, routes, more) <= Targets(raw, routes, dropped);
  }

  /** What is known between trials: a route dropped has a problem, and a route
      with a problem is dropped or refused in every trial to come. */
  ghost predicate Known(raw: Raw, routes: seq<Route>, dropped: set<string>, problems: map<string, Problem>) {
    && (forall n :: n in dropped ==> n in problems && n in NamesOf(routes))
    && forall r :: r in routes && r.name in problems ==> r.name in dropped || Refusal(raw, Targets(raw, routes, dropped), r).Some?
  }

  /** After a trial every route is admitted or has a problem, never both. */
  lemma TrialSortsRoutes(raw: Raw, routes: seq<Route>, dropped: set<string>, problems: map<string, Problem>)
    requires DistinctRoutes(routes) && Known(raw, routes, dropped, problems)
    ensures var trial := Inject(raw, routes, dropped, problems);
      && Known(raw, routes, dropped, trial.problems)
      && forall r :: r in routes ==> (r.name in trial.admitted <==> r.name !in trial.problems)
  {
    var targets := Targets(raw, routes, dropped);
    var trial := Inject(raw, routes, dropped, problems);
    var admitted := Admitted(raw, targets, routes, dropped);
    AdmittedAre(raw, targets, routes, dropped);
    forall n ensures n in dropped ==> n in trial.problems { RefusalsAre(raw, targets, routes, dropped, problems, n); }
    forall r | r in routes
      ensures r.name in trial.admitted <==> r in admitted
      ensures r.name in trial.problems <==> r !in admitted
    {
      NamesAre(admitted, r.name);
      RefusalsAre(raw, targets, routes, dropped, problems, r.name);
      forall q | q in routes && q.name == r.name ensures q == r { OneRoute(routes, q, r); }
    }
  }

  lemma {:induction false} AdmittedNames(raw: Raw, targets: set<string>, routes: seq<Route>, dropped: set<string>,
      name: string)
    ensures name in NamesOf(Admitted(raw, targets, routes, dropped)) ==> name in NamesOf(routes) && name !in dropped
    decreases |routes|
  {
    if routes != [] { AdmittedNames(raw, targets, routes[1..], dropped, name); }
  }

  /** A route blamed was in the trial, so it had not been dropped before. */
  lemma {:induction false} BlamedWasIn(raw: Raw, routes: seq<Route>, dropped: set<string>,
      problems: map<string, Problem>, blame: Blame)
    requires OwnerOf(Inject(raw, routes, dropped, problems), blame).Some?
    ensures var owner := OwnerOf(Inject(raw, routes, dropped, problems), blame).value;
      owner in NamesOf(routes) && owner !in dropped
  {
    var trial := Inject(raw, routes, dropped, problems);
    var owner := OwnerOf(trial, blame).value;
    var targets := Targets(raw, routes, dropped);
    AdmittedAre(raw, targets, routes, dropped);
    OwnersAreAdmitted(Admitted(raw, targets, routes, dropped), owner);
    AdmittedNames(raw, targets, routes, dropped, owner);
  }

  lemma DroppingKeepsKnown(raw: Raw, routes: seq<Route>, dropped: set<string>, problems: map<string, Problem>,
      owner: string)
    requires Known(raw, routes, dropped, problems) && owner in NamesOf(routes)
    ensures Known(raw, routes, dropped + {owner}, problems[owner := Invalid])
  {
    forall r | r in routes && r.name in problems && r.name !in dropped
      ensures Refusal(raw, Targets(raw, routes, dropped + {owner}), r).Some?
    {
      RefusedStaysRefused(raw, routes, dropped, dropped + {owner}, r);
    }
  }

  // ---- the retry loop ----

  /** The problems once every route not yet known to have one is invalid. */
  function AllInvalid(routes: seq<Route>, problems: map<string, Problem>): map<string, Problem> {
    if routes == [] then problems
    else AllInvalid(routes[1..], if routes[0].name in problems then problems else problems[routes[0].name := Invalid])
  }

  lemma {:induction false} AllInvalidCovers(routes: seq<Route>, problems: map<string, Problem>)
    ensures forall n :: n in problems ==> n in AllInvalid(routes, problems)
    ensures forall r :: r in routes ==> r.name in AllInvalid(routes, problems)
    decreases |routes|
  {
    if routes != [] {
      AllInvalidCovers(routes[1..], if routes[0].name in problems then problems else problems[routes[0].name := Invalid]);
      assert forall r :: r in routes <==> r == routes[0] || r in routes[1..];
    }
  }

  /** A parse that succeeded carries, ahead of the config's own rules and in route
      order, the rules of exactly the routes without a problem. */
  ghost predicate Sorted(raw: Raw, routes: seq<Route>, o: Outcome) {
    o.Parsed? ==>
      && (forall r :: r in routes ==> (r.name in o.admitted <==> r.name !in o.problems))
      && exists admitted: seq<Route> ::
        && NamesOf(admitted) == o.admitted && Ordered(admitted, routes)
        && (forall k :: 0 <= k < |admitted| ==> admitted[k].matches.Some?)
        && o.raw == Raw(raw.proxies, raw.groups + OwnGroups(admitted), AllRules(admitted) + raw.rules)
  }

  /** The first list is the second with some left out. */
  predicate Ordered(some: seq<Route>, all: seq<Route>)
    decreases |all|
  {
    if all == [] then some == []
    else Ordered(some, all[1..]) || (some != [] && some[0] == all[0] && Ordered(some[1..], all[1..]))
  }

  lemma {:induction false} AdmittedInOrder(raw: Raw, targets: set<string>, routes: seq<Route>, dropped: set<string>)
    ensures Ordered(Admitted(raw, targets, routes, dropped), routes)
    decreases |routes|
  {
    if routes != [] { AdmittedInOrder(raw, targets, routes[1..], dropped); }
  }

  lemma SuccessIsSorted(raw: Raw, routes: seq<Route>, dropped: set<string>, problems: map<string, Problem>)
    requires DistinctRoutes(routes) && Known(raw, routes, dropped, problems)
    ensures var trial := Inject(raw, routes, dropped, problems);
      Sorted(raw, routes, Parsed(trial.raw, trial.admitted, trial.problems))
  {
    var targets := Targets(raw, routes, dropped);
    TrialSortsRoutes(raw, routes, dropped, problems);
    AdmittedAre(raw, targets, routes, dropped);
    AdmittedInOrder(raw, targets, routes, dropped);
  }

  lemma {:induction false} NothingIsOrdered(routes: seq<Route>)
    ensures Ordered([], routes)
    decreases |routes|
  {
    if routes != [] { NothingIsOrdered(routes[1..]); }
  }

  lemma PlainIsSorted(raw: Raw, routes: seq<Route>, problems: map<string, Problem>)
    requires forall r :: r in routes ==> r.name in problems
    ensures Sorted(raw, routes, Parsed(raw, [], problems))
  {
    NothingIsOrdered(routes);
    var none: seq<Route> := [];
    assert NamesOf(none) == [] && Ordered(none, routes);
    assert raw == Raw(raw.proxies, raw.groups + OwnGroups(none), AllRules(none) + raw.rules);
  }

  lemma NamesBound(routes: seq<Route>, dropped: set<string>, owner: string)
    requires owner in NamesOf(routes) && owner !in dropped
    ensures |(set n | n in NamesOf(routes)) - (dropped + {owner})| < |(set n | n in NamesOf(routes)) - dropped|
  {
    var all := set n | n in NamesOf(routes);
    assert all - dropped == (all - (dropped + {owner})) + {owner};
  }

  /** parseRouted: against any parser, whatever it blames at each attempt, the
      retries end, each drops a route that was still in, and a parse that succeeds
      has every route injected or explained, never both. A config that fails
      without routes fails all the same. */
  method ParseRouted(raw: Raw, routes: seq<Route>,
      parse: (nat, Raw) -> Option<Blame>) returns (outcome: Outcome, attempts: nat)
    requires DistinctRoutes(routes)
    ensures Sorted(raw, routes, outcome)
    ensures outcome.Parsed? ==> exists n: nat :: n <= attempts && parse(n, outcome.raw).None?
    ensures outcome.Failed? ==> exists n: nat :: n <= attempts && parse(n, raw).Some?
    ensures attempts <= |set n | n in NamesOf(routes)| + 1
  {
    var dropped: set<string> := {};
    var problems: map<string, Problem> := map[];
    attempts := 0;
    ghost var all := set n | n in NamesOf(routes);
    assert all - dropped == all;
    while true
      invariant Known(raw, routes, dropped, problems)
      invariant attempts + |all - dropped| <= |all|
      decreases |all - dropped|
    {
      var trial := Inject(raw, routes, dropped, problems);
      TrialSortsRoutes(raw, routes, dropped, problems);
      problems := trial.problems;
      var blame := parse(attempts, trial.raw);
      if blame.None? {
        TrialAgain(raw, routes, dropped, trial);
        return Parsed(trial.raw, trial.admitted, problems), attempts;
      }
      var owner := OwnerOf(trial, blame.value);
      if owner.None? {
        if trial.groups == [] && trial.owners == [] {
          NothingInjected(raw, routes, dropped, trial);
          return Failed, attempts;
        }
        problems := AllInvalid(routes, problems);
        AllInvalidCovers(routes, trial.problems);
        attempts := attempts + 1;
        if parse(attempts, raw).Some? { return Failed, attempts; }
        PlainIsSorted(raw, routes, problems);
        return Parsed(raw, [], problems), attempts;
      }
      BlamedInTrial(raw, routes, dropped, trial, blame.value);
      NamesBound(routes, dropped, owner.value);
      DroppingKeepsKnown(raw, routes, dropped, problems, owner.value);
      dropped := dropped + {owner.value};
      problems := problems[owner.value := Invalid];
      attempts := attempts + 1;
    }
  }

  /** A trial without groups and rules of routes is the config as read. */
  lemma NothingInjected(raw: Raw, routes: seq<Route>, dropped: set<string>, trial: Trial)
    requires exists problems :: trial == Inject(raw, routes, dropped, problems)
    requires trial.groups == [] && trial.owners == []
    ensures trial.raw == raw
  {
    var targets := Targets(raw, routes, dropped);
    var admitted := Admitted(raw, targets, routes, dropped);
    AdmittedAre(raw, targets, routes, dropped);
    OwnersAreAdmitted(admitted, "");
    assert AllRules(admitted) == [];
    assert [] + raw.rules == raw.rules && raw.groups + [] == raw.groups;
  }

  lemma TrialAgain(raw: Raw, routes: seq<Route>, dropped: set<string>, trial: Trial)
    requires DistinctRoutes(routes)
    requires exists problems :: Known(raw, routes, dropped, problems) && trial == Inject(raw, routes, dropped, problems)
    ensures Sorted(raw, routes, Parsed(trial.raw, trial.admitted, trial.problems))
  {
    var problems :| Known(raw, routes, dropped, problems) && trial == Inject(raw, routes, dropped, problems);
    SuccessIsSorted(raw, routes, dropped, problems);
  }

  lemma BlamedInTrial(raw: Raw, routes: seq<Route>, dropped: set<string>, trial: Trial, blame: Blame)
    requires exists problems :: trial == Inject(raw, routes, dropped, problems)
    requires OwnerOf(trial, blame).Some?
    ensures OwnerOf(trial, blame).value in NamesOf(routes) && OwnerOf(trial, blame).value !in dropped
  {
    var problems :| trial == Inject(raw, routes, dropped, problems);
    BlamedWasIn(raw, routes, dropped, problems, blame);
  }
}
