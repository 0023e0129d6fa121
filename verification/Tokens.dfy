/** What the engine may spend on checks: a token bucket per kind of check and a
    cap on the day's bytes. Hours and tokens are reals. */
module Tokens {
  import opened Basics

  /** What a number of requests is taken to cost: 6 KiB each. */
  function CostOf(requests: int): int { requests * 6144 }

  const DAILY_CAP_BYTES := 0x140_0000   // 20 MiB

  datatype Purse = Maintain | Discover | Recover | Network | User

  /** A bucket that was never used has no time. */
  datatype Tokens = Tokens(tokens: real, at: Option<real>)

  function MinReal(a: real, b: real): real { if a < b then a else b }

  // ---- one bucket ----

  /** What a bucket gains in a stretch of time. */
  function Gain(from: real, to: real, rate: real): real { (to - from) * rate }

  function Filled(b: Tokens, rate: real, now: real): real {
    if b.at.None? then rate else MinReal(b.tokens + Gain(b.at.value, now, rate), rate)
  }

  /** take. */
  function Took(b: Tokens, rate: real, now: real): (Tokens, bool) {
    if rate <= 0.0 then (b, false)
    else
      var filled := Filled(b, rate, now);
      if filled < 1.0 then (Tokens(filled, Some(now)), false) else (Tokens(filled - 1.0, Some(now)), true)
  }

  /** How many of the requests made at these times are granted, and the bucket after. */
  function Run(b: Tokens, rate: real, times: seq<real>): (Tokens, nat)
    decreases |times|
  {
    if times == [] then (b, 0)
    else
      var (b', granted) := Took(b, rate, times[0]);
      var (last, more) := Run(b', rate, times[1..]);
      (last, (if granted then 1 else 0) + more)
  }

  predicate InOrder(from: real, times: seq<real>, until: real)
    decreases |times|
  {
    if times == [] then from <= until else from <= times[0] && InOrder(times[0], times[1..], until)
  }

  predicate Solvent(b: Tokens) { b.at.Some? ==> b.tokens >= 0.0 }

  lemma GainsForward(from: real, to: real, rate: real)
    requires from <= to && rate > 0.0
    ensures Gain(from, to, rate) >= 0.0
  {}

  lemma GainsAddUp(t0: real, t1: real, t2: real, rate: real)
    ensures Gain(t0, t2, rate) == Gain(t0, t1, rate) + Gain(t1, t2, rate)
  {}

  lemma FilledIsBounded(b: Tokens, rate: real, now: real)
    requires Solvent(b) && rate > 0.0 && (b.at.Some? ==> b.at.value <= now)
    ensures 0.0 <= Filled(b, rate, now) <= rate
    ensures b.at.Some? ==> Filled(b, rate, now) <= b.tokens + Gain(b.at.value, now, rate)
  {
    if b.at.Some? {
      GainsForward(b.at.value, now, rate);
      var gained := Gain(b.at.value, now, rate);
      assert b.tokens + gained >= 0.0;
    }
  }

  /** A use leaves a bucket solvent and costs what it grants. */
  lemma TookStaysSolvent(b: Tokens, rate: real, now: real)
    requires Solvent(b) && rate > 0.0 && (b.at.Some? ==> b.at.value <= now)
    ensures var (b', granted) := Took(b, rate, now);
      && b'.at == Some(now) && b'.tokens >= 0.0
      && b'.tokens + Cost(granted) <= rate
      && (b.at.Some? ==> b'.tokens + Cost(granted) <= b.tokens + Gain(b.at.value, now, rate))
  {
    FilledIsBounded(b, rate, now);
  }

  function Cost(granted: bool): real { if granted then 1.0 else 0.0 }

  lemma RunStep(b: Tokens, rate: real, times: seq<real>)
    requires times != []
    ensures var (b', granted) := Took(b, rate, times[0]);
      Run(b, rate, times).1 as real == Cost(granted) + Run(b', rate, times[1..]).1 as real
  {}

  /** A bucket in use grants no more than what it holds and what it gains. */
  lemma {:induction false} GrantsAreCovered(b: Tokens, rate: real, times: seq<real>, at: real, until: real)
    requires b.at == Some(at) && b.tokens >= 0.0 && rate > 0.0 && InOrder(at, times, until)
    ensures Run(b, rate, times).1 as real <= b.tokens + Gain(at, until, rate)
    ensures at <= until
    decreases |times|
  {
    if times == [] {
      GainsForward(at, until, rate);
    } else {
      TookStaysSolvent(b, rate, times[0]);
      RunStep(b, rate, times);
      GrantsAreCovered(Took(b, rate, times[0]).0, rate, times[1..], times[0], until);
      GainsAddUp(at, times[0], until, rate);
    }
  }

  /** Whatever a bucket held before, and however it was used, over any stretch
      from t0 to t1 it grants at most r + (t1 - t0) r requests at rate r. */
  lemma GrantsAreRationed(b: Tokens, rate: real, times: seq<real>, t0: real, t1: real)
    requires Solvent(b) && rate > 0.0 && InOrder(t0, times, t1) && (b.at.Some? ==> b.at.value <= t0)
    ensures Run(b, rate, times).1 as real <= rate + Gain(t0, t1, rate)
  {
    if times == [] {
      GainsForward(t0, t1, rate);
    } else {
      TookStaysSolvent(b, rate, times[0]);
      RunStep(b, rate, times);
      GrantsAreCovered(Took(b, rate, times[0]).0, rate, times[1..], times[0], t1);
      GainsForward(t0, times[0], rate);
      GainsAddUp(t0, times[0], t1, rate);
    }
  }

  /** A bucket stays solvent through any run, so the bound holds of every stretch of it. */
  lemma {:induction false} RunStaysSolvent(b: Tokens, rate: real, times: seq<real>, from: real, until: real)
    requires Solvent(b) && rate > 0.0 && InOrder(from, times, until) && (b.at.Some? ==> b.at.value <= from)
    ensures Solvent(Run(b, rate, times).0)
    ensures (Run(b, rate, times).0.at.Some? ==> Run(b, rate, times).0.at.value <= until)
    ensures from <= until
    decreases |times|
  {
    if times != [] {
      TookStaysSolvent(b, rate, times[0]);
      RunStaysSolvent(Took(b, rate, times[0]).0, rate, times[1..], times[0], until);
    }
  }

  /** Before and after: of a longer run, the requests made from t0 to t1. */
  lemma EveryStretchIsRationed(b: Tokens, rate: real, before: seq<real>, times: seq<real>, start: real, t0: real,
      t1: real)
    requires Solvent(b) && rate > 0.0 && (b.at.Some? ==> b.at.value <= start)
    requires InOrder(start, before, t0) && InOrder(t0, times, t1)
    ensures Run(Run(b, rate, before).0, rate, times).1 as real <= rate + Gain(t0, t1, rate)
  {
    RunStaysSolvent(b, rate, before, start, t0);
    GrantsAreRationed(Run(b, rate, before).0, rate, times, t0, t1);
  }

  // ---- the day ----

  /** The day's books; bought counts the purchases from a purse, apart from what
      answers were found to have cost beyond theirs. */
  datatype Day = Day(day: string, requests: nat, bytes: nat, byPurse: Counts, bought: Counts)

  /** A count for each purse. */
  datatype Counts = Counts(maintain: nat, discover: nat, recover: nat, network: nat, user: nat)
  {
    function Get(p: Purse): nat {
      match p
      case Maintain => maintain
      case Discover => discover
      case Recover => recover
      case Network => network
      case User => user
    }

    function Add(p: Purse, n: nat): Counts {
      match p
      case Maintain => this.(maintain := maintain + n)
      case Discover => this.(discover := discover + n)
      case Recover => this.(recover := recover + n)
      case Network => this.(network := network + n)
      case User => this.(user := user + n)
    }

    function Total(): nat { maintain + discover + recover + network + user }

    /** Those the daily cap rations. */
    function Rationed(): nat { maintain + discover + network }
  }

  const NONE := Counts(0, 0, 0, 0, 0)

  datatype Wallet = Wallet(purses: map<Purse, Tokens>, day: Day)

  function NewDay(day: string): Day { Day(day, 0, 0, NONE, NONE) }

  /** charge. */
  function Charged(d: Day, purse: Purse, requests: int): Day {
    if requests <= 0 then d
    else d.(requests := d.requests + requests, bytes := d.bytes + CostOf(requests),
            byPurse := d.byPurse.Add(purse, requests))
  }

  function PurseOf(w: Wallet, purse: Purse): Tokens { if purse in w.purses then w.purses[purse] else Tokens(0.0, None) }

  /** The day's books, new ones on a new day. */
  function Today(d: Day, today: string): Day { if d.day != today then NewDay(today) else d }

  function Bought(d: Day, purse: Purse): Day {
    var paid := Charged(d, purse, 1);
    paid.(bought := paid.bought.Add(purse, 1))
  }

  predicate MaySpend(d: Day, purse: Purse) { d.bytes < DAILY_CAP_BYTES || purse == User || purse == Recover }

  /** take, which the user's purse is spared. */
  function Drawn(b: Tokens, purse: Purse, rate: real, now: real): (Tokens, bool) {
    if purse == User then (b, true) else Took(b, rate, now)
  }

  /** spend: past the daily cap only the user and failure recovery may still spend. */
  function Spent(w: Wallet, purse: Purse, rate: real, today: string, now: real): (Wallet, bool) {
    var day := Today(w.day, today);
    if !MaySpend(day, purse) then (w.(day := day), false)
    else
      var (tokens, granted) := Drawn(PurseOf(w, purse), purse, rate, now);
      (Wallet(w.purses[purse := tokens], if granted then Bought(day, purse) else day), granted)
  }

  /** The most rationed purchases one day can hold: the cap over the cost, rounded up. */
  const DAILY_PURCHASES := 3414

  /** The books of a day agree: bytes with requests, purses with their sum, and
      no rationed purchase was made past the cap. */
  predicate Books(d: Day) {
    && d.bytes == CostOf(d.requests)
    && d.requests == d.byPurse.Total()
    && (forall p: Purse :: d.bought.Get(p) <= d.byPurse.Get(p))
    && d.bought.Rationed() <= DAILY_PURCHASES
  }

  lemma ChargingKeepsBooks(d: Day, purse: Purse, requests: int)
    requires Books(d)
    ensures Books(Charged(d, purse, requests)) && Charged(d, purse, requests).bought == d.bought
  {
    if requests > 0 {
      forall p: Purse ensures d.bought.Get(p) <= d.byPurse.Add(purse, requests).Get(p) {
        assert d.bought.Get(p) <= d.byPurse.Get(p);
      }
    }
  }

  /** Below the cap there is room for one more purchase. */
  lemma RoomBelowTheCap(d: Day)
    requires Books(d) && d.bytes < DAILY_CAP_BYTES
    ensures d.bought.Rationed() < DAILY_PURCHASES
  {
    assert d.bought.Get(Maintain) <= d.byPurse.Get(Maintain);
    assert d.bought.Get(Discover) <= d.byPurse.Get(Discover);
    assert d.bought.Get(Network) <= d.byPurse.Get(Network);
    assert CostOf(d.requests) < CostOf(DAILY_PURCHASES);
  }

  lemma BuyingKeepsBooks(d: Day, purse: Purse)
    requires Books(d) && MaySpend(d, purse)
    ensures Books(Bought(d, purse))
  {
    if d.bytes < DAILY_CAP_BYTES { RoomBelowTheCap(d); }
    forall p: Purse ensures d.bought.Add(purse, 1).Get(p) <= d.byPurse.Add(purse, 1).Get(p) {
      assert d.bought.Get(p) <= d.byPurse.Get(p);
    }
  }

  /** A new day's books agree. */
  lemma NewDayKeepsBooks(today: string)
    ensures Books(NewDay(today))
  {
    forall p: Purse ensures NONE.Get(p) <= NONE.Get(p) {}
  }

  lemma TodayKeepsBooks(d: Day, today: string)
    requires Books(d)
    ensures Books(Today(d, today))
  {
    if d.day != today { NewDayKeepsBooks(today); }
  }

  lemma SpentDay(w: Wallet, purse: Purse, rate: real, today: string, now: real)
    ensures var day := Today(w.day, today); var after := Spent(w, purse, rate, today, now).0.day;
      after == day || (MaySpend(day, purse) && after == Bought(day, purse))
  {}

  lemma DayKeepsBooks(d: Day, after: Day, purse: Purse)
    requires Books(d) && (after == d || (MaySpend(d, purse) && after == Bought(d, purse)))
    ensures Books(after)
  {
    if MaySpend(d, purse) { BuyingKeepsBooks(d, purse); }
  }

  lemma SpendingKeepsBooks(w: Wallet, purse: Purse, rate: real, today: string, now: real)
    requires Books(w.day)
    ensures Books(Spent(w, purse, rate, today, now).0.day)
  {
    TodayKeepsBooks(w.day, today);
    SpentDay(w, purse, rate, today, now);
    DayKeepsBooks(Today(w.day, today), Spent(w, purse, rate, today, now).0.day, purse);
  }

  datatype Event = Spend(purse: Purse, rate: real, today: string, now: real) | Charge(purse: Purse, requests: int)

  function Happened(w: Wallet, e: Event): Wallet {
    match e
    case Spend(purse, rate, today, now) => Spent(w, purse, rate, today, now).0
    case Charge(purse, requests) => w.(day := Charged(w.day, purse, requests))
  }

  function Live(w: Wallet, events: seq<Event>): Wallet
    decreases |events|
  {
    if events == [] then w else Live(Happened(w, events[0]), events[1..])
  }

  lemma {:induction false} LivingKeepsBooks(w: Wallet, events: seq<Event>)
    requires Books(w.day)
    ensures Books(Live(w, events).day)
    decreases |events|
  {
    if events != [] {
      match events[0] {
        case Spend(purse, rate, today, now) => SpendingKeepsBooks(w, purse, rate, today, now);
        case Charge(purse, requests) => ChargingKeepsBooks(w.day, purse, requests);
      }
      LivingKeepsBooks(Happened(w, events[0]), events[1..]);
    }
  }

  /** From any books that agree, such as a new day's, through any sequence of purchases and later charges, over any days: bytes
      are requests at their fixed cost, the purses add up to the requests, and the
      checks to maintain, discover and diagnose bought in a day are at most 3414. */
  lemma {:induction false} TheDayIsCapped(w: Wallet, events: seq<Event>)
    requires Books(w.day)
    ensures var d := Live(w, events).day;
      d.bytes == CostOf(d.requests) && d.requests == d.byPurse.Total() && d.bought.Rationed() <= DAILY_PURCHASES
    ensures CostOf(DAILY_PURCHASES - 1) < DAILY_CAP_BYTES <= CostOf(DAILY_PURCHASES)
  {
    LivingKeepsBooks(w, events);
  }

  // ---- as it runs ----

  class TokenBucket {
    var tokens: real
    var at: Option<real>

    constructor ()
      ensures Value() == Tokens(0.0, None)
    {
      tokens, at := 0.0, None;
    }

    function Value(): Tokens
      reads this
    {
      Tokens(tokens, at)
    }

    method Take(rate: real, now: real) returns (granted: bool)
      modifies this
      ensures (Value(), granted) == Took(old(Value()), rate, now)
    {
      if rate <= 0.0 { return false; }
      if at.Some? {
        tokens := tokens + (now - at.value) * rate;
      } else {
        tokens := rate;
      }
      tokens := MinReal(tokens, rate);
      at := Some(now);
      if tokens < 1.0 { return false; }
      tokens := tokens - 1.0;
      granted := true;
    }
  }

  /** The engine's budget. */
  class ProbeBudget {
    var purses: map<Purse, Tokens>
    var day: Day

    constructor (today: string)
      ensures Value() == Wallet(map[], NewDay(today))
    {
      purses, day := map[], NewDay(today);
    }

    function Value(): Wallet
      reads this
    {
      Wallet(purses, day)
    }

    method Spend(purse: Purse, rate: real, today: string, now: real) returns (granted: bool)
      modifies this
      ensures (Value(), granted) == Spent(old(Value()), purse, rate, today, now)
    {
      if day.day != today { day := NewDay(today); }
      if day.bytes >= DAILY_CAP_BYTES && purse != User && purse != Recover { return false; }
      var tokens := if purse in purses then purses[purse] else Tokens(0.0, None);
      granted := true;
      if purse != User {
        var drawn := Took(tokens, rate, now);
        tokens, granted := drawn.0, drawn.1;
      }
      purses := purses[purse := tokens];
      if granted {
        Charge(purse, 1);
        day := day.(bought := day.bought.Add(purse, 1));
      }
    }

    method Charge(purse: Purse, requests: int)
      modifies this`day
      ensures day == Charged(old(day), purse, requests)
    {
      if requests <= 0 { return; }
      day := day.(requests := day.requests + requests, bytes := day.bytes + CostOf(requests));
      day := day.(byPurse := day.byPurse.Add(purse, requests));
    }
  }
}
