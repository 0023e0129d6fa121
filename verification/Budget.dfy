/** The byte budget of a speed test: reservations, what they consume and give back. */
module Budget {
  import opened Basics

  type byte = n: int | 0 <= n < 256

  datatype Direction = Probe | Download | Upload

  /** One reservation's books: its direction, what it was given and what is left. */
  datatype Share = Share(direction: Direction, amount: int, remaining: int, closed: bool)

  /** One count for each direction. */
  datatype Counts = Counts(probe: int, download: int, upload: int)
  {
    function Get(d: Direction): int { match d case Probe => probe case Download => download case Upload => upload }

    function Add(d: Direction, n: int): Counts {
      match d
      case Probe => this.(probe := probe + n)
      case Download => this.(download := download + n)
      case Upload => this.(upload := upload + n)
    }

    function Total(): int { probe + download + upload }
  }

  /** limits, used and reserved by direction, and every reservation ever made. */
  datatype Ledger = Ledger(limits: Counts, used: Counts, reserved: Counts, shares: seq<Share>)

  const ZERO := Counts(0, 0, 0)

  function Opened(limit: int): Ledger {
    var limit := Max(0, limit);
    var probe := Min(limit / 16, 512 * 1024);
    var half := (limit - probe) / 2;
    Ledger(Counts(probe, half, limit - probe - half), ZERO, ZERO, [])
  }

  function Available(l: Ledger, d: Direction): int
  {
    l.limits.Get(d) - l.used.Get(d) - l.reserved.Get(d)
  }

  /** How much a request is given, in whole units. */
  function Granted(l: Ledger, d: Direction, wanted: int, unit: int): int
  {
    var amount := Min(Max(wanted, 0), Available(l, d));
    if unit > 1 && amount >= 0 then amount / unit * unit else amount
  }

  function Reserved(l: Ledger, d: Direction, wanted: int, unit: int): Ledger
  {
    var amount := Granted(l, d, wanted, unit);
    if amount <= 0 then l
    else l.(reserved := l.reserved.Add(d, amount), shares := l.shares + [Share(d, amount, amount, false)])
  }

  predicate MayConsume(s: Share, count: int) { 0 <= count <= s.remaining && !s.closed }

  function Consumed(l: Ledger, id: nat, count: int): Ledger
    requires id < |l.shares|
  {
    var s := l.shares[id];
    if !MayConsume(s, count) then l
    else l.(reserved := l.reserved.Add(s.direction, -count),
            used := l.used.Add(s.direction, count),
            shares := l.shares[id := s.(remaining := s.remaining - count)])
  }

  function Released(l: Ledger, id: nat): Ledger
    requires id < |l.shares|
  {
    var s := l.shares[id];
    if s.closed then l
    else l.(reserved := l.reserved.Add(s.direction, -s.remaining),
            shares := l.shares[id := s.(remaining := 0, closed := true)])
  }

  // ---- conservation ----

  function Remaining(shares: seq<Share>, d: Direction): int {
    if shares == [] then 0
    else Remaining(shares[..|shares| - 1], d) + if shares[|shares| - 1].direction == d then shares[|shares| - 1].remaining else 0
  }

  predicate BalancedIn(l: Ledger, d: Direction) {
    l.reserved.Get(d) == Remaining(l.shares, d) && 0 <= l.reserved.Get(d) && 0 <= l.used.Get(d)
    && l.used.Get(d) + l.reserved.Get(d) <= l.limits.Get(d)
  }

  /** What is reserved is what the reservations still hold; nothing is overdrawn. */
  ghost predicate Balanced(l: Ledger, limit: int) {
    && (forall d: Direction :: BalancedIn(l, d))
    && (forall k :: 0 <= k < |l.shares| ==> 0 <= l.shares[k].remaining <= l.shares[k].amount)
    && (forall k :: 0 <= k < |l.shares| && l.shares[k].closed ==> l.shares[k].remaining == 0)
    && l.limits.Total() == Max(0, limit)
  }

  lemma OpenedIsBalanced(limit: int)
    ensures Balanced(Opened(limit), limit)
  {}

  lemma {:induction false} RemainingGrows(shares: seq<Share>, s: Share, d: Direction)
    ensures Remaining(shares + [s], d) == Remaining(shares, d) + if s.direction == d then s.remaining else 0
  {
    assert (shares + [s])[..|shares|] == shares;
  }

  lemma {:induction false} RemainingChanges(shares: seq<Share>, id: nat, left: int, closed: bool, d: Direction)
    requires id < |shares|
    ensures Remaining(shares[id := shares[id].(remaining := left, closed := closed)], d) ==
      Remaining(shares, d) + if shares[id].direction == d then left - shares[id].remaining else 0
    decreases |shares|
  {
    var n := |shares| - 1;
    var after := shares[id := shares[id].(remaining := left, closed := closed)];
    if id < n {
      RemainingChanges(shares[..n], id, left, closed, d);
      assert after[..n] == shares[..n][id := shares[id].(remaining := left, closed := closed)];
    } else {
      assert after[..n] == shares[..n];
    }
  }

  lemma {:induction false} RemainingHolds(shares: seq<Share>, id: nat)
    requires id < |shares| && forall k :: 0 <= k < |shares| ==> 0 <= shares[k].remaining
    ensures shares[id].remaining <= Remaining(shares, shares[id].direction)
    ensures forall d: Direction :: 0 <= Remaining(shares, d)
    decreases |shares|
  {
    var n := |shares| - 1;
    if n > 0 {
      RemainingHolds(shares[..n], if id < n then id else 0);
    }
  }

  lemma ReservingBalances(l: Ledger, limit: int, d: Direction, wanted: int, unit: int)
    requires Balanced(l, limit)
    ensures Balanced(Reserved(l, d, wanted, unit), limit)
  {
    var amount := Granted(l, d, wanted, unit);
    GrantedFits(l, d, wanted, unit);
    forall e: Direction ensures BalancedIn(Reserved(l, d, wanted, unit), e) {
      assert BalancedIn(l, e);
      RemainingGrows(l.shares, Share(d, amount, amount, false), e);
    }
  }

  /** A grant never exceeds what is wanted or available, and comes in whole units. */
  lemma GrantedFits(l: Ledger, d: Direction, wanted: int, unit: int)
    ensures Granted(l, d, wanted, unit) <= Max(wanted, 0)
    ensures Granted(l, d, wanted, unit) > 0 ==> Granted(l, d, wanted, unit) <= Available(l, d)
    ensures unit > 1 && Available(l, d) >= 0 ==> Granted(l, d, wanted, unit) % unit == 0
  {
    var amount := Min(Max(wanted, 0), Available(l, d));
    if unit > 1 && amount >= 0 { WholeUnits(amount, unit); }
  }

  lemma WholeUnits(amount: nat, unit: nat)
    requires unit > 1
    ensures 0 <= amount / unit * unit <= amount && (amount / unit * unit) % unit == 0
  {
    assert amount == (amount / unit) * unit + amount % unit;
    Remainder(amount / unit, 0, unit);
  }

  lemma ConsumingBalances(l: Ledger, limit: int, id: nat, count: int)
    requires Balanced(l, limit) && id < |l.shares|
    ensures Balanced(Consumed(l, id, count), limit)
  {
    var s := l.shares[id];
    RemainingHolds(l.shares, id);
    if MayConsume(s, count) {
      forall d: Direction ensures BalancedIn(Consumed(l, id, count), d) {
        assert BalancedIn(l, d);
        RemainingChanges(l.shares, id, s.remaining - count, s.closed, d);
      }
    }
  }

  lemma ReleasingBalances(l: Ledger, limit: int, id: nat)
    requires Balanced(l, limit) && id < |l.shares|
    ensures Balanced(Released(l, id), limit)
  {
    var s := l.shares[id];
    RemainingHolds(l.shares, id);
    if !s.closed {
      forall d: Direction ensures BalancedIn(Released(l, id), d) {
        assert BalancedIn(l, d);
        RemainingChanges(l.shares, id, 0, true, d);
      }
    }
  }

  datatype Op = Reserve(direction: Direction, wanted: int, unit: int) | Consume(id: nat, count: int) | Release(id: nat)

  function Applied(l: Ledger, op: Op): Ledger
  {
    match op
    case Reserve(d, wanted, unit) => Reserved(l, d, wanted, unit)
    case Consume(id, count) => if id < |l.shares| then Consumed(l, id, count) else l
    case Release(id) => if id < |l.shares| then Released(l, id) else l
  }

  function Run(l: Ledger, ops: seq<Op>): Ledger
    decreases |ops|
  {
    if ops == [] then l else Run(Applied(l, ops[0]), ops[1..])
  }

  lemma {:induction false} RunBalances(l: Ledger, limit: int, ops: seq<Op>)
    requires Balanced(l, limit)
    ensures Balanced(Run(l, ops), limit)
    decreases |ops|
  {
    if ops != [] {
      match ops[0] {
        case Reserve(d, wanted, unit) => ReservingBalances(l, limit, d, wanted, unit);
        case Consume(id, count) => if id < |l.shares| { ConsumingBalances(l, limit, id, count); }
        case Release(id) => if id < |l.shares| { ReleasingBalances(l, limit, id); }
      }
      RunBalances(Applied(l, ops[0]), limit, ops[1..]);
    }
  }

  /** Over any sequence of reservations, consumptions and releases, what is
      reserved in each direction is what the open reservations still hold, no
      direction is overdrawn, and what is spent never exceeds the byte limit. */
  lemma {:induction false} BytesAreConserved(limit: int, ops: seq<Op>)
    ensures var l := Run(Opened(limit), ops);
      && (forall d: Direction :: BalancedIn(l, d))
      && 0 <= l.used.Total() <= Max(0, limit)
  {
    OpenedIsBalanced(limit);
    RunBalances(Opened(limit), limit, ops);
    InEachDirection(Run(Opened(limit), ops), limit);
  }

  lemma InEachDirection(l: Ledger, limit: int)
    requires Balanced(l, limit)
    ensures 0 <= l.used.Total() <= Max(0, limit)
  {
    assert BalancedIn(l, Probe) && BalancedIn(l, Download) && BalancedIn(l, Upload);
  }

  // ---- the objects ----

  class SpeedTestBudget {
    var limits: Counts
    var used: Counts
    var reserved: Counts
    ghost var book: seq<Reservation>

    constructor (limit: int)
      ensures Value() == Opened(limit) && Valid()
    {
      var limit' := Max(0, limit);
      var probe := Min(limit' / 16, 512 * 1024);
      var remaining := limit' - probe;
      limits := Counts(probe, remaining / 2, remaining - remaining / 2);
      used, reserved, book := ZERO, ZERO, [];
    }

    ghost function Value(): Ledger
      reads this, book
    {
      Ledger(limits, used, reserved, seq(|book|, k requires 0 <= k < |book| reads this, book => book[k].Value()))
    }

    /** Every reservation made here knows its place in the book. */
    ghost predicate Valid()
      reads this, book
    {
      forall k :: 0 <= k < |book| ==> book[k].budget == this && book[k].id == k
    }

    method Reserve(direction: Direction, wanted: int, unit: int) returns (r: Reservation?)
      requires Valid()
      modifies this
      ensures Valid() && Value() == Reserved(old(Value()), direction, wanted, unit)
      ensures r == null <==> Granted(old(Value()), direction, wanted, unit) <= 0
      ensures r != null ==> fresh(r) && book == old(book) + [r]
      ensures r == null ==> book == old(book)
    {
      var available := limits.Get(direction) - used.Get(direction) - reserved.Get(direction);
      var amount := Min(Max(wanted, 0), available);
      if unit > 1 && amount >= 0 { amount := amount / unit * unit; }
      if amount <= 0 { return null; }
      reserved := reserved.Add(direction, amount);
      ghost var shares := Value().shares;
      r := new Reservation(this, direction, amount, |book|);
      book := book + [r];
      assert Value().shares == shares + [Share(direction, amount, amount, false)];
    }
  }

  class Reservation {
    const budget: SpeedTestBudget
    const direction: Direction
    const amount: int
    ghost const id: nat
    var remaining: int
    var closed: bool

    constructor (budget: SpeedTestBudget, direction: Direction, amount: int, ghost id: nat)
      ensures this.budget == budget && this.id == id && Value() == Share(direction, amount, amount, false)
    {
      this.budget, this.direction, this.amount, this.id := budget, direction, amount, id;
      remaining, closed := amount, false;
    }

    ghost function Value(): Share
      reads this
    {
      Share(direction, amount, remaining, closed)
    }

    ghost predicate Booked()
      reads this, budget, budget.book
    {
      budget.Valid() && id < |budget.book| && budget.book[id] == this
    }

    method Consume(count: int) returns (ok: bool)
      requires Booked()
      modifies this, budget`used, budget`reserved
      ensures Booked() && budget.book == old(budget.book)
      ensures budget.Value() == Consumed(old(budget.Value()), id, count)
      ensures ok == MayConsume(old(Value()), count)
      ensures Value() == if ok then old(Value()).(remaining := old(remaining) - count) else old(Value())
    {
      if count < 0 || closed || count > remaining { return false; }
      ghost var shares := budget.Value().shares;
      remaining := remaining - count;
      budget.reserved := budget.reserved.Add(direction, -count);
      budget.used := budget.used.Add(direction, count);
      assert budget.Value().shares == shares[id := Value()];
      ok := true;
    }

    method Release()
      requires Booked()
      modifies this, budget`reserved
      ensures Booked() && budget.book == old(budget.book)
      ensures budget.Value() == Released(old(budget.Value()), id)
    {
      if !closed {
        ghost var shares := budget.Value().shares;
        budget.reserved := budget.reserved.Add(direction, -remaining);
        remaining := 0;
        closed := true;
        assert budget.Value().shares == shares[id := Value()];
      }
    }
  }

  /** The k-th byte of the endlessly repeated payload. */
  function Ring(payload: seq<byte>, k: nat): byte
    requires payload != []
  {
    payload[k % |payload|]
  }

  /** The bytes of the endlessly repeated payload from the start-th on. */
  function Yield(payload: seq<byte>, start: nat, count: nat): (r: seq<byte>)
    requires payload != []
    ensures |r| == count
  {
    if count == 0 then [] else Yield(payload, start, count - 1) + [Ring(payload, start + count - 1)]
  }

  lemma {:induction false} YieldAt(payload: seq<byte>, start: nat, count: nat, k: nat)
    requires payload != [] && k < count
    ensures Yield(payload, start, count)[k] == payload[(start + k) % |payload|]
    decreases count
  {
    if k < count - 1 { YieldAt(payload, start, count - 1, k); }
  }

  /** From a place on the ring it is the same as from any number of rounds later. */
  lemma {:induction false} YieldFromRing(payload: seq<byte>, start: nat, count: nat)
    requires payload != []
    ensures Yield(payload, start % |payload|, count) == Yield(payload, start, count)
    decreases count
  {
    if count > 0 {
      YieldFromRing(payload, start, count - 1);
      Stepping(start, count - 1, |payload|);
    }
  }

  /** Up to the end of the payload it is a piece of the payload. */
  lemma {:induction false} YieldGrows(payload: seq<byte>, start: nat, count: nat, n: nat)
    requires payload != []
    requires var offset := (start + count) % |payload|; offset + n <= |payload|
    ensures var offset := (start + count) % |payload|;
      Yield(payload, start, count + n) == Yield(payload, start, count) + payload[offset..offset + n]
    decreases n
  {
    var offset := (start + count) % |payload|;
    if n > 0 {
      YieldGrows(payload, start, count, n - 1);
      Stepping(start + count, n - 1, |payload|);
      Remainder(0, offset + (n - 1), |payload|);
      assert payload[offset..offset + n] == payload[offset..offset + (n - 1)] + [payload[offset + (n - 1)]];
    }
  }

  /** The upload's body: the payload over and over, no further than its reservation. */
  class UploadBody {
    const payload: seq<byte>
    const reservation: Reservation
    var offset: nat
    var sent: nat
    var closed: bool

    constructor (payload: seq<byte>, reservation: Reservation)
      requires payload != [] && reservation.remaining == reservation.amount >= 0
      ensures this.payload == payload && this.reservation == reservation && sent == 0 && !closed && InStep()
    {
      this.payload, this.reservation := payload, reservation;
      offset, sent, closed := 0, 0, false;
      new;
      Remainder(0, 0, |payload|);
    }

    /** The offset follows what was sent for as long as the reservation is open. */
    ghost predicate InStep()
      reads this, reservation
    {
      && offset < |payload|
      && (!reservation.closed ==> offset == sent % |payload| && reservation.remaining == reservation.amount - sent >= 0)
    }

    /** What the body yields goes on where it left off: its k-th byte is
        payload[k mod len], and there are at most amount in all. */
    method Read(buffer: array<byte>) returns (count: nat, ok: bool)
      requires InStep() && reservation.Booked()
      modifies this`offset, this`sent, buffer, reservation, reservation.budget`used, reservation.budget`reserved
      ensures InStep() && reservation.Booked()
      ensures ok <==> !closed && old(sent) != reservation.amount && !old(reservation.closed)
      ensures ok ==> count == Min(buffer.Length, reservation.amount - old(sent))
      ensures ok ==> sent == old(sent) + count <= reservation.amount
      ensures ok ==> buffer[..count] == Yield(payload, old(sent), count)
      ensures ok ==> forall k :: 0 <= k < count ==> buffer[k] == Ring(payload, old(sent) + k)
      ensures !ok ==> count == 0 && sent == old(sent)
    {
      if closed || sent == reservation.amount { return 0, false; }
      count := Min(buffer.Length, Max(reservation.amount - sent, 0));
      Fill(buffer, count);
      ok := reservation.Consume(count);
      if !ok { return 0, false; }
      YieldFromRing(payload, sent, count);
      forall k | 0 <= k < count ensures buffer[k] == Ring(payload, sent + k) {
        YieldAt(payload, sent, count, k);
        assert buffer[..count][k] == buffer[k];
      }
      Stepping(sent, count, |payload|);
      sent := sent + count;
    }

    /** Copies payload from the offset on, round and round. */
    method Fill(buffer: array<byte>, count: nat)
      requires offset < |payload| && count <= buffer.Length
      modifies this`offset, buffer
      ensures offset == (old(offset) + count) % |payload| && offset < |payload|
      ensures buffer[..count] == Yield(payload, old(offset), count)
    {
      var written := 0;
      ghost var start := offset;
      Remainder(0, start, |payload|);
      while written < count
        invariant written <= count && offset == (start + written) % |payload|
        invariant buffer[..written] == Yield(payload, start, written)
      {
        var n := CopyFrom(buffer, written, count);
        YieldGrows(payload, start, written, n);
        Stepping(start + written, n, |payload|);
        written := written + n;
        offset := (offset + n) % |payload|;
      }
    }

    /** copy: as much of the payload from the offset as fits. */
    method CopyFrom(buffer: array<byte>, written: nat, count: nat) returns (n: nat)
      requires offset < |payload| && written < count <= buffer.Length
      modifies buffer
      ensures n == Min(count - written, |payload| - offset) && n > 0
      ensures buffer[..written + n] == old(buffer[..written]) + payload[offset..offset + n]
    {
      n := Min(count - written, |payload| - offset);
      forall k | 0 <= k < n { buffer[written + k] := payload[offset + k]; }
    }
  }

  /** Stepping k on from x, around a ring of n. */
  lemma Stepping(x: nat, k: nat, n: nat)
    requires n > 0
    ensures (x + k) % n == (x % n + k) % n
  {
    var m := x % n + k;
    assert x == (x / n) * n + x % n;
    assert m == (m / n) * n + m % n;
    assert (x / n + m / n) * n == (x / n) * n + (m / n) * n;
    Remainder(x / n + m / n, m % n, n);
  }

  lemma Order(a: int, b: int, n: nat)
    ensures a > b ==> a * n >= b * n + n
  {
    if a > b {
      assert (a - b - 1) * n >= 0;
      assert (a - b - 1) * n == a * n - b * n - n;
    }
  }

  lemma Remainder(q: nat, r: nat, n: nat)
    requires r < n
    ensures (q * n + r) % n == r
  {
    var x := q * n + r;
    assert x == (x / n) * n + x % n;
    Order(x / n, q, n);
    Order(q, x / n, n);
  }
}
