/** The message batcher: three queues in, batches out, bulk never starved. */
module Batcher {
  import opened Basics

  const BATCH_SIZE := 32
  const PRIORITY_BURST := 8

  datatype Queue = StateQueue | PriorityQueue | BulkQueue

  /** A message, marked with the queue it came through. */
  datatype Message = Message(queue: Queue, body: string)

  /** What a receive finds: nothing ready, a message, or the queue closed. */
  datatype Got = Nothing | Item(body: string) | Closed

  /** What the last, blocking select of a turn settles on. */
  datatype Choice = From(queue: Queue, got: Got) | Deadline

  /** What the receives of one turn of the loop find, each if it is reached. */
  datatype Turn = Turn(first: Got, bulk: Got, priority: Got, last: Choice)

  /** What the log keeps besides messages: when the bulk queue was seen empty. */
  datatype Event = Took(message: Message) | SawBulkEmpty

  datatype Batches = Batches(
    open: set<Queue>, batch: seq<Message>, armed: bool, burst: nat, sent: seq<seq<Message>>, log: seq<Event>)

  const FRESH := Batches({StateQueue, PriorityQueue, BulkQueue}, [], false, 0, [], [])

  function Flushed(b: Batches): Batches {
    if b.batch == [] then b else b.(batch := [], armed := false, sent := b.sent + [b.batch])
  }

  function Added(b: Batches, m: Message): Batches {
    var grown := b.(batch := b.batch + [m], armed := b.armed || b.batch == [], log := b.log + [Took(m)]);
    if |grown.batch| >= BATCH_SIZE then Flushed(grown) else grown
  }

  /** take: a closed queue never wins again. */
  function Taken(b: Batches, queue: Queue, got: Got): Batches
    requires got != Nothing
  {
    match got
    case Closed => b.(open := b.open - {queue})
    case Item(body) => Added(b, Message(queue, body))
  }

  function Counted(b: Batches, got: Got): Batches { if got.Item? then b.(burst := b.burst + 1) else b }

  /** The blocking select, where it can settle on this choice. */
  function Chosen(b: Batches, choice: Choice): Option<Batches> {
    match choice
    case Deadline => if b.armed then Some(Flushed(b)) else None
    case From(queue, got) =>
      if queue !in b.open || got == Nothing then None
      else match queue
        case StateQueue => Some(Taken(b, queue, got))
        case PriorityQueue => Some(Counted(Taken(b, queue, got), got))
        case BulkQueue => Some(Taken(b, queue, got).(burst := 0))
  }

  /** From the priority receive on. */
  function AfterBulk(b: Batches, turn: Turn): Option<Batches> {
    if PriorityQueue in b.open && turn.priority != Nothing then
      Some(Counted(Taken(b, PriorityQueue, turn.priority), turn.priority))
    else Chosen(b, turn.last)
  }

  /** One turn of the loop. */
  function Turned(b: Batches, turn: Turn): Option<Batches> {
    if b.open == {} then None
    else if StateQueue in b.open && turn.first != Nothing then Some(Taken(b, StateQueue, turn.first))
    else if b.burst >= PRIORITY_BURST && BulkQueue in b.open then
      if turn.bulk != Nothing then Some(Taken(b.(burst := 0), BulkQueue, turn.bulk))
      else AfterBulk(b.(burst := 0, log := b.log + [SawBulkEmpty]), turn)
    else AfterBulk(b, turn)
  }

  function Run(b: Batches, turns: seq<Turn>): Option<Batches>
    decreases |turns|
  {
    if turns == [] then Some(b)
    else match Turned(b, turns[0])
      case None => None
      case Some(b') => Run(b', turns[1..])
  }

  // ---- the batcher as it runs ----

  class MessageBatcher {
    var open: set<Queue>
    var batch: seq<Message>
    var armed: bool
    var burst: nat
    var sent: seq<seq<Message>>
    ghost var log: seq<Event>

    constructor ()
      ensures Value() == FRESH
    {
      open := {StateQueue, PriorityQueue, BulkQueue};
      batch, armed, burst, sent, log := [], false, 0, [], [];
    }

    ghost function Value(): Batches
      reads this
    {
      Batches(open, batch, armed, burst, sent, log)
    }

    method Flush()
      modifies this
      ensures Value() == Flushed(old(Value()))
    {
      if |batch| == 0 { return; }
      armed := false;
      var current := batch;
      batch := [];
      sent := sent + [current];
    }

    method Take(queue: Queue, got: Got) returns (took: bool)
      requires got != Nothing
      modifies this
      ensures Value() == Taken(old(Value()), queue, got) && took == got.Item?
    {
      if got == Closed {
        open := open - {queue};
        return false;
      }
      if |batch| == 0 { armed := true; }
      batch := batch + [Message(queue, got.body)];
      log := log + [Took(Message(queue, got.body))];
      if |batch| >= BATCH_SIZE { Flush(); }
      took := true;
    }

    method Priority(got: Got)
      requires got != Nothing
      modifies this
      ensures Value() == Counted(Taken(old(Value()), PriorityQueue, got), got)
    {
      var took := Take(PriorityQueue, got);
      if took { burst := burst + 1; }
    }

    /** One turn; possible tells whether the blocking select can settle so. */
    method Step(turn: Turn) returns (possible: bool)
      requires open != {}
      modifies this
      ensures possible == Turned(old(Value()), turn).Some?
      ensures possible ==> Value() == Turned(old(Value()), turn).value
    {
      var took;
      if StateQueue in open && turn.first != Nothing {
        took := Take(StateQueue, turn.first);
        return true;
      }
      if burst >= PRIORITY_BURST && BulkQueue in open {
        burst := 0;
        if turn.bulk != Nothing {
          took := Take(BulkQueue, turn.bulk);
          return true;
        }
        log := log + [SawBulkEmpty];
      }
      if PriorityQueue in open && turn.priority != Nothing {
        Priority(turn.priority);
        return true;
      }
      possible := Select(turn.last);
    }

    method Select(choice: Choice) returns (possible: bool)
      modifies this
      ensures possible == Chosen(old(Value()), choice).Some?
      ensures possible ==> Value() == Chosen(old(Value()), choice).value
    {
      var took;
      match choice {
        case Deadline =>
          if !armed { return false; }
          Flush();
        case From(queue, got) =>
          if queue !in open || got == Nothing { return false; }
          match queue {
            case StateQueue => took := Take(queue, got);
            case PriorityQueue => Priority(got);
            case BulkQueue =>
              took := Take(queue, got);
              burst := 0;
          }
      }
      possible := true;
    }
  }

  // ---- what every run keeps ----

  function Concat(batches: seq<seq<Message>>): seq<Message> {
    if batches == [] then [] else Concat(batches[..|batches| - 1]) + batches[|batches| - 1]
  }

  /** The messages the log says were received, in order. */
  function Received(log: seq<Event>): seq<Message> {
    if log == [] then []
    else Received(log[..|log| - 1]) + match log[|log| - 1] case Took(m) => [m] case SawBulkEmpty => []
  }

  /** Priority messages taken since the bulk queue was last served or seen empty. */
  function SinceBulk(log: seq<Event>): nat {
    if log == [] then 0
    else match log[|log| - 1]
      case SawBulkEmpty => 0
      case Took(m) =>
        if m.queue == BulkQueue then 0 else (if m.queue == PriorityQueue then 1 else 0) + SinceBulk(log[..|log| - 1])
  }

  ghost predicate Inv(b: Batches) {
    && Concat(b.sent) + b.batch == Received(b.log)
    && |b.batch| < BATCH_SIZE
    && (forall k :: 0 <= k < |b.sent| ==> 1 <= |b.sent[k]| <= BATCH_SIZE)
    && (b.armed <==> b.batch != [])
    && (BulkQueue in b.open ==> SinceBulk(b.log) <= b.burst <= PRIORITY_BURST)
  }

  lemma FlushedKeeps(b: Batches)
    requires Concat(b.sent) + b.batch == Received(b.log) && |b.batch| <= BATCH_SIZE
    requires forall k :: 0 <= k < |b.sent| ==> 1 <= |b.sent[k]| <= BATCH_SIZE
    requires b.armed <==> b.batch != []
    ensures var f := Flushed(b);
      && f.batch == [] && !f.armed && Concat(f.sent) == Received(b.log)
      && (forall k :: 0 <= k < |f.sent| ==> 1 <= |f.sent[k]| <= BATCH_SIZE)
      && f == b.(batch := [], armed := false, sent := f.sent)
  {
    if b.batch == [] {
      assert Concat(b.sent) + [] == Concat(b.sent);
    } else {
      assert (b.sent + [b.batch])[..|b.sent|] == b.sent;
    }
  }

  lemma LogGrows(log: seq<Event>, e: Event)
    ensures (log + [e])[..|log|] == log
    ensures Received(log + [e]) == Received(log) + match e case Took(m) => [m] case SawBulkEmpty => []
  {}

  /** A message taken keeps all but the burst's bound, which is the caller's. */
  lemma AddedKeeps(b: Batches, m: Message)
    requires Inv(b)
    ensures var a := Added(b, m);
      && Concat(a.sent) + a.batch == Received(a.log) && |a.batch| < BATCH_SIZE
      && (forall k :: 0 <= k < |a.sent| ==> 1 <= |a.sent[k]| <= BATCH_SIZE)
      && (a.armed <==> a.batch != [])
      && a.log == b.log + [Took(m)] && a.burst == b.burst && a.open == b.open
  {
    LogGrows(b.log, Took(m));
    var grown := b.(batch := b.batch + [m], armed := b.armed || b.batch == [], log := b.log + [Took(m)]);
    assert Concat(b.sent) + b.batch + [m] == Concat(b.sent) + (b.batch + [m]);
    FlushedKeeps(grown);
    assert Concat(Flushed(grown).sent) + [] == Concat(Flushed(grown).sent);
  }

  lemma TakenKeeps(b: Batches, queue: Queue, got: Got)
    requires Inv(b) && got != Nothing && queue in b.open
    requires queue == PriorityQueue && BulkQueue in b.open ==> b.burst < PRIORITY_BURST
    ensures var t := Taken(b, queue, got);
      Inv(match queue case StateQueue => t case PriorityQueue => Counted(t, got) case BulkQueue => t.(burst := 0))
  {
    if got.Item? {
      AddedKeeps(b, Message(queue, got.body));
      LogGrows(b.log, Took(Message(queue, got.body)));
    }
  }

  lemma ChosenKeeps(b: Batches, choice: Choice)
    requires Inv(b) && Chosen(b, choice).Some? && (BulkQueue in b.open ==> b.burst < PRIORITY_BURST)
    ensures Inv(Chosen(b, choice).value)
  {
    match choice
    case Deadline => FlushedKeeps(b);
    case From(queue, got) => TakenKeeps(b, queue, got);
  }

  lemma AfterBulkKeeps(b: Batches, turn: Turn)
    requires Inv(b) && AfterBulk(b, turn).Some? && (BulkQueue in b.open ==> b.burst < PRIORITY_BURST)
    ensures Inv(AfterBulk(b, turn).value)
  {
    if PriorityQueue in b.open && turn.priority != Nothing {
      TakenKeeps(b, PriorityQueue, turn.priority);
    } else {
      ChosenKeeps(b, turn.last);
    }
  }

  lemma TurnedKeeps(b: Batches, turn: Turn)
    requires Inv(b) && Turned(b, turn).Some?
    ensures Inv(Turned(b, turn).value)
  {
    if StateQueue in b.open && turn.first != Nothing {
      TakenKeeps(b, StateQueue, turn.first);
    } else if b.burst >= PRIORITY_BURST && BulkQueue in b.open {
      if turn.bulk != Nothing {
        TakenKeeps(b, BulkQueue, turn.bulk);
        BulkIsServed(b, turn.bulk);
      } else {
        LogGrows(b.log, SawBulkEmpty);
        assert Received(b.log) + [] == Received(b.log);
        AfterBulkKeeps(b.(burst := 0, log := b.log + [SawBulkEmpty]), turn);
      }
    } else {
      AfterBulkKeeps(b, turn);
    }
  }

  /** Resetting the burst before or after a bulk receive is the same. */
  lemma BulkIsServed(b: Batches, got: Got)
    requires got != Nothing
    ensures Taken(b.(burst := 0), BulkQueue, got) == Taken(b, BulkQueue, got).(burst := 0)
  {}

  lemma {:induction false} RunKeeps(b: Batches, turns: seq<Turn>)
    requires Inv(b) && Run(b, turns).Some?
    ensures Inv(Run(b, turns).value)
    decreases |turns|
  {
    if turns != [] {
      TurnedKeeps(b, turns[0]);
      RunKeeps(Turned(b, turns[0]).value, turns[1..]);
    }
  }

  // ---- what every run promises ----

  /** The batches sent and the open one are exactly the messages received, in
      order; a batch sent holds 1 to 32; the deadline is armed exactly while a
      batch is open; and while the bulk queue is open, at most 8 priority
      messages have been taken since it was last served or seen empty. */
  lemma NothingLostNothingStarved(turns: seq<Turn>, b: Batches)
    requires Run(FRESH, turns) == Some(b)
    ensures Concat(b.sent) + b.batch == Received(b.log)
    ensures forall k :: 0 <= k < |b.sent| ==> 1 <= |b.sent[k]| <= BATCH_SIZE
    ensures b.armed <==> b.batch != []
    ensures BulkQueue in b.open ==> SinceBulk(b.log) <= PRIORITY_BURST
  {
    FreshInv();
    RunKeeps(FRESH, turns);
  }

  lemma FreshInv()
    ensures Inv(FRESH)
  {
    assert Concat([]) + [] == Received([]);
  }

  /** When the loop ends every queue is closed, and the last flush leaves nothing behind. */
  lemma EverythingIsSentAtTheEnd(turns: seq<Turn>, b: Batches)
    requires Run(FRESH, turns) == Some(b) && b.open == {}
    ensures Concat(Flushed(b).sent) == Received(b.log) && Flushed(b).batch == []
  {
    FreshInv();
    RunKeeps(FRESH, turns);
    FlushedKeeps(b);
  }
}
