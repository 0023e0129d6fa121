/** Frames to the host over a pipe that may stall, take part of a write, or fail. */
module Ipc {
  import opened Basics

  type byte = n: int | 0 <= n < 256

  const MAX_FRAME_SIZE := 64 * 1024 * 1024

  datatype WriteError = Fine | Timeout | Hard | ShortWrite | TooLong

  /** What the pipe does with one Write: it takes up to n bytes and reports err;
      renews says whether the write deadline can be set again afterwards. */
  datatype Answer = Answer(n: nat, err: WriteError, renews: bool)

  /** What is still to come; a pipe with nothing left to say is dead. */
  type Schedule = seq<Answer>

  /** accepted bytes, the error, and the schedule left. */
  datatype Written = Written(accepted: nat, err: WriteError, rest: Schedule)

  // ---- writing ----

  /** resumingWriter.Write: once a byte of the frame is out, timeouts are waited out. */
  function WriteRun(schedule: Schedule, written: nat, data: seq<byte>): (w: Written)
    ensures w.accepted <= |data|
    decreases |schedule|
  {
    if schedule == [] then Written(0, Hard, [])
    else
      var a := schedule[0];
      var n := Min(a.n, |data|);
      if a.err == Fine || n == |data| || written + n == 0 || a.err != Timeout || !a.renews
      then Written(n, a.err, schedule[1..])
      else
        var w := WriteRun(schedule[1..], written + n, data[n..]);
        Plus(n, w)
  }

  /** What was accepted before, and then w. */
  function Plus(n: nat, w: Written): Written { w.(accepted := n + w.accepted) }

  function WriteAllRun(schedule: Schedule, written: nat, data: seq<byte>): (w: Written)
    ensures w.accepted <= |data|
    decreases |data|
  {
    if data == [] then Written(0, Fine, schedule)
    else
      var w := WriteRun(schedule, written, data);
      if w.err != Fine then w
      else if w.accepted == 0 then w.(err := ShortWrite)
      else
        var more := WriteAllRun(w.rest, written + w.accepted, data[w.accepted..]);
        Plus(w.accepted, more)
  }

  /** A length as four bytes, least significant first. */
  function Header(n: nat): seq<byte> { [n % 256, n / 0x100 % 256, n / 0x1_0000 % 256, n / 0x100_0000 % 256] }

  function Frame(data: seq<byte>): seq<byte> { Header(|data|) + data }

  function WriteFrameRun(schedule: Schedule, data: seq<byte>): Written {
    if |data| > MAX_FRAME_SIZE then Written(0, TooLong, schedule)
    else
      var head := WriteAllRun(schedule, 0, Header(|data|));
      if head.err != Fine then head
      else
        var body := WriteAllRun(head.rest, head.accepted, data);
        Plus(head.accepted, body)
  }

  /** The host connection: what is on the wire, whether it is still ours to
      write to, and the pipe's behaviour to come. */
  datatype Link = Link(wire: seq<byte>, open: bool, schedule: Schedule)

  datatype Fate = Delivered | Dropped | Broken

  /** send: a frame none of which got out is dropped; one cut short breaks the connection. */
  function Send(link: Link, data: seq<byte>): (Link, Fate) {
    if !link.open then (link, Dropped)
    else
      var w := WriteFrameRun(link.schedule, data);
      var wire := link.wire + Frame(data)[..Min(w.accepted, |Frame(data)|)];
      if w.err == Fine then (Link(wire, true, w.rest), Delivered)
      else if w.accepted == 0 then (Link(wire, true, w.rest), Dropped)
      else (Link(wire, false, w.rest), Broken)
  }

  // ---- the writer as it runs ----

  class Pipe {
    ghost var wire: seq<byte>
    var schedule: Schedule

    /** The transport's own Write. */
    method Write(data: seq<byte>) returns (n: nat, err: WriteError, renews: bool)
      modifies this
      ensures n <= |data| && wire == old(wire) + data[..n]
      ensures old(schedule) == [] ==> n == 0 && err == Hard && schedule == []
      ensures old(schedule) != [] ==>
        var a := old(schedule)[0];
        n == Min(a.n, |data|) && err == a.err && renews == a.renews && schedule == old(schedule)[1..]
    {
      if schedule == [] {
        n, err, renews := 0, Hard, false;
        assert wire == wire + data[..0];
      } else {
        n, err, renews := Min(schedule[0].n, |data|), schedule[0].err, schedule[0].renews;
        wire := wire + data[..n];
        schedule := schedule[1..];
      }
    }
  }

  class ResumingWriter {
    const pipe: Pipe
    var written: nat

    constructor (pipe: Pipe)
      ensures this.pipe == pipe && written == 0
    {
      this.pipe := pipe;
      written := 0;
    }

    /** One write to the pipe, counted. */
    method Once(data: seq<byte>, ghost wire: seq<byte>,
        ghost out: seq<byte>) returns (n: nat, err: WriteError, renews: bool)
      requires pipe.wire == wire + out
      modifies this`written, pipe
      ensures n <= |data| && pipe.wire == wire + (out + data[..n]) && written == old(written) + n
      ensures old(pipe.schedule) == [] ==> n == 0 && err == Hard && pipe.schedule == []
      ensures old(pipe.schedule) != [] ==>
        var a := old(pipe.schedule)[0];
        n == Min(a.n, |data|) && err == a.err && renews == a.renews && pipe.schedule == old(pipe.schedule)[1..]
    {
      n, err, renews := pipe.Write(data);
      written := written + n;
      Assoc(wire, out, data[..n]);
    }

    /** Keeps writing a frame it has begun for as long as the pipe only stalls. */
    method Write(data: seq<byte>) returns (accepted: nat, err: WriteError)
      modifies this, pipe
      ensures WriteRun(old(pipe.schedule), old(written), data) == Written(accepted, err, pipe.schedule)
      ensures accepted <= |data| && pipe.wire == old(pipe.wire) + data[..accepted] && written == old(written) + accepted
    {
      accepted := 0;
      ghost var wire, all := pipe.wire, WriteRun(pipe.schedule, written, data);
      ghost var out: seq<byte>, left := [], data;
      assert wire == wire + out;
      while true
        invariant Halves(data, accepted, out, left) && written == old(written) + accepted
        invariant pipe.wire == wire + out
        invariant all == Plus(accepted, WriteRun(pipe.schedule, written, left))
        decreases |pipe.schedule|
      {
        HalvesSplit(data, accepted, out, left);
        var n, renews;
        n, err, renews := Once(data[accepted..], wire, out);
        HalvesMove(data, accepted, out, left, n);
        accepted := accepted + n;
        out, left := out + left[..n], left[n..];
        if err == Fine || accepted >= |data| || written == 0 || err != Timeout || !renews { break; }
      }
      HalvesSplit(data, accepted, out, left);
    }

    method WriteAll(data: seq<byte>) returns (n: nat, err: WriteError)
      modifies this, pipe
      ensures WriteAllRun(old(pipe.schedule), old(written), data) == Written(n, err, pipe.schedule)
      ensures n <= |data| && pipe.wire == old(pipe.wire) + data[..n] && written == old(written) + n
    {
      n, err := 0, Fine;
      ghost var wire, all := pipe.wire, WriteAllRun(pipe.schedule, written, data);
      ghost var out: seq<byte>, left := [], data;
      while n < |data|
        invariant Halves(data, n, out, left) && written == old(written) + n
        invariant pipe.wire == wire + out
        invariant all == Plus(n, WriteAllRun(pipe.schedule, written, left)) && err == Fine
      {
        HalvesSplit(data, n, out, left);
        var k;
        k, err := Write(data[n..]);
        n := n + k;
        HalvesMove(data, n - k, out, left, k);
        Assoc(wire, out, left[..k]);
        out, left := out + left[..k], left[k..];
        if err != Fine { break; }
        if k == 0 {
          err := ShortWrite;
          break;
        }
      }
      HalvesSplit(data, n, out, left);
    }
  }

  /** The data in two: the n bytes that are out and those left. */
  predicate Halves(data: seq<byte>, n: nat, out: seq<byte>, left: seq<byte>) { data == out + left && |out| == n }

  lemma HalvesSplit(data: seq<byte>, n: nat, out: seq<byte>, left: seq<byte>)
    requires Halves(data, n, out, left)
    ensures n <= |data| && data[..n] == out && data[n..] == left
  {}

  lemma HalvesMove(data: seq<byte>, n: nat, out: seq<byte>, left: seq<byte>, k: nat)
    requires Halves(data, n, out, left) && k <= |left|
    ensures Halves(data, n + k, out + left[..k], left[k..])
  {
    assert left == left[..k] + left[k..];
    Assoc(out, left[..k], left[k..]);
  }

  /** The process's end of the link: the pipe while there is one. */
  class Host {
    var conn: Pipe?

    ghost function Value(pipe: Pipe): Link
      reads this, pipe
    {
      Link(pipe.wire, conn == pipe, pipe.schedule)
    }

    method SendFrame(data: seq<byte>, ghost pipe: Pipe) returns (fate: Fate)
      requires conn == null || conn == pipe
      modifies this, pipe
      ensures conn == null || conn == pipe
      ensures (Value(pipe), fate) == Send(old(Value(pipe)), data)
    {
      var c := conn;
      if c == null { return Dropped; }
      var writer := new ResumingWriter(c);
      var n, err := WriteFrame(writer, data);
      FramePrefix(data, n);
      if err == Fine { return Delivered; }
      if n == 0 { return Dropped; }
      conn := null;
      fate := Broken;
    }
  }

  method WriteFrame(w: ResumingWriter, data: seq<byte>) returns (n: nat, err: WriteError)
    requires w.written == 0
    modifies w, w.pipe
    ensures WriteFrameRun(old(w.pipe.schedule), data) == Written(n, err, w.pipe.schedule)
    ensures n <= |Frame(data)| && w.pipe.wire == old(w.pipe.wire) + Frame(data)[..n]
  {
    if |data| > MAX_FRAME_SIZE { return 0, TooLong; }
    ghost var wire, head := w.pipe.wire, Header(|data|);
    n, err := w.WriteAll(Header(|data|));
    HeadOfFrame(data, n);
    if err != Fine { return; }
    FineIsWhole(old(w.pipe.schedule), 0, head);
    var k;
    k, err := w.WriteAll(data);
    n := n + k;
    BodyOfFrame(wire, data, k);
  }

  lemma HeadOfFrame(data: seq<byte>, n: nat)
    requires n <= 4
    ensures Header(|data|)[..n] == Frame(data)[..n] && |Frame(data)| == 4 + |data|
    ensures Header(|data|)[..4] == Header(|data|)
  {}

  lemma BodyOfFrame(wire: seq<byte>, data: seq<byte>, k: nat)
    requires k <= |data|
    ensures wire + Header(|data|) + data[..k] == wire + Frame(data)[..4 + k]
  {
    Assoc(wire, Header(|data|), data[..k]);
    assert Header(|data|) + data[..k] == Frame(data)[..4 + k];
  }

  lemma FramePrefix(data: seq<byte>, n: nat)
    ensures n <= |Frame(data)| ==> Min(n, |Frame(data)|) == n
  {}

  /** writeAll without an error wrote it all. */
  lemma {:induction false} FineIsWhole(schedule: Schedule, written: nat, data: seq<byte>)
    ensures WriteAllRun(schedule, written, data).err == Fine ==> WriteAllRun(schedule, written, data).accepted == |data|
    decreases |data|
  {
    if data != [] {
      var w := WriteRun(schedule, written, data);
      if w.err == Fine && w.accepted > 0 { FineIsWhole(w.rest, written + w.accepted, data[w.accepted..]); }
    }
  }

  // ---- reading ----

  datatype Read = NoFrame | Framed(data: seq<byte>, rest: seq<byte>)

  function LengthOf(head: seq<byte>): nat
    requires |head| == 4
  {
    var a: int, b: int, c: int, d: int := head[0], head[1], head[2], head[3];
    a + 0x100 * b + 0x1_0000 * c + 0x100_0000 * d
  }

  /** readFrame over what is left of the stream. */
  function ReadFrame(bytes: seq<byte>): (r: Read)
    ensures r.Framed? ==> |r.rest| < |bytes|
  {
    if |bytes| < 4 then NoFrame
    else
      var length := LengthOf(bytes[..4]);
      if length > MAX_FRAME_SIZE || |bytes| < 4 + length then NoFrame
      else Framed(bytes[4..4 + length], bytes[4 + length..])
  }

  function ReadAll(bytes: seq<byte>): seq<seq<byte>>
    decreases |bytes|
  {
    match ReadFrame(bytes)
    case NoFrame => []
    case Framed(data, rest) => [data] + ReadAll(rest)
  }

  lemma HeaderRoundTrip(n: nat)
    requires n < 0x1_0000_0000
    ensures LengthOf(Header(n)) == n
  {
    var a, b, c := n / 0x100, n / 0x1_0000, n / 0x100_0000;
    assert a / 0x100 == b && b / 0x100 == c && c < 256;
  }

  lemma FrameRoundTrip(data: seq<byte>, rest: seq<byte>)
    requires |data| <= MAX_FRAME_SIZE
    ensures ReadFrame(Frame(data) + rest) == Framed(data, rest)
  {
    HeaderRoundTrip(|data|);
    var bytes := Frame(data) + rest;
    assert bytes[..4] == Header(|data|);
    assert bytes[4..4 + |data|] == data && bytes[4 + |data|..] == rest;
  }

  /** Part of a frame reads as none. */
  lemma PartialReadsNothing(data: seq<byte>, n: nat)
    requires |data| <= MAX_FRAME_SIZE && n < |Frame(data)|
    ensures ReadFrame(Frame(data)[..n]) == NoFrame
  {
    HeaderRoundTrip(|data|);
    if n >= 4 { assert Frame(data)[..n][..4] == Header(|data|); }
  }

  // ---- any number of sends ----

  function Frames(payloads: seq<seq<byte>>): seq<byte> {
    if payloads == [] then [] else Frames(payloads[..|payloads| - 1]) + Frame(payloads[|payloads| - 1])
  }

  /** The link after sending the payloads, those delivered, and what of a frame
      was on the wire when the connection broke. */
  datatype History = History(link: Link, delivered: seq<seq<byte>>, broken: Option<(seq<byte>, nat)>)

  function SendAll(schedule: Schedule, payloads: seq<seq<byte>>): History {
    if payloads == [] then History(Link([], true, schedule), [], None)
    else
      var h := SendAll(schedule, payloads[..|payloads| - 1]);
      var data := payloads[|payloads| - 1];
      var (link, fate) := Send(h.link, data);
      if fate == Delivered then h.(link := link, delivered := h.delivered + [data])
      else if fate == Broken then h.(link := link, broken := Some((data, |link.wire| - |h.link.wire|)))
      else h.(link := link)
  }

  function Cut(broken: Option<(seq<byte>, nat)>): seq<byte> {
    match broken
    case None => []
    case Some((data, n)) => Frame(data)[..Min(n, |Frame(data)|)]
  }

  ghost predicate InSync(h: History) {
    && h.link.wire == Frames(h.delivered) + Cut(h.broken)
    && (h.broken.None? <==> h.link.open)
    && (h.broken.Some? ==> 0 < h.broken.value.1 <= |Frame(h.broken.value.0)| && |h.broken.value.0| <= MAX_FRAME_SIZE)
    && (forall k :: 0 <= k < |h.delivered| ==> |h.delivered[k]| <= MAX_FRAME_SIZE)
  }

  lemma FrameWritten(schedule: Schedule, data: seq<byte>)
    ensures var w := WriteFrameRun(schedule, data);
      && w.accepted <= |Frame(data)|
      && (w.err == Fine ==> w.accepted == |Frame(data)| && |data| <= MAX_FRAME_SIZE)
      && (w.accepted > 0 ==> |data| <= MAX_FRAME_SIZE)
  {
    if |data| <= MAX_FRAME_SIZE {
      var head := WriteAllRun(schedule, 0, Header(|data|));
      FineIsWhole(schedule, 0, Header(|data|));
      FineIsWhole(head.rest, head.accepted, data);
    }
  }

  lemma SendKeepsSync(h: History, data: seq<byte>)
    requires InSync(h)
    ensures var (link, fate) := Send(h.link, data);
      InSync(if fate == Delivered then h.(link := link, delivered := h.delivered + [data])
             else if fate == Broken then h.(link := link, broken := Some((data, |link.wire| - |h.link.wire|)))
             else h.(link := link))
  {
    var (link, fate) := Send(h.link, data);
    if h.link.open {
      FrameWritten(h.link.schedule, data);
      var n := WriteFrameRun(h.link.schedule, data).accepted;
      assert h.link.wire == Frames(h.delivered);
      if fate == Delivered {
        assert (h.delivered + [data])[..|h.delivered|] == h.delivered;
        assert Frame(data)[..n] == Frame(data);
      } else if fate == Dropped {
        assert link.wire == h.link.wire;
      }
    }
  }

  /** Under any schedule of short writes, stalls and errors, the wire is whole
      frames of the payloads delivered, in order, and at most one frame after
      them that was cut short, and only if the connection was then given up. */
  lemma {:induction false} WireStaysInSync(schedule: Schedule, payloads: seq<seq<byte>>)
    ensures InSync(SendAll(schedule, payloads))
    decreases |payloads|
  {
    if payloads != [] {
      var h := SendAll(schedule, payloads[..|payloads| - 1]);
      WireStaysInSync(schedule, payloads[..|payloads| - 1]);
      SendKeepsSync(h, payloads[|payloads| - 1]);
    }
  }

  /** A frame reported lost with nothing written left the wire as it was. */
  lemma DroppedLeavesTheWire(link: Link, data: seq<byte>)
    requires Send(link, data).1 == Dropped
    ensures Send(link, data).0.wire == link.wire && Send(link, data).0.open == link.open
  {
    if link.open { assert link.wire + Frame(data)[..0] == link.wire; }
  }

  lemma Requeued(payloads: seq<seq<byte>>, more: seq<seq<byte>>)
    requires payloads != []
    ensures payloads[..|payloads| - 1] + ([payloads[|payloads| - 1]] + more) == payloads + more
  {}

  lemma {:induction false} ReadFrames(payloads: seq<seq<byte>>, rest: seq<byte>)
    requires forall k :: 0 <= k < |payloads| ==> |payloads[k]| <= MAX_FRAME_SIZE
    ensures ReadAll(Frames(payloads) + rest) == payloads + ReadAll(rest)
    decreases |payloads|
  {
    if payloads == [] {
      assert Frames(payloads) + rest == rest;
    } else {
      var n := |payloads| - 1;
      var last := payloads[n];
      Assoc(Frames(payloads[..n]), Frame(last), rest);
      ReadFrames(payloads[..n], Frame(last) + rest);
      FrameRoundTrip(last, rest);
      Requeued(payloads, ReadAll(rest));
    }
  }

  /** Reading the wire gives exactly the payloads delivered, in order, and after
      them the one whose frame was all out when the connection broke, if any. */
  lemma {:induction false} HostReadsWhatWasDelivered(schedule: Schedule, payloads: seq<seq<byte>>)
    ensures var h := SendAll(schedule, payloads);
      ReadAll(h.link.wire) ==
      h.delivered + if h.broken.Some? && h.broken.value.1 == |Frame(h.broken.value.0)| then [h.broken.value.0] else []
  {
    var h := SendAll(schedule, payloads);
    WireStaysInSync(schedule, payloads);
    ReadFrames(h.delivered, Cut(h.broken));
    if h.broken.Some? {
      var (data, n) := h.broken.value;
      if n < |Frame(data)| {
        PartialReadsNothing(data, n);
      } else {
        FrameRoundTrip(data, []);
        assert Frame(data)[..n] == Frame(data) + [];
      }
    }
  }

  // ---- a stall is waited out ----

  /** The pipe only stalls or takes bytes: no hard error, and every deadline can be set again. */
  predicate OnlyStalls(schedule: Schedule) {
    forall k :: 0 <= k < |schedule| ==> schedule[k].err in {Fine, Timeout} && (schedule[k].err == Timeout ==> schedule[k].renews)
  }

  /** A frame once begun is lost to stalls alone only when the pipe goes dead, a
      write takes nothing without saying why, or the very last byte's write
      reports a timeout all the same. */
  lemma {:induction false} StallsAreWaitedOut(schedule: Schedule, written: nat, data: seq<byte>)
    requires OnlyStalls(schedule) && written > 0 && data != []
    ensures var w := WriteRun(schedule, written, data);
      w.err == Fine || w.accepted == |data| || w.rest == []
    decreases |schedule|
  {
    if schedule != [] {
      var n := Min(schedule[0].n, |data|);
      if schedule[0].err != Fine && n < |data| {
        assert forall k :: 0 <= k < |schedule[1..]| ==> schedule[1..][k] == schedule[k + 1];
        StallsAreWaitedOut(schedule[1..], written + n, data[n..]);
      }
    }
  }
}
