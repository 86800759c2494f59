// The receive and transmit rings: index arithmetic over a fixed array, one slot always empty.
module Rings {
  import opened Bytes
  import opened Wire

  const RX_SLOT_BYTES := PIPE_MAX_FRAME
  const RX_QUEUE_SLOTS := 24
  const TX_QUEUE_SLOTS := 16
  const TX_RESERVED_FOR_TERMINAL := 4

  datatype RxPacket = RxPacket(generation: U32, length: nat, arrival: U32, payload: seq<Byte>) {
    predicate WellFormed() {
      |payload| == RX_SLOT_BYTES && 0 < length <= RX_SLOT_BYTES
    }

    function Data(): seq<Byte>
      requires WellFormed()
    {
      payload[..length]
    }
  }

  // --- A queue as a window into its slots ------------------------------------------

  lemma Wrap(x: nat, capacity: nat)
    requires 0 < capacity && x < 2 * capacity
    ensures x % capacity == if x < capacity then x else x - capacity
  {
    if x >= capacity {
      var q := x / capacity;
      assert x == q * capacity + x % capacity;
      assert q == 1 by {
        assert q >= 2 ==> q * capacity >= 2 * capacity;
        assert q <= 0 ==> q * capacity <= 0;
      }
    }
  }

  function NextIndex(i: nat, capacity: nat): (n: nat)
    requires i < capacity
    ensures n == if i + 1 < capacity then i + 1 else 0
  {
    Wrap(i + 1, capacity);
    (i + 1) % capacity
  }

  function Window<T>(slots: seq<T>, tail: nat, head: nat): (w: seq<T>)
    requires tail < |slots| && head < |slots|
    ensures |w| < |slots|
  {
    if tail <= head then slots[tail..head] else slots[tail..] + slots[..head]
  }

  lemma WindowLength<T>(slots: seq<T>, tail: nat, head: nat)
    requires tail < |slots| && head < |slots|
    ensures |Window(slots, tail, head)| == (head + |slots| - tail) % |slots|
    ensures NextIndex(head, |slots|) == tail <==> |Window(slots, tail, head)| == |slots| - 1
  {
    Wrap(head + |slots| - tail, |slots|);
  }

  // Writing the slot at head and then publishing head appends one element.
  lemma WindowPush<T>(slots: seq<T>, tail: nat, head: nat, x: T)
    requires tail < |slots| && head < |slots| && NextIndex(head, |slots|) != tail
    ensures Window(slots[head := x], tail, head) == Window(slots, tail, head)
    ensures Window(slots[head := x], tail, NextIndex(head, |slots|)) == Window(slots, tail, head) + [x]
  {
  }

  lemma WindowPop<T>(slots: seq<T>, tail: nat, head: nat)
    requires tail < |slots| && head < |slots| && tail != head
    ensures Window(slots, tail, head) == [slots[tail]] + Window(slots, NextIndex(tail, |slots|), head)
  {
    if tail < head {
      assert slots[tail..head] == [slots[tail]] + slots[tail + 1..head];
    } else if tail + 1 < |slots| {
      assert slots[tail..] == [slots[tail]] + slots[tail + 1..];
      assert [slots[tail]] + slots[tail + 1..] + slots[..head] == [slots[tail]] + (slots[tail + 1..] + slots[..head]);
    } else {
      assert slots[tail..] == [slots[tail]];
      assert slots[0..head] == slots[..head];
    }
  }

  // Whether the receive ring takes a frame while `used` packets wait in it.
  predicate RxAccepts(used: nat, data: seq<Byte>) {
    0 < |data| <= RX_SLOT_BYTES && used < RX_QUEUE_SLOTS - 1
  }

  class RxQueue {
    const slots: array<RxPacket>
    var head: nat
    var tail: nat
    var highWater: nat
    var overflows: U32

    ghost predicate Valid()
      reads this, slots
    {
      && slots.Length == RX_QUEUE_SLOTS
      && head < RX_QUEUE_SLOTS && tail < RX_QUEUE_SLOTS
      && highWater < RX_QUEUE_SLOTS
      && (forall i | 0 <= i < slots.Length :: |slots[i].payload| == RX_SLOT_BYTES)
      && (forall i | 0 <= i < |Contents()| :: Contents()[i].WellFormed())
    }

    ghost function Contents(): seq<RxPacket>
      requires slots.Length == RX_QUEUE_SLOTS
      requires head < RX_QUEUE_SLOTS && tail < RX_QUEUE_SLOTS
      reads this, slots
    {
      Window(slots[..], tail, head)
    }

    constructor ()
      ensures Valid() && fresh(slots) && Contents() == [] && overflows == 0 && highWater == 0
    {
      var blank: seq<Byte> := seq(RX_SLOT_BYTES, _ => 0);
      slots := new RxPacket[RX_QUEUE_SLOTS](_ => RxPacket(0, 0, 0, blank));
      head, tail, highWater, overflows := 0, 0, 0, 0;
    }

    // The BLE callback's side. A frame is taken whole or not at all.
    method Push(data: seq<Byte>, generation: U32, now: U32) returns (ok: bool)
      requires Valid()
      modifies this, slots
      ensures Valid()
      ensures ok <==> RxAccepts(|old(Contents())|, data)
      ensures ok <==> 1 <= |data| <= 244 && |old(Contents())| < 23
      ensures !ok ==> Contents() == old(Contents()) && highWater == old(highWater)
      ensures ok ==> |Contents()| == |old(Contents())| + 1 && Contents()[..|old(Contents())|] == old(Contents())
      ensures ok ==> var p := Contents()[|old(Contents())|];
                     p.generation == generation && p.arrival == now && p.Data() == data
      ensures ok ==> highWater == Max(old(highWater), |Contents()|)
      ensures overflows == if 0 < |data| <= RX_SLOT_BYTES && !ok then Inc32(old(overflows)) else old(overflows)
    {
      if |data| == 0 || |data| > RX_SLOT_BYTES {
        return false;
      }
      ghost var before := Contents();
      var h := head;
      var next := NextIndex(h, RX_QUEUE_SLOTS);
      WindowLength(slots[..], tail, h);
      if next == tail {
        overflows := Inc32(overflows);
        return false;
      }
      ghost var memory := slots[..];
      var packet := RxPacket(generation, |data|, now, data + slots[h].payload[|data|..]);
      slots[h] := packet;
      assert slots[..] == memory[h := packet];
      WindowPush(memory, tail, h, packet);
      head := next;
      assert Contents() == before + [packet];
      assert packet.Data() == data;
      WindowLength(slots[..], tail, next);
      var depth := (next + RX_QUEUE_SLOTS - tail) % RX_QUEUE_SLOTS;
      if depth > highWater {
        highWater := depth;
      }
      ok := true;
    }

    // loop()'s side.
    method Pop() returns (ok: bool, packet: RxPacket)
      requires Valid()
      modifies this`tail
      ensures Valid()
      ensures ok <==> old(Contents()) != []
      ensures ok ==> old(Contents()) == [packet] + Contents() && packet.WellFormed()
      ensures !ok ==> Contents() == old(Contents())
    {
      var t := tail;
      packet := slots[t];
      if t == head {
        return false, packet;
      }
      ghost var before := Contents();
      WindowPop(slots[..], t, head);
      assert before[0] == packet;
      tail := NextIndex(t, RX_QUEUE_SLOTS);
      assert forall i | 0 <= i < |Contents()| :: Contents()[i] == before[i + 1];
      ok := true;
    }
  }

  // --- The transmit ring ---------------------------------------------------------------

  datatype TxItem = TxItem(frame: Response, terminal: bool)

  // What a push does to the queued frames; an empty response succeeds without being queued.
  function TxPush(q: seq<TxItem>, r: Response, terminal: bool): (seq<TxItem>, bool) {
    if r == [] then (q, true)
    else if |q| >= TX_QUEUE_SLOTS - 1 then (q, false)
    else if !terminal && |q| + TX_RESERVED_FOR_TERMINAL >= TX_QUEUE_SLOTS then (q, false)
    else (q + [TxItem(r, terminal)], true)
  }

  function Frames(q: seq<TxItem>): (f: seq<Response>)
    ensures |f| == |q|
  {
    seq(|q|, i requires 0 <= i < |q| => q[i].frame)
  }

  class TxQueue {
    const slots: array<Response>
    var head: nat
    var tail: nat
    // Which queued frames were pushed as terminal; the ring itself does not remember.
    ghost var items: seq<TxItem>

    ghost predicate Valid()
      reads this, slots
    {
      && slots.Length == TX_QUEUE_SLOTS
      && head < TX_QUEUE_SLOTS && tail < TX_QUEUE_SLOTS
      && Window(slots[..], tail, head) == Frames(items)
    }

    constructor ()
      ensures Valid() && fresh(slots) && items == []
    {
      slots := new Response[TX_QUEUE_SLOTS](_ => []);
      head, tail := 0, 0;
      items := [];
    }

    method Push(r: Response, terminal: bool) returns (ok: bool)
      requires Valid()
      modifies this, slots
      ensures Valid()
      ensures (items, ok) == TxPush(old(items), r, terminal)
    {
      if r == [] {
        return true;
      }
      var next := NextIndex(head, TX_QUEUE_SLOTS);
      WindowLength(slots[..], tail, head);
      if next == tail {
        return false;
      }
      if !terminal {
        var used := (head + TX_QUEUE_SLOTS - tail) % TX_QUEUE_SLOTS;
        if used + TX_RESERVED_FOR_TERMINAL >= TX_QUEUE_SLOTS {
          return false;
        }
      }
      ghost var memory := slots[..];
      slots[head] := r;
      assert slots[..] == memory[head := r];
      WindowPush(memory, tail, head, r);
      head := next;
      items := items + [TxItem(r, terminal)];
      assert Frames(items) == Frames(old(items)) + [r];
      ok := true;
    }

    method Pop() returns (ok: bool, r: Response)
      requires Valid()
      modifies this
      ensures Valid()
      ensures ok <==> old(items) != []
      ensures ok ==> r == old(items)[0].frame && items == old(items)[1..]
      ensures !ok ==> items == old(items)
    {
      if tail == head {
        return false, [];
      }
      WindowPop(slots[..], tail, head);
      r := slots[tail];
      tail := NextIndex(tail, TX_QUEUE_SLOTS);
      assert Frames(items)[0] == r;
      items := items[1..];
      assert Frames(items) == Frames(old(items))[1..];
      ok := true;
    }
  }

  // --- What the reserve is worth ---------------------------------------------------------

  datatype TxEvent = Enqueue(frame: Response, terminal: bool) | Dequeue

  function TxStep(q: seq<TxItem>, e: TxEvent): seq<TxItem> {
    match e
    case Enqueue(r, terminal) => TxPush(q, r, terminal).0
    case Dequeue => if q == [] then [] else q[1..]
  }

  function TxRun(events: seq<TxEvent>): seq<TxItem> {
    if events == [] then [] else TxStep(TxRun(events[..|events| - 1]), events[|events| - 1])
  }

  ghost predicate ReserveKept(q: seq<TxItem>) {
    |q| < TX_QUEUE_SLOTS && forall i | 12 <= i < |q| :: q[i].terminal
  }

  // Over every run the slots beyond the twelfth hold terminal frames only.
  lemma {:induction false} TxRunKeepsReserve(events: seq<TxEvent>)
    ensures ReserveKept(TxRun(events))
    decreases |events|
  {
    if events == [] {
    } else {
      TxRunKeepsReserve(events[..|events| - 1]);
      var q, e := TxRun(events[..|events| - 1]), events[|events| - 1];
      if e == Dequeue && q != [] {
        assert forall i | 12 <= i < |q[1..]| :: q[1..][i] == q[i + 1];
      }
    }
  }

  function Terminals(q: seq<TxItem>): nat {
    if q == [] then 0 else Terminals(q[..|q| - 1]) + (if q[|q| - 1].terminal then 1 else 0)
  }

  lemma {:induction false} TerminalsFrom(q: seq<TxItem>, n: nat)
    requires n <= |q| && forall i | n <= i < |q| :: q[i].terminal
    ensures Terminals(q) >= |q| - n
    decreases |q|
  {
    if n < |q| {
      TerminalsFrom(q[..|q| - 1], n);
    }
  }

  // A terminal frame is refused only when three terminal frames are already waiting.
  lemma TerminalRefusedOnlyBehindThree(events: seq<TxEvent>, r: Response)
    requires !TxPush(TxRun(events), r, true).1
    ensures Terminals(TxRun(events)) >= 3
  {
    TxRunKeepsReserve(events);
    TerminalsFrom(TxRun(events), 12);
  }

  function Repeat(e: TxEvent, n: nat): (s: seq<TxEvent>)
    ensures |s| == n
  {
    seq(n, _ => e)
  }

  lemma {:induction false} Fill(r: Response, n: nat)
    requires r != [] && n <= 12
    ensures |TxRun(Repeat(Enqueue(r, false), n))| == n
  {
    if n == 0 {
    } else {
      Fill(r, n - 1);
      assert Repeat(Enqueue(r, false), n)[..n - 1] == Repeat(Enqueue(r, false), n - 1);
    }
  }

  // The reserve is three frames, not the four its constant names: the ring of 16 holds 15.
  lemma ReserveIsThree(r: Response)
    requires r != []
    ensures var q := TxRun(Repeat(Enqueue(r, false), 12));
            var q1 := TxPush(q, r, true); var q2 := TxPush(q1.0, r, true);
            var q3 := TxPush(q2.0, r, true); var q4 := TxPush(q3.0, r, true);
            q1.1 && q2.1 && q3.1 && !q4.1
  {
    Fill(r, 12);
  }
}
