// The receive ring shared by two execution contexts: every shared read, every word of a
// slot copy and every index publication of push() and pop() is a step of its own, and the
// two contexts interleave freely (sequentially consistent memory).
module SpscRing {
  import opened Rings

  // A packet as the machine copies it, word by word.
  type Packet = seq<int>

  // Program counters, with the local variables live at each point.
  datatype Producer =
    | Resting
    | ReadHead(packet: Packet, head: nat)
    | Copying(packet: Packet, head: nat, done: nat)

  datatype Consumer =
    | Waiting
    | ReadTail(tail: nat)
    | Reading(tail: nat, got: Packet)

  // `pushed`, `popped`, `fullAt` and `emptyAt` are history: what was accepted, what was
  // delivered, and the queue at every moment a caller was told "full" or "empty".
  datatype Shared = Shared(
    width: nat, slots: seq<Packet>, head: nat, tail: nat,
    producer: Producer, consumer: Consumer,
    pushed: seq<Packet>, popped: seq<Packet>,
    fullAt: seq<seq<Packet>>, emptyAt: seq<seq<Packet>>)

  datatype Action =
    | BeginPush(packet: Packet)  // the producer reads the head index
    | CheckRoom                  // it reads the tail index and gives up if the ring is full
    | CopyWord                   // it copies one word into the slot at head
    | PublishHead                // it moves the head index on
    | BeginPop                   // the consumer reads the tail index
    | CheckItem                  // it reads the head index and gives up if the ring is empty
    | ReadWord                   // it copies one word out of the slot at tail
    | PublishTail                // it moves the tail index on

  function Init(width: nat, memory: seq<Packet>): Shared {
    Shared(width, memory, 0, 0, Resting, Waiting, [], [], [], [])
  }

  ghost predicate Shaped(s: Shared) {
    && |s.slots| == RX_QUEUE_SLOTS && s.head < RX_QUEUE_SLOTS && s.tail < RX_QUEUE_SLOTS
    && (forall i | 0 <= i < |s.slots| :: |s.slots[i]| == s.width)
  }

  // Actions that are not enabled leave the state unchanged, so every action sequence is a run.
  function Step(s: Shared, a: Action): (t: Shared)
    requires Shaped(s)
    ensures Shaped(t)
  {
    match a
    case BeginPush(packet) =>
      if s.producer.Resting? && |packet| == s.width then s.(producer := ReadHead(packet, s.head)) else s
    case CheckRoom =>
      if !s.producer.ReadHead? then s
      else if s.producer.head < RX_QUEUE_SLOTS && NextIndex(s.producer.head, RX_QUEUE_SLOTS) == s.tail then
        s.(producer := Resting, fullAt := s.fullAt + [Window(s.slots, s.tail, s.head)])
      else s.(producer := Copying(s.producer.packet, s.producer.head, 0))
    case CopyWord =>
      if s.producer.Copying? && s.producer.head < RX_QUEUE_SLOTS
         && s.producer.done < |s.producer.packet| == s.width then
        var h, k := s.producer.head, s.producer.done;
        s.(slots := s.slots[h := s.slots[h][k := s.producer.packet[k]]],
           producer := s.producer.(done := k + 1))
      else s
    case PublishHead =>
      if s.producer.Copying? && s.producer.head < RX_QUEUE_SLOTS && s.producer.done == s.width then
        s.(head := NextIndex(s.producer.head, RX_QUEUE_SLOTS), producer := Resting,
           pushed := s.pushed + [s.producer.packet])
      else s
    case BeginPop =>
      if s.consumer.Waiting? then s.(consumer := ReadTail(s.tail)) else s
    case CheckItem =>
      if !s.consumer.ReadTail? then s
      else if s.consumer.tail == s.head then
        s.(consumer := Waiting, emptyAt := s.emptyAt + [Window(s.slots, s.tail, s.head)])
      else s.(consumer := Reading(s.consumer.tail, []))
    case ReadWord =>
      if s.consumer.Reading? && s.consumer.tail < RX_QUEUE_SLOTS && |s.consumer.got| < s.width then
        s.(consumer := s.consumer.(got := s.consumer.got + [s.slots[s.consumer.tail][|s.consumer.got|]]))
      else s
    case PublishTail =>
      if s.consumer.Reading? && s.consumer.tail < RX_QUEUE_SLOTS && |s.consumer.got| == s.width then
        s.(tail := NextIndex(s.consumer.tail, RX_QUEUE_SLOTS), consumer := Waiting,
           popped := s.popped + [s.consumer.got])
      else s
  }

  ghost predicate Inv(s: Shared) {
    && Shaped(s)
    && s.popped + Window(s.slots, s.tail, s.head) == s.pushed
    && (s.producer.ReadHead? ==> s.producer.head == s.head && |s.producer.packet| == s.width)
    && (s.producer.Copying? ==>
          && s.producer.head == s.head && NextIndex(s.head, RX_QUEUE_SLOTS) != s.tail
          && s.producer.done <= |s.producer.packet| == s.width
          && s.slots[s.head][..s.producer.done] == s.producer.packet[..s.producer.done])
    && (s.consumer.ReadTail? ==> s.consumer.tail == s.tail)
    && (s.consumer.Reading? ==>
          && s.consumer.tail == s.tail && s.tail != s.head
          && |s.consumer.got| <= s.width && s.consumer.got == s.slots[s.tail][..|s.consumer.got|])
    && (forall i | 0 <= i < |s.fullAt| :: |s.fullAt[i]| == RX_QUEUE_SLOTS - 1)
    && (forall i | 0 <= i < |s.emptyAt| :: s.emptyAt[i] == [])
  }

  lemma CopyWordKeepsInv(s: Shared)
    requires Inv(s)
    ensures Inv(Step(s, CopyWord))
  {
    if s.producer.Copying? && s.producer.done < s.width {
      var h, k := s.head, s.producer.done;
      var slot := s.slots[h][k := s.producer.packet[k]];
      WindowPush(s.slots, s.tail, h, slot);
      assert slot[..k + 1] == slot[..k] + [slot[k]];
      assert slot[..k] == s.slots[h][..k];
      assert s.producer.packet[..k + 1] == s.producer.packet[..k] + [s.producer.packet[k]];
    }
  }

  lemma PublishHeadKeepsInv(s: Shared)
    requires Inv(s)
    ensures Inv(Step(s, PublishHead))
  {
    if s.producer.Copying? && s.producer.done == s.width {
      var slot := s.slots[s.head];
      assert slot == s.producer.packet;
      assert s.slots[s.head := slot] == s.slots;
      WindowPush(s.slots, s.tail, s.head, slot);
    }
  }

  lemma ReadWordKeepsInv(s: Shared)
    requires Inv(s)
    ensures Inv(Step(s, ReadWord))
  {
    if s.consumer.Reading? && |s.consumer.got| < s.width {
      var k := |s.consumer.got|;
      assert s.slots[s.tail][..k + 1] == s.slots[s.tail][..k] + [s.slots[s.tail][k]];
    }
  }

  lemma PublishTailKeepsInv(s: Shared)
    requires Inv(s)
    ensures Inv(Step(s, PublishTail))
  {
    hide Window, NextIndex;
    if s.consumer.Reading? && |s.consumer.got| == s.width {
      var next := NextIndex(s.tail, RX_QUEUE_SLOTS);
      WindowPop(s.slots, s.tail, s.head);
      assert s.consumer.got == s.slots[s.tail];
      assert s.popped + [s.consumer.got] + Window(s.slots, next, s.head) == s.pushed;
    }
  }

  lemma StepKeepsInv(s: Shared, a: Action)
    requires Inv(s)
    ensures Inv(Step(s, a))
  {
    WindowLength(s.slots, s.tail, s.head);
    match a {
      case CopyWord => CopyWordKeepsInv(s);
      case PublishHead => PublishHeadKeepsInv(s);
      case ReadWord => ReadWordKeepsInv(s);
      case PublishTail => PublishTailKeepsInv(s);
      case _ =>
    }
  }

  // --- Runs -------------------------------------------------------------------------------

  // The state an interleaving reaches.
  ghost function Run(s: Shared, actions: seq<Action>): (r: Shared)
    requires Shaped(s)
    ensures Shaped(r)
  {
    if actions == [] then s else Step(Run(s, actions[..|actions| - 1]), actions[|actions| - 1])
  }

  lemma {:induction false} RunKeepsInv(s: Shared, actions: seq<Action>)
    requires Inv(s)
    ensures Inv(Run(s, actions))
    decreases |actions|
  {
    if actions == [] {
    } else {
      RunKeepsInv(s, actions[..|actions| - 1]);
      StepKeepsInv(Run(s, actions[..|actions| - 1]), actions[|actions| - 1]);
    }
  }

  // The queue between the two contexts.
  ghost function Queue(s: Shared): seq<Packet>
    requires Shaped(s)
  {
    Window(s.slots, s.tail, s.head)
  }

  // Every interleaving is a first-in-first-out queue of at most 23 packets: what was delivered
  // and what is still queued are, in order, exactly the packets whose push was accepted.
  lemma RefinesFifo(width: nat, memory: seq<Packet>, actions: seq<Action>)
    requires |memory| == RX_QUEUE_SLOTS && forall i | 0 <= i < |memory| :: |memory[i]| == width
    ensures var s := Run(Init(width, memory), actions);
            && s.popped + Queue(s) == s.pushed
            && |Queue(s)| <= RX_QUEUE_SLOTS - 1
            && (forall i | 0 <= i < |s.fullAt| :: |s.fullAt[i]| == RX_QUEUE_SLOTS - 1)
            && (forall i | 0 <= i < |s.emptyAt| :: s.emptyAt[i] == [])
  {
    RunKeepsInv(Init(width, memory), actions);
  }

  // The slot being filled is never the slot being copied out.
  lemma NeverTheSameSlot(width: nat, memory: seq<Packet>, actions: seq<Action>)
    requires |memory| == RX_QUEUE_SLOTS && forall i | 0 <= i < |memory| :: |memory[i]| == width
    ensures var s := Run(Init(width, memory), actions);
            s.producer.Copying? && s.consumer.Reading? ==> s.producer.head != s.consumer.tail
  {
    RunKeepsInv(Init(width, memory), actions);
  }

  // Seen from the queue, each micro-step is an append, a removal at the front, or nothing.
  lemma StepIsQueueStep(s: Shared, a: Action)
    requires Inv(s)
    ensures a == PublishHead && Step(s, a) != s ==>
              |Queue(s)| < RX_QUEUE_SLOTS - 1 && Queue(Step(s, a)) == Queue(s) + [s.producer.packet]
    ensures a == PublishTail && Step(s, a) != s ==>
              Queue(s) == [s.consumer.got] + Queue(Step(s, a))
    ensures a != PublishHead && a != PublishTail ==> Queue(Step(s, a)) == Queue(s)
  {
    hide Window, NextIndex;
    StepKeepsInv(s, a);
    WindowLength(s.slots, s.tail, s.head);
    match a {
      case CopyWord =>
        if s.producer.Copying? && s.producer.done < s.width {
          var slot := s.slots[s.head][s.producer.done := s.producer.packet[s.producer.done]];
          WindowPush(s.slots, s.tail, s.head, slot);
        }
      case PublishHead =>
        if s.producer.Copying? && s.producer.done == s.width {
          assert s.slots[s.head] == s.producer.packet;
          assert s.slots[s.head := s.slots[s.head]] == s.slots;
          WindowPush(s.slots, s.tail, s.head, s.slots[s.head]);
        }
      case PublishTail =>
        if s.consumer.Reading? && |s.consumer.got| == s.width {
          WindowPop(s.slots, s.tail, s.head);
          assert s.consumer.got == s.slots[s.tail];
        }
      case _ =>
    }
  }
}
