/** The bounded diagnostics queue: producers copy messages into a ring of slots under a lock and signal an
    auto-reset event; one writer sleeps on the event, takes messages out and hands them to the sink outside the
    lock. Producers and writer interleave at every step below. The sink may fail, which ends the writer. */
module LogRing {
  import opened Options

  type Message = seq<bv8>

  const MAX_MESSAGES := 256
  const MAX_BYTES := 262144
  const MAX_MESSAGE_BYTES := 65536

  function Bytes(q: seq<Message>): nat {
    if q == [] then 0 else |q[0]| + Bytes(q[1..])
  }

  lemma {:induction false} BytesAppend(q: seq<Message>, m: Message)
    ensures Bytes(q + [m]) == Bytes(q) + |m|
    decreases |q|
  {
    if q == [] {
      assert [m][1..] == [];
    } else {
      assert (q + [m])[1..] == q[1..] + [m];
      BytesAppend(q[1..], m);
    }
  }

  /** An index past the end continues at the start. */
  function Wrap(x: nat, n: nat): nat
    requires x < 2 * n
  {
    if x < n then x else x - n
  }

  lemma Wraps(x: nat)
    requires x < 2 * MAX_MESSAGES
    ensures x % MAX_MESSAGES == Wrap(x, MAX_MESSAGES)
  {
  }

  /** The slots under the lock. */
  class Ring {
    const slots: array<Message>
    var head: nat
    var tail: nat
    var count: nat
    var bytes: nat
    ghost var contents: seq<Message>  // The queued messages, oldest first.

    ghost predicate Valid() reads this, slots {
      && slots.Length == MAX_MESSAGES && head < MAX_MESSAGES && count <= MAX_MESSAGES
      && tail == Wrap(head + count, MAX_MESSAGES)
      && |contents| == count && (forall i :: 0 <= i < count ==> contents[i] == slots[Wrap(head + i, MAX_MESSAGES)])
      && bytes == Bytes(contents) <= MAX_BYTES
    }

    constructor ()
      ensures Valid() && fresh(slots) && contents == []
    {
      slots := new Message[MAX_MESSAGES](_ => []);
      head, tail, count, bytes, contents := 0, 0, 0, 0, [];
    }

    /** Append unless the slots or the byte budget are exhausted. */
    method Push(message: Message) returns (ok: bool)
      requires Valid()
      modifies this, slots
      ensures Valid()
      ensures ok <==> |old(contents)| < MAX_MESSAGES && Bytes(old(contents)) + |message| <= MAX_BYTES
      ensures contents == if ok then old(contents) + [message] else old(contents)
    {
      if count == MAX_MESSAGES || |message| > MAX_BYTES - bytes { return false; }
      BytesAppend(contents, message);
      Wraps(tail + 1);
      slots[tail] := message;
      tail := (tail + 1) % MAX_MESSAGES;
      count := count + 1;
      bytes := bytes + |message|;
      contents := contents + [message];
      ok := true;
    }

    /** Take the oldest message. */
    method Pop() returns (message: Option<Message>)
      requires Valid()
      modifies this, slots
      ensures Valid()
      ensures message.None? <==> old(contents) == []
      ensures message.None? ==> contents == []
      ensures message.Some? ==> old(contents) == [message.value] + contents
    {
      if count == 0 { return None; }
      Wraps(head + 1);
      assert contents[0] == slots[head];
      message := Some(slots[head]);
      slots[head] := [];
      head := (head + 1) % MAX_MESSAGES;
      count := count - 1;
      bytes := bytes - |message.value|;
      contents := contents[1..];
    }
  }

  /** Where the writer is: asleep, about to look at the queue, holding what it found there, having also read
      the drop count, having reported new drops, or ended. `lost` is history: the message it held when it ended. */
  datatype Writer =
    | Asleep
    | Looking
    | Found(message: Option<Message>)
    | Counted(message: Option<Message>, drops: nat)
    | Reported(message: Option<Message>)
    | Ended(lost: Option<Message>)

  /** The message the writer has taken out and not handed to the sink. */
  function InHand(w: Writer): seq<Message> {
    match w
    case Found(Some(m)) => [m]
    case Counted(Some(m), _) => [m]
    case Reported(Some(m)) => [m]
    case Ended(Some(m)) => [m]
    case _ => []
  }

  /** Messages handed over, the one in hand and those queued, in order. */
  function Stream(delivered: seq<Message>, inHand: seq<Message>, queued: seq<Message>): seq<Message> {
    delivered + inHand + queued
  }

  /** The writer found the queue empty and will sleep without looking at it again. */
  predicate PastQueue(w: Writer) {
    w.Asleep? || (w.Found? && w.message.None?) || (w.Counted? && w.message.None?) || (w.Reported? && w.message.None?)
  }

  datatype Action = Produce(message: Message) | Notify | Advance(sinkWorks: bool, late: bool) | Stop

  class AsyncLog {
    const ring: Ring
    var accepting: bool
    var stopping: bool
    var dropped: nat
    var event: bool
    var unsignalled: nat  // Producers between their change and their signal.
    var writer: Writer
    var reported: nat
    ghost var accepted: seq<Message>
    ghost var delivered: seq<Message>
    ghost var failedHolding: bool  // The sink failed while the writer held a message.
    ghost var announced: nat  // The sum of the numbers in the reports so far.

    /** Messages in order, and drops reported no more than once each. */
    ghost predicate Accounted() reads this, ring, ring.slots {
      && ring.Valid()
      && Stream(delivered, InHand(writer), ring.contents) == accepted
      && (failedHolding <==> writer.Ended? && writer.lost.Some?)
      && announced == reported <= dropped
      && (writer.Counted? ==> reported <= writer.drops <= dropped)
    }

    /** A writer that will sleep without looking again leaves nothing behind unsignalled. */
    ghost predicate Attended() reads this, ring {
      && (PastQueue(writer) && ring.contents != [] ==> event || unsignalled > 0)
      && ((writer.Asleep? || writer.Reported?) && PastQueue(writer) && dropped > reported ==> event || unsignalled > 0)
      && (writer.Counted? && PastQueue(writer) && dropped > writer.drops ==> event || unsignalled > 0)
    }

    ghost predicate Valid() reads this, ring, ring.slots { Accounted() && Attended() }

    constructor ()
      ensures Valid() && accepted == [] && delivered == [] && fresh(ring) && fresh(ring.slots)
    {
      ring := new Ring();
      accepting, stopping, event, writer := true, false, false, Asleep;
      dropped, reported, unsignalled := 0, 0, 0;
      accepted, delivered, announced, failedHolding := [], [], 0, false;
    }

    // --- Producers ---

    /** Enqueue a message or count it as dropped. The signal is a later step. */
    method Write(message: Message) returns (ok: bool)
      requires Valid()
      modifies this, ring, ring.slots
      ensures Valid()
      ensures ok <==> old(accepting) && |message| <= MAX_MESSAGE_BYTES &&
                      |old(ring.contents)| < MAX_MESSAGES && Bytes(old(ring.contents)) + |message| <= MAX_BYTES
      ensures accepted == (if ok then old(accepted) + [message] else old(accepted)) && delivered == old(delivered)
      ensures dropped == old(dropped) + (if ok then 0 else 1) && announced == old(announced)
    {
      unsignalled := unsignalled + 1;
      ok := false;
      if accepting && |message| <= MAX_MESSAGE_BYTES { ok := ring.Push(message); }
      if ok {
        accepted := accepted + [message];
      } else {
        dropped := dropped + 1;
      }
    }

    /** The producer's signal. */
    method Signal()
      requires Valid() && unsignalled > 0
      modifies `unsignalled, `event
      ensures Valid() && event
    {
      unsignalled := unsignalled - 1;
      event := true;
    }

    // --- The writer ---

    /** Wake up, consuming the signal. */
    method Wake()
      requires Valid() && writer.Asleep? && event
      modifies `event, `writer
      ensures Valid()
    {
      event, writer := false, Looking;
    }

    /** Take a message out under the lock, or see that there is none; a late stop ends the writer. */
    method Take(late: bool)
      requires Valid() && writer.Looking?
      modifies `writer, ring, ring.slots
      ensures Valid()
    {
      if stopping && late { writer := Ended(None); return; }
      var message := ring.Pop();
      writer := Found(message);
    }

    /** Read the drop count. */
    method Count()
      requires Valid() && writer.Found?
      modifies `writer
      ensures Valid()
    {
      writer := Counted(writer.message, dropped);
    }

    /** The sink failed: the writer ends, and loses the message it holds, if any. */
    method Fail()
      requires Valid() && (writer.Counted? || writer.Reported?)
      modifies `writer, `accepting, `failedHolding
      ensures Valid() && writer == Ended(old(writer).message) && !accepting
    {
      failedHolding := writer.message.Some?;
      accepting, writer := false, Ended(writer.message);
    }

    /** Report the drops since the last report. */
    method Report(sinkWorks: bool)
      requires Valid() && writer.Counted?
      modifies `writer, `reported, `announced, `accepting, `failedHolding
      ensures Valid()
      ensures if old(writer).drops != old(reported) && !sinkWorks
              then writer == Ended(old(writer).message) && announced == old(announced)
              else writer == Reported(old(writer).message) &&
                   announced == old(announced) + (old(writer).drops - old(reported))
    {
      if writer.drops != reported {
        if !sinkWorks {
          Fail();
          return;
        }
        announced := announced + (writer.drops - reported);
        reported := writer.drops;
      }
      writer := Reported(writer.message);
    }

    /** Hand the message to the sink, or go back to sleep if there was none. */
    method Deliver(sinkWorks: bool)
      requires Valid() && writer.Reported?
      modifies `writer, `delivered, `accepting, `failedHolding
      ensures Valid()
      ensures if old(writer).message.Some? && !sinkWorks
              then writer == Ended(old(writer).message) && delivered == old(delivered)
              else delivered == old(delivered) + InHand(old(writer))
    {
      if writer.message.None? {
        writer := if stopping then Ended(None) else Asleep;
      } else if sinkWorks {
        delivered := delivered + [writer.message.value];
        writer := Looking;
      } else {
        Fail();
      }
    }

    /** Every interleaving of producers and writer, also once the writer has ended: the messages delivered, the one in
        hand or lost and those queued are the messages accepted, in order; one is lost exactly if the sink failed
        while the writer held it; a sleeping writer has been or will be signalled for anything left. */
    method Run(schedule: seq<Action>)
      requires Valid()
      modifies this, ring, ring.slots
      ensures Valid()
      ensures delivered + InHand(writer) + ring.contents == accepted && |InHand(writer)| <= 1
      ensures failedHolding <==> writer.Ended? && InHand(writer) != []
      ensures writer.Asleep? ==> InHand(writer) == []
      ensures writer.Asleep? && (ring.contents != [] || dropped > announced) ==> event || unsignalled > 0
      ensures announced <= dropped
    {
      for n := 0 to |schedule|
        invariant Valid()
      {
        match schedule[n]
        case Produce(message) => var ok := Write(message);
        case Notify => if unsignalled > 0 { Signal(); }
        case Stop => stopping, accepting := true, false; event := true;
        case Advance(works, late) =>
          if writer.Asleep? && event { Wake(); }
          else if writer.Looking? { Take(late); }
          else if writer.Found? { Count(); }
          else if writer.Counted? { Report(works); }
          else if writer.Reported? { Deliver(works); }
      }
    }
  }
}
