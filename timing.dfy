/**
 * The timestamp records that travel through the queues: a Message in the
 * core benchmark and a Request in the server simulation. Clock readings
 * (System.nanoTime) are passed in as parameters.
 */
module Timing {
  const TWO_TO_64: int := 0x1_0000_0000_0000_0000
  const LONG_MIN: int := -0x8000_0000_0000_0000
  const LONG_MAX: int := 0x7fff_ffff_ffff_ffff
  const INT_MIN: int := -0x8000_0000
  const INT_MAX: int := 0x7fff_ffff

  /** A Java long. */
  type Long = x: int | LONG_MIN <= x <= LONG_MAX
  /** A Java int. */
  type Int32 = x: int | INT_MIN <= x <= INT_MAX

  /** Java long arithmetic: the value congruent to x modulo 2^64 in the long range. */
  function WrapLong(x: int): (r: Long)
    ensures (r - x) % TWO_TO_64 == 0
    ensures LONG_MIN <= x <= LONG_MAX ==> r == x
  {
    var m := (x - LONG_MIN) % TWO_TO_64;
    assert m - (x - LONG_MIN) == -TWO_TO_64 * ((x - LONG_MIN) / TWO_TO_64);
    m + LONG_MIN
  }

  /**
   * getLatencyNanos: zero while either timestamp is still unset (0), and
   * otherwise the dequeue time minus the enqueue time in long arithmetic,
   * which is the exact difference whenever that fits in a long.
   */
  function Latency(enqueuedAt: Long, dequeuedAt: Long): (r: Long)
    ensures enqueuedAt == 0 || dequeuedAt == 0 ==> r == 0
    ensures enqueuedAt != 0 && dequeuedAt != 0 ==> (r - (dequeuedAt - enqueuedAt)) % TWO_TO_64 == 0
    ensures enqueuedAt != 0 && dequeuedAt != 0 && dequeuedAt - enqueuedAt <= LONG_MAX && dequeuedAt - enqueuedAt >= LONG_MIN
      ==> r == dequeuedAt - enqueuedAt
  {
    if enqueuedAt == 0 || dequeuedAt == 0 then 0 else WrapLong(dequeuedAt - enqueuedAt)
  }

  const POISON_ID: Int32 := -1
  const POISON_PAYLOAD: string := "__POISON__"

  /** A benchmark message: identity fixed at construction, two timestamps set later. */
  class Message {
    const id: Int32
    const payload: string
    const createdAt: Long
    const poison: bool
    var enqueuedAt: Long
    var dequeuedAt: Long

    /** The public constructor: a regular message, created at the clock reading now. */
    constructor (id: Int32, payload: string, now: Long)
      ensures this.id == id && this.payload == payload && createdAt == now
      ensures !IsPoison()
      ensures enqueuedAt == 0 && dequeuedAt == 0
    {
      this.id := id;
      this.payload := payload;
      this.poison := false;
      this.createdAt := now;
      this.enqueuedAt, this.dequeuedAt := 0, 0;
    }

    /** The private constructor taking the poison flag. */
    constructor WithPoison(id: Int32, payload: string, poison: bool, now: Long)
      ensures this.id == id && this.payload == payload && createdAt == now
      ensures IsPoison() == poison
      ensures enqueuedAt == 0 && dequeuedAt == 0
    {
      this.id := id;
      this.payload := payload;
      this.poison := poison;
      this.createdAt := now;
      this.enqueuedAt, this.dequeuedAt := 0, 0;
    }

    /** poisonPill: the end-of-stream marker the producers send to the consumers. */
    static method PoisonPill(now: Long) returns (m: Message)
      ensures fresh(m)
      ensures m.id == -1 && m.payload == "__POISON__" && m.IsPoison()
      ensures m.createdAt == now && m.enqueuedAt == 0 && m.dequeuedAt == 0
    {
      m := new Message.WithPoison(POISON_ID, POISON_PAYLOAD, true, now);
    }

    function IsPoison(): bool {
      poison
    }

    method MarkEnqueued(now: Long)
      modifies this
      ensures enqueuedAt == now && dequeuedAt == old(dequeuedAt)
    {
      enqueuedAt := now;
    }

    method MarkDequeued(now: Long)
      modifies this
      ensures dequeuedAt == now && enqueuedAt == old(enqueuedAt)
    {
      dequeuedAt := now;
    }

    function LatencyNanos(): (r: Long)
      reads this
      ensures enqueuedAt == 0 || dequeuedAt == 0 ==> r == 0
      ensures enqueuedAt != 0 && dequeuedAt != 0 && LONG_MIN <= dequeuedAt - enqueuedAt <= LONG_MAX
        ==> r == dequeuedAt - enqueuedAt
      ensures enqueuedAt != 0 && dequeuedAt != 0 ==> (r - (dequeuedAt - enqueuedAt)) % TWO_TO_64 == 0
    {
      Latency(enqueuedAt, dequeuedAt)
    }
  }

  /** A simulated client request: the same timestamps, no poison flag. */
  class Request {
    const id: Int32
    const payload: string
    const createdAt: Long
    var enqueuedAt: Long
    var dequeuedAt: Long

    constructor (id: Int32, payload: string, now: Long)
      ensures this.id == id && this.payload == payload && createdAt == now
      ensures enqueuedAt == 0 && dequeuedAt == 0
    {
      this.id := id;
      this.payload := payload;
      this.createdAt := now;
      this.enqueuedAt, this.dequeuedAt := 0, 0;
    }

    method MarkEnqueued(now: Long)
      modifies this
      ensures enqueuedAt == now && dequeuedAt == old(dequeuedAt)
    {
      enqueuedAt := now;
    }

    method MarkDequeued(now: Long)
      modifies this
      ensures dequeuedAt == now && enqueuedAt == old(enqueuedAt)
    {
      dequeuedAt := now;
    }

    function LatencyNanos(): (r: Long)
      reads this
      ensures enqueuedAt == 0 || dequeuedAt == 0 ==> r == 0
      ensures enqueuedAt != 0 && dequeuedAt != 0 && LONG_MIN <= dequeuedAt - enqueuedAt <= LONG_MAX
        ==> r == dequeuedAt - enqueuedAt
      ensures enqueuedAt != 0 && dequeuedAt != 0 ==> (r - (dequeuedAt - enqueuedAt)) % TWO_TO_64 == 0
    {
      Latency(enqueuedAt, dequeuedAt)
    }
  }
}
