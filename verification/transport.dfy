/**
 * The collaborators the driver talks through: the Arduino `Stream` the UART
 * is read from and written to, and the OUT pin's level over time.
 */
module Transport {
  import opened Layout

  /** A byte stream: `rx` holds the bytes received and not yet read, `tx`
      logs every byte written. */
  class Stream {
    var rx: seq<Byte>
    var tx: seq<Byte>

    constructor (pending: seq<Byte>)
      ensures rx == pending && tx == []
    {
      rx := pending;
      tx := [];
    }

    /** `available()`: the number of bytes that can be read. */
    function Available(): nat
      reads this
    {
      |rx|
    }

    /** `read()`: the oldest received byte, or -1 when nothing is pending. */
    method Read() returns (c: int)
      modifies this
      ensures old(rx) == [] ==> c == -1 && rx == []
      ensures old(rx) != [] ==> c == old(rx)[0] && rx == old(rx)[1..]
      ensures tx == old(tx)
    {
      if rx == [] {
        c := -1;
      } else {
        c := rx[0];
        rx := rx[1..];
      }
    }

    /** `write(buf, len)`. */
    method Write(data: seq<Byte>)
      modifies this
      ensures tx == old(tx) + data && rx == old(rx)
    {
      tx := tx + data;
    }

    /** The sensor's side of the link: bytes that arrive while the driver waits. */
    method Receive(data: seq<Byte>)
      modifies this
      ensures rx == old(rx) + data && tx == old(tx)
    {
      rx := rx + data;
    }
  }

  /** The `int` that `read()` returns, stored into a `uint8_t`. */
  function ToUint8(c: int): (b: Byte)
    ensures 0 <= c < 256 ==> b == c
    ensures c == -1 ==> b == 0xFF
  {
    c % 256
  }

  /** What the k-th `read()` of a call stores into a `uint8_t` when `q` was
      pending and nothing else arrives: an exhausted stream reads as 0xFF. */
  function ReadAt(q: seq<Byte>, k: nat): Byte
  {
    if k < |q| then q[k] else 0xFF
  }

  /** What is left pending after n reads of q. */
  function Drop(q: seq<Byte>, n: nat): seq<Byte>
  {
    if n <= |q| then q[n..] else []
  }

  /** The OUT pin as seen by one call: the level (HIGH = true) that the
      k-th `digitalRead(_out)` of that call returns. */
  type Signal = nat -> bool

  /** One OUT-pin reading together with the `millis()` clock at that read. */
  datatype Sample = Sample(at: nat, high: bool)
}
