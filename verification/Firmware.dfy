/** The firmware download: a loop that cuts an image into bus writes, and the windowed receiver at the
    other end that has to put it together again. */
module Firmware {
  type Byte = x: int | 0 <= x < 256

  const FWSEND := 256
  const BURST_SIZE := 8192
  const INIT_HEADER := 0x8000
  const INT_MAX := 0x7fff_ffff

  /** The C conversion of a size to a 32-bit int. */
  function ToInt(size: nat): int {
    var low := size % 0x1_0000_0000;
    if low <= INT_MAX then low else low - 0x1_0000_0000
  }

  /** The bytes the loop sees of an image. */
  function Transferred(size: nat): (n: nat)
    ensures n <= size
  {
    if ToInt(size) > 0 then ToInt(size) else 0
  }

  function Min(a: int, b: int): int {
    if a <= b then a else b
  }

  // ----- the receiver -----

  /** The receiver keeps the base of the current window and what it has placed so far. */
  datatype Receiver = Receiver(base: nat, memory: seq<Byte>)

  const EMPTY := Receiver(0, [])

  function Header(message: seq<Byte>): nat
    requires |message| >= 2
  {
    var high: int, low: int := message[0], message[1];
    high * 256 + low
  }

  /** The message fits the buffer, carries something, and stays inside the window its header points into. */
  predicate WellFormed(message: seq<Byte>) {
    && 2 < |message| <= FWSEND + 1
    && INIT_HEADER <= Header(message)
    && Header(message) - INIT_HEADER + |message| - 2 <= BURST_SIZE
  }

  /** Bytes written at a position of a memory, over what was there. */
  function Place(memory: seq<Byte>, position: nat, data: seq<Byte>): seq<Byte>
    requires position <= |memory|
  {
    memory[..position] + data + if position + |data| < |memory| then memory[position + |data|..] else []
  }

  /** A message is placed where its header says inside the current window; one that fills the window to its
      end opens the next.  Anything malformed, or past what is already there, is dropped. */
  function Receive(r: Receiver, message: seq<Byte>): Receiver {
    if !WellFormed(message) then r else
    var offset := Header(message) - INIT_HEADER;
    if r.base + offset > |r.memory| then r else
    Receiver(if offset + |message| - 2 == BURST_SIZE then r.base + BURST_SIZE else r.base,
             Place(r.memory, r.base + offset, message[2..]))
  }

  function ReceiveAll(messages: seq<seq<Byte>>): Receiver {
    if messages == [] then EMPTY
    else Receive(ReceiveAll(messages[..|messages| - 1]), messages[|messages| - 1])
  }

  // ----- the sender -----

  predicate AllWellFormed(messages: seq<seq<Byte>>) {
    forall k :: 0 <= k < |messages| ==> WellFormed(messages[k])
  }

  function Payloads(messages: seq<seq<Byte>>): seq<Byte>
    requires AllWellFormed(messages)
  {
    if messages == [] then []
    else Payloads(messages[..|messages| - 1]) + messages[|messages| - 1][2..]
  }

  /** The header of every message is the start value plus its payload's offset within the window. */
  predicate HeadersCount(messages: seq<seq<Byte>>)
    requires AllWellFormed(messages)
  {
    forall k :: 0 <= k < |messages| ==>
      Header(messages[k]) == INIT_HEADER + |Payloads(messages[..k])| % BURST_SIZE
  }

  /** One more message of an ordered transfer: it continues the payload, and the receiver's state follows. */
  lemma {:induction false} Continue(messages: seq<seq<Byte>>, message: seq<Byte>)
    requires AllWellFormed(messages) && HeadersCount(messages) && WellFormed(message)
    requires Header(message) == INIT_HEADER + |Payloads(messages)| % BURST_SIZE
    ensures AllWellFormed(messages + [message]) && HeadersCount(messages + [message])
    ensures Payloads(messages + [message]) == Payloads(messages) + message[2..]
  {
    var all := messages + [message];
    assert all[..|messages|] == messages;
    forall k | 0 <= k < |all|
      ensures Header(all[k]) == INIT_HEADER + |Payloads(all[..k])| % BURST_SIZE
    {
      if k < |messages| {
        assert all[..k] == messages[..k];
      }
    }
  }

  lemma {:induction false} NextOffset(total: nat, n: nat)
    requires n > 0 && total % BURST_SIZE + n <= BURST_SIZE
    ensures var sum := total + n;
            if total % BURST_SIZE + n == BURST_SIZE
            then sum % BURST_SIZE == 0 && sum - sum % BURST_SIZE == total - total % BURST_SIZE + BURST_SIZE
            else sum % BURST_SIZE == total % BURST_SIZE + n
                 && sum - sum % BURST_SIZE == total - total % BURST_SIZE
  {
    var q, r := total / BURST_SIZE, total % BURST_SIZE;
    assert total == q * BURST_SIZE + r;
    if r + n == BURST_SIZE {
      assert total + n == (q + 1) * BURST_SIZE;
    }
  }

  /** A message that starts where the memory ends is appended to it. */
  lemma {:induction false} ReceiveNext(r: Receiver, message: seq<Byte>)
    requires WellFormed(message) && r.base + Header(message) - INIT_HEADER == |r.memory|
    ensures Receive(r, message).memory == r.memory + message[2..]
    ensures Receive(r, message).base ==
            if Header(message) - INIT_HEADER + |message| - 2 == BURST_SIZE then r.base + BURST_SIZE else r.base
  {
  }

  /** A receiver that takes in messages with such headers holds exactly their payloads, in order: the
      windows join without a gap or an overlap. */
  lemma {:induction false} ReceiverReassembles(messages: seq<seq<Byte>>)
    requires AllWellFormed(messages) && HeadersCount(messages)
    ensures ReceiveAll(messages).memory == Payloads(messages)
    ensures ReceiveAll(messages).base == |Payloads(messages)| - |Payloads(messages)| % BURST_SIZE
  {
    hide Receive, Header;
    if messages != [] {
      var n := |messages| - 1;
      var before, message := messages[..n], messages[n];
      assert WellFormed(message);
      forall k | 0 <= k < n
        ensures before[..k] == messages[..k]
      {
      }
      ReceiverReassembles(before);
      var total := |Payloads(before)|;
      assert Header(message) == INIT_HEADER + total % BURST_SIZE;
      ReceiveNext(ReceiveAll(before), message);
      NextOffset(total, |message| - 2);
    }
  }

  /** The state of a transfer after any number of its writes. */
  predicate Sends(messages: seq<seq<Byte>>, image: seq<Byte>, n: nat)
    requires n <= |image|
  {
    AllWellFormed(messages) && HeadersCount(messages) && Payloads(messages) == image[..n]
  }

  /** The bus write of one chunk: a cleared buffer, the header in its first two bytes, then the data. */
  method Fill(buffer: array<Byte>, image: seq<Byte>, position: nat, length: nat, header: nat)
    requires buffer.Length == FWSEND + 1 && length <= FWSEND - 2 && position + length <= |image|
    requires header < 0x1_0000
    modifies buffer
    ensures Header(buffer[..length + 2]) == header
    ensures buffer[..length + 2][2..] == image[position..position + length]
    ensures forall i :: length + 2 <= i < buffer.Length ==> buffer[i] == 0
  {
    forall i | 0 <= i < buffer.Length {
      buffer[i] := 0;
    }
    buffer[0], buffer[1] := header / 256 % 256, header % 256;
    forall i | 0 <= i < length {
      buffer[2 + i] := image[position + i];
    }
  }

  /** The download loop of max9296_loadfw().  `refused` is the number of the first write the bus refuses. */
  method Download(image: seq<Byte>, refused: nat) returns (ok: bool, sent: seq<seq<Byte>>, ghost n: nat)
    ensures n <= |image| && Sends(sent, image, n)
    ensures ReceiveAll(sent).memory == image[..n]
    ensures ok ==> n == Transferred(|image|) && |sent| <= refused
    ensures !ok ==> |sent| == refused && n < Transferred(|image|)
  {
    hide Header, Payloads, HeadersCount;
    var buffer := new Byte[FWSEND + 1];
    var size, position, burst := ToInt(|image|), 0, BURST_SIZE;
    sent, ok, n := [], true, 0;
    NothingSent(image);
    ghost var total := Transferred(|image|);
    while size > 0
      invariant 0 <= position && n == position
      invariant size >= 0 ==> position + size == total
      invariant size < 0 ==> position == total
      invariant 0 < burst <= BURST_SIZE && position % BURST_SIZE == BURST_SIZE - burst
      invariant n <= |image| && Sends(sent, image, n) && |sent| <= refused
      decreases size
    {
      var length := Min(burst, Min(FWSEND - 2, size));
      var header := INIT_HEADER + (BURST_SIZE - burst);
      Fill(buffer, image, position, length, header);
      var message := buffer[..length + 2];
      if |sent| == refused {
        ReceiverReassembles(sent);
        return false, sent, n;
      }
      SendOne(sent, image, position, message, length);
      NextOffset(position, length);
      sent, n := sent + [message], position + length;
      size, position, burst := size - length, position + length, burst - length;
      if burst == 0 {
        burst := BURST_SIZE;
      }
    }
    ReceiverReassembles(sent);
  }

  lemma {:induction false} NothingSent(image: seq<Byte>)
    ensures Sends([], image, 0)
  {
  }

  lemma {:induction false} SendOne(sent: seq<seq<Byte>>, image: seq<Byte>, n: nat, message: seq<Byte>, length: nat)
    requires n + length <= |image| && Sends(sent, image, n) && WellFormed(message)
    requires message[2..] == image[n..n + length] && Header(message) == INIT_HEADER + n % BURST_SIZE
    ensures Sends(sent + [message], image, n + length)
  {
    Continue(sent, message);
    assert image[..n] + image[n..n + length] == image[..n + length];
  }

  /** The whole image arrives exactly when its size survives the conversion to int. */
  lemma {:induction false} WholeImageIffIntSized(image: seq<Byte>)
    ensures Transferred(|image|) == |image| <==> |image| <= INT_MAX
  {
  }
}
