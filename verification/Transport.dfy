// grok-mobile-belmont-pwa/src/windows-transport.ts: lazy channel buffers over the shared copying one.
//
// A packet is an array the network layer owns and may overwrite later. An operation that throws is one
// that returns false or None.

module Transport {
  import opened Common
  import opened Unicode

  const CHANNELS := 27

  datatype Delivery = Delivery(channel: nat, payload: array<Byte>)

  /** The buffer all channels share upstream; without a capacity it grows as needed. `copied` counts the
      packet bytes put into it. */
  class OriginalBuffer {
    const capacity: Option<nat>
    var bytes: seq<Byte>
    var position: nat
    var copied: nat

    constructor (capacity: Option<nat>)
      ensures this.capacity == capacity && bytes == [] && position == 0 && copied == 0
    {
      this.capacity := capacity;
      bytes, position, copied := [], 0, 0;
    }

    predicate Fits(count: nat) {
      capacity.Some? ==> count <= capacity.value
    }

    method Reset()
      modifies this
      ensures bytes == [] && position == 0 && copied == old(copied)
    {
      bytes, position := [], 0;
    }

    method PutU8(value: Byte) returns (ok: bool)
      modifies this
      ensures ok <==> Fits(|old(bytes)| + 1)
      ensures bytes == if ok then old(bytes) + [value] else old(bytes)
      ensures position == old(position) && copied == old(copied)
    {
      if !Fits(|bytes| + 1) { return false; }
      bytes := bytes + [value];
      return true;
    }

    method PutU8Array(value: array<Byte>) returns (ok: bool)
      modifies this
      ensures ok <==> Fits(|old(bytes)| + value.Length)
      ensures bytes == if ok then old(bytes) + value[..] else old(bytes)
      ensures copied == old(copied) + if ok then value.Length else 0
      ensures position == old(position)
    {
      if !Fits(|bytes| + value.Length) { return false; }
      bytes := bytes + value[..];
      copied := copied + value.Length;
      return true;
    }

    method Flip()
      modifies this
      ensures position == 0 && bytes == old(bytes) && copied == old(copied)
    {
      position := 0;
    }

    method GetU8() returns (value: Option<Byte>)
      modifies this
      ensures bytes == old(bytes) && copied == old(copied)
      ensures if old(position) < |bytes| then value == Some(bytes[old(position)]) && position == old(position) + 1
              else value == None && position == old(position)
    {
      if position >= |bytes| { return None; }
      value := Some(bytes[position]);
      position := position + 1;
    }

    method GetRemainingBuffer() returns (rest: array<Byte>)
      ensures fresh(rest) && rest[..] == if position <= |bytes| then bytes[position..] else []
    {
      rest := CopyOf(if position <= |bytes| then bytes[position..] else []);
    }
  }

  method CopyOf(s: seq<Byte>) returns (a: array<Byte>)
    ensures fresh(a) && a[..] == s
  {
    a := new Byte[|s|](k requires 0 <= k < |s| => s[k]);
  }

  class Stats {
    var headerReads: nat
    var payloadCopies: nat
    var payloadBytes: nat

    constructor ()
      ensures headerReads == 0 && payloadCopies == 0 && payloadBytes == 0
    {
      headerReads, payloadCopies, payloadBytes := 0, 0, 0;
    }
  }

  /** A channel's own buffer: it keeps a reference to an incoming packet instead of copying it, and
      passes an outgoing message through to the original buffer. */
  class LazyBuffer {
    const id: nat
    const original: OriginalBuffer
    const stats: Stats
    var bytes: array?<Byte>
    var position: nat
    var writing: bool

    constructor (id: nat, original: OriginalBuffer, stats: Stats)
      ensures this.id == id && this.original == original && this.stats == stats
      ensures bytes == null && position == 0 && !writing
    {
      this.id, this.original, this.stats := id, original, stats;
      bytes, position, writing := null, 0, false;
    }

    method Reset()
      modifies this
      ensures bytes == null && position == 0 && !writing
    {
      bytes, position, writing := null, 0, false;
    }

    method PutU8(value: Byte) returns (ok: bool)
      modifies this`writing, original
      ensures writing && original.copied == old(original.copied)
      ensures original.position == if old(writing) then old(original.position) else 0
      ensures var before := if old(writing) then old(original.bytes) else [];
              && (ok <==> original.Fits(|before| + 1))
              && original.bytes == if ok then before + [value] else before
    {
      if !writing {
        original.Reset();
        writing := true;
      }
      ok := original.PutU8(value);
    }

    method PutU8Array(value: array<Byte>) returns (ok: bool)
      modifies this`bytes, original
      ensures old(writing) ==>
                && bytes == old(bytes)
                && (ok <==> original.Fits(|old(original.bytes)| + value.Length))
                && original.position == old(original.position)
                && original.copied == old(original.copied) + (if ok then value.Length else 0)
                && original.bytes == if ok then old(original.bytes) + value[..] else old(original.bytes)
      ensures !old(writing) ==>
                && unchanged(original)
                && (ok <==> original.Fits(value.Length))
                && bytes == if ok then value else old(bytes)
    {
      if writing {
        ok := original.PutU8Array(value);
      } else {
        if !original.Fits(value.Length) { return false; }
        bytes := value;
        return true;
      }
    }

    method Flip()
      modifies this`position, original
      ensures old(writing) ==> position == old(position) && original.position == 0 && original.bytes == old(original.bytes)
      ensures !old(writing) ==> position == 0 && unchanged(original)
    {
      if writing { original.Flip(); } else { position := 0; }
    }

    method GetU8() returns (value: Option<Byte>)
      modifies this`bytes, this`position, original, stats
      ensures old(writing) ==>
                && bytes == old(bytes) && position == old(position) && unchanged(stats)
                && original.bytes == old(original.bytes) && original.copied == old(original.copied)
                && if old(original.position) < |original.bytes|
                   then value == Some(original.bytes[old(original.position)]) && original.position == old(original.position) + 1
                   else value == None && original.position == old(original.position)
      ensures !old(writing) ==>
                && unchanged(original)
                && stats.payloadCopies == old(stats.payloadCopies) && stats.payloadBytes == old(stats.payloadBytes)
                && if old(bytes) == null || old(position) >= old(bytes).Length
                   then value == None && bytes == old(bytes) && position == old(position) && unchanged(stats)
                   else && value == Some(old(bytes)[old(position)])
                        && position == old(position) + 1
                        && bytes == (if value.value == id then old(bytes) else null)
                        && stats.headerReads == old(stats.headerReads) + 1
    {
      if writing {
        value := original.GetU8();
        return;
      }
      if bytes == null || position >= bytes.Length { return None; }
      stats.headerReads := stats.headerReads + 1;
      var header := bytes[position];
      position := position + 1;
      if header != id { bytes := null; }
      return Some(header);
    }

    /** null: there is nothing to read. */
    method GetRemainingBuffer() returns (rest: array?<Byte>)
      modifies this`bytes, stats
      ensures rest != null ==> fresh(rest)
      ensures old(writing) ==>
                && bytes == old(bytes) && unchanged(stats)
                && rest != null
                && rest[..] == if original.position <= |original.bytes| then original.bytes[original.position..] else []
      ensures !old(writing) && old(bytes) == null ==> rest == null && bytes == null && unchanged(stats)
      ensures !old(writing) && old(bytes) != null ==>
                && rest != null && bytes == null
                && rest[..] == (if old(position) <= old(bytes).Length then old(bytes[position..]) else [])
                && stats.headerReads == old(stats.headerReads)
                && stats.payloadCopies == old(stats.payloadCopies) + 1
                && stats.payloadBytes == old(stats.payloadBytes) + rest.Length
    {
      if writing {
        rest := original.GetRemainingBuffer();
        return;
      }
      if bytes == null { return null; }
      var payload := CopyOf(if position <= bytes.Length then bytes[position..] else []);
      stats.payloadCopies := stats.payloadCopies + 1;
      stats.payloadBytes := stats.payloadBytes + payload.Length;
      bytes := null;
      return payload;
    }
  }

  // ----- one packet on one channel -----

  predicate Acceptable(original: OriginalBuffer, message: seq<Byte>) {
    message != [] && original.Fits(|message|)
  }

  /** reset, put, flip, get on a lazy buffer in any state: the id and the payload of the packet, and the
      original buffer untouched. */
  method Visit(channel: LazyBuffer, message: array<Byte>) returns (ok: bool, payload: array?<Byte>)
    modifies channel, channel.original, channel.stats
    ensures unchanged(channel.original)
    ensures ok <==> Acceptable(channel.original, message[..])
    ensures !ok ==> unchanged(channel.stats)
    ensures payload != null <==> ok && message[0] == channel.id
    ensures payload != null ==> fresh(payload) && payload[..] == message[1..]
    ensures channel.stats.headerReads == old(channel.stats.headerReads) + if ok then 1 else 0
    ensures channel.stats.payloadCopies == old(channel.stats.payloadCopies) + if payload != null then 1 else 0
    ensures channel.stats.payloadBytes == old(channel.stats.payloadBytes) + if payload != null then payload.Length else 0
  {
    payload := null;
    channel.Reset();
    ok := channel.PutU8Array(message);
    if !ok { return; }
    channel.Flip();
    var header := channel.GetU8();
    if header.None? { return false, null; }
    if header.value != channel.id { return; }
    payload := channel.GetRemainingBuffer();
  }

  /** The same on the shared buffer, which takes a copy of the whole packet. */
  method VisitCopying(original: OriginalBuffer, id: nat, message: array<Byte>) returns (ok: bool, payload: array?<Byte>)
    modifies original
    ensures ok <==> Acceptable(original, message[..])
    ensures payload != null <==> ok && message[0] == id
    ensures payload != null ==> fresh(payload) && payload[..] == message[1..]
    ensures ok ==> original.copied == old(original.copied) + message.Length
  {
    payload := null;
    original.Reset();
    ok := original.PutU8Array(message);
    if !ok { return; }
    original.Flip();
    var header := original.GetU8();
    if header.None? { return false, null; }
    if header.value != id { return; }
    payload := original.GetRemainingBuffer();
  }

  /** reset, put, put, flip, get: a message on its way out, through the original buffer. */
  method Send(channel: LazyBuffer, header: Byte, payload: array<Byte>) returns (ok: bool, packet: array?<Byte>)
    modifies channel, channel.original, channel.stats
    ensures unchanged(channel.stats)
    ensures ok <==> packet != null
    ensures ok <==> channel.original.Fits(1 + payload.Length)
    ensures ok ==> fresh(packet) && packet[..] == [header] + payload[..]
  {
    packet := null;
    channel.Reset();
    ok := channel.PutU8(header);
    if !ok { return; }
    ok := channel.PutU8Array(payload);
    if !ok { return; }
    channel.Flip();
    packet := channel.GetRemainingBuffer();
  }

  // ----- one packet on all channels -----

  ghost predicate Lazy(channels: seq<LazyBuffer>, original: OriginalBuffer, stats: Stats) {
    && |channels| == CHANNELS
    && forall i | 0 <= i < CHANNELS :: channels[i].id == i && channels[i].original == original && channels[i].stats == stats
  }

  /** What the listeners get for a packet, with either kind of buffer. */
  ghost predicate Delivered(message: seq<Byte>, upTo: nat, deliveries: seq<Delivery>)
    requires message != []
    reads set d | d in deliveries :: d.payload
  {
    if message[0] < upTo then
      |deliveries| == 1 && deliveries[0].channel == message[0] && deliveries[0].payload[..] == message[1..]
    else deliveries == []
  }

  /** The dispatch of a packet over lazy buffers: same outcome and deliveries as over the shared buffer,
      at most one payload copied, and a message half written into the original buffer stays as it is. */
  method Dispatch(channels: seq<LazyBuffer>, original: OriginalBuffer, stats: Stats, message: array<Byte>)
    returns (ok: bool, deliveries: seq<Delivery>)
    requires Lazy(channels, original, stats)
    modifies channels, original, stats
    ensures unchanged(original) && message[..] == old(message[..])
    ensures ok <==> Acceptable(original, message[..])
    ensures ok ==> Delivered(message[..], CHANNELS, deliveries) && forall d | d in deliveries :: fresh(d.payload)
    ensures !ok ==> deliveries == [] && unchanged(stats)
    ensures stats.payloadCopies == old(stats.payloadCopies) + |deliveries| <= old(stats.payloadCopies) + 1
    ensures ok ==> stats.headerReads == old(stats.headerReads) + CHANNELS
    ensures stats.payloadBytes == old(stats.payloadBytes) + if deliveries == [] then 0 else message.Length - 1
  {
    deliveries := [];
    for i := 0 to CHANNELS
      invariant unchanged(original) && message[..] == old(message[..])
      invariant i > 0 ==> Acceptable(original, message[..])
      invariant i == 0 ==> deliveries == [] && unchanged(stats)
      invariant i > 0 ==> Delivered(message[..], i, deliveries)
      invariant forall d | d in deliveries :: fresh(d.payload)
      invariant stats.headerReads == old(stats.headerReads) + i
      invariant |deliveries| <= 1 && stats.payloadCopies == old(stats.payloadCopies) + |deliveries|
      invariant stats.payloadBytes == old(stats.payloadBytes) + if deliveries == [] then 0 else message.Length - 1
    {
      var accepted, payload := Visit(channels[i], message);
      if !accepted { return false, deliveries; }
      if payload != null { deliveries := deliveries + [Delivery(i, payload)]; }
    }
    ok := true;
  }

  /** The dispatch over the shared buffer: every channel copies the packet. */
  method DispatchCopying(original: OriginalBuffer, message: array<Byte>) returns (ok: bool, deliveries: seq<Delivery>)
    modifies original
    ensures message[..] == old(message[..])
    ensures ok <==> Acceptable(original, message[..])
    ensures ok ==> Delivered(message[..], CHANNELS, deliveries) && forall d | d in deliveries :: fresh(d.payload)
    ensures ok ==> original.copied == old(original.copied) + CHANNELS * message.Length
  {
    deliveries := [];
    for i := 0 to CHANNELS
      invariant message[..] == old(message[..])
      invariant i > 0 ==> Acceptable(original, message[..])
      invariant i == 0 ==> deliveries == []
      invariant i > 0 ==> Delivered(message[..], i, deliveries)
      invariant forall d | d in deliveries :: fresh(d.payload)
      invariant original.copied == old(original.copied) + i * message.Length
    {
      var accepted, payload := VisitCopying(original, i, message);
      if !accepted { return false, deliveries; }
      if payload != null { deliveries := deliveries + [Delivery(i, payload)]; }
    }
    ok := true;
  }

  /** A listener that answers on its channel while the packet is being dispatched: the packet reaches it
      as before, and the echo is the packet itself. */
  method DispatchWithEcho(channels: seq<LazyBuffer>, original: OriginalBuffer, stats: Stats, message: array<Byte>)
    returns (ok: bool, deliveries: seq<Delivery>, echo: array?<Byte>)
    requires Lazy(channels, original, stats)
    modifies channels, original, stats
    ensures message[..] == old(message[..])
    ensures ok <==> Acceptable(original, message[..])
    ensures ok ==> Delivered(message[..], CHANNELS, deliveries)
    ensures ok ==> (echo != null <==> message[0] < CHANNELS) && (echo != null ==> echo[..] == message[..])
  {
    deliveries, echo := [], null;
    for i := 0 to CHANNELS
      invariant message[..] == old(message[..])
      invariant i > 0 ==> Acceptable(original, message[..])
      invariant i == 0 ==> deliveries == [] && echo == null
      invariant i > 0 ==> Delivered(message[..], i, deliveries)
      invariant i > 0 ==> (echo != null <==> message[0] < i) && (echo != null ==> echo[..] == message[..])
    {
      var accepted, payload := Visit(channels[i], message);
      if !accepted { return false, deliveries, echo; }
      if payload != null {
        deliveries := deliveries + [Delivery(i, payload)];
        var sent;
        sent, echo := Send(channels[i], i, payload);
        assert message[..] == [message[0]] + message[1..];
      }
    }
    ok := true;
  }

  /** A message a listener sends on some channel. */
  datatype Outgoing = Outgoing(channel: nat, payload: array<Byte>)

  /** What goes out for a message: its channel and its payload, or nothing if it does not fit. */
  ghost predicate WentOut(original: OriginalBuffer, out: Outgoing, packet: array?<Byte>)
    reads out.payload, packet
  {
    && (packet != null <==> original.Fits(1 + out.payload.Length))
    && (packet != null ==> packet[..] == [(out.channel % 256) as Byte] + out.payload[..])
  }

  method SendAll(channels: seq<LazyBuffer>, original: OriginalBuffer, stats: Stats, outs: seq<Outgoing>)
    returns (packets: seq<array?<Byte>>)
    requires Lazy(channels, original, stats) && forall out | out in outs :: out.channel < CHANNELS
    modifies channels, original, stats
    ensures unchanged(stats)
    ensures |packets| == |outs| && forall k | 0 <= k < |outs| :: WentOut(original, outs[k], packets[k])
    ensures forall k | 0 <= k < |packets| && packets[k] != null :: fresh(packets[k])
  {
    packets := [];
    for i := 0 to |outs|
      invariant unchanged(stats) && |packets| == i
      invariant forall k | 0 <= k < i :: WentOut(original, outs[k], packets[k])
      invariant forall k | 0 <= k < i && packets[k] != null :: fresh(packets[k])
    {
      var ok, packet := Send(channels[outs[i].channel], outs[i].channel, outs[i].payload);
      packets := packets + [packet];
    }
  }

  /** A listener that sends any messages on any channels while the packet is being dispatched: every
      message that fits goes out whole, and the packet is delivered as if nothing had been sent. */
  method DispatchWhileSending(channels: seq<LazyBuffer>, original: OriginalBuffer, stats: Stats, message: array<Byte>,
                              outs: seq<Outgoing>)
    returns (ok: bool, deliveries: seq<Delivery>, packets: seq<array?<Byte>>)
    requires Lazy(channels, original, stats) && forall out | out in outs :: out.channel < CHANNELS
    modifies channels, original, stats
    ensures message[..] == old(message[..])
    ensures ok <==> Acceptable(original, message[..])
    ensures ok ==> Delivered(message[..], CHANNELS, deliveries)
    ensures ok && message[0] < CHANNELS ==>
              |packets| == |outs| && forall k | 0 <= k < |outs| :: WentOut(original, outs[k], packets[k])
    ensures stats.payloadCopies == old(stats.payloadCopies) + |deliveries| <= old(stats.payloadCopies) + 1
  {
    deliveries, packets := [], [];
    for i := 0 to CHANNELS
      invariant message[..] == old(message[..])
      invariant i > 0 ==> Acceptable(original, message[..])
      invariant i == 0 ==> deliveries == []
      invariant i > 0 ==> Delivered(message[..], i, deliveries)
      invariant forall d | d in deliveries :: fresh(d.payload)
      invariant i > 0 && message[0] < i ==>
                  |packets| == |outs| && forall k | 0 <= k < |outs| :: WentOut(original, outs[k], packets[k])
      invariant |deliveries| <= 1 && stats.payloadCopies == old(stats.payloadCopies) + |deliveries|
    {
      var accepted, payload := Visit(channels[i], message);
      if !accepted { return false, deliveries, packets; }
      if payload != null {
        deliveries := deliveries + [Delivery(i, payload)];
        packets := SendAll(channels, original, stats, outs);
      }
    }
    ok := true;
  }

  /** A listener that hands in another packet while the first one is being dispatched: both are
      delivered. */
  method DispatchNested(channels: seq<LazyBuffer>, original: OriginalBuffer, stats: Stats, message: array<Byte>,
                        inner: array<Byte>)
    returns (ok: bool, deliveries: seq<Delivery>, innerOk: bool, innerDeliveries: seq<Delivery>)
    requires Lazy(channels, original, stats)
    modifies channels, original, stats
    ensures unchanged(original) && message[..] == old(message[..]) && inner[..] == old(inner[..])
    ensures ok <==> Acceptable(original, message[..])
    ensures ok ==> Delivered(message[..], CHANNELS, deliveries)
    ensures ok && message[0] < CHANNELS ==>
              && (innerOk <==> Acceptable(original, inner[..]))
              && (innerOk ==> Delivered(inner[..], CHANNELS, innerDeliveries))
  {
    deliveries, innerOk, innerDeliveries := [], false, [];
    for i := 0 to CHANNELS
      invariant unchanged(original) && message[..] == old(message[..]) && inner[..] == old(inner[..])
      invariant i > 0 ==> Acceptable(original, message[..])
      invariant i == 0 ==> deliveries == []
      invariant i > 0 ==> Delivered(message[..], i, deliveries)
      invariant forall d | d in deliveries :: fresh(d.payload)
      invariant i > 0 && message[0] < i ==>
                  && (innerOk <==> Acceptable(original, inner[..]))
                  && (innerOk ==> Delivered(inner[..], CHANNELS, innerDeliveries))
      invariant forall d | d in innerDeliveries :: fresh(d.payload)
    {
      var accepted, payload := Visit(channels[i], message);
      if !accepted { return false, deliveries, innerOk, innerDeliveries; }
      if payload != null {
        deliveries := deliveries + [Delivery(i, payload)];
        innerOk, innerDeliveries := Dispatch(channels, original, stats, inner);
      }
    }
    ok := true;
  }

  /** The patch makes 27 lazy buffers, each for the channel at its index. */
  method Streamline(original: OriginalBuffer) returns (channels: seq<LazyBuffer>, stats: Stats)
    ensures Lazy(channels, original, stats) && fresh(stats) && forall c | c in channels :: fresh(c)
  {
    stats := new Stats();
    channels := [];
    for i := 0 to CHANNELS
      invariant |channels| == i && fresh(stats)
      invariant forall j | 0 <= j < i ::
                  channels[j].id == j && channels[j].original == original && channels[j].stats == stats && fresh(channels[j])
    {
      var channel := new LazyBuffer(i, original, stats);
      channels := channels + [channel];
    }
  }
}
