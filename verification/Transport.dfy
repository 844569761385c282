/**
 Moving octets: the chunked transfer loops over a TCP socket and the two readers
 that cut APDUs out of the stream, the client's and the mock server's.

 A socket is what its user can observe: the octets the peer still has to deliver
 and the octets handed to the peer.  How many octets one call moves, whether a wait
 times out and whether another thread asks to stop are left to chance, except on a
 steady socket, where a call fails only for want of octets.
 */
module Transport {
  import opened Frame

  // ----------------------------------------------------------- what readers see

  datatype ReadResult = Starved | Rejected | Accepted(frame: seq<Octet>, rest: seq<Octet>)

  /** The client's reader: skip to the start octet, check the length, take the frame. */
  function ReadClient(stream: seq<Octet>): ReadResult {
    if stream == [] then Starved
    else if stream[0] != START_BYTE then ReadClient(stream[1..])
    else if |stream| < 2 then Starved
    else
      var length: int := stream[1];
      if length < 4 || length > MAX_APDU_LENGTH - 2 then Rejected
      else if |stream| < length + 2 then Starved
      else if IsValidApdu(stream[..length + 2]) then Accepted(stream[..length + 2], stream[length + 2..])
      else Rejected
  }

  /** The mock server's reader bounds the length from below only. */
  function ReadMock(stream: seq<Octet>): ReadResult {
    if stream == [] then Starved
    else if stream[0] != START_BYTE then ReadMock(stream[1..])
    else if |stream| < 2 then Starved
    else
      var length: int := stream[1];
      if length < 4 then Rejected
      else if |stream| < length + 2 then Starved
      else if IsValidApdu(stream[..length + 2]) then Accepted(stream[..length + 2], stream[length + 2..])
      else Rejected
  }

  // -------------------------------------------------------------------- sockets

  class TcpClient {
    var incoming: seq<Octet>
    var outgoing: seq<Octet>
    var connected: bool
    const steady: bool

    constructor (incoming: seq<Octet>, steady: bool)
      ensures this.incoming == incoming && this.outgoing == [] && this.connected && this.steady == steady
    {
      this.incoming, this.outgoing, this.connected, this.steady := incoming, [], true, steady;
    }

    method WaitReadable() returns (ready: bool)
      ensures steady ==> ready == (incoming != [])
    {
      ready := *;
      if steady {
        ready := incoming != [];
      }
    }

    method WaitWritable() returns (ready: bool)
      ensures steady ==> ready
    {
      ready := *;
      ready := steady || ready;
    }

    /** Takes some of the next octets, at most size; a count of zero is an error or a closed link. */
    method Recv(buffer: array<Octet>, start: nat, size: nat) returns (count: nat)
      requires 0 < size && start + size <= buffer.Length
      modifies this`incoming, buffer
      ensures count <= size && count <= |old(incoming)| && (steady && old(incoming) != [] ==> count > 0)
      ensures incoming == old(incoming)[count..]
      ensures buffer[..] == old(buffer[..start]) + old(incoming)[..count] + old(buffer[start + count..])
    {
      var most := if size < |incoming| then size else |incoming|;
      count :| 0 <= count <= most && (steady && most > 0 ==> count > 0);
      forall i | 0 <= i < count {
        buffer[start + i] := incoming[i];
      }
      incoming := incoming[count..];
    }

    method Send(data: seq<Octet>) returns (count: nat)
      requires data != []
      modifies this`outgoing
      ensures count <= |data| && (steady ==> count > 0)
      ensures outgoing == old(outgoing) + data[..count]
    {
      count :| 0 <= count <= |data| && (steady ==> count > 0);
      outgoing := outgoing + data[..count];
    }

    /** On success the whole of data went out; on failure a proper prefix of it, and nothing else. */
    method SendAll(data: seq<Octet>) returns (ok: bool)
      modifies this`outgoing
      ensures steady ==> ok == connected
      ensures ok ==> outgoing == old(outgoing) + data
      ensures !ok ==> exists sent :: 0 <= sent <= |data| && (data != [] ==> sent < |data|)
                                     && outgoing == old(outgoing) + data[..sent]
    {
      if !connected {
        assert data[..0] == [];
        return false;
      }
      var sent := 0;
      while sent < |data|
        invariant 0 <= sent <= |data|
        invariant outgoing == old(outgoing) + data[..sent]
        decreases |data| - sent
      {
        var ready := WaitWritable();
        if !ready {
          return false;
        }
        var count := Send(data[sent..]);
        assert data[..sent] + data[sent..][..count] == data[..sent + count];
        if count <= 0 {
          return false;
        }
        sent := sent + count;
      }
      assert data[..sent] == data;
      return true;
    }

    /** One turn of the receiving loop: more octets behind those received so far, or a failure that took none. */
    method ReceiveMore(buffer: array<Octet>, start: nat, received: nat, size: nat, ghost original: seq<Octet>,
                       ghost stream: seq<Octet>)
      returns (count: nat)
      requires received < size && start + size <= buffer.Length == |original|
      requires received <= |stream| && incoming == stream[received..]
      requires buffer[..] == original[..start] + stream[..received] + original[start + received..]
      modifies this`incoming, buffer
      ensures received + count <= size && received + count <= |stream| && incoming == stream[received + count..]
      ensures buffer[..] == original[..start] + stream[..received + count] + original[start + received + count..]
      ensures steady ==> (count > 0 <==> received < |stream|)
    {
      var ready := WaitReadable();
      if !ready {
        return 0;
      }
      ghost var before := buffer[..];
      count := Recv(buffer, start + received, size - received);
      Filled(original, before, buffer[..], stream, start, received, count);
    }

    /** On success the next size octets, in order; whatever happens, octets leave the stream only from its front. */
    method ReceiveExact(buffer: array<Octet>, start: nat, size: nat) returns (ok: bool)
      requires start + size <= buffer.Length
      modifies this`incoming, buffer
      ensures steady ==> ok == (connected && size <= |old(incoming)|)
      ensures ok ==> size <= |old(incoming)| && incoming == old(incoming)[size..]
      ensures ok ==> buffer[..] == old(buffer[..start]) + old(incoming)[..size] + old(buffer[start + size..])
      ensures |incoming| <= |old(incoming)| && incoming == old(incoming)[|old(incoming)| - |incoming|..]
    {
      if !connected {
        return false;
      }
      ghost var original, stream := buffer[..], incoming;
      assert old(buffer[..start]) == original[..start] && old(buffer[start + size..]) == original[start + size..];
      NothingFilled(original, start, stream);
      var received := 0;
      while received < size
        invariant received <= size && received <= |stream| && |incoming| == |stream| - received
        invariant incoming == stream[received..]
        invariant buffer[..] == original[..start] + stream[..received] + original[start + received..]
        decreases size - received
      {
        var count := ReceiveMore(buffer, start, received, size, original, stream);
        received := received + count;
        if count <= 0 {
          return false;
        }
      }
      return true;
    }
  }

  lemma NothingFilled(original: seq<Octet>, start: nat, stream: seq<Octet>)
    requires start <= |original|
    ensures original == original[..start] + stream[..0] + original[start + 0..] && stream[0..] == stream
  {
  }

  /** A buffer filled up to one point and then a little further is filled up to the further point. */
  lemma Filled(original: seq<Octet>, before: seq<Octet>, after: seq<Octet>, stream: seq<Octet>, start: nat,
               received: nat, count: nat)
    requires received + count <= |stream| && start + received + count <= |original|
    requires before == original[..start] + stream[..received] + original[start + received..]
    requires after == before[..start + received] + stream[received..][..count] + before[start + received + count..]
    ensures after == original[..start] + stream[..received + count] + original[start + received + count..]
  {
    assert before[..start + received] == original[..start] + stream[..received];
    assert before[start + received + count..] == original[start + received + count..];
    assert stream[..received] + stream[received..][..count] == stream[..received + count];
  }

  // -------------------------------------------------------------------- readers

  /** One octet at a time, up to a start octet, the end of what can be read, or a request to stop. */
  method SkipToStart(client: TcpClient) returns (found: bool)
    modifies client`incoming
    ensures found ==> ReadClient(old(client.incoming)) == ReadClient([START_BYTE] + client.incoming)
    ensures found ==> ReadMock(old(client.incoming)) == ReadMock([START_BYTE] + client.incoming)
    ensures client.steady ==> found == (client.connected && START_BYTE in old(client.incoming))
  {
    var octet := new Octet[1];
    var at := 0;
    while true
      invariant fresh(octet)
      invariant at <= |old(client.incoming)| && client.incoming == old(client.incoming)[at..]
      invariant START_BYTE !in old(client.incoming)[..at]
      invariant ReadClient(old(client.incoming)) == ReadClient(client.incoming)
      invariant ReadMock(old(client.incoming)) == ReadMock(client.incoming)
      decreases |client.incoming|
    {
      ghost var stream := client.incoming;
      var ok := client.ReceiveExact(octet, 0, 1);
      if !ok {
        return false;
      }
      assert octet[0] == stream[0] && stream == [stream[0]] + stream[1..];
      if octet[0] == START_BYTE {
        return true;
      }
      at := at + 1;
      var stopping := *;
      if stopping && !client.steady {
        return false;
      }
    }
  }

  /** What a reader decides once it holds the start octet and the length octet. */
  lemma AfterHeader(length: Octet, rest: seq<Octet>)
    ensures var stream, n := [START_BYTE, length] + rest, length as int;
            && (length < 4 || length > MAX_APDU_LENGTH - 2 ==> !ReadClient(stream).Accepted?)
            && (length < 4 ==> !ReadMock(stream).Accepted?)
            && (|rest| < n ==> !ReadClient(stream).Accepted? && !ReadMock(stream).Accepted?)
            && (|rest| >= n && 4 <= length ==>
                  var frame := [START_BYTE, length] + rest[..n];
                  && (length <= MAX_APDU_LENGTH - 2 ==> IsValidApdu(frame))
                  && (IsValidApdu(frame) ==> ReadClient(stream) == ReadMock(stream) == Accepted(frame, rest[n..]))
                  && (!IsValidApdu(frame) ==> !ReadMock(stream).Accepted?))
  {
    var stream, n := [START_BYTE, length] + rest, length as int;
    if |rest| >= n {
      assert stream[..n + 2] == [START_BYTE, length] + rest[..n] && stream[n + 2..] == rest[n..];
    }
  }

  /** Allocates the frame, writes its header and fills the remaining octets in place. */
  method ReceiveBody(client: TcpClient, length: Octet) returns (ok: bool, frame: array<Octet>)
    modifies client`incoming
    ensures fresh(frame)
    ensures ok ==> && length as int <= |old(client.incoming)|
                   && frame[..] == [START_BYTE, length] + old(client.incoming)[..length]
                   && client.incoming == old(client.incoming)[length..]
    ensures client.steady ==> ok == (client.connected && length as int <= |old(client.incoming)|)
  {
    frame := new Octet[length as int + 2];
    frame[0] := START_BYTE;
    frame[1] := length;
    assert frame[..2] == [START_BYTE, length];
    ok := client.ReceiveExact(frame, 2, length);
  }

  /** The client's readApdu: true exactly when the stream starts, after octets to skip, with a whole valid APDU. */
  method ReadApdu(client: TcpClient) returns (ok: bool, frame: array<Octet>)
    modifies client`incoming
    ensures fresh(frame)
    ensures ok ==> ReadClient(old(client.incoming)) == Accepted(frame[..], client.incoming)
    ensures client.steady ==> ok == (client.connected && ReadClient(old(client.incoming)).Accepted?)
  {
    frame := new Octet[0];
    ok := SkipToStart(client);
    if !ok {
      if START_BYTE !in old(client.incoming) {
        NoFrameWithoutStart(old(client.incoming));
      }
      return;
    }
    ghost var stream := client.incoming;
    var stopping := *;
    if stopping && !client.steady {
      return false, frame;
    }
    var lengthOctet := new Octet[1];
    ok := client.ReceiveExact(lengthOctet, 0, 1);
    if !ok {
      return;
    }
    var length := lengthOctet[0];
    assert [START_BYTE] + stream == [START_BYTE, length] + stream[1..];
    AfterHeader(length, stream[1..]);
    if length < 4 || length > MAX_APDU_LENGTH - 2 {
      return false, frame;
    }
    ok, frame := ReceiveBody(client, length);
    if !ok {
      return;
    }
    ok := IsValidApdu(frame[..]);
  }

  /** The mock server's readApdu decides the same way, although it bounds the length later. */
  method ReadApduMock(client: TcpClient) returns (ok: bool, frame: array<Octet>)
    modifies client`incoming
    ensures fresh(frame)
    ensures ok ==> ReadMock(old(client.incoming)) == Accepted(frame[..], client.incoming)
    ensures client.steady ==> ok == (client.connected && ReadMock(old(client.incoming)).Accepted?)
  {
    frame := new Octet[0];
    ok := SkipToStart(client);
    if !ok {
      if START_BYTE !in old(client.incoming) {
        NoFrameWithoutStart(old(client.incoming));
      }
      return;
    }
    ghost var stream := client.incoming;
    var lengthOctet := new Octet[1];
    ok := client.ReceiveExact(lengthOctet, 0, 1);
    if !ok {
      return;
    }
    var length := lengthOctet[0];
    assert [START_BYTE] + stream == [START_BYTE, length] + stream[1..];
    AfterHeader(length, stream[1..]);
    if length < 4 {
      return false, frame;
    }
    ok, frame := ReceiveBody(client, length);
    if !ok {
      return;
    }
    ok := IsValidApdu(frame[..]);
  }

  lemma {:induction false} NoFrameWithoutStart(stream: seq<Octet>)
    requires START_BYTE !in stream
    ensures ReadClient(stream) == ReadMock(stream) == Starved
    decreases |stream|
  {
    if stream != [] {
      NoFrameWithoutStart(stream[1..]);
    }
  }
}
