/** Forwarding a provider's response to the client: streamed, copied, or held
    back for an output filter. Bytes are chars. */
module Stream {
  import opened Wrappers

  type Bytes = string

  /** One Read of the upstream body. */
  datatype End = More | Eof | ReadError

  datatype Read = Read(data: Bytes, end: End)

  /** What the upstream body does, read by read: it ends once, at the last. */
  predicate Complete(script: seq<Read>) {
    && script != []
    && !script[|script| - 1].end.More?
    && forall i :: 0 <= i < |script| - 1 ==> script[i].end.More?
  }

  function Body(script: seq<Read>): Bytes {
    if script == [] then "" else Body(script[..|script| - 1]) + script[|script| - 1].data
  }

  predicate Breaks(script: seq<Read>) {
    script != [] && script[|script| - 1].end.ReadError?
  }

  /** Reading up to `limit` bytes meets the read error: the bytes before the last
      read do not fill the limit, and the last read does not overfill it. */
  predicate BreaksWithin(script: seq<Read>, limit: nat) {
    Breaks(script) && |Body(script[..|script| - 1])| < limit && |Body(script)| <= limit
  }

  function Cut(body: Bytes, limit: nat): Bytes {
    if |body| <= limit then body else body[..limit]
  }

  lemma {:induction false} BodyGrows(script: seq<Read>, i: nat)
    requires i <= |script|
    ensures Body(script[..i]) <= Body(script)
    decreases |script| - i
  {
    if i == |script| {
      assert script[..i] == script;
    } else {
      assert script[..i + 1][..i] == script[..i];
      BodyGrows(script, i + 1);
    }
  }

  lemma BodyOfNext(script: seq<Read>, i: nat)
    requires i < |script|
    ensures Body(script[..i + 1]) == Body(script[..i]) + script[i].data
  {
    assert script[..i + 1][..i] == script[..i];
  }

  /** The caller's connection. It takes bytes until `room` runs out, if it ever
      does; the write that does not fit fails, part of it possibly delivered. */
  class Client {
    var status: Option<nat>
    var statusLines: nat
    var received: Bytes
    var room: Option<nat>
    var gone: bool       // a write has failed

    constructor (room: Option<nat>)
      ensures status == None && statusLines == 0 && received == "" && this.room == room && !gone
    {
      status, statusLines, received, gone := None, 0, "", false;
      this.room := room;
    }

    method WriteHeader(code: nat)
      requires status.None?
      modifies this`status, this`statusLines
      ensures status == Some(code) && statusLines == old(statusLines) + 1
    {
      status, statusLines := Some(code), statusLines + 1;
    }

    /** Write. Nobody writes after a failed write. */
    method Write(p: Bytes) returns (ok: bool)
      requires !gone && status.Some?
      modifies this`received, this`room, this`gone
      ensures ok <==> !gone
      ensures ok <==> old(room).None? || |p| <= old(room).value
      ensures ok ==> received == old(received) + p
      ensures !ok ==> received == old(received) + p[..old(room).value]
      ensures ok ==> room == if old(room).None? then None else Some(old(room).value - |p|)
    {
      if room.None? {
        received := received + p;
        return true;
      }
      if |p| <= room.value {
        received, room := received + p, Some(room.value - |p|);
        return true;
      }
      received, gone := received + p[..room.value], true;
      return false;
    }
  }

  /** The connection breaks before it has taken all of `body`. */
  predicate Overruns(room: Option<nat>, body: Bytes) {
    room.Some? && room.value < |body|
  }

  function Taken(room: Option<nat>, body: Bytes): Bytes {
    if Overruns(room, body) then body[..room.value] else body
  }

  function Left(room: Option<nat>, body: Bytes): Option<nat>
    requires !Overruns(room, body)
  {
    if room.None? then None else Some(room.value - |body|)
  }

  /** How a connection with this much room stands after the bytes written so far. */
  predicate Stands(client: Client, room: Option<nat>, written: Bytes)
    reads client
  {
    && client.received == Taken(room, written) && (client.gone <==> Overruns(room, written))
    && (!client.gone ==> client.room == Left(room, written))
  }

  /** Bytes are written while the client is still there, and dropped afterwards. */
  method WriteWhileThere(client: Client, p: Bytes, ghost room: Option<nat>, ghost written: Bytes)
    requires client.status.Some? && Stands(client, room, written)
    modifies client`received, client`room, client`gone
    ensures Stands(client, room, written + p)
  {
    if !client.gone {
      var _ := client.Write(p);
    }
  }

  /** One read of a streamed body: what fits is kept, and sent if all of it fits. */
  method TakeRead(client: Client, data: Bytes, before: Bytes, maxBytes: nat, ghost room: Option<nat>)
    returns (buf: Bytes, tooLarge: bool)
    requires client.status.Some? && Stands(client, room, before) && |before| <= maxBytes
    modifies client`received, client`room, client`gone
    ensures tooLarge <==> |before + data| > maxBytes
    ensures buf == Cut(before + data, maxBytes)
    ensures Stands(client, room, if tooLarge then before else buf)
  {
    if |before| + |data| > maxBytes {
      assert before + data[..maxBytes - |before|] == (before + data)[..maxBytes];
      return before + data[..maxBytes - |before|], true;
    }
    if data != "" { WriteWhileThere(client, data, room, before); }
    return before + data, false;
  }

  /** Once the reads so far exceed the limit, the whole body does, and is cut alike. */
  lemma CutOfMore(script: seq<Read>, i: nat, limit: nat)
    requires i <= |script| && |Body(script[..i])| > limit
    ensures |Body(script)| > limit && Cut(Body(script), limit) == Cut(Body(script[..i]), limit)
  {
    BodyGrows(script, i);
  }

  datatype Failure = TooLarge | ClientGone | UpstreamBroke

  /** streamResponse. */
  method StreamResponse(client: Client, upstreamStatus: nat, script: seq<Read>, maxBytes: nat)
    returns (buf: Bytes, err: Option<Failure>)
    requires Complete(script)
    requires client.status.None? && client.received == "" && !client.gone
    modifies client
    ensures client.status == Some(upstreamStatus) && client.statusLines == old(client.statusLines) + 1
    // Metering sees the body up to the limit, whatever the client does.
    ensures buf == Cut(Body(script), maxBytes)
    ensures client.received <= buf
    // The outcome depends on the body, not on how it was chunked.
    ensures err == if |Body(script)| > maxBytes then Some(TooLarge)
                   else if client.gone then Some(ClientGone)
                   else if Breaks(script) then Some(UpstreamBroke)
                   else None
    ensures |Body(script)| <= maxBytes ==>
              && client.received == Taken(old(client.room), Body(script))
              && (client.gone <==> Overruns(old(client.room), Body(script)))
    ensures err.None? ==> client.received == Body(script) && !Breaks(script)
  {
    client.WriteHeader(upstreamStatus);
    buf := "";
    var i := 0;
    assert script[..0] == [];
    while true
      invariant 0 <= i < |script|
      invariant buf == Body(script[..i]) && |buf| <= maxBytes
      invariant client.status == Some(upstreamStatus) && client.statusLines == old(client.statusLines) + 1
      invariant Stands(client, old(client.room), buf)
      decreases |script| - i
    {
      var read := script[i];
      BodyOfNext(script, i);
      ghost var before := buf;
      var tooLarge;
      buf, tooLarge := TakeRead(client, read.data, buf, maxBytes, old(client.room));
      if tooLarge {
        CutOfMore(script, i + 1, maxBytes);
        assert client.received <= before <= buf;
        return buf, Some(TooLarge);
      }
      if !read.end.More? {
        assert script[..i + 1] == script;
        return buf, if client.gone then Some(ClientGone) else if read.end.ReadError? then Some(UpstreamBroke) else None;
      }
      i := i + 1;
    }
  }

  /** io.ReadAll over a LimitReader: the body up to `limit` bytes, and whether
      reading broke before that. */
  method ReadAllLimited(script: seq<Read>, limit: nat) returns (body: Bytes, broke: bool)
    requires Complete(script)
    ensures body == Cut(Body(script), limit)
    ensures broke <==> BreaksWithin(script, limit)
  {
    body := "";
    var i := 0;
    assert script[..0] == [];
    while |body| < limit
      invariant 0 <= i < |script|
      invariant body == Body(script[..i]) && |body| <= limit
      decreases |script| - i
    {
      var read := script[i];
      BodyOfNext(script, i);
      BodyGrows(script, i + 1);
      if |body| + |read.data| > limit {
        body := body + read.data[..limit - |body|];
        return body, false;
      }
      body := body + read.data;
      if !read.end.More? {
        assert script[..i + 1] == script;
        return body, read.end.ReadError?;
      }
      i := i + 1;
    }
    BodyGrows(script, i);
    ghost var most := script[..|script| - 1];
    assert most[..i] == script[..i];
    BodyGrows(most, i);
    return body, false;
  }

  /** copyResponse. An oversize body gets no status and no byte. A body whose read
      breaks is dropped whole, also for metering. */
  method CopyResponse(client: Client, upstreamStatus: nat, script: seq<Read>, maxBytes: nat)
    returns (buf: Bytes, err: Option<Failure>)
    requires Complete(script)
    requires client.status.None? && client.received == "" && !client.gone
    modifies client
    ensures buf == if err == Some(UpstreamBroke) then "" else Cut(Body(script), maxBytes + 1)
    ensures err == Some(UpstreamBroke) <==> BreaksWithin(script, maxBytes + 1)
    ensures client.received <= buf <= Body(script)
    ensures client.status.Some? ==> client.status == Some(upstreamStatus) && buf == Body(script)
    ensures client.statusLines == old(client.statusLines) + if client.status.Some? then 1 else 0
    ensures client.status.None? ==> client.received == ""
    ensures err == Some(TooLarge) <==> |Body(script)| > maxBytes && !BreaksWithin(script, maxBytes + 1)
    ensures err == Some(TooLarge) || err == Some(UpstreamBroke) ==> client.received == "" && client.status.None?
    ensures err == Some(ClientGone) <==> client.gone
    ensures err.None? <==> |Body(script)| <= maxBytes && !Breaks(script) && !client.gone
    ensures err.None? ==> client.received == Body(script)
    ensures client.gone ==> client.received != Body(script) && |Body(script)| <= maxBytes
    ensures |Body(script)| <= maxBytes && !Breaks(script) ==>
              (client.gone <==> Overruns(old(client.room), Body(script)))
  {
    var broke;
    buf, broke := ReadAllLimited(script, maxBytes + 1);
    if broke { return "", Some(UpstreamBroke); }
    if |buf| > maxBytes { return buf, Some(TooLarge); }
    client.WriteHeader(upstreamStatus);
    var ok := client.Write(buf);
    err := if ok then None else Some(ClientGone);
  }

  /** bufferResponse: the client is not touched. */
  method BufferResponse(script: seq<Read>, maxBytes: nat) returns (buf: Bytes, err: Option<Failure>)
    requires Complete(script)
    ensures err.None? <==> |Body(script)| <= maxBytes && !Breaks(script)
    ensures err.None? ==> buf == Body(script)
    ensures buf == Cut(Body(script), maxBytes + 1)
  {
    var broke;
    buf, broke := ReadAllLimited(script, maxBytes + 1);
    if broke { return buf, Some(UpstreamBroke); }
    err := if |buf| > maxBytes then Some(TooLarge) else None;
  }

  /** deliverBuffered. */
  method DeliverBuffered(client: Client, upstreamStatus: nat, body: Bytes) returns (err: Option<Failure>)
    requires client.status.None? && client.received == "" && !client.gone
    modifies client
    ensures client.status == Some(upstreamStatus) && client.statusLines == old(client.statusLines) + 1
    ensures client.received <= body
    ensures err.None? <==> !client.gone
    ensures err.None? <==> client.received == body
    ensures client.gone <==> Overruns(old(client.room), body)
    ensures err.None? || err == Some(ClientGone)
  {
    client.WriteHeader(upstreamStatus);
    var ok := client.Write(body);
    err := if ok then None else Some(ClientGone);
  }

  // ---- Chunking does not matter ----

  /** Two chunkings of one body over connections that break at the same byte:
      the same bytes are metered, the call ends the same way, and a body within
      the limit leaves the two clients with the same bytes. */
  method ChunkingDoesNotMatter(a: seq<Read>, b: seq<Read>, room: Option<nat>, status: nat, maxBytes: nat)
    returns (metered: (Bytes, Bytes), ends: (Option<Failure>, Option<Failure>), received: (Bytes, Bytes))
    requires Complete(a) && Complete(b) && Body(a) == Body(b) && (Breaks(a) <==> Breaks(b))
    ensures metered.0 == metered.1
    ensures ends.0 == ends.1
    ensures |Body(a)| <= maxBytes ==> received.0 == received.1
  {
    var first := new Client(room);
    var second := new Client(room);
    var bufA, errA := StreamResponse(first, status, a, maxBytes);
    var bufB, errB := StreamResponse(second, status, b, maxBytes);
    metered, ends, received := (bufA, bufB), (errA, errB), (first.received, second.received);
  }
}
