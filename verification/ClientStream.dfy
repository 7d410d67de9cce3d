/** The client's handling of one frame from the server, as code: process_server_frame of src/client.c:285-335.
    Its effect is the function the step system of `Protocol` uses. */
module ClientStream {
  import opened Bytes
  import opened Transport
  import opened Framing
  import opened Messages
  import opened Protocol
  import R = Ring

  /** The descriptors are plain oracles; `stdout.sent` is what the user has seen, and `scrollback` may be
      absent. */
  class Receiver {
    const sock: Socket
    const stdout: Socket
    const scrollback: Socket?
    var lastSeq: nat
    var sawWelcome: bool

    constructor (sock: Socket, stdout: Socket, scrollback: Socket?)
      ensures this.sock == sock && this.stdout == stdout && this.scrollback == scrollback
      ensures lastSeq == 0 && !sawWelcome
    {
      this.sock, this.stdout, this.scrollback := sock, stdout, scrollback;
      lastSeq, sawWelcome := 0, false;
    }

    /** The part of the step system's client that this object holds. */
    ghost predicate Holds(q: Peer)
      reads this, stdout
    {
      q.out == stdout.sent && q.lastSeq == lastSeq
    }

    /** 0 to go on, 1 when the acknowledgement cannot be sent, -1 to give up. */
    method ProcessServerFrame(f: Frame, ghost q: Peer, ghost w: Option<R.Window>) returns (rc: int)
      requires sock != stdout && sock != scrollback && stdout != scrollback
      requires Holds(q) && q.conn.Some? && !q.stopped
      modifies this, sock, stdout, if scrollback == null then {} else {scrollback}
      ensures rc == 0 || rc == 1 || rc == -1
      ensures rc >= 0 ==> var q' := Protocol.ProcessServerFrame(q, f, w); Holds(q') && q'.conn == q.conn && !q'.stopped
      ensures rc == 0 ==> sock.sent == old(sock.sent) + if StreamOf(f).Some? then Encode(AckFrame(lastSeq)) else []
      ensures rc == 1 ==> StreamOf(f).Some? && !old(sock.Reliable())
      ensures rc >= 0 && scrollback != null ==>
                scrollback.sent == old(scrollback.sent) + if StreamOf(f).Some? then StreamOf(f).value.data else []
      ensures rc >= 0 ==>
                && stdout.sent == old(stdout.sent) + (if StreamOf(f).Some? then StreamOf(f).value.data else [])
                && lastSeq == if StreamOf(f).Some? then
                                Max(old(lastSeq), StreamOf(f).value.start + |StreamOf(f).value.data|)
                              else old(lastSeq)
      ensures rc == -1 && StreamOf(f).Some? ==>
                !old(stdout.Reliable()) || (scrollback != null && !old(scrollback.Reliable()))
      ensures old(sock.Reliable()) && old(stdout.Reliable()) && (scrollback != null ==> old(scrollback.Reliable())) ==>
                (rc == 0 <==> WelcomeOf(f).Some? || StreamOf(f).Some?)
      ensures rc == -1 && StreamOf(f).None? ==>
                Protocol.ProcessServerFrame(q, f, w).stopped
                && stdout.sent == old(stdout.sent) && lastSeq == old(lastSeq)
      ensures rc == -1 && StreamOf(f).Some? ==>
                lastSeq == old(lastSeq)
                && exists n: nat :: n <= |StreamOf(f).value.data| && OutputStops(q, f, n, w).out == stdout.sent
      ensures sawWelcome == (old(sawWelcome) || WelcomeOf(f).Some?)
    {
      hide Encode, ToBE, GetU64;
      if f.kind == WELCOME {
        if WelcomeOf(f).None? {
          return -1;
        }
        sawWelcome := true;
        return 0;
      }
      if f.kind == STDOUT || f.kind == REPLAY {
        var stream := StreamOf(f);
        if stream.None? {
          return -1;
        }
        var data := stream.value.data;
        ghost var before := stdout.sent;
        var n: int := 0;
        if data != [] {
          n := WriteFull(stdout, data);
        } else {
          assert before + data == before;
        }
        if n < 0 {
          ghost var m := |stdout.sent| - |before|;
          assert stdout.sent == (before + data)[..|before| + m] == before + data[..m];
          assert OutputStops(q, f, m, w).out == stdout.sent;
          return -1;
        }
        if scrollback != null && data != [] {
          n := WriteFull(scrollback, data);
        }
        if n < 0 {
          assert data[..|data|] == data;
          assert OutputStops(q, f, |data|, w).out == stdout.sent;
          return -1;
        }
        var frameEnd := stream.value.start + |data|;
        if frameEnd > lastSeq {
          lastSeq := frameEnd;
        }
        assert scrollback != null && data == [] ==> scrollback.sent + data == scrollback.sent;
        var sent := SendFrame(sock, AckFrame(lastSeq));
        return if sent < 0 then 1 else 0;
      }
      return -1;
    }
  }
}
