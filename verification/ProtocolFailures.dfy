/** What failures do, in any environment: who is marked dead, who is passed over, and what a shutdown reaches. */
module ProtocolFailures {
  import opened Bytes
  import opened Framing
  import opened Messages
  import opened Clients
  import opened Protocol
  import opened ProtocolSafety
  import opened ProtocolDelivery
  import opened ProtocolTheorems
  import R = Ring

  // ---------------------------------------------------------------- Sockets that are shut down

  /** A broken or shut-down socket stays so, and not one more byte or frame goes out on it. */
  lemma BrokenForGood(env: Env, s: State, step: Step, c: ConnId)
    requires Can(env, s, step) && c in s.conns && s.conns[c].broken
    ensures var s' := Do(env, s, step);
            && c in s'.conns && s'.conns[c].broken
            && s'.conns[c].wire == s.conns[c].wire && s'.conns[c].frames == s.conns[c].frames
  {
    hide R.Append, Receive, ProcessServerFrame, OutputStops, StreamOf, Release, Finish, Abandon, Filter, Encode, Unlink,
      StdoutFor, AfterSending;
  }

  /** A dead client's socket is shut down. */
  lemma DeadMeansBroken(env: Env, s: State, c: ConnId)
    requires env.cap > 0 && Reachable(env, s) && c in s.conns && s.conns[c].obj.dead
    ensures s.conns[c].broken && c !in s.list
  {
    SafeReach(env, s);
    assert RefsOk(c in s.list, s.pty, c, s.conns[c]);
  }

  /** server_shutdown_clients shuts down every listed client's socket and does nothing else. */
  lemma ShutdownReachesTheListed(env: Env, s: State, c: ConnId)
    requires Can(env, s, ShutdownClients)
    ensures var s' := Do(env, s, ShutdownClients);
            && s' == s.(conns := s'.conns) && (c in s'.conns <==> c in s.conns)
            && (c in s.conns ==> s'.conns[c] == s.conns[c].(broken := s.conns[c].broken || c in s.list))
  {
  }

  // ---------------------------------------------------------------- One client's turn in a broadcast

  /** The trim: nothing is sent exactly when the client has seen the whole chunk, and otherwise what is sent is, to
      the client's decoder, exactly the part of the history it has not seen. */
  lemma TrimSendsTheUnseen(hist: seq<byte>, liveSeq: nat, start: nat, chunk: seq<byte>)
    requires start + |chunk| <= |hist| < U64_LIMIT && chunk == hist[start..start + |chunk|]
    ensures var f, upto := StdoutFor(liveSeq, start, chunk), start + |chunk|;
            && (f.None? <==> liveSeq >= upto)
            && (f.Some? ==> f.value.kind == STDOUT
                            && StreamOf(f.value) == Some(Stream(Max(liveSeq, start), hist[Max(liveSeq, start)..upto])))
  {
    if liveSeq < start + |chunk| {
      var from := Max(liveSeq, start);
      assert chunk[from - start..] == hist[from..start + |chunk|];
      ServerMessagesRoundTrip(STDOUT, from, chunk[from - start..], 0, 0);
    }
  }

  /** Where the turn of `c` in a broadcast is bound to end. */
  ghost predicate TurnOk(env: Env, pty: PtyPc, c: ConnId, k: Conn) {
    && (TurnIs(pty, c) && pty.phase == UnlockingOut(true) ==> k.obj.liveSeq >= pty.start + |pty.chunk|)
    && (TurnIs(pty, c) && (pty.phase == UnlockingOut(false) || pty.phase.WantMarkDead?) ==>
          k.cut.Some? || env.allocFails)
    && (k.obj.dead && !k.pc.Finished? ==> k.cut.Some? || env.allocFails)
  }

  ghost predicate Turns(env: Env, s: State) {
    forall c :: c in s.conns ==> TurnOk(env, s.pty, c, s.conns[c])
  }

  lemma {:induction false} ReleasesKeep(k: Fields, n: nat)
    ensures ReleaseMany(k, n).liveSeq == k.liveSeq && ReleaseMany(k, n).dead == k.dead
    ensures Release(k).liveSeq == k.liveSeq && Release(k).dead == k.dead
    decreases n
  {
    if n > 0 && k.refs != 1 {
      ReleasesKeep(Release(k), n - 1);
    }
  }

  lemma OwnTurn(env: Env, ring: R.RingState, clientsMu: Lock, ringMu: Lock, pty: PtyPc, listed: bool, c: ConnId,
                k: Conn, o: OwnStep)
    requires RefsOk(listed, pty, c, k) && TurnOk(env, pty, c, k) && CanOwn(env, ring, clientsMu, ringMu, k, o)
    ensures TurnOk(env, pty, c, OwnConn(env, ring, clientsMu, ringMu, c, k, o))
  {
    ReleasesKeep(MarkDead(k.obj), if k.obj.inList then 2 else 1);
    hide ReleaseMany, Encode, AfterSending, R.Snapshot, Pending;
  }

  lemma TurnTurn(env: Env, clientsMu: Lock, pty: PtyPc, k: Conn, t: TurnStep)
    requires pty.Broadcasting? && pty.i < |pty.snap| && CanTurn(env, clientsMu, pty, k, t) && NoDup(pty.snap)
    requires TurnOk(env, pty, TurnOf(pty), k)
    ensures TurnOk(env, TurnPty(env, clientsMu, pty, k, t), TurnOf(pty), TurnConn(env, clientsMu, pty, k, t))
  {
    ReleasesKeep(MarkDead(k.obj), if k.obj.inList then 1 else 0);
    hide ReleaseMany, Encode;
  }

  lemma {:induction false} TurnsRun(env: Env, steps: seq<Step>)
    requires env.cap > 0 && Run(env, steps).Some?
    ensures Safe(env, Run(env, steps).value) && Turns(env, Run(env, steps).value)
    decreases |steps|
  {
    hide Safe, Turns, Can, Do;
    SafeRun(env, steps);
    if steps == [] {
      assert Turns(env, Init(env)) by { NoTurns(env); }
    } else {
      var init := steps[..|steps| - 1];
      TurnsRun(env, init);
      TurnsNext(env, Run(env, init).value, steps[|steps| - 1]);
    }
  }

  lemma NoTurns(env: Env)
    ensures Turns(env, Init(env))
  {
  }

  lemma RefsAt(env: Env, s: State, c: ConnId)
    requires Safe(env, s) && c in s.conns
    ensures RefsOk(c in s.list, s.pty, c, s.conns[c])
    ensures s.pty.Broadcasting? ==> NoDup(s.pty.snap)
  {
  }

  /** A step that neither is the turn of `c` nor belongs to its own thread. */
  lemma OtherTurn(env: Env, s: State, step: Step, c: ConnId)
    requires Can(env, s, step) && c in s.conns && TurnOk(env, s.pty, c, s.conns[c])
    requires !(step.Own? && step.c == c) && !(step.Turn? && TurnOf(s.pty) == c)
    ensures c in Do(env, s, step).conns && TurnOk(env, Do(env, s, step).pty, c, Do(env, s, step).conns[c])
  {
    ReleasesKeep(s.conns[c].obj, 0);
    hide OwnConn, CanOwn, TurnConn, R.Append, CanPeer, DoPeer, Filter, Unlink, Release, Encode, StdoutFor;
    if step.Client? {
      ClientAtServer(env, s, step.p, step.peer);
      hide CanArrive;
    }
  }

  /** A new connection. */
  lemma NewTurn(env: Env, s: State, step: Step, c: ConnId)
    requires Safe(env, s) && Can(env, s, step) && c !in s.conns && c in Do(env, s, step).conns
    ensures TurnOk(env, Do(env, s, step).pty, c, Do(env, s, step).conns[c])
  {
    hide LockOk, WireOf, NoDup, RefsOk, OwnConn, CanOwn, TurnConn, CanTurn, R.Append, CanPeer, DoPeer, Filter, Unlink,
      Release, Encode, StdoutFor;
    if step.Client? {
      ClientAtServer(env, s, step.p, step.peer);
    }
  }

  lemma TurnsNext(env: Env, s: State, step: Step)
    requires Safe(env, s) && Turns(env, s) && Can(env, s, step)
    ensures Turns(env, Do(env, s, step))
  {
    var s' := Do(env, s, step);
    hide Safe, RefsOk, NoDup, TurnOk, OwnConn, CanOwn, TurnConn, TurnPty, CanTurn, CanPty, DoPty, CanPeer, DoPeer;
    forall c | c in s'.conns
      ensures TurnOk(env, s'.pty, c, s'.conns[c])
    {
      if c !in s.conns {
        NewTurn(env, s, step, c);
      } else if step.Own? && step.c == c {
        assert RefsOk(c in s.list, s.pty, c, s.conns[c]) by { RefsAt(env, s, c); }
        OwnTurn(env, s.ring, s.clientsMu, s.ringMu, s.pty, c in s.list, c, s.conns[c], step.own);
      } else if step.Turn? && TurnOf(s.pty) == c {
        RefsAt(env, s, c);
        TurnTurn(env, s.clientsMu, s.pty, s.conns[c], step.turn);
      } else {
        OtherTurn(env, s, step, c);
      }
    }
  }

  lemma HowTurnsEnd(env: Env, s: State, step: Step)
    requires Can(env, s, step) && s.pty.Broadcasting? && s.pty.i < |s.pty.snap|
    requires Do(env, s, step).pty == s.pty.(i := s.pty.i + 1, phase := WantWriteMu)
    ensures step == Turn(TMarkDead) || (step == Turn(TUnlock) && s.pty.phase == UnlockingOut(true))
  {
    hide CanOwn, OwnConn, TurnConn, R.Append, CanPeer, DoPeer, Encode, StdoutFor, Filter;
    if step.Client? {
      ClientAtServer(env, s, step.p, step.peer);
    }
  }

  /** In any environment: when a broadcast moves on from a client, the client has the whole chunk or is dead. */
  lemma NobodyIsPassedOver(env: Env, s: State, step: Step)
    requires env.cap > 0 && Reachable(env, s) && Can(env, s, step)
    requires s.pty.Broadcasting? && s.pty.i < |s.pty.snap|
    requires Do(env, s, step).pty == s.pty.(i := s.pty.i + 1, phase := WantWriteMu)
    ensures var c := s.pty.snap[s.pty.i];
            && c in Do(env, s, step).conns
            && var o := Do(env, s, step).conns[c].obj;
               o.dead || o.liveSeq >= s.pty.start + |s.pty.chunk|
  {
    hide Safe, CanTurn, TurnPty, ReleaseMany;
    var steps: seq<Step> :| Run(env, steps) == Some(s);
    TurnsRun(env, steps);
    HowTurnsEnd(env, s, step);
    var c := s.pty.snap[s.pty.i];
    assert TurnOk(env, s.pty, c, s.conns[c]);
    ReleasesKeep(MarkDead(s.conns[c].obj), if s.conns[c].obj.inList then 1 else 0);
  }

  /** While allocations succeed, only a client whose socket failed in the middle of a frame is ever marked dead
      before its thread has finished. */
  lemma OnlyFailuresKill(env: Env, s: State, c: ConnId)
    requires env.cap > 0 && !env.allocFails && Reachable(env, s) && c in s.conns
    requires s.conns[c].obj.dead && !s.conns[c].pc.Finished?
    ensures s.conns[c].cut.Some? && s.conns[c].broken
  {
    var steps: seq<Step> :| Run(env, steps) == Some(s);
    TurnsRun(env, steps);
    assert TurnOk(env, s.pty, c, s.conns[c]) && RefsOk(c in s.list, s.pty, c, s.conns[c]);
  }

  // ---------------------------------------------------------------- How connections end

  /** The connection's thread has read an end of input, a bad frame or a shutdown request, or sets out to send an
      ERROR. */
  predicate Tells(step: Step, c: ConnId) {
    step.Own? && step.c == c && (step.own.Quit? || step.own.LockError?)
  }

  predicate Ending(pc: OwnPc) {
    pc.WantFinish? || pc.Finished? || pc.ErrorUnlocking? || (pc.Sending? && pc.stage.SendsError?)
  }

  lemma OwnEnds(env: Env, ring: R.RingState, clientsMu: Lock, ringMu: Lock, c: ConnId, k: Conn, o: OwnStep)
    requires CanOwn(env, ring, clientsMu, ringMu, k, o)
    requires Ending(OwnConn(env, ring, clientsMu, ringMu, c, k, o).pc)
    ensures Ending(k.pc) || o.Quit? || o.LockError?
  {
  }

  lemma EndsStep(env: Env, s: State, step: Step, c: ConnId)
    requires Can(env, s, step) && c in Do(env, s, step).conns && Ending(Do(env, s, step).conns[c].pc)
    ensures (c in s.conns && Ending(s.conns[c].pc)) || Tells(step, c)
  {
    hide CanOwn, OwnConn, TurnPty, R.Append, CanPeer, DoPeer, Filter, Unlink, Release, Abandon, Encode, StdoutFor;
    if step.Client? {
      ClientAtServer(env, s, step.p, step.peer);
    } else if step.Own? && step.c == c {
      OwnEnds(env, s.ring, s.clientsMu, s.ringMu, c, s.conns[c], step.own);
    }
  }

  /** No client is turned away in silence: in any environment, a thread finishes only after its client's input came to
      such an end, or after it set out to send the client an ERROR. */
  lemma {:induction false} NobodyIsDroppedSilently(env: Env, steps: seq<Step>, c: ConnId)
    requires Run(env, steps).Some? && c in Run(env, steps).value.conns && Ending(Run(env, steps).value.conns[c].pc)
    ensures exists i :: 0 <= i < |steps| && Tells(steps[i], c)
    decreases |steps|
  {
    var init, last := steps[..|steps| - 1], steps[|steps| - 1];
    hide Can, Do, Ending;
    EndsStep(env, Run(env, init).value, last, c);
    if Tells(last, c) {
      assert Tells(steps[|steps| - 1], c);
    } else {
      NobodyIsDroppedSilently(env, init, c);
      var i :| 0 <= i < |init| && Tells(init[i], c);
      assert Tells(steps[i], c);
    }
  }
}
