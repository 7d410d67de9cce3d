/** The child's end: reaping, and the HUP, TERM, KILL escalation (src/server.c:130-221, 262-286, 668).

    Threads are shutdown requests, any number at a time, and final waits such as the PTY thread's. A poll and
    a signal hold child_mu for one step; a blocking wait holds it from one step to a later one. */
module Child {
  import opened Bytes

  type ThreadId = nat

  const STOP_GRACE_MS: nat := 2000
  const STOP_SIGNAL_GRACE_MS: nat := 1000
  const POLL_MS: nat := 50

  /** The process as the kernel has it; `Gone` once its pid is free for reuse. */
  datatype Kernel = Alive | Zombie | Gone

  /** What waitpid reports: the child's pid, 0, ECHILD, EINTR, or another error. */
  datatype Wait = Exited | Running | NoChild | Interrupted | OtherError

  predicate Reports(kernel: Kernel, w: Wait) {
    match w
    case Exited => kernel.Zombie?
    case Running => kernel.Alive?
    case NoChild => kernel.Gone?
    case _ => true
  }

  datatype Signal = HUP | TERM | KILL

  /** The three waits of a shutdown request, each followed by a signal. */
  datatype Phase = Grace | AfterHup | AfterTerm

  function Limit(p: Phase): nat {
    if p.Grace? then STOP_GRACE_MS else STOP_SIGNAL_GRACE_MS
  }

  function SignalOf(p: Phase): Signal {
    match p
    case Grace => HUP
    case AfterHup => TERM
    case AfterTerm => KILL
  }

  datatype Pc =
    | Polling(phase: Phase, waited: nat)
    | Sleeping(phase: Phase, waited: nat)
    | Signalling(phase: Phase)
    | WantBlock
    | Blocking
    | Closing

  datatype Mutex = Free | HeldBy(t: ThreadId)

  datatype State = State(kernel: Kernel, reaped: bool, childMu: Mutex, threads: map<ThreadId, Pc>)

  const Init := State(Alive, false, Free, map[])

  // ---------------------------------------------------------------- What the code does with a waitpid result

  /** The new child_reaped flag. */
  function ReapedAfter(reaped: bool, w: Wait): bool {
    reaped || w.Exited? || w.NoChild?
  }

  /** server_poll_child_locked: 1, 0 or -1. */
  function PollResult(reaped: bool, w: Wait): int {
    if ReapedAfter(reaped, w) then 1 else if w.Running? then 0 else -1
  }

  /** Where server_wait_child_deadline goes after a poll. */
  function AfterPoll(p: Phase, waited: nat, rc: int): Pc {
    if rc != 0 then Closing else if waited >= Limit(p) then Signalling(p) else Sleeping(p, waited)
  }

  /** Where server_request_shutdown goes after a signal. */
  function AfterSignal(p: Phase): Pc {
    match p
    case Grace => Polling(AfterHup, 0)
    case AfterHup => Polling(AfterTerm, 0)
    case AfterTerm => WantBlock
  }

  // ---------------------------------------------------------------- Steps

  /** A step names the system call it makes and, for waitpid, the result. The steps without a call are the
      arrival of a thread, taking child_mu to block, and finding child_reaped set. */
  datatype Step =
    | Exit
    | AutoReap
    | Arrive(t: ThreadId)
    | FinalWait(t: ThreadId)
    | Poll(t: ThreadId, w: Wait)
    | Sleep(t: ThreadId)
    | Signal(t: ThreadId, signal: Signal)
    | Block(t: ThreadId)
    | Unblock(t: ThreadId, w: Wait)
    | FindReaped(t: ThreadId)

  /** `autoReap`: the system discards a child that exits, as it does when SIGCHLD is ignored. */
  predicate Can(autoReap: bool, s: State, step: Step) {
    match step
    case Exit => s.kernel.Alive?
    case AutoReap => autoReap && s.kernel.Alive?
    case Arrive(t) => t !in s.threads
    case FinalWait(t) => t !in s.threads
    case Poll(t, w) =>
      t in s.threads && s.threads[t].Polling? && s.childMu.Free? && !s.reaped && Reports(s.kernel, w)
    case Sleep(t) => t in s.threads && s.threads[t].Sleeping?
    case Signal(t, signal) =>
      t in s.threads && s.threads[t].Signalling? && s.childMu.Free? && !s.reaped
      && signal == SignalOf(s.threads[t].phase)
    case Block(t) => t in s.threads && s.threads[t].WantBlock? && s.childMu.Free?
    case Unblock(t, w) =>
      t in s.threads && s.threads[t].Blocking? && !s.reaped && Reports(s.kernel, w) && !w.Running?
    case FindReaped(t) =>
      t in s.threads && s.reaped
      && (s.threads[t].Blocking? || ((s.threads[t].Polling? || s.threads[t].Signalling?) && s.childMu.Free?))
  }

  function Do(autoReap: bool, s: State, step: Step): State
    requires Can(autoReap, s, step)
  {
    match step
    case Exit => s.(kernel := Zombie)
    case AutoReap => s.(kernel := Gone)
    case Arrive(t) => s.(threads := s.threads[t := Polling(Grace, 0)])
    case FinalWait(t) => s.(threads := s.threads[t := WantBlock])
    case Poll(t, w) =>
      if w.Interrupted? then s
      else
        s.(reaped := ReapedAfter(false, w), kernel := if w.Exited? then Gone else s.kernel,
           threads := s.threads[t := AfterPoll(s.threads[t].phase, s.threads[t].waited, PollResult(false, w))])
    case Sleep(t) => s.(threads := s.threads[t := Polling(s.threads[t].phase, s.threads[t].waited + POLL_MS)])
    case Signal(t, _) => s.(threads := s.threads[t := AfterSignal(s.threads[t].phase)])
    case Block(t) => s.(threads := s.threads[t := Blocking], childMu := HeldBy(t))
    case Unblock(t, w) =>
      if w.Interrupted? then s
      else
        s.(reaped := ReapedAfter(false, w), kernel := if w.Exited? then Gone else s.kernel, childMu := Free,
           threads := s.threads[t := Closing])
    case FindReaped(t) =>
      s.(threads := s.threads[t := if s.threads[t].Signalling? then AfterSignal(s.threads[t].phase) else Closing],
         childMu := if s.threads[t].Blocking? then Free else s.childMu)
  }

  /** The state after these steps, or None if one of them cannot be taken. */
  function Run(autoReap: bool, steps: seq<Step>): Option<State> {
    if steps == [] then Some(Init)
    else
      var before := Run(autoReap, steps[..|steps| - 1]);
      if before.Some? && Can(autoReap, before.value, steps[|steps| - 1])
      then Some(Do(autoReap, before.value, steps[|steps| - 1])) else None
  }

  ghost predicate Reachable(autoReap: bool, s: State) {
    exists steps: seq<Step> :: Run(autoReap, steps) == Some(s)
  }

  lemma RunNext(autoReap: bool, steps: seq<Step>, s: State, step: Step)
    requires Run(autoReap, steps) == Some(s) && Can(autoReap, s, step)
    ensures Run(autoReap, steps + [step]) == Some(Do(autoReap, s, step))
  {
    assert (steps + [step])[..|steps|] == steps;
  }

  // ---------------------------------------------------------------- What a thread did

  /** One thread's polls that found the child running, its sleeps, and the signals it sent. */
  datatype Act = FoundRunning | Slept | Sent(signal: Signal)

  function ActOf(step: Step, t: ThreadId): seq<Act> {
    if step == Poll(t, Running) then [FoundRunning]
    else if step == Sleep(t) then [Slept]
    else if step.Signal? && step.t == t then [Sent(step.signal)]
    else []
  }

  /** Read off the steps of a run. */
  function ActsOf(steps: seq<Step>, t: ThreadId): seq<Act> {
    if steps == [] then [] else ActsOf(steps[..|steps| - 1], t) + ActOf(steps[|steps| - 1], t)
  }

  // ---------------------------------------------------------------- The escalation ladder

  /** A poll that finds the child running and a sleep, `n` times. */
  function Rounds(n: nat): seq<Act> {
    if n == 0 then [] else Rounds(n - 1) + [FoundRunning, Slept]
  }

  /** A whole wait of server_wait_child_deadline that ends in a timeout. */
  function FullWait(p: Phase): seq<Act> {
    Rounds(Limit(p) / POLL_MS) + [FoundRunning]
  }

  /** What a request has done before the wait of phase `p`, if it got there by timeouts. */
  function Before(p: Phase): seq<Act> {
    match p
    case Grace => []
    case AfterHup => FullWait(Grace) + [Sent(HUP)]
    case AfterTerm => FullWait(Grace) + [Sent(HUP)] + FullWait(AfterHup) + [Sent(TERM)]
  }

  /** Everything a request can do while the child lives on. */
  function Ladder(): seq<Act> {
    Before(AfterTerm) + FullWait(AfterTerm) + [Sent(KILL)]
  }

  /** Time spent asleep. */
  function Time(acts: seq<Act>): nat {
    if acts == [] then 0 else Time(acts[..|acts| - 1]) + if acts[|acts| - 1].Slept? then POLL_MS else 0
  }

  lemma {:induction false} RoundsTake(n: nat, m: nat)
    requires n <= m
    ensures Rounds(n) <= Rounds(m) && |Rounds(m)| == 2 * m
    ensures n < m ==> Rounds(n) + [FoundRunning, Slept] <= Rounds(m)
  {
    if m > 0 && n < m {
      RoundsTake(n, m - 1);
    } else if m > 0 {
      RoundsTake(m - 1, m - 1);
    }
  }

  lemma {:induction false} RoundsTime(n: nat)
    ensures Time(Rounds(n)) == n * POLL_MS
  {
    if n > 0 {
      var r := Rounds(n - 1);
      RoundsTime(n - 1);
      assert Rounds(n)[..|r| + 1] == r + [FoundRunning] && (r + [FoundRunning])[..|r|] == r;
    }
  }

  lemma {:induction false} TimeAdds(a: seq<Act>, b: seq<Act>)
    ensures Time(a + b) == Time(a) + Time(b)
    decreases |b|
  {
    if b == [] {
      assert a + b == a;
    } else {
      TimeAdds(a, b[..|b| - 1]);
      assert (a + b)[..|a + b| - 1] == a + b[..|b| - 1];
    }
  }

  /** A timed-out wait polls Limit/50 + 1 times and sleeps for the whole limit: 2000, 1000 and 1000 ms. */
  lemma FullWaitIsFull(p: Phase)
    ensures Time(FullWait(p)) == Limit(p)
    ensures |FullWait(p)| == 2 * (Limit(p) / POLL_MS) + 1 == if p.Grace? then 81 else 41
  {
    RoundsTime(Limit(p) / POLL_MS);
    RoundsTake(0, Limit(p) / POLL_MS);
    TimeAdds(Rounds(Limit(p) / POLL_MS), [FoundRunning]);
    assert [FoundRunning][..0] == [];
  }

  // ---------------------------------------------------------------- What every step keeps

  lemma BeforeNext(p: Phase)
    ensures !p.AfterTerm? ==>
              Before(AfterSignal(p).phase) == Before(p) + FullWait(p) + [Sent(SignalOf(p))]
    ensures p.AfterTerm? ==> Ladder() == Before(p) + FullWait(p) + [Sent(SignalOf(p))]
  {
    if p.Grace? {
      assert [] + FullWait(p) == FullWait(p);
    }
  }

  lemma Inside(a: seq<Act>, b: seq<Act>, c: seq<Act>, d: seq<Act>)
    requires b <= c
    ensures a + b <= a + c + d && a <= a + c + d
  {
  }

  lemma OnLadder(p: Phase, acts: seq<Act>)
    requires acts <= FullWait(p)
    ensures Before(p) + acts <= Ladder()
    ensures Before(p) + FullWait(p) + [Sent(SignalOf(p))] <= Ladder()
  {
    BeforeNext(Grace);
    BeforeNext(AfterHup);
    BeforeNext(AfterTerm);
    hide Before, FullWait, Ladder;
    Inside(Before(AfterTerm), [], FullWait(AfterTerm), [Sent(KILL)]);
    Inside(Before(AfterHup), [], FullWait(AfterHup), [Sent(TERM)]);
    Inside(Before(p), acts, FullWait(p), [Sent(SignalOf(p))]);
  }

  /** What a thread did puts it on the ladder. Only a signal skipped because the child is reaped makes it lag
      behind its place. */
  ghost predicate ThreadOk(reaped: bool, acts: seq<Act>, pc: Pc) {
    && acts <= Ladder()
    && match pc
       case Polling(p, waited) =>
         waited % POLL_MS == 0 && waited <= Limit(p) && (reaped || acts == Before(p) + Rounds(waited / POLL_MS))
       case Sleeping(p, waited) =>
         waited % POLL_MS == 0 && waited < Limit(p)
         && acts == Before(p) + (Rounds(waited / POLL_MS) + [FoundRunning])
       case Signalling(p) => acts == Before(p) + FullWait(p)
       case _ => true
  }

  ghost predicate Core(autoReap: bool, s: State) {
    && (forall t :: t in s.threads ==> (s.threads[t].Blocking? <==> s.childMu == HeldBy(t)))
    && (s.childMu.HeldBy? ==> s.childMu.t in s.threads)
    && (s.reaped ==> s.kernel.Gone?)
    && (!autoReap ==> (s.reaped <==> s.kernel.Gone?))
  }

  ghost predicate Inv(autoReap: bool, steps: seq<Step>, s: State) {
    && Core(autoReap, s)
    && (forall t :: t in s.threads ==> ThreadOk(s.reaped, ActsOf(steps, t), s.threads[t]))
    && (forall t :: t !in s.threads ==> ActsOf(steps, t) == [])
  }

  lemma CoreNext(autoReap: bool, s: State, step: Step)
    requires Core(autoReap, s) && Can(autoReap, s, step)
    ensures Core(autoReap, Do(autoReap, s, step))
  {
  }

  lemma PollKeeps(acts: seq<Act>, p: Phase, waited: nat, w: Wait)
    requires ThreadOk(false, acts, Polling(p, waited)) && !w.Interrupted?
    ensures ThreadOk(ReapedAfter(false, w), acts + if w.Running? then [FoundRunning] else [],
                     AfterPoll(p, waited, PollResult(false, w)))
  {
    var n := waited / POLL_MS;
    if w.Running? {
      RoundsTake(n, Limit(p) / POLL_MS);
      OnLadder(p, Rounds(n) + [FoundRunning]);
      hide Ladder, Before;
      assert acts + [FoundRunning] == Before(p) + (Rounds(n) + [FoundRunning]);
    } else {
      assert acts + [] == acts;
    }
  }

  lemma SleepKeeps(reaped: bool, acts: seq<Act>, p: Phase, waited: nat)
    requires ThreadOk(reaped, acts, Sleeping(p, waited))
    ensures ThreadOk(reaped, acts + [Slept], Polling(p, waited + POLL_MS))
  {
    var n := waited / POLL_MS;
    RoundsTake(n, Limit(p) / POLL_MS);
    OnLadder(p, Rounds(n) + [FoundRunning, Slept]);
    hide Ladder, Before;
    assert acts + [Slept] == Before(p) + (Rounds(n) + [FoundRunning, Slept]);
    assert Rounds(n + 1) == Rounds(n) + [FoundRunning, Slept];
  }

  lemma SignalKeeps(acts: seq<Act>, p: Phase)
    requires ThreadOk(false, acts, Signalling(p))
    ensures ThreadOk(false, acts + [Sent(SignalOf(p))], AfterSignal(p))
  {
    OnLadder(p, []);
    BeforeNext(p);
    hide Before, FullWait, Ladder;
    if !p.AfterTerm? {
      var b := Before(AfterSignal(p).phase);
      assert b + [] == b;
    }
  }

  /** The thread that takes the step. */
  lemma OwnNext(autoReap: bool, s: State, acts: seq<Act>, step: Step, t: ThreadId)
    requires t in s.threads && ThreadOk(s.reaped, acts, s.threads[t]) && Can(autoReap, s, step)
    requires !step.Exit? && !step.AutoReap? && step.t == t
    ensures t in Do(autoReap, s, step).threads
            && ThreadOk(Do(autoReap, s, step).reaped, acts + ActOf(step, t), Do(autoReap, s, step).threads[t])
  {
    hide Ladder, Before, FullWait, Rounds;
    assert acts + [] == acts;
    match step
    case Poll(_, w) =>
      if !w.Interrupted? {
        PollKeeps(acts, s.threads[t].phase, s.threads[t].waited, w);
      }
    case Sleep(_) => SleepKeeps(s.reaped, acts, s.threads[t].phase, s.threads[t].waited);
    case Signal(_, _) => SignalKeeps(acts, s.threads[t].phase);
    case _ =>
  }

  /** Every other thread. */
  lemma OtherNext(autoReap: bool, s: State, acts: seq<Act>, step: Step, t: ThreadId)
    requires t in s.threads && ThreadOk(s.reaped, acts, s.threads[t]) && Can(autoReap, s, step)
    requires step.Exit? || step.AutoReap? || step.t != t
    ensures t in Do(autoReap, s, step).threads
            && ThreadOk(Do(autoReap, s, step).reaped, acts + ActOf(step, t), Do(autoReap, s, step).threads[t])
  {
    hide Ladder, Before, FullWait, Rounds;
    assert acts + [] == acts;
  }

  lemma ThreadNext(autoReap: bool, steps: seq<Step>, s: State, step: Step, t: ThreadId)
    requires Inv(autoReap, steps, s) && Can(autoReap, s, step) && t in Do(autoReap, s, step).threads
    ensures ThreadOk(Do(autoReap, s, step).reaped, ActsOf(steps, t) + ActOf(step, t), Do(autoReap, s, step).threads[t])
  {
    hide ThreadOk, Core, ActsOf;
    if t in s.threads {
      if step.Exit? || step.AutoReap? || step.t != t {
        OtherNext(autoReap, s, ActsOf(steps, t), step, t);
      } else {
        OwnNext(autoReap, s, ActsOf(steps, t), step, t);
      }
    } else {
      FreshThread(Do(autoReap, s, step).reaped);
      assert [] + ActOf(step, t) == [];
    }
  }

  lemma FreshThread(reaped: bool)
    ensures ThreadOk(reaped, [], Polling(Grace, 0)) && ThreadOk(reaped, [], WantBlock)
  {
  }

  lemma ActsSnoc(steps: seq<Step>, step: Step, t: ThreadId)
    ensures ActsOf(steps + [step], t) == ActsOf(steps, t) + ActOf(step, t)
  {
    assert (steps + [step])[..|steps|] == steps;
  }

  lemma InvNext(autoReap: bool, steps: seq<Step>, s: State, step: Step)
    requires Inv(autoReap, steps, s) && Can(autoReap, s, step)
    ensures Inv(autoReap, steps + [step], Do(autoReap, s, step))
  {
    CoreNext(autoReap, s, step);
    var s' := Do(autoReap, s, step);
    forall t
      ensures t in s'.threads ==> ThreadOk(s'.reaped, ActsOf(steps + [step], t), s'.threads[t])
      ensures t !in s'.threads ==> ActsOf(steps + [step], t) == []
    {
      ActsSnoc(steps, step, t);
      if t in s'.threads {
        ThreadNext(autoReap, steps, s, step, t);
      } else {
        hide ThreadOk, Core, ActsOf;
      }
    }
  }

  lemma {:induction false} InvRun(autoReap: bool, steps: seq<Step>)
    requires Run(autoReap, steps).Some?
    ensures Inv(autoReap, steps, Run(autoReap, steps).value)
    decreases |steps|
  {
    if steps != [] {
      hide Inv, Do, Can;
      var init, last := steps[..|steps| - 1], steps[|steps| - 1];
      InvRun(autoReap, init);
      InvNext(autoReap, init, Run(autoReap, init).value, last);
      assert init + [last] == steps;
    }
  }

  // ---------------------------------------------------------------- Main results

  /** The step asks the kernel for the child, or signals it. */
  predicate UsesPid(step: Step) {
    step.Poll? || step.Unblock? || step.Signal?
  }

  /** Once a waitpid has reported the child's end, child_reaped is set, and nothing uses the pid again: it is
      neither waited for nor signalled. */
  lemma {:induction false} ReapedThenSilence(autoReap: bool, steps: seq<Step>, i: nat)
    requires Run(autoReap, steps).Some? && i < |steps|
    requires (steps[i].Poll? || steps[i].Unblock?) && (steps[i].w == Exited || steps[i].w == NoChild)
    ensures Run(autoReap, steps).value.reaped
    ensures forall j :: i < j < |steps| ==> !UsesPid(steps[j])
    decreases |steps|
  {
    if i < |steps| - 1 {
      ReapedThenSilence(autoReap, steps[..|steps| - 1], i);
    }
  }

  /** A thread's polls, sleeps and signals, read off the steps of any run, are an initial part of the one
      ladder; `LadderIs` spells the ladder out. */
  lemma ThreadsClimbTheLadder(autoReap: bool, steps: seq<Step>, t: ThreadId)
    requires Run(autoReap, steps).Some?
    ensures ActsOf(steps, t) <= Ladder()
    ensures |ActsOf(steps, t)| <= 166 && Time(ActsOf(steps, t)) <= 4000
  {
    InvRun(autoReap, steps);
    var s := Run(autoReap, steps).value;
    assert t in s.threads ==> ThreadOk(s.reaped, ActsOf(steps, t), s.threads[t]);
    LadderSize();
    TimeGrows(ActsOf(steps, t), Ladder());
  }

  /** 41 polls and 40 sleeps of 50 ms, HUP, 21 polls and 20 sleeps, TERM, the same again, KILL. */
  lemma LadderIs(i: nat)
    requires i < 166
    ensures |Ladder()| == 166
    ensures Ladder()[i] == if i == 81 then Sent(HUP) else if i == 123 then Sent(TERM) else if i == 165 then Sent(KILL)
                           else if i < 81 then (if i % 2 == 0 then FoundRunning else Slept)
                           else if i < 123 then (if (i - 82) % 2 == 0 then FoundRunning else Slept)
                           else (if (i - 124) % 2 == 0 then FoundRunning else Slept)
  {
    FullWaitIsFull(Grace);
    FullWaitIsFull(AfterHup);
    FullWaitIsFull(AfterTerm);
    if i < 81 {
      FullWaitAt(Grace, i);
    } else if 82 <= i < 123 {
      FullWaitAt(AfterHup, i - 82);
    } else if 124 <= i < 165 {
      FullWaitAt(AfterTerm, i - 124);
    }
    hide FullWait;
  }

  lemma {:induction false} RoundsAt(n: nat, i: nat)
    requires i < 2 * n
    ensures |Rounds(n)| == 2 * n && Rounds(n)[i] == if i % 2 == 0 then FoundRunning else Slept
  {
    RoundsTake(n - 1, n - 1);
    if i < 2 * (n - 1) {
      RoundsAt(n - 1, i);
    }
  }

  lemma FullWaitAt(p: Phase, i: nat)
    requires i < |FullWait(p)|
    ensures FullWait(p)[i] == if i % 2 == 0 then FoundRunning else Slept
  {
    var n := Limit(p) / POLL_MS;
    RoundsTake(n, n);
    if i < 2 * n {
      RoundsAt(n, i);
    }
  }

  lemma LadderSize()
    ensures |Ladder()| == 166 && Time(Ladder()) == 4000
  {
    hide FullWait;
    FullWaitIsFull(Grace);
    FullWaitIsFull(AfterHup);
    FullWaitIsFull(AfterTerm);
    NoTime(HUP);
    NoTime(TERM);
    NoTime(KILL);
    TimeAdds(FullWait(Grace), [Sent(HUP)]);
    TimeAdds(FullWait(Grace) + [Sent(HUP)], FullWait(AfterHup));
    TimeAdds(FullWait(Grace) + [Sent(HUP)] + FullWait(AfterHup), [Sent(TERM)]);
    TimeAdds(Before(AfterTerm), FullWait(AfterTerm));
    TimeAdds(Before(AfterTerm) + FullWait(AfterTerm), [Sent(KILL)]);
  }

  lemma NoTime(x: Signal)
    ensures Time([Sent(x)]) == 0
  {
    assert [Sent(x)][..0] == [];
  }

  lemma TimeGrows(a: seq<Act>, b: seq<Act>)
    requires a <= b
    ensures Time(a) <= Time(b) && |a| <= |b|
  {
    TimeAdds(a, b[|a|..]);
    assert a + b[|a|..] == b;
  }

  /** A thread that is done leaves the child reaped, or met an error of waitpid. */
  lemma {:induction false} DoneMeansReaped(autoReap: bool, steps: seq<Step>, t: ThreadId)
    requires Run(autoReap, steps).Some?
    requires t in Run(autoReap, steps).value.threads && Run(autoReap, steps).value.threads[t].Closing?
    ensures Run(autoReap, steps).value.reaped || Poll(t, OtherError) in steps || Unblock(t, OtherError) in steps
    decreases |steps|
  {
    var init, last := steps[..|steps| - 1], steps[|steps| - 1];
    var s := Run(autoReap, init).value;
    if t in s.threads && s.threads[t].Closing? {
      DoneMeansReaped(autoReap, init, t);
    }
  }

  /** What waitpid has to report. */
  function Report(kernel: Kernel): Wait {
    match kernel
    case Alive => Running
    case Zombie => Exited
    case Gone => NoChild
  }

  /** The call that a thread's place demands, with what the kernel has to report; a blocking waitpid on a living
      child only ever reports an interruption. */
  function CallAt(s: State, t: ThreadId): Step
    requires t in s.threads && !s.threads[t].Closing?
  {
    match s.threads[t]
    case Sleeping(_, _) => Sleep(t)
    case WantBlock => Block(t)
    case Polling(_, _) => if s.reaped then FindReaped(t) else Poll(t, Report(s.kernel))
    case Signalling(p) => if s.reaped then FindReaped(t) else Signal(t, SignalOf(p))
    case Blocking =>
      if s.reaped then FindReaped(t) else Unblock(t, if s.kernel.Alive? then Interrupted else Report(s.kernel))
  }

  lemma CallIsPossible(autoReap: bool, s: State, t: ThreadId)
    requires Core(autoReap, s) && t in s.threads && !s.threads[t].Closing?
    requires s.childMu.Free? || s.childMu == HeldBy(t) || s.threads[t].Sleeping?
    ensures Can(autoReap, s, CallAt(s, t))
  {
  }

  /** Nobody gets stuck: in every reachable state each thread that is not done can make its call, unless it waits for
      child_mu, and then the thread that holds it can. */
  lemma NobodyIsStuck(autoReap: bool, s: State, t: ThreadId)
    requires Reachable(autoReap, s) && t in s.threads && !s.threads[t].Closing?
    ensures var u := if s.childMu.HeldBy? && !s.threads[t].Sleeping? then s.childMu.t else t;
            u in s.threads && !s.threads[u].Closing? && Can(autoReap, s, CallAt(s, u))
  {
    hide Run, Can, CallAt, ActsOf, ThreadOk;
    var steps: seq<Step> :| Run(autoReap, steps) == Some(s);
    InvRun(autoReap, steps);
    CallIsPossible(autoReap, s, if s.childMu.HeldBy? && !s.threads[t].Sleeping? then s.childMu.t else t);
  }

  // ---------------------------------------------------------------- Runs

  /** The child lives on, nobody holds child_mu, and thread `t` is at `pc`; what else there is is as in `s`. */
  function With(s: State, t: ThreadId, pc: Pc): State {
    State(Alive, false, Free, s.threads[t := pc])
  }

  lemma Moves(autoReap: bool, steps: seq<Step>, s: State, t: ThreadId, pc: Pc, step: Step, pc': Pc)
    requires Run(autoReap, steps) == Some(With(s, t, pc)) && Can(autoReap, With(s, t, pc), step)
    requires step == Poll(t, Running) || step == Sleep(t) || (step.Signal? && step.t == t)
    requires Do(autoReap, With(s, t, pc), step).threads[t] == pc'
    ensures Run(autoReap, steps + [step]) == Some(With(s, t, pc'))
  {
    RunNext(autoReap, steps, With(s, t, pc), step);
    assert s.threads[t := pc][t := pc'] == s.threads[t := pc'];
  }

  /** `n` polls and sleeps from the start of a phase. */
  lemma {:induction false} PollsFor(autoReap: bool, steps: seq<Step>, s: State, t: ThreadId, p: Phase, n: nat)
      returns (more: seq<Step>)
    requires Run(autoReap, steps) == Some(With(s, t, Polling(p, 0))) && n <= Limit(p) / POLL_MS
    ensures Run(autoReap, steps + more) == Some(With(s, t, Polling(p, n * POLL_MS)))
    decreases n
  {
    hide Run;
    if n == 0 {
      more := [];
      assert steps + [] == steps;
    } else {
      var before := PollsFor(autoReap, steps, s, t, p, n - 1);
      var waited := (n - 1) * POLL_MS;
      Moves(autoReap, steps + before, s, t, Polling(p, waited), Poll(t, Running), Sleeping(p, waited));
      Moves(autoReap, steps + before + [Poll(t, Running)], s, t, Sleeping(p, waited), Sleep(t),
            Polling(p, waited + POLL_MS));
      more := before + [Poll(t, Running), Sleep(t)];
      assert steps + more == steps + before + [Poll(t, Running)] + [Sleep(t)];
    }
  }

  /** A whole wait that times out, and the signal after it. */
  lemma TimesOut(autoReap: bool, steps: seq<Step>, s: State, t: ThreadId, p: Phase) returns (more: seq<Step>)
    requires Run(autoReap, steps) == Some(With(s, t, Polling(p, 0)))
    ensures steps <= more && Run(autoReap, more) == Some(With(s, t, Signalling(p)))
    ensures Run(autoReap, more + [Signal(t, SignalOf(p))]) == Some(With(s, t, AfterSignal(p)))
  {
    hide Run;
    var polls := PollsFor(autoReap, steps, s, t, p, Limit(p) / POLL_MS);
    Moves(autoReap, steps + polls, s, t, Polling(p, Limit(p)), Poll(t, Running), Signalling(p));
    more := steps + polls + [Poll(t, Running)];
    Moves(autoReap, more, s, t, Signalling(p), Signal(t, SignalOf(p)), AfterSignal(p));
  }

  /** The state in which a newcomer can do as it likes. */
  predicate Open(s: State, t: ThreadId) {
    s.kernel.Alive? && !s.reaped && s.childMu.Free? && t !in s.threads
  }

  /** From wherever a run has got to while the child lives and child_mu is free: a child that ignores everything
      but KILL makes a new request climb the whole ladder, and is reaped at its end. */
  lemma SomeRunClimbsItAll(autoReap: bool, before: seq<Step>, s: State, t: ThreadId) returns (steps: seq<Step>)
    requires Run(autoReap, before) == Some(s) && Open(s, t)
    ensures before <= steps && ActsOf(steps, t) == Ladder()
    ensures Run(autoReap, steps) == Some(State(Gone, true, Free, s.threads[t := Closing]))
  {
    hide Run, Before, FullWait;
    var c := ReachesTheLastSignal(autoReap, before, s, t);
    steps := DiesAndIsReaped(autoReap, c + [Signal(t, KILL)], s, t);
    ActsSnoc(c, Signal(t, KILL), t);
  }

  lemma ReachesTheLastSignal(autoReap: bool, before: seq<Step>, s: State, t: ThreadId) returns (c: seq<Step>)
    requires Run(autoReap, before) == Some(s) && Open(s, t)
    ensures before <= c && Run(autoReap, c) == Some(With(s, t, Signalling(AfterTerm)))
    ensures Run(autoReap, c + [Signal(t, KILL)]) == Some(With(s, t, WantBlock))
    ensures ActsOf(c, t) == Before(AfterTerm) + FullWait(AfterTerm)
  {
    hide Run, Before, FullWait, Ladder;
    RunNext(autoReap, before, s, Arrive(t));
    c := TimesOut(autoReap, before + [Arrive(t)], s, t, Grace);
    c := TimesOut(autoReap, c + [Signal(t, HUP)], s, t, AfterHup);
    c := TimesOut(autoReap, c + [Signal(t, TERM)], s, t, AfterTerm);
    InvRun(autoReap, c);
    assert ThreadOk(false, ActsOf(c, t), Signalling(AfterTerm));
  }

  lemma DiesAndIsReaped(autoReap: bool, steps: seq<Step>, s: State, t: ThreadId) returns (more: seq<Step>)
    requires Run(autoReap, steps) == Some(With(s, t, WantBlock))
    ensures steps <= more && Run(autoReap, more) == Some(State(Gone, true, Free, s.threads[t := Closing]))
    ensures ActsOf(more, t) == ActsOf(steps, t)
  {
    hide Run, ActsOf;
    var threads: map<ThreadId, Pc> := s.threads;
    var s0 := With(s, t, WantBlock);
    var s1 := State(Zombie, false, Free, threads[t := WantBlock]);
    var s2 := State(Zombie, false, HeldBy(t), threads[t := Blocking]);
    RunNext(autoReap, steps, s0, Exit);
    RunNext(autoReap, steps + [Exit], s1, Block(t));
    assert threads[t := WantBlock][t := Blocking] == threads[t := Blocking];
    RunNext(autoReap, steps + [Exit] + [Block(t)], s2, Unblock(t, Exited));
    assert threads[t := Blocking][t := Closing] == threads[t := Closing];
    more := steps + [Exit] + [Block(t)] + [Unblock(t, Exited)];
    ActsSnoc(steps, Exit, t);
    ActsSnoc(steps + [Exit], Block(t), t);
    ActsSnoc(steps + [Exit] + [Block(t)], Unblock(t, Exited), t);
  }

  /** The final wait of the PTY thread can come at any such moment too, and reaps the child without a signal. */
  lemma SomeRunWaits(autoReap: bool, before: seq<Step>, s: State, t: ThreadId) returns (steps: seq<Step>)
    requires Run(autoReap, before) == Some(s) && Open(s, t)
    ensures before <= steps && ActsOf(steps, t) == []
    ensures Run(autoReap, steps) == Some(State(Gone, true, Free, s.threads[t := Closing]))
  {
    InvRun(autoReap, before);
    hide Run, Inv, ActsOf;
    RunNext(autoReap, before, s, FinalWait(t));
    steps := DiesAndIsReaped(autoReap, before + [FinalWait(t)], s, t);
    ActsSnoc(before, FinalWait(t), t);
  }

  /** With a system that discards exited children, a child can vanish between a poll and the signal. */
  lemma StrayKill() returns (s: State)
    ensures Reachable(true, s) && Can(true, s, Signal(0, HUP)) && s.kernel.Gone?
  {
    RunNext(true, [], Init, Arrive(0));
    var a := TimesOut(true, [] + [Arrive(0)], Init, 0, Grace);
    RunNext(true, a, With(Init, 0, Signalling(Grace)), AutoReap);
    s := With(Init, 0, Signalling(Grace)).(kernel := Gone);
  }

  /** Every signal of every run goes to the child itself, running or a zombie, exactly when the system leaves
      reaping to the server. */
  lemma SignalsReachTheChild(autoReap: bool)
    ensures (forall s: State, t: ThreadId, x: Signal ::
               Reachable(autoReap, s) && Can(autoReap, s, Signal(t, x)) ==> !s.kernel.Gone?)
            <==> !autoReap
  {
    if autoReap {
      var s := StrayKill();
    } else {
      forall s: State, t: ThreadId, x: Signal | Reachable(autoReap, s) && Can(autoReap, s, Signal(t, x))
        ensures !s.kernel.Gone?
      {
        var steps: seq<Step> :| Run(autoReap, steps) == Some(s);
        InvRun(autoReap, steps);
      }
    }
  }

  // ---------------------------------------------------------------- The code

  /** The fields under child_mu, with the results of the waitpid calls to come; after those, calls fail. */
  class ChildFields {
    var reaped: bool
    var waits: seq<Wait>

    constructor (waits: seq<Wait>)
      ensures !reaped && this.waits == waits
    {
      this.reaped, this.waits := false, waits;
    }

    method WaitPid() returns (w: Wait)
      modifies this`waits
      ensures w == if old(waits) == [] then OtherError else old(waits)[0]
      ensures waits == if old(waits) == [] then [] else old(waits)[1..]
    {
      if waits == [] {
        return OtherError;
      }
      w := waits[0];
      waits := waits[1..];
    }

    /** server_poll_child_locked: the first result that is not EINTR decides, and no call is made once the child
        is reaped. */
    method PollLocked() returns (rc: int)
      modifies this
      ensures old(reaped) ==> rc == 1 && reaped && waits == old(waits)
      ensures !old(reaped) ==> forall k ::
                0 <= k < |old(waits)| && !old(waits)[k].Interrupted?
                && (forall j :: 0 <= j < k ==> old(waits)[j].Interrupted?) ==>
                  && waits == old(waits)[k + 1..]
                  && reaped == (old(waits)[k].Exited? || old(waits)[k].NoChild?)
                  && rc == (if reaped then 1 else if old(waits)[k].Running? then 0 else -1)
                  && rc == PollResult(false, old(waits)[k])
      ensures !old(reaped) && (forall j :: 0 <= j < |old(waits)| ==> old(waits)[j].Interrupted?) ==>
                rc == -1 && !reaped && waits == []
    {
      if reaped {
        return 1;
      }
      ghost var i := 0;
      while true
        invariant !reaped && i <= |old(waits)| && waits == old(waits)[i..]
        invariant forall j :: 0 <= j < i ==> old(waits)[j].Interrupted?
        decreases |waits|
      {
        var w := WaitPid();
        if w.Exited? {
          reaped := true;
          return 1;
        }
        if w.Running? {
          return 0;
        }
        if w.Interrupted? {
          i := i + 1;
          continue;
        }
        if w.NoChild? {
          reaped := true;
          return 1;
        }
        return -1;
      }
    }

    /** server_wait_child_blocking; a blocking waitpid never reports a running child. */
    method WaitBlocking()
      requires forall i :: 0 <= i < |waits| ==> !waits[i].Running?
      modifies this
      ensures old(reaped) ==> reaped && waits == old(waits)
      ensures !old(reaped) ==> forall k ::
                0 <= k < |old(waits)| && !old(waits)[k].Interrupted?
                && (forall j :: 0 <= j < k ==> old(waits)[j].Interrupted?) ==>
                  waits == old(waits)[k + 1..] && reaped == (old(waits)[k].Exited? || old(waits)[k].NoChild?)
      ensures !old(reaped) && (forall j :: 0 <= j < |old(waits)| ==> old(waits)[j].Interrupted?) ==>
                !reaped && waits == []
    {
      ghost var i := 0;
      while !reaped
        invariant reaped == old(reaped) && i <= |old(waits)| && waits == old(waits)[i..]
        invariant reaped ==> i == 0
        invariant forall j :: 0 <= j < i ==> old(waits)[j].Interrupted?
        decreases |waits|
      {
        var w := WaitPid();
        if w.Exited? {
          reaped := true;
          break;
        }
        if w.Interrupted? {
          i := i + 1;
          continue;
        }
        if w.NoChild? {
          reaped := true;
          break;
        }
        break;
      }
    }
  }
}
