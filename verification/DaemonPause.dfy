/** What still happens after a pause: the two threads look at their flags only at the top of
    their loops. */
module DaemonPause {
  import opened FilterTables
  import opened Daemon

  // The worker's, or the receive thread's, flag stays up before every step of the run.
  ghost predicate WorkPausedThroughout(s: State, acts: seq<Action>)
    decreases |acts|
  {
    s.flags.workPaused && (acts == [] || WorkPausedThroughout(Step(s, acts[0]), acts[1..]))
  }

  ghost predicate ReceivePausedThroughout(s: State, acts: seq<Action>)
    decreases |acts|
  {
    s.flags.receivePaused && (acts == [] || ReceivePausedThroughout(Step(s, acts[0]), acts[1..]))
  }

  // The step at which a client's thread clears one of the flags: ResumeWork or ResumeReceive.
  predicate Resumes(r: Registry, a: Action, stage: Stage) {
    a.ByClient? && a.event == Proceed && IsAt(r, a.c, stage)
  }

  ghost predicate NoneResumes(s: State, acts: seq<Action>, stage: Stage)
    decreases |acts|
  {
    acts == [] || (!Resumes(s.reg, acts[0], stage) && NoneResumes(Step(s, acts[0]), acts[1..], stage))
  }

  /** A flag that is up stays up exactly until some client's thread reaches its resume. */
  lemma {:induction false} FlagsStayUpExactly(s: State, acts: seq<Action>)
    ensures WorkPausedThroughout(s, acts) <==> s.flags.workPaused && NoneResumes(s, acts, ResumeWork)
    ensures ReceivePausedThroughout(s, acts) <==> s.flags.receivePaused && NoneResumes(s, acts, ResumeReceive)
    decreases |acts|
  {
    if acts == [] {
    } else {
      FlagsAfterStep(s, acts[0]);
      FlagsStayUpExactly(Step(s, acts[0]), acts[1..]);
    }
  }

  lemma FlagsAfterStep(s: State, a: Action)
    ensures s.flags.workPaused ==> (Step(s, a).flags.workPaused <==> !Resumes(s.reg, a, ResumeWork))
    ensures s.flags.receivePaused ==> (Step(s, a).flags.receivePaused <==> !Resumes(s.reg, a, ResumeReceive))
  {
  }

  // A worker past its gate can start one more callback, even from inside a blocking dequeue.
  function StartsLeft(pc: WorkPc): nat {
    if pc.Dequeuing? || pc.Got? then 1 else 0
  }

  lemma StepUsesStarts(s: State, a: Action)
    requires s.flags.workPaused
    ensures var s' := Step(s, a);
            s'.work.started + StartsLeft(s'.work.pc) <= s.work.started + StartsLeft(s.work.pc)
  {
  }

  /** From a pause of the worker until the next resume, whatever all threads do, at most one
      more callback is started; and none unless the worker was already past its gate. */
  lemma {:induction false} PausedWorkerStartsAtMostOne(s: State, acts: seq<Action>)
    requires WorkPausedThroughout(s, acts)
    ensures s.work.started <= Run(s, acts).work.started <= s.work.started + StartsLeft(s.work.pc)
    decreases |acts|
  {
    if acts == [] {
    } else {
      StepUsesStarts(s, acts[0]);
      PausedWorkerStartsAtMostOne(Step(s, acts[0]), acts[1..]);
    }
  }

  // The least port the receive thread can still read in the sweep it is in.
  function NextRead(pc: ReceivePc): int {
    match pc
    case AtPort(p) => p
    case Offering(p, _) => p + 1
    case Checking(p, _, _) => p + 1
    case Pushing(p, _, _) => p + 1
    case _ => 10
  }

  function SweepsLeft(pc: ReceivePc): nat {
    if pc.Top? || pc.Gate? || pc.Ended? then 0 else 1
  }

  // Ports in strictly ascending order, none below the given one.
  ghost predicate AscendingFrom(ports: seq<DevPort>, low: int) {
    && (forall i :: 0 <= i < |ports| ==> ports[i] >= low)
    && (forall i, j :: 0 <= i < j < |ports| ==> ports[i] < ports[j])
  }

  lemma StepReadsAtMostOne(s: State, a: Action)
    requires s.flags.receivePaused
    ensures var r, r' := s.recv, Step(s, a).recv;
            && r'.sweeps + SweepsLeft(r'.pc) <= r.sweeps + SweepsLeft(r.pc)
            && NextRead(r'.pc) >= NextRead(r.pc)
            && (r'.portsRead == r.portsRead
                || (NextRead(r.pc) < NextRead(r'.pc) && NextRead(r.pc) <= 9
                    && NextRead(r.pc) in r.enabled && r'.portsRead == r.portsRead + [NextRead(r.pc)]))
  {
  }

  lemma {:induction false} EnabledGrows(s: State, acts: seq<Action>)
    ensures s.recv.enabled <= Run(s, acts).recv.enabled
    decreases |acts|
  {
    if acts == [] {
    } else {
      assert s.recv.enabled <= Step(s, acts[0]).recv.enabled;
      EnabledGrows(Step(s, acts[0]), acts[1..]);
    }
  }

  /** From a pause of the receive thread until the next resume it finishes at most the sweep it
      is in, and the ports it still reads are enabled ones in ascending order: at most one read
      per port. */
  lemma {:induction false} PausedReceiverFinishesSweep(s: State, acts: seq<Action>) returns (ports: seq<DevPort>)
    requires ReceivePausedThroughout(s, acts)
    ensures Run(s, acts).recv.portsRead == s.recv.portsRead + ports
    ensures AscendingFrom(ports, NextRead(s.recv.pc)) && forall p :: p in ports ==> p in Run(s, acts).recv.enabled
    ensures Run(s, acts).recv.sweeps <= s.recv.sweeps + SweepsLeft(s.recv.pc)
    decreases |acts|
  {
    if acts == [] {
      ports := [];
    } else {
      var s' := Step(s, acts[0]);
      StepReadsAtMostOne(s, acts[0]);
      var rest := PausedReceiverFinishesSweep(s', acts[1..]);
      EnabledGrows(s', acts[1..]);
      if s'.recv.portsRead == s.recv.portsRead {
        ports := rest;
      } else {
        ports := [NextRead(s.recv.pc)] + rest;
        assert s.recv.portsRead + [NextRead(s.recv.pc)] + rest == s.recv.portsRead + ports;
      }
    }
  }

  // ---------- sweeps ----------

  // Port p is still to come in the sweep under way, or in the one that is about to start.
  predicate StillToVisit(pc: ReceivePc, p: DevPort) { pc.Top? || pc.Gate? || NextRead(pc) <= p }

  // A step reads port p, or leaves it still to come, or ends the thread between sweeps.
  lemma StepVisits(s: State, a: Action, p: DevPort)
    requires p in s.recv.enabled && StillToVisit(s.recv.pc, p)
    ensures var r, r' := s.recv, Step(s, a).recv;
            && p in r'.enabled
            && (r'.portsRead == r.portsRead + [p]
                || (r'.sweeps == r.sweeps && (StillToVisit(r'.pc, p) || r'.pc.Ended?)))
  {
  }

  lemma {:induction false} EndedFinishesNone(s: State, acts: seq<Action>)
    requires s.recv.pc.Ended?
    ensures Run(s, acts).recv.sweeps == s.recv.sweeps
    decreases |acts|
  {
    if acts == [] {
    } else {
      assert Step(s, acts[0]).recv.pc.Ended? && Step(s, acts[0]).recv.sweeps == s.recv.sweeps;
      EndedFinishesNone(Step(s, acts[0]), acts[1..]);
    }
  }

  lemma {:induction false} ReadsAreKept(s: State, acts: seq<Action>)
    ensures s.recv.portsRead <= Run(s, acts).recv.portsRead
    decreases |acts|
  {
    if acts == [] {
    } else {
      assert s.recv.portsRead <= Step(s, acts[0]).recv.portsRead;
      ReadsAreKept(Step(s, acts[0]), acts[1..]);
    }
  }

  /** A sweep skips no enabled port, whether it is under way or yet to start: a port that is
      enabled before its turn has been read by the time the sweep is finished. */
  lemma {:induction false} SweepReadsEveryEnabledPort(s: State, acts: seq<Action>, p: DevPort)
    requires p in s.recv.enabled && StillToVisit(s.recv.pc, p)
    requires Run(s, acts).recv.sweeps > s.recv.sweeps
    ensures s.recv.portsRead <= Run(s, acts).recv.portsRead
    ensures p in Run(s, acts).recv.portsRead[|s.recv.portsRead|..]
    decreases |acts|
  {
    ReadsAreKept(s, acts);
    var s', t := Step(s, acts[0]), Run(s, acts);
    StepVisits(s, acts[0], p);
    ReadsAreKept(s', acts[1..]);
    if s'.recv.portsRead == s.recv.portsRead + [p] {
      assert t.recv.portsRead[|s.recv.portsRead|] == p;
    } else {
      if s'.recv.pc.Ended? {
        EndedFinishesNone(s', acts[1..]);
      }
      assert s.recv.portsRead <= s'.recv.portsRead;
      SweepReadsEveryEnabledPort(s', acts[1..], p);
      var i :| |s'.recv.portsRead| <= i < |t.recv.portsRead| && t.recv.portsRead[i] == p;
      assert t.recv.portsRead[|s.recv.portsRead|..][i - |s.recv.portsRead|] == p;
    }
  }
}
