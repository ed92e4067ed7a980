/** What a request can always do before its command runs and after it has completed, and what
    the processes, clients and streams around it are free to do. */
module Launch {
  import opened Options
  import opened Processes
  import opened Request
  import opened Kinship
  import opened Cancellation
  import Acknowledgement
  import Wire

  // ---- leaders are awaited

  /** Behind waiting for the leader, on any path. */
  predicate PastWait(stage: Stage) {
    stage.SpawnFailed? || stage.Dropped? || stage.Emptying? || stage.Retiring? || stage.Retired?
    || (stage.Running? && !stage.done.Awaiting?)
  }

  ghost predicate LeadersReaped(s: State) {
    forall r: nat, l: nat :: Leads(s, r, l) && PastWait(s.reqs[r].stage) ==>
      l < |s.procs| && s.procs[l].life.Reaped?
  }

  lemma LocalPastWait(q: Request, act: Local)
    requires LocalEnabled(q, act) && PastWait(Moved(q, act).stage)
    ensures PastWait(q.stage) && Moved(q, act).leader == q.leader
  {
    hide Wire.Command, Wire.NumberOf;
    match act
    case Send(_) =>
    case Close =>
    case ReadExit =>
    case Report =>
    case SendExit =>
    case IoFail =>
    case ReadAck =>
    case _ =>
  }

  lemma GlobalPastWait(s: State, r: nat, deed: Global)
    requires r < |s.reqs| && GlobalEnabled(s, r, deed) && PastWait(StageAfter(s, r, deed))
    ensures PastWait(s.reqs[r].stage) || deed.SpawnFail? || deed.TakeCode? || deed.TakeCodeAgain?
    ensures !deed.Spawn?
  {
    hide Quiet, Holder, CodeOf, LeaderLife;
  }

  lemma WaitReaps(s: State, r: nat, deed: Global, l: nat)
    requires Tree(s) && Leads(s, r, l) && GlobalEnabled(s, r, deed)
    requires deed.SpawnFail? || deed.TakeCode? || deed.TakeCodeAgain?
    ensures var u := Outside(s, r, deed).procs; l < |u| && u[l].life.Reaped?
  {
    hide Consistent;
  }

  lemma GlobalReaps(s: State, r: nat, deed: Global)
    requires Kin(s) && LeadersReaped(s) && Enabled(s, Globally(r, deed))
    ensures LeadersReaped(Apply(s, Globally(r, deed)))
  {
    hide Membership, Childless, Tree, StageAfter, Outside, GlobalEnabled, PastWait;
    var t := Apply(s, Globally(r, deed));
    forall q: nat, l: nat | Leads(t, q, l) && PastWait(t.reqs[q].stage)
      ensures l < |t.procs| && t.procs[l].life.Reaped?
    {
      if q == r {
        GlobalPastWait(s, r, deed);
        assert Leads(s, r, l);
        if PastWait(s.reqs[r].stage) {
          Acknowledgement.ReapedStays(s, r, deed, l);
        } else {
          WaitReaps(s, r, deed, l);
        }
      } else {
        assert Leads(s, q, l);
        Acknowledgement.ReapedStays(s, r, deed, l);
      }
    }
  }

  lemma OtherReaps(s: State, step: Step)
    requires Kin(s) && LeadersReaped(s) && Enabled(s, step) && !step.Globally?
    ensures LeadersReaped(Apply(s, step))
  {
    hide Kin, LocalEnabled, Moved, PastWait;
    var t := Apply(s, step);
    forall q: nat, l: nat | Leads(t, q, l) && PastWait(t.reqs[q].stage)
      ensures l < |t.procs| && t.procs[l].life.Reaped?
    {
      if step.Locally? && step.r == q {
        LocalPastWait(s.reqs[q], step.act);
      }
      assert q < |s.reqs| ==> Leads(s, q, l);
    }
  }

  lemma {:induction false} RunReaps(s: State, steps: seq<Step>)
    requires Kin(s) && LeadersReaped(s) && Possible(s, steps)
    ensures LeadersReaped(After(s, steps))
    decreases |steps|
  {
    hide Kin, LeadersReaped, Apply, Enabled;
    if steps != [] {
      StepKeepsKin(s, steps[0]);
      if steps[0].Globally? {
        GlobalReaps(s, steps[0].r, steps[0].deed);
      } else {
        OtherReaps(s, steps[0]);
      }
      RunReaps(Apply(s, steps[0]), steps[1..]);
    }
  }

  /** No leader is left behind as a zombie: on every path, failed launch, normal completion and
      cancellation, it has been awaited before the cgroup is removed. */
  lemma NoLeaderIsLeft(steps: seq<Step>, r: nat)
    requires Possible(Initial(), steps) && r < |After(Initial(), steps).reqs|
    ensures var s := After(Initial(), steps); var q := s.reqs[r];
            q.stage.SpawnFailed? || q.stage.Dropped? || q.stage.Emptying? || q.stage.Retiring? || q.stage.Retired?
            || (q.stage.Running? && !q.stage.done.Awaiting?) ==>
              q.leader.Some? && q.leader.value < |s.procs| && s.procs[q.leader.value].life.Reaped?
  {
    hide Possible, After, Membership, Childless, Safe;
    Reachable(steps);
    InitialKin();
    RunReaps(Initial(), steps);
    var s := After(Initial(), steps);
    assert WellStaged(s.reqs[r]);
    assert s.reqs[r].leader.Some? ==> Leads(s, r, s.reqs[r].leader.value);
  }

  // ---- launching and removing go on

  /** Some PID is free. */
  lemma {:induction false} FreePid(t: Table) returns (pid: nat)
    ensures Holder(t, pid).None? && forall i :: 0 <= i < |t| ==> t[i].pid < pid
  {
    if t == [] {
      return 0;
    }
    var n := |t| - 1;
    var p := FreePid(t[..n]);
    pid := if t[n].pid < p then p else t[n].pid + 1;
    assert forall i :: 0 <= i < |t| ==> t[i].pid < pid by {
      assert forall i :: 0 <= i < n ==> t[i] == t[..n][i];
    }
  }

  /** A created request can spawn a leader under any free PID, outside every cgroup. */
  lemma CanSpawn(steps: seq<Step>, r: nat, pid: nat)
    requires Possible(Initial(), steps) && r < |After(Initial(), steps).reqs|
    requires var s := After(Initial(), steps); s.reqs[r].stage.Created? && Holder(s.procs, pid).None?
    ensures var s := After(Initial(), steps); var spawn := Globally(r, Spawn(pid));
            && Enabled(s, spawn)
            && var t := Apply(s, spawn);
               t.reqs[r] == s.reqs[r].(stage := Entering, leader := Some(|s.procs|))
               && |t.procs| == |s.procs| + 1 && t.procs[..|s.procs|] == s.procs
               && var l := t.procs[|s.procs|];
                  l.pid == pid && l.forker == Some(0) && l.life.Alive? && l.group.None?
  {
    hide Possible, After, Membership, Childless, Safe;
    Reachable(steps);
  }

  /** A leader enters its cgroup, and then executes the command, if and only if it lives. */
  lemma CanLaunch(s: State, r: nat)
    requires r < |s.reqs|
    ensures s.reqs[r].stage.Entering? ==>
              && (Enabled(s, Globally(r, Enter)) <==> LeaderLife(s, s.reqs[r]).Alive?)
              && (Enabled(s, Globally(r, Enter)) ==>
                    var t := Apply(s, Globally(r, Enter));
                    var l := s.reqs[r].leader.value;
                    t.reqs[r].stage.Executing? && t.procs[l].group == Some(r)
                    && forall i :: 0 <= i < |s.procs| && i != l ==> t.procs[i] == s.procs[i])
    ensures s.reqs[r].stage.Executing? ==>
              && (Enabled(s, Locally(r, Exec)) <==> LeaderLife(s, s.reqs[r]).Alive?)
              && (Enabled(s, Locally(r, Exec)) ==>
                    Apply(s, Locally(r, Exec)).reqs[r] == s.reqs[r].(stage := Stage.Running(Awaiting)))
  {
  }

  /** A launch may fail until the command is executed; then the leader is reaped and the
      cgroup, which is empty, removed. A request that has completed or been killed removes its
      cgroup as soon as no member is alive. */
  lemma CanRemove(steps: seq<Step>, r: nat)
    requires Possible(Initial(), steps) && r < |After(Initial(), steps).reqs|
    ensures var s := After(Initial(), steps); var q := s.reqs[r];
            && (q.stage.Entering? || q.stage.Executing? ==>
                  Enabled(s, Globally(r, SpawnFail))
                  && Apply(s, Globally(r, SpawnFail)).reqs[r].stage.SpawnFailed?)
            && (q.stage.SpawnFailed? ==>
                  Enabled(s, Globally(r, Drop)) && Apply(s, Globally(r, Drop)).reqs[r].stage.Dropped?)
            && (q.stage.Grace? ==>
                  Enabled(s, Globally(r, Kill)) && Apply(s, Globally(r, Kill)).reqs[r].stage.Killed?)
            && (q.stage.Killed? && !LeaderLife(s, q).Alive? ==>
                  Enabled(s, Globally(r, TakeCodeAgain))
                  && Apply(s, Globally(r, TakeCodeAgain)).reqs[r].stage.Emptying?)
            && (q.stage.Emptying? && Quiet(s.procs, r) ==>
                  Enabled(s, Globally(r, SeeEmpty)) && Apply(s, Globally(r, SeeEmpty)).reqs[r].stage.Retiring?)
            && (q.stage.Retiring? ==>
                  Enabled(s, Globally(r, RemoveDir)) && Apply(s, Globally(r, RemoveDir)).reqs[r].stage.Retired?)
  {
    hide Possible, After, Kin, LeaderReaped;
    Reachable(steps);
    var s := After(Initial(), steps);
    assert Silent(s.reqs[r]) ==> Quiet(s.procs, r);
  }

  // ---- nobody dies unrecorded

  /** The record of kills is complete: a process ends by its own doing, as a leader whose launch
      fails, or by a kill of the cgroup it is a live member of, which is written down. */
  lemma KillsAreRecorded(s: State, step: Step, i: nat)
    requires Enabled(s, step) && i < |s.procs| && s.procs[i].life.Alive?
    ensures var t := Apply(s, step);
            && i < |t.procs|
            && (!t.procs[i].life.Alive? ==>
                  (step.End? && step.id == i)
                  || (step.Globally? && s.reqs[step.r].leader == Some(i) && step.deed.SpawnFail?)
                  || (step.Globally? && step.deed.Kill? && s.procs[i].group == Some(step.r)
                      && (step.r, i) in t.killed && t.procs[i].ending == Signalled(9)))
  {
  }

  // ---- nobody else is held back

  /** In any state: a live process forks under any free PID, changes its session and, unless it
      is the worker, ends in any way, a leader from its exec on; whatever has ended is reaped
      unless it is a leader; a client may write any byte and hang up until it has hung up; the
      I/O may fail until it has ended; requests arrive; and any PIDs may be read from
      cgroup.procs. */
  lemma NobodyIsHeldBack(s: State, id: nat, pid: nat, session: nat, how: Ending, r: nat, byte: nat, pids: seq<nat>)
    ensures Enabled(s, Create)
    ensures id < |s.procs| && s.procs[id].life.Alive? ==>
              && Enabled(s, SetSession(id, session))
              && Apply(s, SetSession(id, session)).procs == s.procs[id := s.procs[id].(session := session)]
              && (id > 0 ==>
                    && Enabled(s, End(id, how))
                    && var p := Apply(s, End(id, how)).procs[id]; p.life.Zombie? && p.ending == how)
              && (Holder(s.procs, pid).None?
                    && (forall q :: 0 <= q < |s.reqs| && s.reqs[q].leader == Some(id) ==>
                          !s.reqs[q].stage.Entering? && !s.reqs[q].stage.Executing?) ==>
                    Enabled(s, Fork(id, pid)))
    ensures id < |s.procs| && s.procs[id].life.Zombie?
              && (forall q :: 0 <= q < |s.reqs| ==> s.reqs[q].leader != Some(id)) ==>
              Enabled(s, Reap(id)) && Apply(s, Reap(id)).procs[id].life.Reaped?
    ensures r < |s.reqs| ==>
              && (!s.reqs[r].closed ==>
                    && Enabled(s, Locally(r, Send(byte))) && Enabled(s, Locally(r, Close))
                    && Apply(s, Locally(r, Send(byte))).reqs[r].inbox == s.reqs[r].inbox + [byte]
                    && Apply(s, Locally(r, Close)).reqs[r] == s.reqs[r].(closed := true))
              && (s.reqs[r].ioAlive ==>
                    Enabled(s, Locally(r, IoFail)) && !Apply(s, Locally(r, IoFail)).reqs[r].ioAlive)
              && (s.reqs[r].stage.Listing? ==> Enabled(s, Globally(r, List(pids))))
  {
  }
}
