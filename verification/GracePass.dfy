/** The SIGTERM pass over a cancelled request's cgroup (signal_members): no listed member is
    passed over. */
module GracePass {
  import opened Options
  import opened Processes
  import opened Request
  import Wire
  import opened Kinship
  import opened Cancellation

  /** Instance `h` holds the PID and is a live member of the request's cgroup. */
  predicate LiveMember(t: Table, r: nat, pid: nat, h: nat) {
    h < |t| && t[h].pid == pid && t[h].life.Alive? && t[h].group == Some(r)
  }

  /** The step is taken by the pass at the entry `pid`: opening, checking or signalling it. */
  predicate LooksAt(s: State, step: Step, r: nat, pid: nat) {
    && step.Globally? && step.r == r && r < |s.reqs|
    && Unsignalled(s.reqs[r].stage) && s.reqs[r].stage.todo[0] == pid
  }

  /** Whenever the pass looks at `pid`, instance `h` is a live member that holds it. */
  ghost predicate MemberWhenLookedAt(s: State, more: seq<Step>, r: nat, pid: nat, h: nat)
    requires Possible(s, more)
    decreases |more|
  {
    more != [] ==>
      && (LooksAt(s, more[0], r, pid) ==> LiveMember(s.procs, r, pid, h))
      && MemberWhenLookedAt(Apply(s, more[0]), more[1..], r, pid, h)
  }

  /** The entry is still to come; if it is the next one it is not yet open, or open on `h`. */
  predicate Coming(stage: Stage, pid: nat, h: nat) {
    && stage.Signalling? && pid in stage.todo
    && (stage.todo[0] == pid ==> stage.pin in {Unpinned, Pinned(h), Checked(h)})
  }

  predicate ComingOrSignalled(s: State, r: nat, pid: nat, h: nat) {
    r < |s.reqs| && ((r, h) in s.termed || Coming(s.reqs[r].stage, pid, h))
  }

  // ---- one step

  /** No step of one request alone touches the stage before the list is used up. */
  lemma LocalWaits(q: Request, act: Local)
    requires LocalEnabled(q, act) && q.stage.Signalling?
    ensures Moved(q, act).stage == q.stage || (q.stage.todo == [] && Moved(q, act).stage.Grace?)
  {
    hide Wire.Command, Wire.NumberOf;
    match act
    case Send(_) =>
    case Close =>
    case ReadExit =>
    case Report =>
    case SendExit =>
    case IoFail =>
    case _ =>
  }

  lemma HolderIs(t: Table, pid: nat, h: nat)
    requires Consistent(t) && Holds(t, h, pid)
    ensures Holder(t, pid) == Some(h)
  {
  }

  /** The pass at an entry whose holder is a live member: opened, found to be a member,
      signalled. */
  lemma MemberIsSignalled(s: State, r: nat, deed: Global, h: nat)
    requires Consistent(s.procs) && r < |s.reqs| && GlobalEnabled(s, r, deed) && Unsignalled(s.reqs[r].stage)
    requires LiveMember(s.procs, r, s.reqs[r].stage.todo[0], h)
    requires s.reqs[r].stage.pin in {Unpinned, Pinned(h), Checked(h)}
    ensures var todo := s.reqs[r].stage.todo;
            match s.reqs[r].stage.pin
            case Unpinned => StageAfter(s, r, deed) == Signalling(todo, Pinned(h))
            case Pinned(_) => StageAfter(s, r, deed) == Signalling(todo, Checked(h))
            case Checked(_) =>
              StageAfter(s, r, deed) == Signalling(todo[1..], Unpinned) && (r, h) in Outside(s, r, deed).termed
  {
    HolderIs(s.procs, s.reqs[r].stage.todo[0], h);
  }

  /** Entries leave the list from the front, one at a time, and the pass is over when none
      is left. */
  lemma EntriesLeaveInTurn(s: State, step: Step, r: nat)
    requires Enabled(s, step) && r < |s.reqs| && s.reqs[r].stage.Signalling?
    ensures var was := s.reqs[r].stage;
            var now := Apply(s, step).reqs[r].stage;
            || now == was
            || (was.todo == [] && now.Grace?)
            || (was.todo != [] && now.Signalling? && now.todo == was.todo)
            || (was.todo != [] && now == Signalling(was.todo[1..], Unpinned))
  {
    hide StageAfter, Outside, Moved, LocalEnabled, GlobalEnabled, LeaderLife, BeforeExec;
    match step
    case Globally(q, deed) =>
      if q == r {
        OneEntry(s, r, deed);
      }
    case Locally(q, act) =>
      if q == r {
        LocalWaits(s.reqs[r], act);
      }
    case _ =>
  }

  lemma OneEntry(s: State, r: nat, deed: Global)
    requires r < |s.reqs| && s.reqs[r].stage.Signalling? && GlobalEnabled(s, r, deed)
    ensures var was := s.reqs[r].stage;
            var now := StageAfter(s, r, deed);
            was.todo != [] && now.Signalling? && (now.todo == was.todo || now == Signalling(was.todo[1..], Unpinned))
  {
    hide Holder;
  }

  lemma TermedStays(s: State, step: Step)
    requires Enabled(s, step)
    ensures s.termed <= Apply(s, step).termed
  {
    hide Quiet, Holder, LeaderLife;
  }

  lemma DeedComes(s: State, r: nat, deed: Global, pid: nat, h: nat)
    requires Consistent(s.procs) && r < |s.reqs| && GlobalEnabled(s, r, deed) && Coming(s.reqs[r].stage, pid, h)
    requires LooksAt(s, Globally(r, deed), r, pid) ==> LiveMember(s.procs, r, pid, h)
    ensures (r, h) in Outside(s, r, deed).termed || Coming(StageAfter(s, r, deed), pid, h)
  {
    hide Holder, StageAfter, Outside, Consistent;
    var todo := s.reqs[r].stage.todo;
    if todo[0] == pid {
      MemberIsSignalled(s, r, deed, h);
      assert Coming(Signalling(todo, Pinned(h)), pid, h) && Coming(Signalling(todo, Checked(h)), pid, h);
    } else {
      OneEntry(s, r, deed);
      assert todo == [todo[0]] + todo[1..];
    }
  }

  lemma StepComes(s: State, step: Step, r: nat, pid: nat, h: nat)
    requires Consistent(s.procs) && Enabled(s, step) && ComingOrSignalled(s, r, pid, h)
    requires LooksAt(s, step, r, pid) ==> LiveMember(s.procs, r, pid, h)
    ensures ComingOrSignalled(Apply(s, step), r, pid, h)
  {
    hide Consistent, LooksAt, Coming, StageAfter, Outside;
    TermedStays(s, step);
    if (r, h) !in s.termed {
      match step
      case Globally(q, deed) =>
        if q == r {
          DeedComes(s, r, deed, pid, h);
        }
      case Locally(q, act) =>
        if q == r {
          ComingIsUnsignalled(s.reqs[r].stage, pid, h);
          LocalWaits(s.reqs[r], act);
        }
      case _ =>
    }
  }

  lemma ComingIsUnsignalled(stage: Stage, pid: nat, h: nat)
    requires Coming(stage, pid, h)
    ensures Unsignalled(stage)
  {
  }

  lemma {:induction false} RunComes(s: State, more: seq<Step>, r: nat, pid: nat, h: nat)
    requires Kin(s) && Possible(s, more) && ComingOrSignalled(s, r, pid, h)
    requires MemberWhenLookedAt(s, more, r, pid, h)
    ensures ComingOrSignalled(After(s, more), r, pid, h)
    decreases |more|
  {
    hide Kin, Apply, Enabled, ComingOrSignalled, LooksAt, LiveMember;
    if more != [] {
      ConsistentKin(s);
      StepKeepsKin(s, more[0]);
      StepComes(s, more[0], r, pid, h);
      RunComes(Apply(s, more[0]), more[1..], r, pid, h);
    }
  }

  /** In every run, for every list that was read from cgroup.procs and every PID in it: if its
      holder is a live member of the request's cgroup whenever the pass looks at the entry,
      from opening it to signalling it, then the pass sends it SIGTERM before it lets go of the
      entry, whatever becomes of the other entries, of the PIDs and of the rest of the
      system. So it has been signalled when the pass is over. */
  lemma ListedMembersAreSignalled(
    steps: seq<Step>, r: nat, pids: seq<nat>, more: seq<Step>, pid: nat, h: nat)
    requires Possible(Initial(), steps) && Enabled(After(Initial(), steps), Globally(r, List(pids)))
    requires var s := Apply(After(Initial(), steps), Globally(r, List(pids)));
             Possible(s, more) && MemberWhenLookedAt(s, more, r, pid, h)
    requires pid in pids
    ensures var t := After(Apply(After(Initial(), steps), Globally(r, List(pids))), more);
            r < |t.reqs|
            && ((r, h) in t.termed || (t.reqs[r].stage.Signalling? && pid in t.reqs[r].stage.todo))
  {
    hide Kin, Possible, After, MemberWhenLookedAt;
    var s := After(Initial(), steps);
    Reachable(steps);
    StepKeepsKin(s, Globally(r, List(pids)));
    RunComes(Apply(s, Globally(r, List(pids))), more, r, pid, h);
  }
}
