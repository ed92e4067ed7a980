/** The life of a muvm request: the guest worker, its cgroup, the I/O thread and the
    client, over arbitrary processes. One labelled step at a time, any number of requests. */
module Request {
  import opened Options
  import opened Processes
  import opened Wire

  /** How far `complete` has come in wait_for_child: the leader awaited, its code taken,
      the code written to the stop pipe, I/O reported finished. */
  datatype Completion = Awaiting | CodeTaken(code: Byte) | CodeWritten | Drained

  /** One entry of cgroup.procs at a time: not looked at, pinned by a pidfd, or pinned and
      found to be a member. */
  datatype Pin = Unpinned | Pinned(id: nat) | Checked(id: nat)

  /** Where the worker's task for the request stands. */
  datatype Stage =
    | Created | Entering | Executing | SpawnFailed | Dropped
    | Running(done: Completion)
    | Listing | Signalling(todo: seq<nat>, pin: Pin) | Grace | Killed
    | Emptying | Retiring | Retired | RemoveFailed

  /** A request. `inbox` and `closed` are the control connection, `taken` the byte read
      from it; `put` the code in the stop pipe, `reported` the I/O thread's message,
      `exitFrame` the command it sent last; `seen` the code the client read, `acked`
      whether the client wrote to the control connection. */
  datatype Request = Request(
    stage: Stage, leader: Option<nat>, entered: bool, cancelled: bool,
    inbox: seq<nat>, closed: bool, taken: Option<nat>,
    ioAlive: bool, put: Option<Byte>, reported: bool, exitFrame: Option<nat>,
    seen: Option<nat>, acked: bool)

  /** `termed` and `killed` record which request's task did what to which instance. */
  datatype State = State(procs: Table, reqs: seq<Request>, termed: set<(nat, nat)>, killed: set<(nat, nat)>)

  datatype Step =
    | Fork(parent: nat, pid: nat) | SetSession(id: nat, session: nat) | End(id: nat, how: Ending) | Reap(id: nat)
    | Create
    | Locally(r: nat, act: Local)
    | Globally(r: nat, deed: Global)

  /** Steps of the client, the I/O thread and the worker's task that touch one request only. */
  datatype Local =
    | Send(byte: nat) | Close | ReadExit
    | Report | SendExit | IoFail
    | Exec | WriteCode | AwaitIo | ReadAck | Join | PassOver

  /** Steps of the worker's task that also involve the kernel's processes. */
  datatype Global =
    | Spawn(pid: nat) | Enter | SpawnFail | Drop | TakeCode
    | List(pids: seq<nat>) | Open | Check | SendTerm | Kill | TakeCodeAgain | SeeEmpty | RemoveDir

  const ACK: nat := 1

  /** The exit code, or 128 plus the number of the signal; one byte of it. */
  function CodeOf(e: Ending): Byte {
    (match e case Exited(code) => code case Signalled(signal) => 128 + signal) % 256
  }

  function NewRequest(): Request {
    Request(Created, None, false, false, [], false, None, true, None, false, None, None, false)
  }

  // ---- one request by itself

  /** The error branch of wait_for_child. */
  function Cancelled(q: Request): Request {
    q.(stage := Listing, cancelled := true)
  }

  predicate LocalEnabled(q: Request, act: Local) {
    match act
    case Send(_) => !q.closed
    case Close => !q.closed
    case ReadExit => q.exitFrame.Some? && q.seen.None?
    case Report => q.ioAlive && q.put.Some? && !q.reported
    case SendExit => q.ioAlive && q.reported && q.put.Some?
    case IoFail => q.ioAlive
    case Exec => q.stage.Executing?
    case WriteCode => q.stage.Running? && q.stage.done.CodeTaken?
    case AwaitIo => q.stage == Running(CodeWritten) && (q.reported || !q.ioAlive)
    case ReadAck => q.stage.Running? && q.taken.None? && (q.inbox != [] || q.closed)
    case Join => q.stage == Running(Drained) && q.taken == Some(ACK)
    case PassOver => q.stage.Signalling? && q.stage.todo == []
  }

  function Moved(q: Request, act: Local): Request
    requires LocalEnabled(q, act)
  {
    match act
    case Send(byte) => q.(inbox := q.inbox + [byte], acked := true)
    case Close => q.(closed := true)
    case ReadExit => q.(seen := Some(NumberOf(q.exitFrame.value)))
    case Report => q.(reported := true)
    case SendExit => q.(exitFrame := Some(Command(CMD_EXIT, q.put.value)), ioAlive := false)
    case IoFail => q.(ioAlive := false)
    case Exec => q.(stage := Running(Awaiting))
    case WriteCode =>
      if q.ioAlive then q.(stage := Running(CodeWritten), put := Some(q.stage.done.code)) else Cancelled(q)
    case AwaitIo => if q.reported then q.(stage := Running(Drained)) else Cancelled(q)
    case ReadAck =>
      if q.inbox == [] then Cancelled(q)
      else
        var read := q.(taken := Some(q.inbox[0]), inbox := q.inbox[1..]);
        if q.inbox[0] == ACK then read else Cancelled(read)
    case Join => q.(stage := Emptying)
    case PassOver => q.(stage := Grace)
  }

  // ---- requests and processes

  function LeaderLife(s: State, q: Request): Life {
    if q.leader.Some? && q.leader.value < |s.procs| then s.procs[q.leader.value].life else Reaped
  }

  /** The leader of some request that has not executed its command yet: it runs only the
      few system calls between fork and exec. */
  predicate BeforeExec(s: State, id: nat) {
    exists r :: 0 <= r < |s.reqs| && s.reqs[r].leader == Some(id)
      && (s.reqs[r].stage.Entering? || s.reqs[r].stage.Executing?)
  }

  predicate LeaderOfSome(s: State, id: nat) {
    exists r :: 0 <= r < |s.reqs| && s.reqs[r].leader == Some(id)
  }

  predicate Unsignalled(stage: Stage) {
    stage.Signalling? && stage.todo != []
  }

  /** cgroup.procs is read while members come and go, so that any PIDs may turn up in it by
      the time they are used. */
  predicate GlobalEnabled(s: State, r: nat, deed: Global)
    requires r < |s.reqs|
  {
    var q := s.reqs[r];
    match deed
    case Spawn(pid) => q.stage.Created? && s.procs != [] && Holder(s.procs, pid).None?
    case Enter => q.stage.Entering? && LeaderLife(s, q).Alive?
    case SpawnFail => q.stage.Entering? || q.stage.Executing?
    case Drop => q.stage.SpawnFailed?
    case TakeCode => q.stage == Running(Awaiting) && LeaderLife(s, q).Zombie?
    case List(_) => q.stage.Listing?
    case Open => Unsignalled(q.stage) && q.stage.pin.Unpinned?
    case Check => Unsignalled(q.stage) && q.stage.pin.Pinned?
    case SendTerm => Unsignalled(q.stage) && q.stage.pin.Checked?
    case Kill => q.stage.Grace?
    case TakeCodeAgain => q.stage.Killed? && !LeaderLife(s, q).Alive?
    case SeeEmpty => q.stage.Emptying? && Quiet(s.procs, r)
    case RemoveDir => q.stage.Retiring?
  }

  function LeaderReaped(s: State, q: Request): State {
    if LeaderLife(s, q).Reaped? then s else s.(procs := Reaping(s.procs, q.leader.value))
  }

  /** rmdir refuses a cgroup with live members. */
  function Removed(s: State, r: nat, stage: Stage): Stage {
    if Quiet(s.procs, r) then stage else RemoveFailed
  }

  function StageAfter(s: State, r: nat, deed: Global): Stage
    requires r < |s.reqs| && GlobalEnabled(s, r, deed)
  {
    var q := s.reqs[r];
    match deed
    case Spawn(_) => Entering
    case Enter => Executing
    case SpawnFail => SpawnFailed
    case Drop => Removed(s, r, Dropped)
    case TakeCode => Running(CodeTaken(CodeOf(s.procs[q.leader.value].ending)))
    case List(pids) => Signalling(pids, Unpinned)
    case Open =>
      var h := Holder(s.procs, q.stage.todo[0]);
      if h.Some? then Signalling(q.stage.todo, Pinned(h.value)) else Signalling(q.stage.todo[1..], Unpinned)
    case Check =>
      var h := Holder(s.procs, q.stage.todo[0]);
      if h.Some? && s.procs[h.value].group == Some(r) then Signalling(q.stage.todo, Checked(q.stage.pin.id))
      else Signalling(q.stage.todo[1..], Unpinned)
    case SendTerm => Signalling(q.stage.todo[1..], Unpinned)
    case Kill => Killed
    case TakeCodeAgain => Emptying
    case SeeEmpty => Retiring
    case RemoveDir => Removed(s, r, Retired)
  }

  /** The part of a global step that falls on the processes and the records. */
  function Outside(s: State, r: nat, deed: Global): (t: State)
    requires r < |s.reqs| && GlobalEnabled(s, r, deed)
    ensures t.reqs == s.reqs
  {
    var q := s.reqs[r];
    match deed
    case Spawn(pid) => s.(procs := Forked(s.procs, 0, pid))
    case Enter => s.(procs := s.procs[q.leader.value := s.procs[q.leader.value].(group := Some(r))])
    case SpawnFail => LeaderReaped(s, q)
    case TakeCode => LeaderReaped(s, q)
    case SendTerm =>
      var id := q.stage.pin.id;
      if id < |s.procs| && s.procs[id].life.Alive? then s.(termed := s.termed + {(r, id)}) else s
    case Kill =>
      var hit := set i: nat | i < |s.procs| && s.procs[i].group == Some(r) && s.procs[i].life.Alive? :: (r, i);
      s.(procs := GroupKilled(s.procs, r), killed := s.killed + hit)
    case TakeCodeAgain => LeaderReaped(s, q)
    case _ => s
  }

  function RequestAfter(s: State, r: nat, deed: Global): Request
    requires r < |s.reqs| && GlobalEnabled(s, r, deed)
  {
    var q := s.reqs[r].(stage := StageAfter(s, r, deed));
    if deed.Spawn? then q.(leader := Some(|s.procs|)) else if deed.Enter? then q.(entered := true) else q
  }

  predicate Enabled(s: State, step: Step) {
    match step
    case Fork(parent, pid) =>
      parent < |s.procs| && s.procs[parent].life.Alive? && !BeforeExec(s, parent) && Holder(s.procs, pid).None?
    case SetSession(id, session) => id < |s.procs| && s.procs[id].life.Alive?
    case End(id, how) => 0 < id < |s.procs| && s.procs[id].life.Alive?
    case Reap(id) => id < |s.procs| && s.procs[id].life.Zombie? && !LeaderOfSome(s, id)
    case Create => true
    case Locally(r, act) => r < |s.reqs| && LocalEnabled(s.reqs[r], act)
      && (act.Exec? ==> LeaderLife(s, s.reqs[r]).Alive?)
    case Globally(r, deed) => r < |s.reqs| && GlobalEnabled(s, r, deed)
  }

  function With(s: State, r: nat, q: Request): State
    requires r < |s.reqs|
  {
    s.(reqs := s.reqs[r := q])
  }

  function Apply(s: State, step: Step): State
    requires Enabled(s, step)
  {
    match step
    case Fork(parent, pid) => s.(procs := Forked(s.procs, parent, pid))
    case SetSession(id, session) => s.(procs := s.procs[id := s.procs[id].(session := session)])
    case End(id, how) => s.(procs := Ended(s.procs, id, how))
    case Reap(id) => s.(procs := Reaping(s.procs, id))
    case Create => s.(reqs := s.reqs + [NewRequest()])
    case Locally(r, act) => With(s, r, Moved(s.reqs[r], act))
    case Globally(r, deed) => With(Outside(s, r, deed), r, RequestAfter(s, r, deed))
  }

  function Initial(): State {
    State([Proc(1, None, 0, 0, None, Alive, Exited(0))], [], {}, {})
  }

  predicate Possible(s: State, steps: seq<Step>)
    decreases |steps|
  {
    if steps == [] then true else Enabled(s, steps[0]) && Possible(Apply(s, steps[0]), steps[1..])
  }

  function After(s: State, steps: seq<Step>): State
    requires Possible(s, steps)
    decreases |steps|
  {
    if steps == [] then s else After(Apply(s, steps[0]), steps[1..])
  }
}
