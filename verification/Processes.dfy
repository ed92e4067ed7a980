/** Guest processes as the kernel keeps them: instances that fork, change session, lose
    their parent, exit, are reaped, and whose PIDs are used again. */
module Processes {
  import opened Options

  datatype Life = Alive | Zombie | Reaped

  /** How a process ended; meaningless while it is alive. */
  datatype Ending = Exited(code: nat) | Signalled(signal: nat)

  /** One process instance. `forker` is the instance that created it and never changes;
      `parent` and `session` are what the process tree shows at the moment. */
  datatype Proc = Proc(
    pid: nat, forker: Option<nat>, parent: nat, session: nat, group: Option<nat>, life: Life, ending: Ending)

  /** Instances in order of creation; an instance is named by its position. */
  type Table = seq<Proc>

  predicate Holds(t: Table, i: nat, pid: nat) {
    i < |t| && t[i].pid == pid && !t[i].life.Reaped?
  }

  /** The instance a PID names at the moment, which is what pidfd_open and /proc look up. */
  function Holder(t: Table, pid: nat): (h: Option<nat>)
    ensures h.Some? ==> Holds(t, h.value, pid)
    ensures h.None? ==> forall i :: 0 <= i < |t| ==> !Holds(t, i, pid)
  {
    if t == [] then None
    else
      var last := |t| - 1;
      if Holds(t, last, pid) then Some(last)
      else
        var h := Holder(t[..last], pid);
        assert forall i :: 0 <= i < last && Holds(t, i, pid) ==> Holds(t[..last], i, pid);
        h
  }

  /** Birth order, and one holder at most for every PID. */
  predicate Consistent(t: Table) {
    && (forall i :: 0 <= i < |t| && t[i].forker.Some? ==> t[i].forker.value < i)
    && (forall i, j :: 0 <= i < j < |t| && !t[i].life.Reaped? && !t[j].life.Reaped? ==> t[i].pid != t[j].pid)
  }

  /** `i` is `root` or was created, through any number of forks, by `root`. */
  predicate Descends(t: Table, i: nat, root: nat)
    decreases i
  {
    i == root || (i < |t| && t[i].forker.Some? && t[i].forker.value < i && Descends(t, t[i].forker.value, root))
  }

  predicate SameBirths(t: Table, u: Table) {
    |t| <= |u| && forall i :: 0 <= i < |t| ==> u[i].forker == t[i].forker
  }

  lemma {:induction false} DescendsFrame(t: Table, u: Table, i: nat, root: nat)
    requires SameBirths(t, u) && i < |t|
    ensures Descends(t, i, root) <==> Descends(u, i, root)
    decreases i
  {
    if i != root && t[i].forker.Some? && t[i].forker.value < i {
      DescendsFrame(t, u, t[i].forker.value, root);
    }
  }

  lemma {:induction false} DescendsUpwards(t: Table, i: nat, root: nat)
    requires Descends(t, i, root)
    ensures root <= i
    decreases i
  {
    if i != root {
      DescendsUpwards(t, t[i].forker.value, root);
    }
  }

  /** The same instances in the same cgroups; none comes back from being reaped. */
  predicate SameIdentity(t: Table, u: Table) {
    && |u| == |t|
    && forall i :: 0 <= i < |t| ==>
         u[i].forker == t[i].forker && u[i].group == t[i].group && u[i].pid == t[i].pid
         && (!u[i].life.Reaped? ==> !t[i].life.Reaped?)
         && (u[i].life.Alive? ==> t[i].life.Alive?)
  }

  /** A new instance, which takes everything but its PID from the one that forks it. */
  function Forked(t: Table, parent: nat, pid: nat): (u: Table)
    requires parent < |t|
    ensures |u| == |t| + 1 && u[..|t|] == t
    ensures var child := u[|t|];
            && child.pid == pid && child.forker == Some(parent) && child.parent == parent && child.life.Alive?
            && child.session == t[parent].session && child.group == t[parent].group
  {
    t + [Proc(pid, Some(parent), parent, t[parent].session, t[parent].group, Alive, Exited(0))]
  }

  /** Exit or death by a signal: the children get a new parent. */
  function Ended(t: Table, i: nat, how: Ending): (u: Table)
    requires i < |t| && t[i].life.Alive?
    ensures SameIdentity(t, u)
    ensures forall j :: 0 <= j < |t| && j != i ==> u[j].life == t[j].life && u[j].ending == t[j].ending
    ensures u[i].life.Zombie? && u[i].ending == how
    ensures forall j :: 0 <= j < |t| && j != i ==>
              u[j].session == t[j].session && u[j].parent == if t[j].parent == i then 0 else t[j].parent
  {
    seq(|t|, j requires 0 <= j < |t| =>
      if j == i then t[j].(life := Zombie, ending := how)
      else if t[j].parent == i then t[j].(parent := 0)
      else t[j])
  }

  function Reaping(t: Table, i: nat): (u: Table)
    requires i < |t|
    ensures SameIdentity(t, u)
    ensures forall j :: 0 <= j < |t| ==> u[j].ending == t[j].ending && (j != i ==> u[j].life == t[j].life)
    ensures u[i].life.Reaped?
  {
    t[i := t[i].(life := Reaped)]
  }

  const SIGKILL: nat := 9

  /** cgroup.kill: every live member dies at once, forks included. */
  function GroupKilled(t: Table, group: nat): (u: Table)
    ensures SameIdentity(t, u) && Quiet(u, group)
    ensures forall j :: 0 <= j < |t| && !(t[j].group == Some(group) && t[j].life.Alive?) ==> u[j] == t[j]
    ensures forall j :: 0 <= j < |t| ==> (u[j].life.Reaped? <==> t[j].life.Reaped?)
    ensures forall j :: 0 <= j < |t| && t[j].group == Some(group) && t[j].life.Alive? ==> u[j].ending == Signalled(9)
  {
    seq(|t|, j requires 0 <= j < |t| =>
      if t[j].group == Some(group) && t[j].life.Alive?
      then t[j].(life := Zombie, ending := Signalled(SIGKILL)) else t[j])
  }

  /** No live member: cgroup.events would say "populated 0". */
  predicate Quiet(t: Table, group: nat) {
    forall i :: 0 <= i < |t| && t[i].group == Some(group) ==> !t[i].life.Alive?
  }

  lemma ForkKeepsConsistent(t: Table, parent: nat, pid: nat)
    requires Consistent(t) && parent < |t| && Holder(t, pid).None?
    ensures Consistent(Forked(t, parent, pid)) && SameBirths(t, Forked(t, parent, pid))
  {
    assert forall i :: 0 <= i < |t| && !t[i].life.Reaped? ==> Holds(t, i, t[i].pid);
  }
}
