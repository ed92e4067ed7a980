/** Leasing a vsock port: launchers try the lock files of a range of ports in turn and keep
    the first they get. */
module Ports {
  /** A launcher: about to try a port, holding one, gone again, or out of ports. */
  datatype Launcher = Trying(port: nat) | Holding(port: nat) | Gone(port: nat) | RanOut

  /** `locks` is the kernel's table of flocked files, by port. */
  datatype State = State(launchers: seq<Launcher>, locks: map<nat, nat>)

  datatype Range = Range(first: nat, end: nat)

  datatype Step = Arrive | Try(l: nat) | Release(l: nat)

  function Initial(): State {
    State([], map[])
  }

  /** The loop's next value, or the error behind the loop. */
  function TryingFrom(port: nat, range: Range): Launcher {
    if port < range.end then Trying(port) else RanOut
  }

  predicate Enabled(s: State, step: Step) {
    match step
    case Arrive => true
    case Try(l) => l < |s.launchers| && s.launchers[l].Trying?
    case Release(l) => l < |s.launchers| && s.launchers[l].Holding?
  }

  /** The lock file is opened, and created if need be; the lock is taken unless somebody
      has it. */
  function Apply(s: State, step: Step, range: Range): State
    requires Enabled(s, step)
  {
    match step
    case Arrive => s.(launchers := s.launchers + [TryingFrom(range.first, range)])
    case Try(l) =>
      var port := s.launchers[l].port;
      if port in s.locks then s.(launchers := s.launchers[l := TryingFrom(port + 1, range)])
      else State(s.launchers[l := Holding(port)], s.locks[port := l])
    case Release(l) =>
      var port := s.launchers[l].port;
      State(s.launchers[l := Gone(port)], s.locks - {port})
  }

  predicate Possible(s: State, steps: seq<Step>, range: Range)
    decreases |steps|
  {
    if steps == [] then true else Enabled(s, steps[0]) && Possible(Apply(s, steps[0], range), steps[1..], range)
  }

  function After(s: State, steps: seq<Step>, range: Range): State
    requires Possible(s, steps, range)
    decreases |steps|
  {
    if steps == [] then s else After(Apply(s, steps[0], range), steps[1..], range)
  }

  // ---- leases

  /** The table names the holder of every lock, and every holder is in the table. */
  predicate Leased(s: State) {
    && (forall p :: p in s.locks ==> s.locks[p] < |s.launchers| && s.launchers[s.locks[p]] == Holding(p))
    && forall l :: 0 <= l < |s.launchers| && s.launchers[l].Holding? ==>
         s.launchers[l].port in s.locks && s.locks[s.launchers[l].port] == l
  }

  predicate InRange(s: State, range: Range) {
    forall l :: 0 <= l < |s.launchers| && !s.launchers[l].RanOut? ==> range.first <= s.launchers[l].port < range.end
  }

  /** The ports that a launcher has been refused so far. */
  predicate Refused(launcher: Launcher, range: Range, port: nat) {
    range.first <= port < range.end && (launcher.RanOut? || port < launcher.port)
  }

  /** Launcher `m` has had `port`, now or before; a launcher has one port at most. */
  predicate Had(launcher: Launcher, port: nat) {
    launcher == Holding(port) || launcher == Gone(port)
  }

  predicate Sound(s: State, range: Range) {
    Leased(s) && InRange(s, range)
  }

  lemma StepIsLeased(s: State, step: Step, range: Range)
    requires Leased(s) && Enabled(s, step)
    ensures Leased(Apply(s, step, range))
  {
  }

  lemma StepIsSound(s: State, step: Step, range: Range)
    requires Sound(s, range) && Enabled(s, step)
    ensures Sound(Apply(s, step, range), range)
  {
    hide Leased;
    StepIsLeased(s, step, range);
  }

  lemma {:induction false} RunIsSound(s: State, steps: seq<Step>, range: Range)
    requires Sound(s, range) && Possible(s, steps, range)
    ensures Sound(After(s, steps, range), range)
    decreases |steps|
  {
    hide Sound, Enabled, Apply;
    if steps != [] {
      StepIsSound(s, steps[0], range);
      RunIsSound(Apply(s, steps[0], range), steps[1..], range);
    }
  }

  /** No two launchers hold the same port's lock file at once, in any run. */
  lemma LeasesAreExclusive(range: Range, steps: seq<Step>, l: nat, m: nat)
    requires Possible(Initial(), steps, range)
    requires var s := After(Initial(), steps, range);
             l < |s.launchers| && m < |s.launchers| && s.launchers[l].Holding? && s.launchers[m].Holding?
    requires After(Initial(), steps, range).launchers[l].port == After(Initial(), steps, range).launchers[m].port
    ensures l == m
  {
    hide Possible, After;
    RunIsSound(Initial(), steps, range);
  }

  // ---- running out of ports

  /** At step k launcher `l` tried the port while another launcher held it. */
  ghost predicate TriedInVain(steps: seq<Step>, range: Range, l: nat, port: nat, k: nat) {
    && k < |steps| && steps[k] == Try(l) && Possible(Initial(), steps[..k], range)
    && var s := After(Initial(), steps[..k], range);
       l < |s.launchers| && s.launchers[l] == Trying(port)
       && port in s.locks && s.locks[port] != l && s.locks[port] < |s.launchers|
          && s.launchers[s.locks[port]] == Holding(port)
  }

  ghost predicate WasHeld(steps: seq<Step>, range: Range, l: nat, port: nat) {
    exists k: nat :: TriedInVain(steps, range, l, port, k)
  }

  lemma {:induction false} AfterLast(s: State, steps: seq<Step>, range: Range)
    requires Possible(s, steps, range) && steps != []
    ensures var k := |steps| - 1;
            Possible(s, steps[..k], range) && Enabled(After(s, steps[..k], range), steps[k])
            && After(s, steps, range) == Apply(After(s, steps[..k], range), steps[k], range)
    decreases |steps|
  {
    hide Enabled, Apply;
    var k := |steps| - 1;
    if k > 0 {
      AfterLast(Apply(s, steps[0], range), steps[1..], range);
      assert steps[1..][..k - 1] == steps[..k][1..];
    }
  }

  lemma {:induction false} RefusedMeansTried(range: Range, steps: seq<Step>, l: nat, port: nat)
    requires Possible(Initial(), steps, range) && l < |After(Initial(), steps, range).launchers|
    requires Refused(After(Initial(), steps, range).launchers[l], range, port)
    ensures WasHeld(steps, range, l, port)
    decreases |steps|
  {
    hide Possible, After;
    if steps == [] {
      NothingYet(range);
    } else {
      var k := |steps| - 1;
      AfterLast(Initial(), steps, range);
      var s := After(Initial(), steps[..k], range);
      if l < |s.launchers| && Refused(s.launchers[l], range, port) {
        RefusedMeansTried(range, steps[..k], l, port);
        var j: nat :| TriedInVain(steps[..k], range, l, port, j);
        assert steps[..k][..j] == steps[..j];
        assert TriedInVain(steps, range, l, port, j);
      } else {
        RunIsSound(Initial(), steps[..k], range);
        assert TriedInVain(steps, range, l, port, k);
      }
    }
  }

  lemma NothingYet(range: Range)
    ensures After(Initial(), [], range) == Initial()
  {
  }

  /** A launcher runs out of ports only if it tried every port of the range, and each was
      held by another launcher at that moment. */
  lemma RanOutMeansAllHeld(range: Range, steps: seq<Step>, l: nat)
    requires Possible(Initial(), steps, range) && l < |After(Initial(), steps, range).launchers|
    requires After(Initial(), steps, range).launchers[l].RanOut?
    ensures forall port: nat :: range.first <= port < range.end ==> WasHeld(steps, range, l, port)
  {
    hide Possible, After, WasHeld;
    forall port: nat | range.first <= port < range.end
      ensures WasHeld(steps, range, l, port)
    {
      RefusedMeansTried(range, steps, l, port);
    }
  }

  // ---- the search makes progress

  function TriesOf(steps: seq<Step>, l: nat): nat {
    if steps == [] then 0
    else TriesOf(steps[..|steps| - 1], l) + if steps[|steps| - 1] == Try(l) then 1 else 0
  }

  /** The ports of the range that a launcher has tried: one after the other from the first,
      the one it got included. */
  function Tried(launcher: Launcher, range: Range): int {
    match launcher
    case Trying(port) => port - range.first
    case Holding(port) => port - range.first + 1
    case Gone(port) => port - range.first + 1
    case RanOut => if range.first < range.end then range.end - range.first else 0
  }

  lemma StepTries(s: State, step: Step, range: Range, l: nat)
    requires InRange(s, range) && Enabled(s, step) && l < |Apply(s, step, range).launchers|
    ensures Tried(Apply(s, step, range).launchers[l], range)
         == (if l < |s.launchers| then Tried(s.launchers[l], range) else 0) + (if step == Try(l) then 1 else 0)
  {
  }

  /** In every run each attempt moves a launcher on: after n attempts it has tried exactly n
      ports of the range, so that it leases one or has run out after as many attempts as
      there are ports. */
  lemma {:induction false} EveryTryCounts(range: Range, steps: seq<Step>, l: nat)
    requires Possible(Initial(), steps, range) && l < |After(Initial(), steps, range).launchers|
    ensures TriesOf(steps, l) == Tried(After(Initial(), steps, range).launchers[l], range)
    decreases |steps|
  {
    hide Possible, After, Enabled, Apply, Tried, InRange, Leased;
    if steps == [] {
      NothingYet(range);
    } else {
      var k := |steps| - 1;
      AfterLast(Initial(), steps, range);
      var s := After(Initial(), steps[..k], range);
      StartIsSound(range);
      RunIsSound(Initial(), steps[..k], range);
      StepTries(s, steps[k], range, l);
      if l < |s.launchers| {
        EveryTryCounts(range, steps[..k], l);
      } else {
        NoTriesYet(range, steps[..k], l);
        NotYetThere(s, steps[k], l);
      }
    }
  }

  lemma StartIsSound(range: Range)
    ensures Sound(Initial(), range)
  {
  }

  lemma NotYetThere(s: State, step: Step, l: nat)
    requires Enabled(s, step) && l >= |s.launchers|
    ensures step != Try(l)
  {
  }

  lemma {:induction false} NoTriesYet(range: Range, steps: seq<Step>, l: nat)
    requires Possible(Initial(), steps, range) && l >= |After(Initial(), steps, range).launchers|
    ensures TriesOf(steps, l) == 0
    decreases |steps|
  {
    hide Possible, After, Enabled, Apply;
    if steps != [] {
      var k := |steps| - 1;
      AfterLast(Initial(), steps, range);
      var s := After(Initial(), steps[..k], range);
      NobodyLeaves(s, steps[k], range);
      NoTriesYet(range, steps[..k], l);
      NotYetThere(s, steps[k], l);
    }
  }

  lemma NobodyLeaves(s: State, step: Step, range: Range)
    requires Enabled(s, step)
    ensures |s.launchers| <= |Apply(s, step, range).launchers|
  {
  }

  /** Anybody may come at any time and begins with the first port; trying a free port leases
      it, and a lease ends with its release: then the port is free. */
  lemma FreePortIsLeased(s: State, l: nat, range: Range)
    requires Leased(s) && l < |s.launchers|
    ensures Enabled(s, Arrive)
    ensures var t := Apply(s, Arrive, range);
            t.launchers == s.launchers + [if range.first < range.end then Trying(range.first) else RanOut]
            && t.locks == s.locks
    ensures s.launchers[l].Trying? ==>
              var port := s.launchers[l].port;
              var t := Apply(s, Try(l), range);
              (t.launchers[l] == Holding(port) <==> port !in s.locks) && (port !in s.locks ==> t.locks[port] == l)
    ensures s.launchers[l].Holding? ==>
              var port := s.launchers[l].port;
              var t := Apply(s, Release(l), range);
              port !in t.locks && forall m :: 0 <= m < |t.launchers| ==> t.launchers[m] != Holding(port)
  {
  }

  // ---- how many others that takes

  /** Launcher `h` held the port when `l` tried it. */
  ghost predicate RefusedBy(steps: seq<Step>, range: Range, l: nat, port: nat, h: nat) {
    exists k: nat :: TriedInVain(steps, range, l, port, k) && After(Initial(), steps[..k], range).locks[port] == h
  }

  lemma HadStays(s: State, step: Step, range: Range, h: nat, port: nat)
    requires Enabled(s, step) && h < |s.launchers| && Had(s.launchers[h], port)
    ensures var t := Apply(s, step, range); h < |t.launchers| && Had(t.launchers[h], port)
  {
  }

  /** A launcher that had a port at some point of a run has had that one ever after. */
  lemma {:induction false} HadLater(steps: seq<Step>, range: Range, k: nat, h: nat, port: nat)
    requires k <= |steps| && Possible(Initial(), steps, range) && Possible(Initial(), steps[..k], range)
    requires var s := After(Initial(), steps[..k], range); h < |s.launchers| && Had(s.launchers[h], port)
    ensures var t := After(Initial(), steps, range); h < |t.launchers| && Had(t.launchers[h], port)
    decreases |steps|
  {
    hide Possible, After, Enabled, Apply, Had;
    if k == |steps| {
      assert steps[..k] == steps;
    } else {
      var n := |steps| - 1;
      AfterLast(Initial(), steps, range);
      assert steps[..n][..k] == steps[..k];
      HadLater(steps[..n], range, k, h, port);
      HadStays(After(Initial(), steps[..n], range), steps[n], range, h, port);
    }
  }

  lemma RefuserHad(steps: seq<Step>, range: Range, l: nat, port: nat, h: nat)
    requires Possible(Initial(), steps, range) && RefusedBy(steps, range, l, port, h)
    ensures var t := After(Initial(), steps, range); h < |t.launchers| && h != l && Had(t.launchers[h], port)
  {
    hide Possible, After;
    var k: nat :| TriedInVain(steps, range, l, port, k) && After(Initial(), steps[..k], range).locks[port] == h;
    HadLater(steps, range, k, h, port);
  }

  lemma {:induction false} Refusers(steps: seq<Step>, range: Range, l: nat, n: nat) returns (holders: seq<nat>)
    requires Possible(Initial(), steps, range) && l < |After(Initial(), steps, range).launchers|
    requires After(Initial(), steps, range).launchers[l].RanOut? && range.first + n <= range.end
    ensures |holders| == n && forall i :: 0 <= i < n ==> RefusedBy(steps, range, l, range.first + i, holders[i])
  {
    hide Possible, After, TriedInVain;
    holders := [];
    if n > 0 {
      var fewer := Refusers(steps, range, l, n - 1);
      var port := range.first + n - 1;
      RefusedMeansTried(range, steps, l, port);
      var k: nat :| TriedInVain(steps, range, l, port, k);
      var h := RefuserAt(steps, range, l, port, k);
      holders := fewer + [h];
    }
  }

  lemma RefuserAt(steps: seq<Step>, range: Range, l: nat, port: nat, k: nat) returns (h: nat)
    requires TriedInVain(steps, range, l, port, k)
    ensures RefusedBy(steps, range, l, port, h)
  {
    h := After(Initial(), steps[..k], range).locks[port];
  }

  function Members(s: seq<nat>): set<nat> {
    set m | m in s
  }

  lemma {:induction false} DistinctCount(s: seq<nat>)
    requires forall i, j :: 0 <= i < j < |s| ==> s[i] != s[j]
    ensures |Members(s)| == |s|
    decreases |s|
  {
    if s != [] {
      var k := |s| - 1;
      DistinctCount(s[..k]);
      LastMember(s[..k], s[k]);
      assert s == s[..k] + [s[k]];
    }
  }

  lemma LastMember(s: seq<nat>, last: nat)
    ensures Members(s + [last]) == Members(s) + {last}
  {
  }

  lemma {:induction false} SmallSet(members: set<nat>, n: nat)
    requires forall m :: m in members ==> m < n
    ensures |members| <= n
  {
    if n > 0 {
      SmallSet(members - {n - 1}, n - 1);
    }
  }

  /** Whoever runs out has met a different other launcher at every port, which held it at that
      moment: a launcher leases one port in its life. So with no more launchers than ports
      nobody ever runs out, however leases come and go while it is looking. */
  lemma EnoughPorts(range: Range, steps: seq<Step>, l: nat) returns (holders: seq<nat>)
    requires range.first <= range.end
    requires Possible(Initial(), steps, range) && l < |After(Initial(), steps, range).launchers|
    requires After(Initial(), steps, range).launchers[l].RanOut?
    ensures |holders| == range.end - range.first && l !in holders
    ensures forall i :: 0 <= i < |holders| ==> RefusedBy(steps, range, l, range.first + i, holders[i])
    ensures forall i, j :: 0 <= i < j < |holders| ==> holders[i] != holders[j]
    ensures |After(Initial(), steps, range).launchers| > range.end - range.first
  {
    hide Possible, After, RefusedBy;
    var s := After(Initial(), steps, range);
    holders := Refusers(steps, range, l, range.end - range.first);
    forall i | 0 <= i < |holders|
      ensures holders[i] < |s.launchers| && holders[i] != l && Had(s.launchers[holders[i]], range.first + i)
    {
      RefuserHad(steps, range, l, range.first + i, holders[i]);
    }
    var all := holders + [l];
    DistinctCount(all);
    SmallSet(Members(all), |s.launchers|);
  }
}
