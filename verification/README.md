# x86-on-arm, verified

Dafny models of the parts of x86-on-arm whose correctness is hard to see from one function:
the request protocol between the muvm launcher and its guest, the relocatable guest image,
the transport of a command as a shell script, the guest-side Wayland list and array, and the
shared start-up, port, environment and thunk-overlay code around them. Everything is proved
for all inputs or all runs; nothing here executes the original programs.

`dafny verify dfyconfig.toml` checks the whole project.

## How the files fit together

**The request protocol.** Concurrent parts are labelled transition systems in one style: a
`Step` datatype, `Enabled`, `Apply`, `Possible` (a run) and `After` (where it leads). The
theorems quantify over every run from the initial state, so over every interleaving.

- `Processes`, `Request`: guest processes that fork, change session, are orphaned, die, are
  reaped and whose PIDs are used again; any number of requests, each with its worker task,
  cgroup, I/O thread, stop pipe, control connection and client.
- `Kinship`: a request's cgroup holds exactly the descendants of its leader, because the
  leader enters before exec and forks inherit membership.
- `Cancellation`: what cancelling kills, what it spares, when it happens, and that it ends.
  `GracePass`: its pass of SIGTERM reaches every listed member.
- `Acknowledgement`: what the completion byte means when the client keeps its side.
  `Completion`: then a request completes unless its client hangs up or its I/O fails.
  `Launch`: how a request starts and how its cgroup goes, and what everybody else may do.
- `Wire`, `Stdin`, `Output`: the 16-bit framing, standard input under two writers and one
  mutex, the guest's epoll loop and the launcher's end; an exit code that has arrived means
  that all output has.
- `Delivery`: worker, output loop and client in one system, whose runs are runs of both
  models; the byte 1 means that everything has been delivered.
- `Progress`: the whole byte path with bounded buffers; it never sticks, ends within an
  explicit number of steps, and delivers its input. The same system with the guest's two
  threads merged into one does stick, by a concrete run.
- `Envelope`, `Ports`: the request envelope; exclusive port leases.

**The image.** `Paths` reads and prints pathnames like pathlib and os.path. `Image` holds
rooted pathname resolution (section 4.13 of the POSIX.1-2017 Base Definitions) beside the image
check's resolver, `Walks` how resolution composes, `Mount` what mounting any tree somewhere
does to it. `Relocate` proves when rewriting store links keeps the meaning of paths and links
at every mount point; `Assemble` is the walk that rewrites them in place. `Overlay` is
the thunk database builder beside the image check that inspects its output.

**The launcher.** `Shell` is a reader for the part of the shell language that the scripts
use (sections 2.2.2, 2.2.3 and 2.6.2 of the POSIX.1-2017 Shell Command Language);
`Transport` proves that the printed script runs exactly the intended command. `RunProcess`
is the signal forwarding, `Environment` the guest's environment, `Startup` the concurrent
start of the VM.

**Guest Wayland.** `WlList` and `WlArray` are heap classes: pointer surgery on a ring, and a
growing buffer with overflow-safe doubling.

Some results correct a natural reading of the code, each with its exact condition. Signals that
wait for the child can be overtaken: none is lost, and their order is kept exactly if each came
in turn (`RunProcess.OrderKeptExactlyInTurn`, `RunProcess.OrderMayChange` for a run that is
not). The resolver accepts some paths that POSIX refuses, namely those that step back from
something that is not a directory (`Image.ResolverMeetsPosix`). The rewriting spells a target
out, so that a path through `..` components that leave other links keeps its meaning exactly if
it ends the same way with every store link on its way taken by its spelling, and meets no
absolute link from outside the store on that way; both can be told from the original tree
(`Relocate.RelocatableExactlyWhenClosed`, `Relocate.StoreLinkKeptExactly`;
`Relocate.SiblingLinksAgree` for a harmless case, `Assemble.LoopedAssembled` for one that
changes). The thunk database builder does not look beside a soname in a subdirectory, so that
the image check passes exactly if nothing there needs it to (`Overlay.CheckPassesExactly`,
`Overlay.NestedSonameFails` for an entry that fails). Growing an array is amortised exactly up
to half the address space (`WlArray.AmortisedExactlyToHalf`).

Constants that the patches do not show are taken from the protocol peer in checks/live.py: a
shift of 2 and a mask of 3, opcode 0 with length 0 for the end of input, opcode 2 for exit.
The guest's read buffer may have any size from 1 to 16383 and the window-size opcode may be
any other value.

## Model

| member | source | states |
|---|---|---|
| `Kinship.StepKeepsKin` | compat/patches/muvm/client-lifetime.patch:168-183 | Every step of anybody keeps this: a process is in a request's cgroup if and only if it descends from that request's leader and the leader has entered; before exec the leader has no descendants. |
| `Kinship.RunKeepsKin` | compat/patches/muvm/client-lifetime.patch:208-212 | Membership equals descent in every run, whatever is forked, re-sessioned, orphaned, reaped or renumbered. |
| `Kinship.LeadersApart` | compat/patches/muvm/client-lifetime.patch:380-400 | No leader descends from another request's leader. |
| `Processes.ForkKeepsConsistent` | compat/patches/muvm/client-lifetime.patch:197-198 | A fork may take any PID that nobody holds and leaves one holder at most for every PID. |
| `Processes.GroupKilled` | compat/patches/muvm/client-lifetime.patch:215-218 | One write kills every live member, changes no other process, and reaps or moves nobody. |
| `Processes.Holder` | compat/patches/muvm/client-lifetime.patch:191-196 | The instance a PID names: an unreaped holder if there is one, and none only if there is none. |
| `Cancellation.CheckIsAboutThePinned` | compat/patches/muvm/client-lifetime.patch:194-202 | If the membership check succeeds under a PID whose pinned holder has not been reaped, the pinned process itself is the member that was checked. |
| `Cancellation.StepIsSafe` | compat/patches/muvm/client-lifetime.patch:185-225 | Every step keeps: cancelled and completed exclude each other, a killed cgroup stays without live members, pinned and checked processes are what they were, and the records of signals and kills name members of cancelled requests only. |
| `Cancellation.CancellationKillsEverything` | compat/patches/muvm/client-lifetime.patch:207-225 | In every run, once cgroup.kill has been written no descendant of the leader is alive, those forked, re-sessioned or orphaned during the grace included; past the join without the byte 1 a request has always been cancelled. |
| `Cancellation.CancellationSparesOthers` | compat/patches/muvm/client-lifetime.patch:185-205 | Whatever a request's task signalled or killed descends from its own leader and from no other request's, and the request was being cancelled, PID reuse between reading, pinning and checking included. |
| `Cancellation.RemovedOnlyWhenEmpty` | compat/patches/muvm/client-lifetime.patch:227-248 | rmdir never meets a live member, on the failed-launch path either; after it no descendant is alive. |
| `Cancellation.FailedSpawnIsQuiet` | compat/patches/muvm/client-lifetime.patch:404-407 | A leader that dies before exec leaves a cgroup without live members. |
| `Cancellation.DisconnectedNeverCompletes` | compat/patches/muvm/client-lifetime.patch:342-361 | From any reachable state up to the join, before exec included, in which the connection has ended or carries a byte other than 1 first: every continuation leaves it so or cancels the request, which is never settled otherwise, and while the command runs the worker's next look cancels it. |
| `Cancellation.CancellationEnds` | compat/patches/muvm/client-lifetime.patch:356-363 | In every run a cancelled request has an enabled step of its own that comes strictly closer to removal, and nobody's step sets it back. |
| `Cancellation.NoStepHinders` | compat/patches/muvm/client-lifetime.patch:356-363 | Any enabled step of the system leaves a cancelled request where it is or brings it closer to its end. |
| `GracePass.ListedMembersAreSignalled` | compat/patches/muvm/client-lifetime.patch:185-205 | In every run, for every list read from cgroup.procs: a listed PID whose holder is a live member of the request's cgroup whenever the pass looks at the entry, from opening it to signalling it, gets its SIGTERM before the entry leaves the list, whatever becomes of the others; so it has been signalled when the pass is over. |
| `GracePass.MemberIsSignalled` | compat/patches/muvm/client-lifetime.patch:194-202 | Step by step, for an entry whose holder is a live member: opening pins that member, the check passes, sending signals it. |
| `GracePass.EntriesLeaveInTurn` | compat/patches/muvm/client-lifetime.patch:190-204 | Entries leave the list from its front, one at a time, and the pass ends when none is left. |
| `Completion.CancelledForACause` | compat/patches/muvm/client-lifetime.patch:342-361 | In every run in which the request's client keeps its side and does not hang up and its I/O does not fail, the request is never cancelled and nothing is signalled or killed for it. |
| `Completion.CompletedIsReported` | compat/patches/muvm/client-lifetime.patch:338-354 | In every run a request that completes has had its output reported finished; if its I/O fails before, the worker cancels it when it gets there. |
| `Completion.OrdinaryCompletes` | compat/patches/muvm/client-lifetime.patch:330-364 | In such a run, once the leader has ended, the worker, the I/O thread or the client always has a step that brings the request nearer to the join, nine at most, whatever its detached children do. |
| `Completion.NothingSetsBack` | compat/patches/muvm/client-lifetime.patch:330-364 | And no step of anybody takes it further away. |
| `Launch.NoLeaderIsLeft` | compat/patches/muvm/client-lifetime.patch:331-364 | On every path, failed launch and cancellation included, the leader has been reaped before the cgroup is removed. |
| `Launch.FreePid` | compat/patches/muvm/client-lifetime.patch:380-400 | Some PID is free, whatever the process table. |
| `Launch.CanSpawn` | compat/patches/muvm/client-lifetime.patch:380-400 | A created request can spawn its leader under any free PID, as a child of the worker and in no cgroup. |
| `Launch.CanLaunch` | compat/patches/muvm/client-lifetime.patch:168-183 | A leader, and nobody else, enters the cgroup of its request, and then executes the command, if and only if it lives. |
| `Launch.CanRemove` | compat/patches/muvm/client-lifetime.patch:227-248 | A failed launch removes its empty cgroup; a request past the join or the kill removes it as soon as no member is alive. |
| `Launch.KillsAreRecorded` | compat/patches/muvm/client-lifetime.patch:207-220 | Whatever ends in the system ends by its own doing, as a leader whose launch fails, or by a recorded SIGKILL as a live member of a cgroup that is killed. |
| `Launch.NobodyIsHeldBack` | compat/patches/muvm/client-lifetime.patch:207-218 | What the runs range over: live processes fork, change session and end as they like, PIDs are used again, clients write and hang up, I/O fails, and any PIDs may be read as members. |
| `Acknowledgement.StepIsOrderly` | compat/patches/muvm/client-lifetime.patch:330-354 | With a client that sends 1 once and only after the exit frame, every step keeps leader, stop pipe, report, exit frame and the client's copy of the code in causal order and equal. |
| `Acknowledgement.AcknowledgementMeansDone` | compat/patches/muvm/client-lifetime.patch:330-364 | On the worker's side: in every such run, once the byte is sent the leader has been reaped, I/O has been reported, the client's code is the one put and the leader's own or 128 plus its signal, and the request is not cancelled and has signalled or killed nobody. |
| `Delivery.Projects` | compat/patches/muvm/client-lifetime.patch:419-434 | Every run of worker, I/O thread and client together is a run of the request protocol and a run of the output loop, polite if it is. |
| `Delivery.StepStaysLinked` | compat/patches/muvm/client-lifetime.patch:463-470 | Every such step keeps stop pipe, report and exit frame the same on both sides, and the client's knowledge within what has arrived. |
| `Delivery.AcknowledgementMeansDelivered` | compat/patches/muvm/client-lifetime.patch:18-27 | In every run of the whole, once the byte is sent: the leader has been reaped; the client has written exactly what was ever written to either stream, whose last writers are gone; its code is the leader's own or 128 plus its signal; and nothing has been signalled or killed. |
| `Delivery.NothingIsBlocked` | compat/patches/muvm/client-lifetime.patch:330-354 | In every reachable state, what the loop can do by itself, the writing of the code, and the reading of an exit code that has arrived are possible in the whole. |
| `Delivery.TheRestIsFree` | compat/patches/muvm/client-lifetime.patch:330-354 | Nor does the whole hold back other requests, processes, clients, writers of the pipes, or the arrival of what has been sent. |
| `Acknowledgement.AcknowledgedCompletes` | compat/patches/muvm/client-lifetime.patch:330-364 | After the byte the worker can only finish: until it has joined one of its own steps is enabled, and none leads to termination. |
| `Acknowledgement.GlobalKeepsChain` | compat/patches/muvm/client-lifetime.patch:331-338 | Taking the code awaits the leader, and the code that is put is the one that was taken. |
| `Wire.HeaderIsExact` | compat/patches/muvm/interactive-stdio.patch:28-36 | The 16-bit header gives its number back if and only if it is below 2^14, and its opcode always. |
| `Wire.HeaderLayout` | checks/live.py:392-401 | Two bytes, the low one first; the opcode in its two lowest bits, the number in the rest. |
| `Wire.UnknownStops` | checks/live.py:393-401 | A reader stops at an opcode it does not know. |
| `Wire.LastFrames` | compat/patches/muvm/interactive-stdio.patch:326-330 | Byte by byte: the frame that carries an exit code, and the one that ends the input. |
| `Wire.ParseUndoesEncode` | checks/live.py:392-401 | Parsing a list of encoded frames gives the frames back, whatever follows them. |
| `Wire.PartialIsUnseen` | compat/patches/muvm/interactive-stdio.patch:153-166 | A frame of which bytes are missing is not seen at all, in its header or in its payload. |
| `Wire.ParsePrefix` | checks/live.py:393-401 | Whatever part of a stream of frames has arrived, it shows the first few frames and nothing else. |
| `Stdin.StreamParses` | compat/patches/muvm/interactive-stdio.patch:28-39 | Under the mutex the stream parses at every moment into exactly the frames written whole, input and window sizes interleaved in any way. |
| `Stdin.StepConserves` | compat/patches/muvm/interactive-stdio.patch:28-39 | Every step of the two writers keeps frames plus chunk in hand plus unread input equal to the input, with one end at most, last. |
| `Stdin.ForwardInput` | compat/patches/muvm/interactive-stdio.patch:153-193 | The guest's reader loop does to the child what the parsed frames say one after the other; its position never depends on the child, a broken pipe included. |
| `Stdin.PacketsShow` | compat/patches/muvm/interactive-stdio.patch:161-188 | The frames alone determine the child: it gets the input up to where its pipe breaks, exactly the sizes that come before its input is closed, every end. |
| `Stdin.InputSurvivesFraming` | compat/patches/muvm/interactive-stdio.patch:28-41 | For any chunking, interleaving and break of the child's pipe: what was passed on is the beginning of the input, sizes keep their order, the end is seen at most once, and all of it exactly once after forward_stdin has returned. |
| `Stdin.InputGetsThrough` | compat/patches/muvm/interactive-stdio.patch:28-41 | The mutex keeps nobody for ever: the two writers take at most ten steps for every byte, seven for every window size and six more, and until the end of input is out one of them can go on. |
| `Output.Loop.Iterate` | compat/patches/muvm/interactive-stdio.patch:229-332 | One round of the epoll loop changes flags, epoll set and sent frames as the event means: a stream ends on an empty read or a bare hang-up, the exit frame follows once all is drained; no descriptor is deleted twice, the epoll set stays that of the open sources, and a loop that goes on still lacks the code or has a stream open. |
| `Output.StepIsSound` | compat/patches/muvm/interactive-stdio.patch:229-332 | Every step of the loop or of a writing process keeps: frames plus unread bytes are what was written, a closed stream is drained and without writers, the epoll set holds exactly the open sources. |
| `Output.OutputIsComplete` | compat/patches/muvm/client-lifetime.patch:457-470 | In every run, for any chunking and any mix of events: no descriptor is deleted twice; when the loop is done each stream's frames are exactly what was written to it, its last writer is gone, and the single exit frame is last and carries the code that was put. |
| `Output.NobodyWaitsForNothing` | compat/patches/muvm/interactive-stdio.patch:326-330 | In every reachable state a loop that is neither done nor broken has not read the code or has a stream open. |
| `Output.DrainedLoopFinishes` | compat/patches/muvm/client-lifetime.patch:463-467 | From any reachable state in which the code has been put and no stream has a writer left: at most as many polls follow as there are unread bytes and registered sources, and until the exit frame is sent, or the stream to the host breaks, a poll is possible. |
| `Output.VanishedWorkerIsNoticed` | compat/patches/muvm/client-lifetime.patch:457 | A worker that goes away without having put a code is noticed by a poll that is possible, and the loop ends without a status and without an exit frame. |
| `Output.AnyOutputArrives` | compat/patches/muvm/interactive-stdio.patch:229-332 | For any bytes on either stream, none included, and any code, there is a run that ends with the launcher having written exactly these and returning that code. |
| `Output.NobodyIsHeldBack` | compat/patches/muvm/interactive-stdio.patch:229-332 | What the runs range over: anything may be written while there is a writer, any code may be put once, and the stream to the host may break at any time. |
| `Output.RunIoHost` | compat/patches/muvm/interactive-stdio.patch:75-81 | The launcher's loop copies what the parsed frames say and stops at the exit frame. |
| `Output.StreamsShown` | checks/live.py:393-401 | Before an exit frame the launcher has written each stream's bytes, in order and nothing else. |
| `Output.ClientGetsEverything` | compat/patches/muvm/interactive-stdio.patch:326-332 | End to end: the bytes of a finished loop make the launcher write exactly what the command's processes wrote, stream by stream, and return the code that was put. |
| `Output.ExitSeenMeansAllSeen` | compat/patches/muvm/client-lifetime.patch:22-25 | At any moment of any run, for any part of the stream that has arrived: an exit code in the launcher's hands means that the loop is done and has reported it and that the launcher has written everything ever written to either stream; before that it has written a beginning of each. |
| `Progress.FinishIsFirst` | compat/patches/muvm/interactive-stdio.patch:153-166 | A frame read byte by byte is the first one under way, and the rest stays in step. |
| `Progress.LinkMoves` | compat/patches/muvm/interactive-stdio.patch:153-166 | While a frame is under way its writer or its reader can go on, for any positive capacity. |
| `Progress.StepDescends` | compat/patches/muvm/interactive-stdio.patch:28-39 | Every step of anybody lowers one weighted count of the bytes and flags left. |
| `Progress.StepIsSound` | compat/patches/muvm/interactive-stdio.patch:211-216 | Every step keeps all bytes in their places between input and output, both directions in step with their frames, and the ends in order. |
| `Progress.NeverStuck` | compat/patches/muvm/interactive-stdio.patch:69-74 | In any state that satisfies the invariant and in which the launcher has not read the exit frame, the step that is returned is enabled. |
| `Progress.RequestCompletes` | compat/patches/muvm/interactive-stdio.patch:211-216 | For a copying child, finite input and any positive capacities, every run has at most 49 steps for every byte and 45 more, some step is possible until the exit frame is read, and then the output is the input and the code the child's. |
| `Progress.BuffersStayBounded` | compat/patches/muvm/interactive-stdio.patch:211-216 | In every run each buffer between input and output holds its capacity at most. |
| `Progress.OneThreadDeadlocks` | compat/patches/muvm/interactive-stdio.patch:211-213 | With input and output in one guest thread a run of five bytes reaches a state in which nobody can move. |
| `Envelope.ReadRequest` | compat/patches/muvm/interactive-stdio.patch:140-148 | The line loop returns the text before the first marker, or an error exactly if there is none, and leaves everything behind the marker unread. |
| `Envelope.LineEnd` | compat/patches/muvm/interactive-stdio.patch:141-143 | A line ends behind the first newline or at the end of the stream, and is empty only there. |
| `Envelope.EnvelopeIsExact` | compat/patches/muvm/interactive-stdio.patch:145-147 | An envelope is read back if and only if its text and the newline behind it do not contain the marker. |
| `Envelope.OneLineIsExact` | runtime/x86_on_arm/vm.py:43-55 | A text without newlines always comes through, whatever it says about EOM. |
| `Ports.LeasesAreExclusive` | compat/patches/muvm/interactive-stdio.patch:115-125 | In any run no two launchers hold the same port. |
| `Ports.RanOutMeansAllHeld` | compat/patches/muvm/interactive-stdio.patch:94-127 | A launcher runs out only if, for every port of the range, it tried it at a moment when another launcher held it. |
| `Ports.EnoughPorts` | compat/patches/muvm/interactive-stdio.patch:94-127 | Whoever runs out has met a different other launcher at each port, which held it when it was tried; so there are more launchers than ports. |
| `Ports.EveryTryCounts` | compat/patches/muvm/interactive-stdio.patch:94-127 | In every run a launcher has tried one port of the range after the other, a new one at every attempt, and leases the last of them or has run out. |
| `Ports.FreePortIsLeased` | compat/patches/muvm/interactive-stdio.patch:94-127 | Trying a port leases it exactly if nobody holds it, and releasing it frees it. |
| `Startup.SingleStart` | runtime/x86_on_arm/vm.py:69-111 | For any callers in any interleaving systemd-run is issued once at most, and once more for every VM that went away, starter that raised or first probe that was lost; two callers are never inside. |
| `Startup.CountsAreExact` | runtime/x86_on_arm/vm.py:64-131 | What that bound counts is what happened in the run: units issued, VMs gone, starters that raised, first probes lost. |
| `Startup.ColdStart` | runtime/x86_on_arm/vm.py:69-116 | Whenever the lock is free and the VM off, a caller can start it with one unit and return when it answers, the lock free again. |
| `Startup.VmComesAndGoes` | runtime/x86_on_arm/vm.py:64-131 | What the runs range over: the VM answers some time after it was started, goes away whenever it likes, and can be started again; KVM may be missing. |
| `Startup.ReturnedSawReady` | runtime/x86_on_arm/vm.py:70-72 | A caller that returns normally got its answer from the VM at a step at which it held the lock. |
| `Startup.RaisedGaveUp` | runtime/x86_on_arm/vm.py:64-131 | The converse: every caller that raises has no KVM, could not start the unit, saw the VM off, or had no round left; no probe or poll makes it raise. |
| `Startup.AnswerReturns` | runtime/x86_on_arm/vm.py:115-116 | A probe or poll that the VM answers makes its caller return with the lock free; one that it does not answer makes it launch or poll once more. |
| `Startup.AnsweringVmServes` | runtime/x86_on_arm/vm.py:71-72 | From any state in which the VM answers, as long as it stays up and its answers arrive: a caller that has yet to probe or has a round left cannot raise, and has returned after two steps of its own at most. |
| `Startup.EveryCallEnds` | runtime/x86_on_arm/vm.py:112-129 | All calls together take at most 454 steps each, and while one is unfinished one of them can take a step other than finding no KVM or a systemd-run that fails although its unit is free. |
| `Image.Resolve` | checks/image.py:11-31 | The deque loop ends, computes the specified resolution under the root, and returns an existing place none of whose prefixes is a link. |
| `Image.FoundIsResolved` | checks/image.py:15-28 | From any place of the tree, what rooted resolution finds within the budget the resolver finds too. |
| `Image.ResolvedIsFound` | checks/image.py:19-21 | Conversely, what the resolver finds is found by resolution if every step back leaves from a directory. |
| `Image.ResolverMeetsPosix` | checks/image.py:11-31 | Resolution of a path finds something if and only if the resolver accepts it and steps back from directories only, and then both give the same place. |
| `Image.ResolverAcceptsMore` | checks/image.py:19-21 | A path that the resolver accepts and resolution does not find. |
| `Walks.GoesOn` | checks/image.py:15-28 | Resolving a path is resolving its first part and going on from there with the links that are left. |
| `Walks.Monotone` | checks/image.py:24-26 | A resolution that does not run out of links is the same with more of them. |
| `Mount.MountsExactly` | guest/assemble.py:27-28 | In any tree: a path that does not leave it at the top ends at the corresponding place, or in the same failure, at every mount point of every host, if and only if it follows no absolute link in the tree alone. |
| `Paths.ReadingUndoesPrinting` | guest/assemble.py:37 | Components printed as a relative link text are read back as themselves, and the text is relative. |
| `Paths.BetweenUnderRoot` | guest/assemble.py:37 | The relative path between two places does not depend on where their common root lies. |
| `Walks.WalkUp` | guest/assemble.py:37 | From a real directory the dots of a relative link lead to its ancestors. |
| `Relocate.NormalizedWalk` | guest/assemble.py:37 | If each `..` leaves a directory, the lexically normalised spelling resolves like the original one, link count included. |
| `Relocate.DotsAgreeWalk` | guest/assemble.py:37 | If each `..`, leaving links or not, steps back to where it does by its spelling, the normalised spelling ends where the original does and follows none but its links, unless the original runs out of links. |
| `Relocate.RewritingAgrees` | guest/assemble.py:29-37 | For every path whose links are relative, foreign, or portable in that sense, resolution in the rewritten tree ends as in the original one and follows none but its links, the same ones if each `..` leaves a directory. |
| `Relocate.RewrittenIsSpelt` | guest/assemble.py:29-37 | With no condition on links: resolving any path in the rewritten tree is resolving it in the original one by spelling, each store link leading to where its target's text points. |
| `Relocate.StoreLinkKeptExactly` | guest/assemble.py:34-37 | The text of one rewritten link leads to a given place at every mount point if and only if the spelling of its target stays inside the image and, in the original tree, resolution by spelling leads from it to that place without an absolute link from outside the store. |
| `Relocate.StoreLinkAmongPortable` | guest/assemble.py:34-37 | Where the links on the way of the spelling are portable and enough, that is plain resolution of the spelling. |
| `Relocate.PortableIsKept` | guest/assemble.py:34-37 | Where a portable target leads, its spelling leads, so that its rewritten link is kept. |
| `Relocate.SiblingLinksAgree` | guest/assemble.py:37 | Dots that leave a link to a directory beside it change nothing. |
| `Relocate.RelocationPreservesMeaning` | guest/assemble.py:27-37 | Resolution in the rewritten tree mounted anywhere gives the mount point followed by what resolution gives in the original tree, failures included, for every path that meets relative or portable links only and stays below the root; only links spent on detours through links may be saved. |
| `Relocate.RelocatableExactlyWhenClosed` | guest/assemble.py:27-37 | For every tree, and every path that stays below its root, whatever links it meets: it ends at every mount point as in the original tree if and only if, in the original tree, resolution by spelling ends the same way and follows no absolute link from outside the store. |
| `Relocate.ClosedExactlyWithoutForeign` | guest/assemble.py:35 | Where each `..` leaves a directory: if and only if no absolute link from outside the store is followed in the original tree. |
| `Assemble.Building.RelinkDirectory` | guest/assemble.py:31-37 | The inner loop rewrites exactly the links of one directory whose text begins with `/nix/store/`, to relative ones, and leaves every other entry as it is. |
| `Assemble.Building.Subdirectories` | guest/assemble.py:29 | The walk descends into the directories that are not links, each once. |
| `Assemble.Building.Relink` | guest/assemble.py:29-37 | The walk over the tree that it is changing ends and leaves exactly the rewritten tree: every link whose text began with `/nix/store/` is relative, every other entry unchanged. |
| `Relocate.NoAbsoluteLinkIsLeft` | guest/assemble.py:35-37 | An image whose absolute links all point into the store has no absolute link afterwards. |
| `Assemble.LoopedOriginal` | guest/assemble.py:37 | In the original tree a target with `..` behind a link means the parent of where the link leads. |
| `Assemble.LoopedAssembled` | guest/assemble.py:37 | In the rewritten tree it means what its text spells, another place. |
| `Shell.ReadQuote` | runtime/x86_on_arm/execution.py:65 | A quoted word is read back as itself, whatever it holds. |
| `Shell.ReadQuotedJoin` | runtime/x86_on_arm/execution.py:71 | A quoted command line is read back as the list of its words. |
| `Shell.ReadBridgedJoin` | runtime/x86_on_arm/execution.py:41-52 | The inherited part is read as one assignment for every name, with the variable's value or nothing. |
| `Transport.RoundTrip` | runtime/x86_on_arm/execution.py:37-73 | Running the script, with env(1) reading its own options, runs the given program with the given argv and directory; its environment is exactly the given one over the seven bridged variables, and nothing else of the outer shell's. |
| `Transport.TransportIsExact` | runtime/x86_on_arm/execution.py:37-73 | It does so if and only if no input holds a NUL and every key is non-empty and without an equals sign. |
| `Transport.NulIsRefused` | runtime/x86_on_arm/execution.py:63-73 | A script that holds a NUL runs nothing. |
| `RunProcess.NoSignalLostOrDoubled` | runtime/x86_on_arm/execution.py:91-111 | With the handler firing between any two steps, at every moment each invocation is exactly once among the send_signal calls, the queue and the active handlers; the queue is flushed before the wait, and the previous handlers are back after every exit. |
| `RunProcess.AllSentAfterWait` | runtime/x86_on_arm/execution.py:107-111 | After a run that came to the wait, its normal exit included, every invocation has been sent once but for those whose handlers are still active. |
| `RunProcess.OrderKeptExactlyInTurn` | runtime/x86_on_arm/execution.py:95-106 | Invocations are sent in the order in which they came if and only if each came when no handler was active and, once the child was started, nothing was queued. |
| `RunProcess.InTurnIsFaithful` | runtime/x86_on_arm/execution.py:95-106 | In a run in which every signal came in turn, the signals sent to the child are at every moment a beginning of those that came. |
| `RunProcess.EverySignalIsCaught` | runtime/x86_on_arm/execution.py:101-106 | From before the child is started until the handlers are put back each of the four signals is caught, whenever it comes. |
| `RunProcess.RunProcessEnds` | runtime/x86_on_arm/execution.py:91-111 | Main program and handlers take at most thirteen steps and three for every signal, and until the function is left one of them has a step, if the child ends. |
| `WlList.Init` | compat/patches/fex/wayland-fixes-interface.patch:34-36 | A single node becomes a ring of one. |
| `WlList.Insert` | compat/patches/fex/wayland-fixes-interface.patch:37-42 | Behind any node of a ring: the ring with the element at that place, writing three nodes' links only. |
| `WlList.Remove` | compat/patches/fex/wayland-fixes-interface.patch:43-47 | The ring without the element, whose own links are cleared. |
| `WlList.Empty` | compat/patches/fex/wayland-fixes-interface.patch:48-50 | A node is empty exactly if its ring has no other. |
| `WlList.Length` | compat/patches/fex/wayland-fixes-interface.patch:51-55 | The loop ends and counts every node but the one it starts from. |
| `WlList.InsertList` | compat/patches/fex/wayland-fixes-interface.patch:56-62 | The elements of a disjoint list stand, in order, behind the node; an empty one changes nothing. |
| `WlList.RingIsUnique` | compat/patches/fex/wayland-fixes-interface.patch:32-36 | The heap determines the sequence that a head stands for. |
| `WlList.RotationIsRing` | compat/patches/fex/wayland-fixes-interface.patch:37-55 | Any node may be taken as the head. |
| `WlArray.Array.Init` | compat/patches/fex/wayland-fixes-interface.patch:63-65 | An empty array without a block. |
| `WlArray.Array.Capacity` | compat/patches/fex/wayland-fixes-interface.patch:73-77 | The doubling loop ends without wrapping and gives the specified capacity. |
| `WlArray.Array.Add` | compat/patches/fex/wayland-fixes-interface.patch:69-86 | Old contents stay, the size grows by the request or nothing changes, and the result is null exactly if memory or the address space is refused, or nothing is added to an array without a block. |
| `WlArray.Array.Copy` | compat/patches/fex/wayland-fixes-interface.patch:87-93 | Success means equal contents, failure an unchanged target, and it fails exactly if more room is needed and refused; the source is unchanged. |
| `WlArray.DoubledBounds` | compat/patches/fex/wayland-fixes-interface.patch:73-77 | The new capacity holds the request, is representable, at least doubles while that is representable, and is below twice the request unless it was enough before. |
| `WlArray.AddedKeepsBudget` | compat/patches/fex/wayland-fixes-interface.patch:69-86 | One call keeps the size within the capacity, the bytes moved so far within it up to half the address space, and the idle part below one half. |
| `WlArray.GrowthIsAmortised` | compat/patches/fex/wayland-fixes-interface.patch:69-86 | Over any sequence of calls that stays within half the address space, failed ones included, the old capacities moved sum up to the final capacity at most. |
| `WlArray.AmortisedExactlyToHalf` | compat/patches/fex/wayland-fixes-interface.patch:75 | For any bound: every sequence of calls on an empty array that ends within it keeps the bytes moved within the final capacity, if and only if the bound is at most one half of the address space. |
| `Overlay.Database.Extend` | compat/thunk-paths.py:11-42 | The extended entry begins with the old one and adds exactly the places of every listed soname and of every file of a listed family. |
| `Overlay.Database.ExtendAllNames` | compat/thunk-paths.py:10-42 | Every named entry is extended, no other is touched. |
| `Overlay.VersionsAreMapped` | compat/thunk-paths.py:11-42 | A listed library, and every version of it in some directory, is mapped under the prefix, in every directory, and in /usr/lib32 and /lib32. |
| `Overlay.OnlyVersionsAreMapped` | compat/thunk-paths.py:11-42 | Whatever is added maps a listed soname, or a version of a listed library that is there, to one of these places. |
| `Overlay.MappedFamilies` | compat/thunk-paths.py:19-25 | Whatever belongs to the family of a mapped library belongs to a listed family. |
| `Overlay.CheckPassesExactly` | checks/image.py:70-78 | For any entry, sonames and directory contents, the builder's output passes the check if and only if it reaches the directory and every file there that belongs to the family of a library name not itself mapped is provided for. |
| `Overlay.BuilderSatisfiesCheck` | checks/image.py:70-78 | For flat sonames and any directory contents the extended entry passes the image check in every directory. |
| `Overlay.BuilderIsIdempotent` | compat/thunk-paths.py:10-42 | Extending the output again adds no entry, if the directories are absolute. |
| `Environment.GuestEnvironment` | runtime/x86_on_arm/environment.py:140-170 | Updating one dictionary entry after entry gives the layered environment. |
| `Environment.GuestAt` | runtime/x86_on_arm/environment.py:140-170 | Which layer decides a key: settings, VM, graphics, fixed entries, or the caller unless the key is omitted. |
| `Environment.GuestByName` | runtime/x86_on_arm/environment.py:140-170 | Name by name, with every name and value written out: what the guest has under it, and that the caller's own value comes through only under a name that is neither the loader's nor, on muvm, the session's, and that nothing sets. |
| `Environment.NonInterferenceIsExact` | runtime/x86_on_arm/environment.py:140-170 | Two callers get the same guest environment if and only if they agree outside the loader variables, on muvm the VM's, and the keys that fixed entries or settings override; an unset search path is an empty one. |
| `Environment.NativeIsEnough` | runtime/x86_on_arm/environment.py:111-112 | Filtering the loader variables beforehand changes nothing for the guest. |
| `Environment.CallersRunAlike` | runtime/x86_on_arm/execution.py:39-53 | Such callers' scripts run the same program with equal argv, directory and environment, given equal bridged values. |

## Left out

- Progress.RequestCompletes: one copying child that reads, then writes all it read; a pipe takes single bytes, where a kernel may wait for room for a whole small write; a terminal is excluded because its size frames share the mutex with the draining thread.
- Progress.NeverStuck: says which step can be taken, not that a scheduler takes it.
- Stdin.ForwardInput: errors of the child's pipe other than a broken one, and failures to set the window size, which end the thread.
- Output.RunIoHost: the frame reading in this loop is not shown by the patch; its treatment of opcodes 0, 1 and 2 follows the peer in checks/live.py, and window-size events on the host are steps of `Stdin` instead.
- Output.OutputIsComplete: the numbers of the two output opcodes are parameters; that they differ and are below the exit opcode is assumed as in checks/live.py.
- Cancellation.CancellationKillsEverything: failures of seteuid, of reading cgroup.procs or cgroup.events, or of the kill write after creation has checked the kill file; a request whose code cannot be delivered is cancelled as in the source.
- Cancellation.CancellationEnds: the grace of 500 ms and the pauses of 50 ms are any finite number of other steps; real time is not modelled.
- GracePass.ListedMembersAreSignalled: what a process does with its SIGTERM is its own affair; a line of cgroup.procs that is not a PID, or a pidfd that cannot be had, is an entry without a holder.
- Completion.OrdinaryCompletes: says whose step is possible, not that a scheduler takes it; that the leader ends is up to the command.
- Launch.KillsAreRecorded: a launch that fails reaps its leader in one step, however that died.
- Acknowledgement.AcknowledgementMeansDone: the worker's side only, with an I/O thread of a few steps; that the client has all output by then is `Delivery.AcknowledgementMeansDelivered`.
- Delivery.AcknowledgementMeansDelivered: the I/O of one request in full, of the others in a few steps; the loop's report and exit frame are one step, so that a stream that fails between them is not told from one that fails before; who writes to the pipes is not tied to the live members of the cgroup.
- Request.Apply: the answer on the control connection, requests with vsock port 0, which have no cgroup, and a Unicode or JSON error in a request.
- Envelope.ReadRequest: bytes that are not UTF-8, and what serde_json makes of the text. The one-word answer to a request is not modelled.
- Startup.SingleStart: `ensure` is a state machine over its blocking operations; the list of properties given to systemd-run, reset-failed and the one-second interval of is-active are not modelled.
- Ports.RanOutMeansAllHeld: failures to open a lock file; the bounds of the range, which the patch does not show, are parameters.
- Image.Resolve: permissions, special files and a pathname that begins with exactly two slashes.
- Relocate.RelocationPreservesMeaning: an empty link text and trailing slashes; that directories must be searchable.
- Relocate.RelocatableExactlyWhenClosed: a path that leaves the image at its top.
- Assemble.Building.Relink: copying the closure into the tree and changing modes; names are visited in any order.
- Transport.TransportIsExact: the environment is the one env(1) gives to bash, which itself sets PWD, OLDPWD, SHLVL and `_`; that bash reads no BASH_ENV file; text outside the encoding. That a script with a NUL runs nothing is a choice of the model's reader: what a shell makes of such a script is not specified.
- The directory that `cd -- DIRECTORY` looks for is the operand itself for an absolute path (`Transport.CdIsExact`); that it exists and can be entered is up to the guest.
- RunProcess.NoSignalLostOrDoubled: a child that has been reaped between the flush and the handler's call gets nothing from send_signal, as in the standard library. The translation of a child's status into the returned code is one conditional and is not modelled.
- WlList.Length: a list longer than the largest C int.
- WlArray.Array.Copy: arrays whose blocks overlap without being the same array; wl_array_release, which only frees.
- Overlay.Database.Extend: the sorted order of the appended entries and their repetition, which the check does not look at; a name without an entry and an unreadable directory, on which the builder stops before it writes.
- Environment.GuestEnvironment: `graphics` is an opaque pair of mode and manifest list that depends on settings and host only.
- X11 socket probing, host_environment, driver globbing and manifest selection: queries of the file system with little branching.
- The FEX patches for EGL, GLES, ALSA, 32-bit allocation and the proxy interface: declarations and short conversions for a thunk generator that is not part of the repository.
- guest/session.py, guest/ldconfig.c, applications/pressure-vessel.c, the Nix files and shell launchers: they arrange arguments, files and processes in a straight line, without state or interleaving of their own.
