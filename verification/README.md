# A verified model of erl-go

erl-go is an actor runtime in the style of Erlang: processes with links, monitors, exits and registered names, GenServers
on top of them, and supervisors on top of those. This project states in Dafny what the parts of it guarantee, and proves
it over all runs, all interleavings and all outcomes of user code.

| part | files |
|---|---|
| process signal protocol | `Types`, `Sums`, `Inboxes`, `Runtime`, and the invariants in `RuntimeLocal`, `RuntimeFacts`, `RuntimeOrder`, `RuntimeTokens`, `RuntimeLinks`, `RuntimeLosses`, `RuntimeBook`; the theorems are in `RuntimeSafety`, `RuntimeBonds`, `RuntimeRelays`, `RuntimeCalls`, `RuntimeExits`, `RuntimeTermination`, `RuntimeOnward`; `RuntimeEarlyAnswer` and `RuntimeLostRequests` are runs that show what can go wrong |
| inbox and process as objects | `Inbox`, `Process` |
| name registry | `Registry` (object), `RegistryRace` (interleavings) |
| supervisor | `Children`, `Supervision` (functions), `RestartLimit`, `SupervisorLists`, `SupervisorStrategies`, `SupervisorExits`, `SupervisorRequests` (theorems), `ChildSpecs`, `Supervisor` (objects), `ChildKiller` |
| GenServer | `GenServerTrace` and `GenServerOrder` (rules and theorems), `GenServer` (the loop), `GenCaller`, `GenStarter` |
| expectations of `erltest` | `Graphs`, `Expectation`, `ExpectationRuns`, `ExpectationSet` |
| stream splitters | `Splitters` |

**The runtime.** The state of the system is the list of all processes, each with both its inboxes, its book of links and
monitors, and the sends that its signal loop and its runnable still have to do. One step is one action of one goroutine: a
send first reads the status of the receiver and enqueues in a later step; the goroutine that feeds a channel from an inbox
holds one item in a slot of its own; `exit` is broken into its status change, the release of the name, the drain, each
single notice, and the wait for the runnable. Histories of what was accepted and read are part of the state, so that order
and loss can be stated. Everything is proved of every state that any sequence of enabled steps can reach.

**The supervisor** is modelled twice: as functions over a world that answers for start functions and lets processes die at
any moment, about which the theorems are, and as an object whose list of children lives in an array shared by the parts of
a split, whose methods are proved to compute these functions. A stop sends the exit and then waits, moment after moment,
while any process may die, for the child killer's report, which may come only when the child is not alive. That this is how
the killer reports, and that it reports exactly once, is proved over the runtime itself, with the exact condition under
which no report ever comes.

**The GenServer** loop takes the results of its callbacks from a script, so that every pattern of results, errors, panics
and endless chains of continuations is one script. The clients' processes are proved over the runtime's own inboxes.

Where the code does something other than its comments say, the model follows the code:

- `exit(nil)` does not give the reason Normal but an exception, because `errors.As` on a nil error fails (`erl/process.go:301-309`).
- A demonitor drops all monitors that its origin has on the process, not only the one of its reference (`erl/process.go:232-234`).
- A monitor request that meets an exiting process before it has given up its name is answered with NoProc while the name is still registered (`RuntimeEarlyAnswer`).
- `exit` unregisters whatever the name it read stands for by then, which may be another process (`RegistryRace.ExitTakesAnothersName`).
- The restart limiter keeps the last expired entry and so up to Intensity + 1 entries; it stops counting, and trimming, at the entry that exceeds (`erl/supervisor/supervisor_state.go:206-219`).
- A shutdown timeout is in seconds, not milliseconds (`erl/supervisor/child_killer.go:132`).
- After a group restart the children run but still carry the mark of terminated children, and a failed group restart is not reported (`erl/supervisor/supervisor.go:464`, `:474`, `:543-546`).
- A child with a blank identifier is started and entered before the error is returned, and from then on every successful start reports an error (`erl/supervisor/supervisor.go:735-745`).
- A monitor request can be lost on its way to an exiting process, in two ways, and so can a link; its watcher never hears of the exit, and a supervisor whose killer sent it waits for ever (`RuntimeLostRequests`, `ChildKiller.WaitNeverEnds`).
- An error returned by `HandleContinue` ends the server without `Terminate` (`erl/genserver/gen_server.go:291-294`).

## Model

| member | source | states |
|---|---|---|
| InboxObject.Inbox.Enqueue | erl/internal/inbox/inbox.go:39-51 | a closed inbox refuses and does not change; an open one gets the item at the end of its queue |
| InboxObject.Inbox.FeedTurn | erl/internal/inbox/inbox.go:80-120 | one turn of the goroutine behind the channel moves the head of the queue into its slot, and gives nothing away once closed |
| InboxObject.Inbox.Receive | erl/internal/inbox/inbox.go:102-120 | the reader gets the item in the slot |
| InboxObject.Inbox.Drain | erl/internal/inbox/inbox.go:160-174 | returns the whole queue and closes; the item in the slot is not returned |
| InboxObject.Inbox.Close | erl/internal/inbox/inbox.go:178-188 | closes, and leaves queue, slot and histories alone |
| ProcessObject.Process.HandleDemonitorSignal | erl/process.go:226-236 | a demonitor of our own is forwarded; a foreign one filters by reference and by origin |
| ProcessObject.Process.HandleUnlinkSignal | erl/process.go:249-256 | the first occurrence of a link is removed |
| ProcessObject.Process.HandleExitSignal | erl/process.go:173-200 | which exit signals kill, which are trapped, which are ignored |
| ProcessObject.Process.HandleOne | erl/process.go:135-206 | the whole signal case of the loop computes the specified new state, sends and losses |
| ProcessObject.Process.ReadOut | erl/process.go:272-299 | `exit` honours exactly the bookkeeping signals it drains |
| ProcessObject.Process.Notify | erl/process.go:311-322 | exits to links, then downs to watchers, then demonitors to the monitored, in order |
| RuntimeLocal.LocalStep | erl/process.go:66-335 | every step keeps, for every process: both inboxes in order, the second one the in-order translation of the first, the monitoring map what the handled signals say, and the phase in agreement with name, inboxes and pending sends |
| RuntimeFacts.StepLater | erl/process.go:258-335 | nobody comes back to life, exit reasons and histories are never revised |
| RuntimeFacts.FactsStep | erl/process.go:258-322 | every signal under way speaks the truth: a down or link exit names a process that is not running, with its own exit reason or NoProc |
| RuntimeTokens.ConservedStep | erl/process.go:211-317 | every step keeps exactly one token per monitor reference |
| RuntimeLinks.CascadingStep | erl/process.go:301-313 | every step keeps: a linked process still running has, or will be sent, the exit signal; and no running process has handled a deadly one |
| RuntimeBook.BookedStep | erl/process.go:211-256 | every step keeps: the links and the watchers of a process are what the last word on each of them was among the signals it was given |
| RuntimeLosses.AccountedStep | erl/process.go:226-236 | every lost token has one of the admissible causes: an entry goes only with a demonitor of its watcher, a down signal only at a receiver that is dying or has taken back just this monitor, a request only at a process that is not running |
| RuntimeSafety.TokenConservation | erl/process.go:211-317 | in every reachable state each drawn reference has exactly one token: request, entry, down signal, message, or loss |
| RuntimeSafety.OneDownMessage | erl/process.go:314-317 | no reference ever gives two down messages, anywhere |
| RuntimeSafety.DownIsCertain | erl/process.go:272-317 | once all is settled, a faithful monitor of a process that has exited has its down message, with the exit reason or NoProc, if and only if its request was neither left in the one slot of the feeder nor refused between status check and enqueuing |
| RuntimeLostRequests.SwallowedRequest | erl/internal/inbox/inbox.go:108-117 | a run from the start that ends settled, with a faithful monitor of a dead process and no down message, the request being in the slot |
| RuntimeLostRequests.RefusedRequest | erl/process.go:346-350 | a run from the start that ends so because the request was refused |
| RuntimeOnward.NeverTold | erl/process.go:346-350 | a request lost in either way stays lost: no continuation of the run brings a down message for it to anybody |
| RuntimeLostRequests.SwallowedLink | erl/internal/inbox/inbox.go:108-117 | a link is lost in the slot too: a run at whose end a process has accepted the link, failed, and told nobody |
| RuntimeRelays.DemonitorArrives | erl/process.go:226-236 | a monitor that a process no longer knows, by a demonitor or because it has exited, is ended at the monitored process as well, if that one runs |
| RuntimeBonds.WatchersAreTold | erl/process.go:211-236 | the watchers of a process are exactly those of the monitor signals it was given, and of `SpawnMonitor`, that no demonitor with the reference or of the watcher came after |
| RuntimeBonds.DemonitorEndsEntry | erl/process.go:226-236 | after a demonitor its entry is gone, unless the request comes later still |
| RuntimeCalls.CallIsDone | erl/erl.go:138-250 | whatever happens meanwhile: when a call of the API is through, each of its signals has been accepted, or its receiver is gone and whoever asked for a link or a monitor has been sent NoProc |
| RuntimeCalls.SpawnLinkIsDone | erl/erl.go:276-306 | the same of the link signal that a process sends to the parent it is spawned with |
| RuntimeExits.EndsByLaw | erl/process.go:173-200 | a process ended by an exit signal handled it last, untrapped unless it was a direct kill, and not the normal exit of a linked process; and no running process has handled one that must end it |
| RuntimeLosses.FaithfulLoss | erl/process.go:346-363 | the only other way to lose the token of a monitor that demonitors nothing is that refusal |
| RuntimeSafety.DownNeverOutrunsMonitor | erl/erl.go:214-220 | a down signal that a running process handles belongs to a monitor it knows, or has demonitored itself; for `Monitor` and `SpawnMonitor` |
| RuntimeSafety.CascadeKeepsReason | erl/process.go:301-313 | a process killed through links is the end of a chain of links, each process of it told by the next, of whose final links it was one; all of the chain have the same reason, and it starts from a process that no exit of another one ended, or that had asked for a link too late (NoProc) |
| RuntimeSafety.LinkedExitSpeaksTrue | erl/process.go:301-313 | an exit signal through a link with a reason other than NoProc carries the exit reason of a dead sender and goes only to one of its final links |
| RuntimeBonds.LinksAreBonds | erl/process.go:238-256 | in every reachable state the links of a process, each there once, are exactly those that it was given by signal or at its spawning and that were not taken back later |
| RuntimeBonds.FinalLinksAreBonds | erl/process.go:272-313 | those that `exit` notifies are exactly those too, with all that was still in the queue of the inbox |
| RuntimeBonds.AcceptedLinkCounts | erl/process.go:272-299 | an accepted link that was not taken back is among them, unless it was in the slot of the inbox |
| RuntimeBonds.AbnormalExitReachesBonds | erl/process.go:301-313 | after an abnormal exit everybody whose link to the process was not taken back is dead, has the signal pending, or has trapped it |
| RuntimeBonds.SurvivorsTrappedBonds | erl/process.go:173-200 | once all is settled, whoever still runs has trapped the exits of all abnormally ended processes that had a link to it |
| RuntimeBonds.OnlyBondsAreTold | erl/process.go:301-313 | nobody else is sent an exit through a link, but for NoProc |
| RuntimeSafety.NameGoneBeforeDown | erl/process.go:261-317 | whoever is sent a down signal by the dying process finds its name released and its status not running |
| RuntimeSafety.NameGoneBeforeMessage | erl/process.go:261-317 | the same of down messages given to a runnable; for `SpawnMonitor` whatever the reason |
| RuntimeSafety.NameGoneBeforeExit | erl/process.go:261-313 | the same of exit signals through links |
| RuntimeEarlyAnswer.AnsweredBeforeRelease | erl/erl.go:392-408 | a run from the start that ends in such an answer while the name is registered |
| RuntimeSafety.NothingReordered | erl/internal/inbox/inbox.go:80-120 | signals handled, then at most one in the slot, then the queue are exactly the accepted sequence, in every reachable state |
| RuntimeSafety.ReadsInOrder | erl/process.go:121-172 | what a runnable has read is a prefix of the translation of what was accepted |
| RuntimeTermination.InternalStepDecreases | erl/process.go:134-206 | every step that no user asks for decreases the pair of ranks (how far each process is from being gone) and work (queued signals, pending sends, monitoring entries) |
| RuntimeTermination.SignalProcessingStops | erl/process.go:134-322 | no infinite sequence of such steps exists, cascades around link cycles and forwarded demonitors included |
| RegistryObject.NamedProcess.TryRegisterName | erl/process.go:418-436 | status and name are checked, and the name set, in one piece |
| RegistryObject.Registry.Register | erl/register.go:61-86 | exactly which error in which case; success adds exactly this pair; map and names keep agreeing |
| RegistryObject.Registry.WhereIs | erl/register.go:93-98 | finds the process that carries the name, if any does |
| RegistryObject.Registry.Unregister | erl/register.go:102-112 | takes the name from map and process |
| RegistryRace.InvStep | erl/register.go:61-112 | every section of every thread keeps the agreement of map, names and program counters |
| RegistryRace.FreeLockAgreement | erl/register.go:61-112 | under every interleaving, whenever the lock is free: a name stands for a process if and only if the process carries it |
| RegistryRace.NeverListedAgain | erl/process.go:259-266 | a process past the unregister step of `exit` is never in the registry again |
| RegistryRace.RegisterSucceeds | erl/register.go:61-86 | a registration succeeds only for a free name, and never for a process past that step |
| RegistryRace.UnregisterSucceeds | erl/register.go:102-112 | a listed name is taken from the map in one section and from the process that had it in the next, under one lock |
| RegistryRace.ExitDeletesOwnName | erl/process.go:259-266 | `exit` deletes its own name if and only if the process still carries it when the lock is taken |
| RegistryRace.ExitTakesAnothersName | erl/process.go:261-264 | a run from the start in which it takes the name from another process |
| RestartLimit.AddRestart | erl/supervisor/supervisor_state.go:199-221 | errs exactly when the window holds more than Intensity restarts; cuts off only expired entries; at most Intensity + 1 entries remain after success |
| RestartLimit.AddToLife | erl/supervisor/supervisor_state.go:199-221 | on the trimmed list it errs exactly as on the whole history, of which the list stays a suffix |
| RestartLimit.Life | erl/supervisor/supervisor.go:448-451 | over a whole life the first refused restart is the first one at which the untrimmed history exceeds |
| RestartLimit.ExceededByOne | erl/supervisor/supervisor_state.go:206-213 | the limit is exceeded if and only if the restart `intensity` places before the last is inside the window |
| Children.StopTrace | erl/supervisor/supervisor.go:564-622 | stopping a list sends exits in list order to exactly those found alive, and between an exit and the next one comes the death of the child, however long the wait and whoever dies meanwhile |
| Children.WaitEnds | erl/supervisor/supervisor.go:607-622 | the wait for the killer's report, in which any process may die, adds nothing but the death of the child and is over only when the child is not alive |
| Children.WaitingSendsNothing | erl/supervisor/supervisor.go:607-622 | a wait that goes on for ever sends no exit to anybody |
| Children.TerminateTrace | erl/supervisor/supervisor.go:599-622 | stopping one child: if it is found alive, its exit, then its death, and nothing else |
| Children.StoppedAreDown | erl/supervisor/supervisor.go:564-622 | no stopped child is alive afterwards |
| Children.FoundWasAlive | erl/supervisor/supervisor.go:599-606 | only processes alive at the start are sent an exit |
| Children.AllLivingAreFound | erl/supervisor/supervisor.go:599-606 | if nobody dies by itself, all of them are |
| Children.StopLeaves | erl/supervisor/supervisor.go:564-586 | stopping a list leaves its non-temporary members, in order, marked |
| Children.StartUntilOk | erl/supervisor/supervisor.go:629-646 | if all starts succeed the children get fresh consecutive processes in list order |
| Children.RollbackLeavesNone | erl/supervisor/supervisor.go:629-641 | after a failed start nothing of the list is alive, and nothing new is |
| Children.RollbackOrder | erl/supervisor/supervisor.go:629-641 | the rollback stops only children that were started, last started first, each down before the next exit |
| SupervisorStrategies.GroupRestarted | erl/supervisor/supervisor.go:461-478 | a group restart gives the non-temporary members in their old order with fresh processes; the trace is all stops, last first, then all starts, first first |
| SupervisorStrategies.RestForOneKeepsFront | erl/supervisor/supervisor.go:467-478 | RestForOne leaves everything before the failed child as it is and replaces the rest so |
| SupervisorStrategies.FrontLivesOn | erl/supervisor/supervisor.go:467-478 | the processes before the failed child are not touched |
| SupervisorStrategies.OneForAllIsRestForOne | erl/supervisor/supervisor.go:461-478 | OneForAll gives the same list, processes and trace as RestForOne at the first child |
| SupervisorStrategies.GroupRestartLeavesFlags | erl/supervisor/supervisor.go:543-546 | after it every child runs and is still marked as terminated |
| SupervisorStrategies.GroupRestartHidesFailure | erl/supervisor/supervisor.go:461-465 | a failed group restart reports nothing and leaves the whole group down |
| SupervisorStrategies.EndsExactlyWhen | erl/supervisor/supervisor.go:409-484 | an exit ends the supervisor if and only if it calls for a restart (a permanent child, or a transient one with an unclean reason) and the limiter refuses it or a lone start fails |
| SupervisorExits.LoneRestart | erl/supervisor/supervisor.go:453-460 | a lone restart puts the fresh process at the child's place and changes nothing else of the list, starts just this child and sends nothing; an ignored start leaves no process, a failed one leaves the list |
| SupervisorExits.RestartedIsFound | erl/supervisor/supervisor.go:453-460 | the exit of the process that was started so finds its child again |
| SupervisorExits.ForgottenExit | erl/supervisor/supervisor.go:409-434 | the exit of a temporary child, and a clean one of a transient child, takes just this child from the list; the exit of an unknown process does nothing |
| SupervisorExits.GroupRestart | erl/supervisor/supervisor.go:445-484 | what an exit comes to under OneForAll and RestForOne: list, processes, trace and history |
| SupervisorExits.StopsLastFirst | erl/supervisor/supervisor.go:510-514 | a supervisor that ends stops those found alive from the last to the first, each down before the next exit |
| SupervisorLists.ReactMoves | erl/supervisor/supervisor.go:389-484 | any message changes the list only by deletion or by appending one new identifier, and brings in only fresh processes |
| SupervisorLists.IdsStayDistinct | erl/supervisor/supervisor_state.go:98-116 | over any sequence of exits and requests the identifiers stay distinct |
| SupervisorLists.OldPidNeverMatches | erl/supervisor/supervisor_state.go:35-42 | a process that is no child's any more is never taken for a child's again, over any sequence of messages |
| SupervisorLists.StoppedWithError | erl/supervisor/supervisor.go:510-514 | a supervisor that ended with an error has left none of its children alive |
| SupervisorRequests.ServeRefines | erl/supervisor/supervisor.go:723-841 | one request gives the answer and the change that the table of identifiers says, and keeps the state consistent |
| SupervisorRequests.RequestsRefineTable | erl/supervisor/supervisor.go:723-841 | any sequence of requests is answered as a run of the table machine answers it; no request counts as a restart |
| SupervisorRequests.StartSucceedsExactlyWhen | erl/supervisor/supervisor.go:723-748 | a start succeeds if and only if the identifier is new, the start function succeeds, and no identifier is blank; otherwise a started child may be reported as an error |
| SupervisorRequests.TerminateMissesExactlyWhen | erl/supervisor/supervisor.go:759-782 | terminating always reports success, and leaves the process alive if and only if it is alive and the child carries a mark |
| SupervisorRequests.TerminatedIsForgotten | erl/supervisor/supervisor.go:774-779 | after a termination no later exit with the old process number matches a child |
| ChildSpecsObject.ChildSpecs.Get | erl/supervisor/supervisor_state.go:23-30 | the first child with the identifier |
| ChildSpecsObject.ChildSpecs.FindByPid | erl/supervisor/supervisor_state.go:35-42 | the first child with the process |
| ChildSpecsObject.ChildSpecs.Update | erl/supervisor/supervisor_state.go:47-55 | replaces the child with the same identifier in place and touches nothing else of the array |
| ChildSpecsObject.ChildSpecs.Delete | erl/supervisor/supervisor_state.go:64-69 | removes in place, clears what it vacates, and touches nothing else of the array |
| ChildSpecsObject.ChildSpecs.Split | erl/supervisor/supervisor_state.go:78-88 | two windows onto the same array, the child first in the right one |
| ChildSpecsObject.ChildSpecs.Append | erl/supervisor/supervisor_state.go:92-96 | appends over the shared array if there is room, into a new one otherwise; then checks the whole list |
| ChildSpecsObject.ChildSpecs.CheckDups | erl/supervisor/supervisor_state.go:100-116 | accepts exactly the lists without blank or repeated identifiers and names the first offender |
| Supervision.BlankIsTrimmed | erl/supervisor/supervisor_state.go:104-107 | an identifier is blank if and only if nothing is left of it after trimming |
| ChildSpecsObject.ChildSpecs.Reversed | erl/supervisor/supervisor_state.go:136-141 | a reversed copy in an array of its own |
| SupervisorObject.Supervisor.StopChildren | erl/supervisor/supervisor.go:564-586 | marking in place during the loop and deleting afterwards gives the specified list and world |
| SupervisorObject.Supervisor.AwaitReport | erl/supervisor/supervisor.go:607-622 | the loop of the wait reaches the state that the recursive wait says, and the child is not alive then |
| SupervisorObject.Supervisor.StartChildren | erl/supervisor/supervisor.go:629-646 | entering started children in place and rolling back on an error gives the specified list, world and error |
| SupervisorObject.Supervisor.RestartForAll | erl/supervisor/supervisor.go:461-465 | OneForAll on the objects is OneForAll on the values |
| SupervisorObject.Supervisor.RestartForRest | erl/supervisor/supervisor.go:467-478 | RestForOne is as specified although both parts of the split share one array |
| SupervisorObject.Supervisor.Restart | erl/supervisor/supervisor.go:445-484 | with the trimmed list it decides and does what the specification does with the whole history |
| SupervisorObject.Supervisor.ExitOfChild | erl/supervisor/supervisor.go:409-434 | the decision table of `restartChild` |
| SupervisorObject.Supervisor.Terminate | erl/supervisor/supervisor.go:510-514 | everything is stopped in reverse order |
| SupervisorObject.Supervisor.Boot | erl/supervisor/supervisor.go:295-312 | a list that is not accepted is not started |
| SupervisorObject.Supervisor.AskStart | erl/supervisor/supervisor.go:723-748 | the specified answer and new state of `doStartChild` |
| SupervisorObject.Supervisor.AskTerminate | erl/supervisor/supervisor.go:759-782 | the same of `doTerminateChild` |
| SupervisorObject.Supervisor.AskRestart | erl/supervisor/supervisor.go:792-816 | the same of `doRestartChild` |
| SupervisorObject.Supervisor.AskDelete | erl/supervisor/supervisor.go:827-841 | the same of `doDeleteChild` |
| ChildKiller.Killer.HandleBrutalKill | erl/supervisor/child_killer.go:83-108 | one kill, and one report for each down message of its own reference, foreign ones ignored |
| ChildKiller.Killer.HandleInfinity | erl/supervisor/child_killer.go:61-71 | ends with the first down message, which it reports if it is its own |
| ChildKiller.Killer.HandleTimeout | erl/supervisor/child_killer.go:115-144 | a kill for every expiry; reports exactly the own down messages among those read; only one read outside the timer branch ends it |
| ChildKiller.Killer.HandleDown | erl/supervisor/child_killer.go:154-169 | no error for a requested shutdown, nor for a clean exit of a child that is not permanent |
| ChildKiller.ReportsOnceAfterDeath | erl/supervisor/child_killer.go:51-60 | in every reachable state, settled or not, a killer has reported at most once, and only when its child is not running |
| ChildKiller.Killer.Receive | erl/supervisor/child_killer.go:51-77 | with each shutdown option the reports are those for the own down messages among what its loop takes notice of |
| ChildKiller.ReportsExactlyOnce | erl/supervisor/child_killer.go:51-77 | once all is settled, the killer of an exited child has reported exactly once with each shutdown option, unless its monitor request was lost: then not at all, and its loop still waits |
| ChildKiller.ReportIsTrue | erl/supervisor/child_killer.go:83-169 | the one report fits the reason the child really had: no error for the exit that was asked for, nor for a clean one of a child that is not permanent, else this reason |
| ChildKiller.DownAfterKillIsReported | erl/supervisor/child_killer.go:131-143 | a down message that comes after the kill at the timeout is reported as well |
| ChildKiller.WaitNeverEnds | erl/supervisor/child_killer.go:51-77 | after such a loss no report is ever sent, however the run goes on and whatever the killer reads |
| ChildKiller.ShutDownChild | erl/supervisor/child_killer.go:51-77 | the killer object in a settled system sends exactly that many reports, and a report means that its child is not running |
| ChildKiller.InfinityReportsIffEnded | erl/supervisor/child_killer.go:61-71 | without foreign down messages it has reported if and only if it has ended |
| ChildKiller.ForeignDownEndsSilently | erl/supervisor/child_killer.go:154-158 | a foreign down message ends it without a report |
| GenServerObject.Server.Receive | erl/genserver/gen_server.go:170-252 | every run produces a trace that the rules allow, takes its messages one by one in order, and stops only at its end, in a callback, or for want of messages; if it has read a stop request or the exit of its parent, that was the last message, `Terminate` got its reason, and it is over |
| GenServerObject.Server.DoContinue | erl/genserver/gen_server.go:276-300 | the events it adds are continuations only, `Terminate` at most as the last one; it ends back at the inbox with the state of the last one, or with the server |
| GenServerObject.Server.HandleCall | erl/genserver/gen_server.go:328-366 | the events it adds: the callback, right after it the reply if there is one, only then continuations, `Terminate` at most as the last one |
| GenServerObject.Server.HandleCast | erl/genserver/gen_server.go:368-393 | the events it adds: the callback, then continuations, `Terminate` at most as the last one; never a reply |
| GenServerObject.Server.HandleInfo | erl/genserver/gen_server.go:302-326 | the same for other messages; the state is taken over before the error is looked at |
| GenServerOrder.CallbackOrder | erl/genserver/gen_server.go:170-252 | every trace, taken to its callbacks, reads Init Continue* (Handler Continue*)* Terminate?, with a continuation exactly where the callback before asked for it |
| GenServerTrace.FailureTerminates | erl/genserver/gen_server.go:302-393 | a failed or panicking handler, and a panicking continuation, is followed by `Terminate`, with at most the reply in between; with the error itself if it is an exit reason, else with an exception |
| GenServerTrace.AskedIsContinued | erl/genserver/gen_server.go:288-298 | a continuation that was asked for comes next, with the state just returned, before any other message |
| GenServerTrace.ContinuedWasAsked | erl/genserver/gen_server.go:288-298 | and no other continuation ever runs |
| GenServerTrace.RepliedWasAnswered | erl/genserver/gen_server.go:337-351 | a reply goes only to the caller of the call just handled |
| GenServerTrace.InitOnceAndFirst | erl/genserver/gen_server.go:170-200 | `Init` runs once, and only registration comes before it |
| GenServerTrace.NothingBeforeInit | erl/genserver/gen_server.go:170-252 | no message, handler or `Terminate` without a successful `Init` before |
| GenServerTrace.StateIsHandedOn | erl/genserver/gen_server.go:276-393 | handlers and `Terminate` get the state that the events before say, after a panic in a chain the one from before the chain |
| GenServerTrace.FailedStartHoldsNoName | erl/genserver/gen_server.go:181-197 | a failed or ignored start is acknowledged last, and without the name |
| GenServerTrace.AckIsTrue | erl/genserver/gen_server.go:170-200 | success is acknowledged only after `Init` succeeded, an error only for the reason for which the name was refused or `Init` failed |
| GenServerTrace.MessageIsServed | erl/genserver/gen_server.go:214-250 | a stop request and the exit of the parent are followed by `Terminate` with their reason and the current state, and by nothing else; any other message goes to its handler |
| GenServerTrace.EndedBecause | erl/genserver/gen_server.go:170-252 | a server ends only after `Terminate`, with a continuation's error, with its inbox, or with a failed start, and returns what belongs to it |
| GenCaller.Proxy.Receive | erl/genserver/gen_caller.go:21-69 | the proxy forwards exactly one thing, at the first turn that is a reply, the server's own down message (stopped for Normal and Shutdown, failed for the rest) or the timer; other messages pass by |
| GenCaller.Call | erl/genserver/api.go:206-240 | in every reachable state of the runtime: a value that is returned is the first reply that was accepted by the call's own proxy; with a reply before the server's down signal the call returns a value or times out; and what the proxy meets first decides: value, Stopped, failure or Timeout |
| GenCaller.OriginOf | erl/process.go:121-172 | each message comes from one signal, and those before it from the signals before that |
| GenCaller.ReplyBeatsDown | erl/genserver/gen_caller.go:45-69 | a reply accepted before the server's down signal is forwarded, never the down message, in any reachable state |
| GenCaller.ForwardsFirstReply | erl/genserver/gen_caller.go:21-69 | a forwarded reply is the first one sent to that very proxy |
| GenStarter.Starter.Receive | erl/genserver/gen_starter.go:34-70 | the first turn that is a dismissal, a closed inbox, the timer or an own down message ends the starter; the caller is freed only by the timer and the server's down message, and only the parent's makes it stop the server |
| GenStarter.ServerDownMeansGone | erl/genserver/api.go:456-466 | a server whose down message its starter has read is not running and has no name, in every reachable state |
| GenStarter.Start | erl/genserver/api.go:438-490 | in every reachable state of the runtime: an error of the server is returned only with the reason it had and, unless the starter's timer fired, only when the server is not running and has no name; success only after `Init` succeeded; and the error is returned once the starter has read the down message |
| ExpectationObject.Expectation.IsPreReq | erl/x/erltest/expect.go:214-223 | the search over the objects ends, and finds the other one if and only if it is reachable over one or more edges |
| ExpectationObject.Expectation.After | erl/x/erltest/expect.go:152-164 | refuses exactly the edges that would close a cycle; the graph stays acyclic |
| ExpectationObject.Expectation.DropPrereqs | erl/x/erltest/expect.go:205-211 | the edges of one node are dropped, and only those |
| ExpectationObject.Expectation.Match | erl/x/erltest/expect.go:76-97 | matches if and only if the message fits, all prerequisites have their minimum and the maximum is not reached |
| ExpectationObject.DropKeepsAcyclic | erl/x/erltest/expect.go:205-211 | dropping prerequisites keeps the graph free of cycles |
| Graphs.EdgeMakesCycle | erl/x/erltest/expect.go:155-160 | an edge closes a cycle if and only if its end is its start or leads back to it |
| Graphs.WayIsShort | erl/x/erltest/expect.go:214-223 | no way through an acyclic graph is longer than its number of nodes, which is why the search ends |
| ExpectationSetObject.ExpectationSet.FindMatch | erl/x/erltest/expectation_set.go:31-67 | the first expected one that matches; when a message is kept as a miss |
| ExpectationSetObject.ExpectationSet.Insert | erl/x/erltest/expectation_set.go:69-82 | enters at the end of its type, and changes no other type |
| ExpectationSetObject.ExpectationSet.Retire | erl/x/erltest/expectation_set.go:84-98 | moves the first occurrence from expected to exhausted |
| ExpectationSetObject.ExpectationSet.CountAll | erl/x/erltest/expectation_set.go:131-144 | counts the entries of both collections |
| ExpectationSetObject.TestReceiver.CheckMessage | erl/x/erltest/test_receiver.go:319-391 | the first listed expectation that fits, has its prerequisites at their minimum and its maximum not reached is called: its counter grows by one, its prerequisites are dropped and no longer expected, nor is it itself once its maximum is reached, and nothing else changes; if there is none, nothing does |
| ExpectationRuns.RunKeepsOrder | erl/x/erltest/test_receiver.go:319-391 | over every run: calls within bounds and counted, all calls of a prerequisite before all calls of what depends on it, minima reached first |
| ExpectationRuns.FirstSuitedIsCalled | erl/x/erltest/test_receiver.go:319-391 | what a message that suits does: counters, prerequisites, and exactly which entries move to the exhausted ones, in which order the others stay |
| ExpectationRuns.RunLogs | erl/x/erltest/test_receiver.go:319-391 | over whole runs the calls grow by exactly the first one that suits, message by message |
| ExpectationRuns.HowManyIsAdds | erl/x/erltest/expectation_set.go:131-144 | after any run `howMany` is the number of additions |
| Splitters.Scan | erl/port/split_funs.go:8-40 | under the scanner loop the tokens depend only on the stream, not on how it is cut into chunks |
| Splitters.NulIsSteady | erl/port/split_funs.go:8-22 | a token found early is not changed by data that come later, and everything is used at the end |
| Splitters.NulRoundTrip | erl/port/split_funs.go:8-22 | splitting the NUL-terminated encoding of NUL-free strings gives the strings |
| Splitters.NulEncodesBack | erl/port/split_funs.go:8-22 | encoding the tokens of any stream gives the stream, properly ended |
| Splitters.NumBytesIsSteady | erl/port/split_funs.go:24-40 | the fixed-size splitter is steady too, for sizes of at least one |
| Splitters.NumBytesTokens | erl/port/split_funs.go:24-40 | its tokens concatenate to the stream, and only the last may be short |

## Left out

- RuntimeSafety.NameGoneBeforeDown: excludes the answer NoProc to a plain monitor request, for which the claim is false (`RuntimeEarlyAnswer.AnsweredBeforeRelease`).
- SupervisorRequests.RequestsRefineTable: starts from states in which marks and processes agree and no identifier is blank; `TerminateMissesExactlyWhen` and `StartSucceedsExactlyWhen` say what happens otherwise.
- ExpectationObject.Expectation.After: takes `Fatalf` as the end of the test; with a reporter whose `Fatalf` returns, the code goes on to enter the edge.
- ExpectationRuns.RunKeepsOrder: the graph and the bounds are fixed before the first message, and an expectation is entered once at its type.
- Splitters.NumBytesTokens: sizes below one, with which the scanner makes no progress.
- Inside the runtime model a registration and an `Unregister` are single steps; their interleavings are the subject of `RegistryRace`.
- In the runtime model the second status check of a send is merged with the first, and reading the status and enqueuing are two steps; popping a signal and handling it are one.
- Children.StopTrace: the environment bounds how long each child lives on after its exit and how long its report takes; for waits without an end, a child that traps its exit for ever or a lost monitor request, there are `WaitingSendsNothing` and `ChildKiller.WaitNeverEnds`.
- A start function that fails is taken to leave nothing alive.
- Timers, clocks and user callbacks are inputs: a timer may fire at any turn, timestamps only do not decrease, and callbacks are oracles over their results. `Terminate` is taken not to panic.
- The buffer limit and the reader errors of Go's `bufio.Scanner`.
- `AnyTimes`, `MinTimes` and `MaxTimes` of `erltest` expectations, plain setters of the two bounds; the theorems hold for any bounds.
- Replies of `erltest` expectations and the functions given to `Do`; the polling loops of its `Wait` methods.
- External commands, pipes and OS signals (`erl/port/port.go`), logging, tracing, time zones, `application`, `task`, `recurringtask`, `timer`, mocks and examples: I/O, library code or thin wrappers.
- `WhichChildren` and `CountChildren`, the option functions, `Stop`, and the branch of `doStart` for callers that do not trap exits: they would add easy members only.
