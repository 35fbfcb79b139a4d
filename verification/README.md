# Juju core: models and proofs

Juju deploys services as units on machines. This project models the parts of it that keep state and have to keep it
consistent, and proves what they promise:

- **Hook scheduler** (`hook_changes`, `hook_coherence`, `hook_runs`, `hook_news`, `hook_pop_index`, `hook_pop_runs`,
  `hook_scheduler`). Relation events enter a persistent queue that merges and cancels them while hooks run from its
  head. `HookSchedulers` has the two classes with their in-place updates; each method is tied to a step of the machine
  in `HookRuns`, over whose runs the theorems speak. The queue looks a change up in `pending[offset:]` but pops with
  that slice-relative index from the whole list. Both readings of the index are modelled (`PopIndex`). `HookRuns` has
  the theorems of a running scheduler with the intended index, `HookNews` what a put does to the queue and that news
  of a unit reaches the charm; `HookPopIndex` has those of a stopped one with the code as
  written, and the exact condition under which a put behind a running hook does what it means (`PopIndexIsRightIff`),
  with two runs in which it does not; `HookPopRuns` carries the theorems over to every run of the code as written
  whose puts meet that condition.
- **Workflow engine** (`statemachine`, `statemachine_runs`) and its two instances (`relation_workflow`; `unit_workflow`
  with `unit_runs`). Transitions with actions, error transitions, automatic transitions and a persisted marker of the
  transition in flight; the process may die between any two accesses to the store.
- **Topology** (`topology`, `topology_effects`, `internal_topology`) and the placement of units by concurrent clients
  (`placement`). The retry loop is: read content and version, compute, write on condition of the version,
  and again on a conflict.
- **Argument matching** with wildcards (`match_params`), **three-way merge** of YAML nodes (`yaml_state`),
  **constraint layers** (`constraints`), **charm URLs** (`charm_url`, `text`) and **path quoting** (`under`).
- `sorting` and `wrappers` hold the order in which names are walked, and the option and result types.

Where the code updates something in place there is a class or a method over an array, proved against a function; what
is promised is proved about those functions and about runs of them.

Where code and documentation disagree the model follows the code:

- `YAMLState.write` says that afterwards the object holds the merged state. It keeps its own copy
  (`LocalCopyIsMergedStateIff` says when that is the merged state).
- `transition_state` says that it answers whether the state was achieved. It answers whether the first transition
  worked, and an automatic transition may have left the state by then (`TrueMeansThereIff` says when the two agree).

Conventions: member lists are sets, since the code sorts them whenever it stores or passes them on; hooks, watches and
crashes are events; what the environment decides (does a hook fail, is there a newer charm) is a parameter. A change
popped by hand counts in the scheduler's history like one whose hook succeeded.

`dafny verify dfyconfig.toml` checks everything.

## Model

| member | source | states |
|---|---|---|
| `HookRuns.CompletedHooksAreLegal` | juju/hooks/scheduler.py:174-360 | In every run of callbacks, hook successes and failures, stops, pops and restarts, with the intended pop index: the changes taken off the queue form, for each unit, a word in which it joins only when absent and is modified or departs only when present; replaying them and then the queue over the starting members gives `_context_members`; with an empty queue the hooks' view is that membership |
| `HookRuns.ExecutingHookIsLegal` | juju/hooks/scheduler.py:257-270 | In every such run the hook in progress is the head of the queue, makes sense to the charm at that point (joined iff not yet present), and lists only members the charm has been told of |
| `HookRuns.NoPhantomMembers` | juju/hooks/scheduler.py:236-243 | In every reachable queue a unit listed in a change is a member for the charm once that change's hook has run; so it was one from the start, or has had its joined change completed, or has it at or before that entry |
| `HookRuns.StepKeeps` | juju/hooks/scheduler.py:98-171 | No enabled event makes the code raise (no undefined reduction, no failing set removal), each keeps the joint invariant, and the history only grows |
| `HookRuns.RunKeeps` | juju/hooks/scheduler.py:250-285 | The joint invariant of queue, history, membership, versions and run loop holds over whole runs |
| `HookRuns.PutKeeps` | juju/hooks/scheduler.py:35-58 | A put keeps the queue coherent, and the head in place when a hook executes, whether or not it wakes the run loop |
| `HookRuns.HeadStays` | juju/hooks/scheduler.py:98-142 | A change put while a hook runs never replaces the change that hook was started for |
| `HookRuns.MembersChangedKeeps` | juju/hooks/scheduler.py:315-347 | After a membership callback `_context_members`, the keys of `_member_versions` and the reported units coincide, and no removal or reduction failed |
| `HookRuns.SettingsChangedKeeps` | juju/hooks/scheduler.py:349-360 | A settings callback for current members never raises, leaves the membership alone and keeps the invariant |
| `HookRuns.AfterHookKeeps` | juju/hooks/scheduler.py:269-284 | One pass of the run loop: the modified change queued behind a joined one keeps the queue coherent; success moves exactly the executed change to the history, failure none |
| `HookRuns.FinishedKeeps` | juju/hooks/scheduler.py:71-76 | Moving the head of the queue to the history keeps both coherent |
| `HookRuns.StepSwitches` | juju/hooks/scheduler.py:250-302 | Only running it starts the loop, only a stop, a failed hook or the end of the process stops it, and a hook in progress goes on until it comes back or the process ends |
| `HookRuns.LoopRunsIff` | juju/hooks/scheduler.py:250-302 | Over every run: the loop runs exactly when the last event to switch it was its start; and then, with anything queued, the hook of the head is in progress |
| `HookChanges.FoldIsPointwise` | juju/hooks/scheduler.py:98-142 | Replaying changes over a membership yields a set exactly when each unit's own word is legal and ends in that set |
| `HookChanges.ReduceKeepsMeaning` | juju/hooks/scheduler.py:144-171 | Every pair that can occur is handled, and what replaces it has the same effect on the unit's presence |
| `HookChanges.WordPrefix` | juju/hooks/scheduler.py:98-142 | Every prefix of a legal word is legal, so any cut of a replay is |
| `HookCoherence.QueueKeepsCoherent` | juju/hooks/scheduler.py:98-142 | Queueing any change that fits the membership, with none or one entry out of reach: the reduction is defined and the queue replays to the new membership without phantom members |
| `HookCoherence.CancelKeeps` | juju/hooks/scheduler.py:134-139 | A pending join and the departure of the same unit vanish together, and the unit is erased from every remaining entry within reach |
| `HookCoherence.WipeKeeps` | juju/hooks/scheduler.py:92-96 | Erasing a unit from the member lists keeps the queue coherent |
| `HookCoherence.TakeNewKeeps` | juju/hooks/scheduler.py:120-133 | Replacing an entry by the reduced one at the end of the queue keeps it coherent |
| `HookCoherence.FreshKeeps` | juju/hooks/scheduler.py:114-118 | Appending a change for a unit that has none within reach keeps the queue coherent |
| `HookCoherence.LoopModifiedKeeps` | juju/hooks/scheduler.py:272-277 | The modified change that follows a joined hook is absorbed or appended correctly even when the unit has left meanwhile |
| `HookCoherence.PreviousTakesLast` | juju/hooks/scheduler.py:82-90 | The entry found for a unit is its last one or the first of two equal modified ones, so removing it always drops the unit's last kind |
| `HookCoherence.TwinsAreModified` | juju/hooks/scheduler.py:82-90 | Two entries of one unit and kind in a coherent queue are modified ones, and the only entries of that unit |
| `HookCoherence.RemoveModified` | juju/hooks/scheduler.py:98-142 | A modified entry can be taken out anywhere |
| `HookCoherence.RemoveLast` | juju/hooks/scheduler.py:98-142 | Taking out a unit's last joined or departed entry undoes exactly its effect on the membership |
| `HookPopIndex.StoppedRunsMeanTheirEvents` | juju/hooks/scheduler.py:82-171 | The code as written (slice-relative pop) on a stopped scheduler: whatever callbacks come, replaying the queue over the starting membership gives `_context_members`, each unit is queued at most once, and no undefined pair is met |
| `HookPopIndex.StoppedAgrees` | juju/hooks/scheduler.py:111-139 | At offset 0 the index as written and the intended one give the same queue |
| `HookPopIndex.QueueKeepsOnce` | juju/hooks/scheduler.py:98-142 | At offset 0 a put leaves each unit at most once in the queue |
| `HookPopIndex.PopIndexIsRightIff` | juju/hooks/scheduler.py:111-139 | At offset 1 the code as written rewrites the queue as intended exactly when it pops nothing, or pops the entry directly behind the head and the head is its twin |
| `HookPopIndex.PopIndexLosesAJoin` | juju/hooks/scheduler.py:111-139 | A run of the code as written after which the charm is told that a unit joined which has left, and not of one that is there |
| `HookPopIndex.PopIndexLosesTheHead` | juju/hooks/scheduler.py:111-139 | A run of the code as written that pops the running hook's own change: its failed join is lost, and the charm is told that a unit joined which has left |
| `HookPopRuns.WrittenHooksAreLegal` | juju/hooks/scheduler.py:98-360 | Of the code as written: in every run whose puts behind a running hook pop the right entry, the completed hooks are legal per unit, replay to `_context_members` together with the queue, and no event raises whose puts are right |
| `HookPopRuns.RunIsMeant` | juju/hooks/scheduler.py:98-142 | A run of the code as written in which every put is right is a run with the intended index |
| `HookPopRuns.PutAgreesIff` | juju/hooks/scheduler.py:35-58 | Wherever the run loop is, a put as written equals the intended one exactly when it is right |
| `HookPopRuns.StepAgrees` | juju/hooks/scheduler.py:315-360 | So does every event whose puts are right |
| `HookPopRuns.AfterHookAgrees` | juju/hooks/scheduler.py:272-277 | The modified change queued behind a joined hook never pops anything, so it is always right |
| `HookPopIndex.RestartThenMembers` | juju/hooks/scheduler.py:203-222 | The saved state reloads to the same members, versions and queue, and the first membership callback afterwards makes members, version keys and reported units coincide, on the code as written |
| `HookPopIndex.RemoveNeighbours` | juju/hooks/scheduler.py:111-139 | Popping one place too early makes no difference exactly when the two neighbours are equal |
| `HookNews.PutMeans` | juju/hooks/scheduler.py:98-142 | With the intended index, what a put does, told by the queue before and after: the entries of all other units stay in order and as they are, only that a unit whose join is taken back is listed by none any more; settings news of a unit with an entry changes nothing; a unit that comes back has its departure replaced by a modified entry at the end; a unit without an entry gets this one at the end; what is out of reach stays |
| `HookNews.NewsReachesTheCharm` | juju/hooks/scheduler.py:98-360 | When a unit comes or comes back, or a newer version of its settings is reported, then in every run with the intended index in which it stays a member a joined or modified hook of it, started after that, ends well or is popped by hand, or is still queued or in progress; with an empty queue it has ended |
| `HookNews.JoinedIsFollowed` | juju/hooks/scheduler.py:272-277 | Behind a joined hook that came back a modified entry of the unit is queued last, while it is a member |
| `HookNews.SettingsAreRecorded` | juju/hooks/scheduler.py:349-360 | After a settings report the recorded version of each unit is the newest of the old one and those reported |
| `HookNews.StaleReportChangesNothing` | juju/hooks/scheduler.py:349-360 | A report with no newer version changes nothing |
| `HookNews.MembersAreRecorded` | juju/hooks/scheduler.py:315-347 | After a membership report a unit that stays keeps its version, and a new one starts at 0 |
| `HookNews.FirstReportInOrder` | juju/hooks/scheduler.py:315-341 | The first report to a fresh scheduler queues the joins in name order, each listing the units up to it |
| `HookPopRuns.WrittenNewsReachesTheCharm` | juju/hooks/scheduler.py:98-360 | The same of the code as written, in every run whose puts behind a running hook pop the right entry |
| `HookSchedulers.HookQueue.ScanBack` | juju/hooks/scheduler.py:82-90 | The backward scan finds the last change of the unit |
| `HookSchedulers.HookQueue.FindPrevious` | juju/hooks/scheduler.py:82-90 | The scan from the end and `index` together give the position the model reasons about |
| `HookSchedulers.HookQueue.WipeMember` | juju/hooks/scheduler.py:92-96 | The loop erases the unit from exactly the entries from the offset on |
| `HookSchedulers.HookQueue.Merge` | juju/hooks/scheduler.py:98-142 | The in-place rewriting of `pending` is the queue function, undefined pairs and the modification callback included; `HookNews.PutMeans` says what that function does |
| `HookSchedulers.HookQueue.Put` | juju/hooks/scheduler.py:35-58 | A waiting consumer gets the merged head at once; otherwise the change is merged out of its reach |
| `HookSchedulers.HookQueue.PutStop` | juju/hooks/scheduler.py:35-58 | The stop marker wakes a waiting consumer and is never queued |
| `HookSchedulers.HookQueue.NextChange` | juju/hooks/scheduler.py:60-69 | The head is handed out without being removed, or the consumer waits |
| `HookSchedulers.HookQueue.FinishedChange` | juju/hooks/scheduler.py:71-76 | The head and only the head is removed |
| `HookSchedulers.HookScheduler.Create` | juju/hooks/scheduler.py:195-201 | A fresh scheduler is an initial state of the runs |
| `HookSchedulers.HookScheduler.Load` | juju/hooks/scheduler.py:203-211 | Loading what a scheduler saved is the restart step from where that scheduler stood |
| `HookSchedulers.HookScheduler.SaveState` | juju/hooks/scheduler.py:213-222 | The file holds sorted members, versions and queue |
| `HookSchedulers.HookScheduler.Enqueue` | juju/hooks/scheduler.py:331-339 | A put with the wake-up and the save it causes is the put of the runs |
| `HookSchedulers.HookScheduler.Run` | juju/hooks/scheduler.py:250-263 | Starting the loop is the run step |
| `HookSchedulers.HookScheduler.HookCameBack` | juju/hooks/scheduler.py:269-284 | The rest of a pass of the loop is the hook-done step, and what is on disk stays up to date |
| `HookSchedulers.HookScheduler.StopRunning` | juju/hooks/scheduler.py:287-302 | Stopping is the stop step |
| `HookSchedulers.HookScheduler.PopHead` | juju/hooks/scheduler.py:304-313 | Popping returns the failed head and is the pop step |
| `HookSchedulers.HookScheduler.JoinEach` | juju/hooks/scheduler.py:335-340 | The loop over the added units |
| `HookSchedulers.HookScheduler.DepartEach` | juju/hooks/scheduler.py:341-346 | The loop over the removed units; a missing member is an error |
| `HookSchedulers.HookScheduler.CbChangeMembers` | juju/hooks/scheduler.py:315-347 | The callback is the membership step and leaves the file equal to the state |
| `HookSchedulers.HookScheduler.CbChangeSettings` | juju/hooks/scheduler.py:349-360 | The callback is the settings step and leaves the file equal to the state |
| `Sorting.Sorted` | juju/hooks/scheduler.py:335-341 | Each name once, in lexicographic order |
| `MatchParams.MatchParams` | juju/lib/mocker.py:1466-1539 | Of the recorded pattern itself, KWARGS included: a match claimed is one, and for every pattern without ARGS, and every one the array algorithm serves, the result is exactly: keywords match, and the positional arguments match with KWARGS taking none and every other element in its place; with ARGS otherwise the array algorithm decides on the pattern as it compares it |
| `MatchParams.MatchWithArray` | juju/lib/mocker.py:1517-1539 | The rolling array with its `last` variable and early exit answers whether a cut of the arguments exists (behind two leading ARGS: of the arguments after the first) for the pattern as it compares it |
| `MatchParams.SpreadRight` | juju/lib/mocker.py:1527-1530 | The inner loop for ARGS, in place: a zero spreads to everything on its right |
| `MatchParams.MoveRight` | juju/lib/mocker.py:1531-1534 | The inner loop for any other element, in place: a zero moves one place right where the argument is equal, which it never is to a special argument |
| `MatchParams.HasZero` | juju/lib/mocker.py:1535-1536 | The test of the early exit |
| `MatchParams.CheckKeywords` | juju/lib/mocker.py:1472-1490 | With KWARGS the recorded keywords must be there and match; without, the two key sets are equal as well |
| `MatchParams.MatchOneOnOne` | juju/lib/mocker.py:1495-1502 | Element by element matching is the declarative match when there is no ARGS |
| `MatchParams.PositionalIsRightIff` | juju/lib/mocker.py:1508-1539 | The algorithm agrees with the declarative match on all calls exactly for the patterns without special arguments that do not hide an element behind two leading ARGS, and for those that no call can match |
| `MatchParams.PositionalIsSound` | juju/lib/mocker.py:1508-1539 | It never claims a match that is none |
| `MatchParams.RowAfterArgs` | juju/lib/mocker.py:1527-1530 | After an ARGS element a zero at j still means: the pattern so far matches the arguments up to j |
| `MatchParams.RowAfterOne` | juju/lib/mocker.py:1531-1534 | The same after any other element |
| `MatchParams.NoZeroNoMatch` | juju/lib/mocker.py:1535-1536 | An array without a zero means that no continuation can match, so the early exit loses nothing |
| `MatchParams.MatchesSplit` | juju/lib/mocker.py:1466-1467 | A pattern in two parts matches exactly when the arguments can be cut in two |
| `MatchParams.OnlyArgsMatchAll` | juju/lib/mocker.py:1504-1506 | Nothing but ARGS matches every call |
| `MatchParams.MatchesNothing` | juju/lib/mocker.py:1508-1515 | No arguments match exactly the patterns of nothing but ARGS |
| `MatchParams.WithoutKwargsMatches` | juju/lib/mocker.py:1470-1475 | Dropping KWARGS leaves exactly the calls that the pattern matches when KWARGS takes no positional argument |
| `MatchParams.WithoutKwargsConcat` | juju/lib/mocker.py:1470-1475 | Dropping KWARGS goes element by element and keeps the order |
| `MatchParams.NothingToDrop` | juju/lib/mocker.py:1470-1475 | A pattern without KWARGS stays as it is |
| `StateMachine.FireEnds` | juju/lib/statemachine.py:167-237 | In any acyclic table whose error transitions, where they fire, leave the state their transition leaves: firing an available transition works along the chain of error and automatic transitions to its end, answers whether the first action worked, leaves nothing in flight, and ends in the source of the last transition if that failed, else in its destination |
| `StateMachine.FireRecords` | juju/lib/statemachine.py:167-228 | The records themselves, for every acyclic table: the first keeps state and variables and puts the transition in flight; if the action worked, the second is in the destination with nothing in flight and has exactly the given variables updated by the returned ones, the returned winning; if it failed without error transition, the second is the state and the variables as they were; an error or automatic transition then stores the rest, given no variables |
| `StateMachine.FireVariables` | juju/lib/statemachine.py:194-223 | The variables stored in the end, for every acyclic table: those returned by the last action that worked, over the given ones if that was the first action; as they were if none worked |
| `StateMachine.FireAliasFires` | juju/lib/statemachine.py:93-134 | With distinct ids and such error transitions, firing by alias fires first the one available transition with the alias, and answers whether its action worked; without exactly one it stores nothing and raises |
| `StateMachine.TheAliasIs` | juju/lib/statemachine.py:93-134 | With distinct ids, what is found by alias is the one available transition that has it |
| `StateMachine.FiresOnce` | juju/lib/statemachine.py:167-237 | No transition fires twice in one call |
| `StateMachine.FireStoresFitting` | juju/lib/statemachine.py:278-292 | Every record stored has a transition in flight that is available from the recorded state, or none, whatever fails |
| `StateMachine.AcyclicIff` | juju/lib/statemachine.py:167-237 | A table has no cycle of error and automatic transitions exactly when it can be ranked |
| `StateMachine.ReachShrinks` | juju/lib/statemachine.py:167-237 | In an acyclic table what fires next can reach strictly less |
| `StateMachine.FireToAnswers` | juju/lib/statemachine.py:137-164 | With such error transitions, `transition_state` fires the first id listed that leads to the target, and answers whether there is one and its action worked; the target is where the workflow is unless an automatic transition leaves it |
| `StateMachine.TrueMeansThereIff` | juju/lib/statemachine.py:137-164 | For all actions: whenever `transition_state` answers True the workflow is in the state asked for, exactly when no edge leads there or no automatic transition leaves it |
| `UnitWorkflow.TrueMeansThereInUnit` | juju/unit/workflow.py:16-81 | In the unit workflow exactly when the state asked for is not installed, or the unit is neither at its start nor in install_error |
| `RelationWorkflow.TrueMeansThereInRelation` | juju/unit/workflow.py:115-124 | In the relation workflow always |
| `StateMachine.ResumeWorks` | juju/lib/statemachine.py:304-312 | With such error transitions, a workflow found with a fitting transition in flight fires that one, else the first automatic one, without an exception, and nothing stays in flight |
| `StateMachine.TheAliasIff` | juju/lib/statemachine.py:93-134 | With distinct ids, firing by alias is accepted exactly when one available transition has the alias |
| `StateMachine.BuildLists` | juju/lib/statemachine.py:330-338 | The initialised dictionary lists every state mentioned, with the ids that leave it in table order |
| `StateMachine.BuildIsValidIff` | juju/lib/statemachine.py:330-346 | The two dictionaries fit together exactly when transitions of one id leave one state |
| `StateMachine.TotalTable` | juju/lib/statemachine.py:330-354 | Lookups in a table with one transition per id give that transition, listed under its source only |
| `StateMachine.AutomaticIs` | juju/lib/statemachine.py:231-237 | Where one available transition is automatic, that one fires |
| `StateMachine.Workflow.constructor` | juju/lib/statemachine.py:327-328 | A new workflow holds the dictionaries of its transitions |
| `StateMachine.Workflow.Initialize` | juju/lib/statemachine.py:330-338 | The loop builds the dictionaries of the transitions |
| `StateMachine.WorkflowState.FireTransition` | juju/lib/statemachine.py:167-228 | What is stored, in order, and what is returned are those of the firing function; `FireRecords`, `FireVariables` and `FireEnds` say what these are |
| `StateMachine.WorkflowState.RunTransition` | juju/lib/statemachine.py:189-228 | The records around one action, and the transition that fires next |
| `StateMachine.WorkflowState.FindAutomatic` | juju/lib/statemachine.py:231-237 | The first automatic transition of the current state |
| `StateMachine.WorkflowState.FindAlias` | juju/lib/statemachine.py:113-116 | The available transitions with the alias, in order |
| `StateMachine.WorkflowState.FireTransitionAlias` | juju/lib/statemachine.py:93-134 | Fires the one transition with the alias, or raises for none or several |
| `StateMachine.WorkflowState.TransitionState` | juju/lib/statemachine.py:137-164 | Fires the first edge to the target; False without one; an unknown state is an error |
| `StateMachine.WorkflowState.Synchronize` | juju/lib/statemachine.py:304-312 | Fires the transition in flight, else an automatic one |
| `StateMachine.WorkflowState.SetState` | juju/lib/statemachine.py:269-275 | The new record replaces state and variables and clears the marker |
| `StateMachine.WorkflowState.SetInflight` | juju/lib/statemachine.py:278-292 | The marker changes and nothing else |
| `StateMachineRuns.MarkerAlwaysFits` | juju/lib/statemachine.py:167-312 | For any table and any run, with crashes between any two store accesses: in every record ever stored the marker is absent or available from the recorded state |
| `StateMachineRuns.RestartIsAccepted` | juju/lib/statemachine.py:304-312 | So synchronize after a crash at any store boundary passes the availability check |
| `StateMachineRuns.NeverRaisesIff` | juju/lib/statemachine.py:183-209 | Firing available transitions never raises, in any run with crashes, exactly when each error transition of a transition that can fail shares its parent's source |
| `StateMachineRuns.MisplacedErrorRaises` | juju/lib/statemachine.py:197-209 | A table with a misplaced error transition has a run that raises |
| `StateMachineRuns.FireIsARun` | juju/lib/statemachine.py:167-228 | What `fire_transition` stores and raises is what an uninterrupted run of the atomic steps stores and raises |
| `RelationWorkflow.FlagsFollowState` | juju/unit/workflow.py:480-598 | In every run of transitions, hook errors, lifecycle-wide stops and starts, resolutions, departures, shutdowns and crashes: in a normal process, whenever the workflow lock is free, the watcher runs iff the state is up or error and the scheduler iff it is up; once a departure has begun neither runs, locked or not; in a workflow made anew for a relation that is gone nothing runs that the state does not ask for |
| `RelationWorkflow.DepartedForGood` | juju/unit/workflow.py:115-124 | The departed state is never left, and nothing runs in it again |
| `RelationWorkflow.LateErrorsRaiseIff` | juju/unit/workflow.py:516-533 | A step raises an invalid transition exactly when it checks a hook error reported outside the up state, and then changes nothing else |
| `RelationWorkflow.LateErrorHappens` | juju/unit/workflow.py:516-533 | A run in which it does: the unit stops while a hook is in progress, which then fails |
| `RelationWorkflow.RequestsArrive` | juju/unit/lifecycle.py:150-336 | What each request comes to: a unit that stops takes its relations from up to down, one that starts brings those that are down up, a resolved relation comes up unless it is departed, a hook error is recorded in the up state only, a departure ends in departed from every state but the unset one; all else stays where it was |
| `RelationWorkflow.EdgesAre` | juju/unit/workflow.py:115-124 | Exactly the pairs of states that `transition_state` connects |
| `RelationWorkflow.NextKeeps` | juju/unit/workflow.py:480-598 | Every atomic step keeps flags, state, marker and phase consistent |
| `RelationWorkflow.TableHolds` | juju/unit/workflow.py:115-124 | Sources, destinations and the one automatic transition of the built table |
| `RelationWorkflow.TableIsAcyclic` | juju/unit/workflow.py:115-124 | Firing in this table always ends |
| `RelationWorkflow.UnitRelationLifecycle.Start` | juju/unit/lifecycle.py:651-675 | Starts what is asked for and not yet running |
| `RelationWorkflow.UnitRelationLifecycle.Stop` | juju/unit/lifecycle.py:678-693 | Stops the scheduler, and the watcher if asked |
| `RelationWorkflow.UnitRelationLifecycle.Do` | juju/unit/workflow.py:535-598 | What each action makes of watcher and scheduler |
| `RelationWorkflow.UnitRelationLifecycle.Prepare` | juju/unit/workflow.py:480-498 | From whatever was running to the flags of the state |
| `RelationWorkflow.RelationWorkflowState.FireTransition` | juju/lib/statemachine.py:167-228 | With its action carried out: an available transition brings workflow and lifecycle to rest in its destination, any other is refused without effect |
| `RelationWorkflow.RelationWorkflowState.TransitionState` | juju/lib/statemachine.py:137-164 | True exactly when an edge to the target exists, and then the relation is at rest there |
| `RelationWorkflow.RelationWorkflowState.OnHookError` | juju/unit/workflow.py:516-533 | A hook error leads from up to error, watching on; elsewhere it is refused without effect |
| `RelationWorkflow.RelationWorkflowState.Synchronize` | juju/unit/workflow.py:480-501 | From any stored record the relation comes to rest where the transition in flight, or the automatic start, leads |
| `UnitRuns.FlagsFollowState` | juju/unit/workflow.py:345-462 | In every run whose crashes find a safe record: no running-assert of lifecycle or executor fails, no hook waits for a stopped executor, nothing invalid is raised; at each unlocked point the lifecycle runs iff the state is started, charm_upgrade_error or stop_error, and the executor runs in every state other than charm_upgrade_error |
| `UnitRuns.CrashFreeFlags` | juju/unit/lifecycle.py:134-290 | The same for every crash-free run from the first start on, stop errors included |
| `UnitRuns.RestartIsSafeIff` | juju/unit/workflow.py:345-396 | A stored record can be taken up without a failing assert, whatever follows, exactly when it is not in stop_error and has no `error_retry_configure` in flight |
| `UnitRuns.UnsafeFaults` | juju/unit/lifecycle.py:196-212 | The run in which an unsafe record meets the assert that the lifecycle is running |
| `UnitRuns.ActIsSound` | juju/unit/lifecycle.py:126-290 | No action meets an assert from the flags its transition begins with, and each leaves the flags that its destination or its error transition needs |
| `UnitRuns.ActBreaksIff` | juju/unit/lifecycle.py:126-290 | An action begun with the right flags fails exactly when a hook that it runs fails, or, for an upgrade, its preparation or putting the charm in place |
| `UnitRuns.ErrorsWork` | juju/unit/workflow.py:398-462 | The actions of error transitions always work, and nothing fires by itself where they lead |
| `UnitRuns.AgentStopsIff` | juju/agents/unit.py:125-132 | Stopping a settled agent fails no assert exactly when the executor is not paused, which it is in no state other than charm_upgrade_error |
| `UnitRuns.AgentStopsAfterRunIff` | juju/agents/unit.py:125-132 | Over whole runs: the agent can be stopped exactly when the last upgrade attempt past its preparation worked, or, with none since the process started, the record it started on was neither in charm_upgrade_error nor in the middle of an upgrade |
| `UnitRuns.LastDecisionHolds` | juju/unit/lifecycle.py:267-289 | Over whole runs the executor is as the last upgrade attempt past its preparation, or the last process start, left it |
| `UnitRuns.PausedAgentCannotStop` | juju/agents/unit.py:125-132 | After a charm could not be replaced the executor is paused, and stopping the agent fails the executor's assert |
| `UnitRuns.NeverRaises` | juju/unit/workflow.py:16-81 | Firing available transitions of the unit workflow never raises, with crashes anywhere and whichever actions fail |
| `UnitRuns.UnitWorkflowState.FireTransition` | juju/lib/statemachine.py:167-228 | With its actions carried out: whatever breaks, the unit comes to rest with settled flags; the answer is whether the first action worked; then the destination was reached, to be left at once only by an automatic transition, and otherwise the unit is where the error transition leads, or where it was |
| `UnitRuns.UnitWorkflowState.Synchronize` | juju/unit/workflow.py:370-396 | From any safe record the unit comes to rest with settled flags |
| `UnitRuns.UnitWorkflowState.Callback` | juju/agents/unit.py:135-226 | Event by event and state by state: a configuration change configures, an upgrade flag upgrades, a stop stops, each in started only; a resolution begins the retry of the error state, with hooks or without; the unit ends at rest where that can lead; anything else changes nothing |
| `UnitWorkflow.TableHolds` | juju/unit/workflow.py:16-81 | Every entry of the built table, and availability by source |
| `UnitWorkflow.TableIsAcyclic` | juju/unit/workflow.py:16-81 | Errors and automatic transitions never come round, so firing always ends |
| `UnitWorkflow.ErrorsShareSource` | juju/unit/workflow.py:16-81 | Every error transition shares its parent's source |
| `UnitWorkflow.RetryIsUnambiguous` | juju/agents/unit.py:135-163 | The retry aliases are neither missing nor ambiguous in exactly the five error states |
| `UnitWorkflow.AchievedIsNotWhereItIs` | juju/lib/statemachine.py:137-164 | A call of `transition_state` that answers True and ends in another state than the one asked for |
| `UnitWorkflow.UnitLifecycle.Start` | juju/unit/lifecycle.py:134-194 | Runs the hooks and then counts as running; not if a hook fails |
| `UnitWorkflow.UnitLifecycle.Stop` | juju/unit/lifecycle.py:196-231 | Asserts that it runs; a failed stop hook leaves it running |
| `UnitWorkflow.UnitLifecycle.Configure` | juju/unit/lifecycle.py:234-248 | Asserts that it runs, when hooks are to fire |
| `UnitWorkflow.UnitLifecycle.Upgrade` | juju/unit/lifecycle.py:251-290 | A failed preparation leaves the executor alone, any later failure leaves it paused, success leaves it running; none of its asserts can fail |
| `UnitWorkflow.UnitLifecycle.Do` | juju/unit/workflow.py:398-462 | What each action makes of lifecycle and executor, and how it ends |
| `UnitWorkflow.UnitLifecycle.Prepare` | juju/unit/workflow.py:370-394 | From whatever was running to the preconditions of the stored record |
| `UnitWorkflow.HookExecutor.Start` | juju/hooks/executor.py:91-99 | Asserts that it is not running |
| `UnitWorkflow.HookExecutor.Stop` | juju/hooks/executor.py:167-178 | Asserts that it is running |
| `Topology.ApplyKeepsInv` | juju/state/topology.py:80-469 | Every mutator keeps the joint invariant: assigned machines exist, services in relations exist, service names are distinct, a unit id lives in one service, sequences are below their counter and distinct within a service, roles are unique per relation |
| `Topology.RunKeepsInv` | juju/state/topology.py:80-469 | So does every run of mutators, failing ones included |
| `Topology.KeepsMachines` | juju/state/topology.py:111-120 | Assigned machines exist after every mutator; a machine in use is not removed |
| `Topology.KeepsMembers` | juju/state/topology.py:164-173 | Services in relations exist after every mutator |
| `Topology.KeepsUnits` | juju/state/topology.py:175-226 | A unit id lives in one service after every mutator |
| `Topology.KeepsSequences` | juju/state/topology.py:220-226 | Sequence numbers stay below their counter and distinct within a service |
| `Topology.KeepsRoles` | juju/state/topology.py:434-456 | Roles stay unique per relation |
| `Topology.KeepsNames` | juju/state/topology.py:122-137 | Service names stay distinct |
| `Topology.NeverIssuedTwice` | juju/state/topology.py:122-226 | Over any run, services removed and added again under the same name included, no service name and sequence number are given out twice |
| `Topology.NoUnitNameTwice` | juju/state/topology.py:175-226 | So no unit name is ever issued twice |
| `Topology.IssuedIsFresh` | juju/state/topology.py:220-226 | What a run gives out is at or above the counters at its start |
| `Topology.UnitNameIsInjective` | juju/state/topology.py:252-258 | A unit name determines service name and sequence number, slashes or not |
| `Topology.NameLookupIff` | juju/state/topology.py:243-274 | Looking up the name of a unit id gives the id back exactly when the service name has no slash |
| `TopologyEffects.AppliesIff` | juju/state/topology.py:80-469 | For each mutator exactly when it succeeds, by lookups in the topology it is given |
| `TopologyEffects.ErrorSays` | juju/state/topology.py:80-469 | Each error tells the truth: what it says exists, is missing, in use, assigned or taken is so in the topology it was raised on |
| `TopologyEffects.MachinesAfter` | juju/state/topology.py:80-120 | After any mutator exactly these machines are known: those before, with the one added and without the one removed |
| `TopologyEffects.ServiceNameAfter` | juju/state/topology.py:122-173 | After any mutator every service is there under its name as before, but for the one added or removed |
| `TopologyEffects.RecordAfter` | juju/state/topology.py:175-377 | After any mutator every unit has its sequence, container and machine as before: only the unit named is added, with the number of the counter and the container given, removed, assigned or unassigned, and a removed service takes its own units with it |
| `TopologyEffects.CounterAfter` | juju/state/topology.py:122-226 | After any mutator every counter is as before, except that adding a unit raises its own by one and a new name starts one |
| `TopologyEffects.TermsAfter` | juju/state/topology.py:379-432 | After any mutator every relation has its interface and scope as before, but for the one added or removed |
| `TopologyEffects.MemberAfter` | juju/state/topology.py:379-469 | After any mutator every service is in every relation under its role as before, but for the one assigned or unassigned and those of the relation removed |
| `TopologyEffects.LookupsDecide` | juju/state/topology.py:48-54 | Two topologies with the same lookups are equal, so that these six leave nothing unsaid |
| `InternalTopologies.InternalTopology.AddMachine` | juju/state/topology.py:80-88 | The new state, or the error and the old state |
| `InternalTopologies.InternalTopology.MachineHasUnits` | juju/state/topology.py:101-109 | True exactly when some unit sits on the machine |
| `InternalTopologies.InternalTopology.RemoveMachine` | juju/state/topology.py:111-120 | The new state, or the error of a machine unknown or in use |
| `InternalTopologies.InternalTopology.FindServiceWithName` | juju/state/topology.py:151-157 | Found exactly when some service has the name |
| `InternalTopologies.InternalTopology.AddService` | juju/state/topology.py:122-137 | The new state with its counter kept or set to 0, or the error |
| `InternalTopologies.InternalTopology.RelationsForService` | juju/state/topology.py:485-499 | The relations that have the service, or the error of an unknown service |
| `InternalTopologies.InternalTopology.RemoveService` | juju/state/topology.py:164-173 | The new state, counter kept, or the error |
| `InternalTopologies.InternalTopology.ServiceOfUnit` | juju/state/topology.py:243-250 | Finds the service exactly when the unit is known |
| `InternalTopologies.InternalTopology.FindContainerRelation` | juju/state/topology.py:199-218 | True exactly when a container-scoped relation joins the two services |
| `InternalTopologies.InternalTopology.AddServiceUnit` | juju/state/topology.py:175-226 | The sequence given out is the counter, which goes up by one; or the error and the old state |
| `InternalTopologies.InternalTopology.RemoveServiceUnit` | juju/state/topology.py:304-308 | The new state, or the error |
| `InternalTopologies.InternalTopology.AssignUnit` | juju/state/topology.py:329-344 | The new state, or the error: a unit is never assigned over |
| `InternalTopologies.InternalTopology.UnassignUnit` | juju/state/topology.py:355-367 | The new state, or the error |
| `InternalTopologies.InternalTopology.AddRelation` | juju/state/topology.py:379-389 | The new state, or the error |
| `InternalTopologies.InternalTopology.RemoveRelation` | juju/state/topology.py:428-432 | The new state, or the error |
| `InternalTopologies.InternalTopology.AssignService` | juju/state/topology.py:434-456 | The new state, or the error of a service already in or a role taken |
| `InternalTopologies.InternalTopology.UnassignService` | juju/state/topology.py:458-469 | The new state, or the error |
| `InternalTopologies.InternalTopology.FindUnitWithSequence` | juju/state/topology.py:310-320 | The unit of that number, if there is one |
| `InternalTopologies.InternalTopology.UnitNameFromId` | juju/state/topology.py:268-274 | The name the model reasons about |
| `InternalTopologies.InternalTopology.UnitIdFromName` | juju/state/topology.py:260-266 | The id the model reasons about, or the error of a malformed name |
| `Topology.EmptyInv` | juju/state/topology.py:48-54 | A new topology has the joint invariant |
| `Placement.NoSharedMachines` | juju/state/service.py:1002-1047 | Under any interleaving of clients whose only placements are `assign_to_unused_machine` through the retry loop, no two units ever share a machine and machine 0 carries none |
| `Placement.PlacementsPassedTheTest` | juju/state/service.py:1019-1047 | Every committed placement satisfied its tests, constraints included, on the very topology version it replaced, and took the first such machine in name order |
| `Placement.WritesAreSerial` | juju/state/base.py:51-75 | Whatever the interleaving, the committed writes form one chain in which each change function saw exactly the content its write replaced |
| `Placement.PlacedOnFirst` | juju/state/service.py:1027-1045 | The machine chosen is the first usable one |
| `Placement.PlaceOnShares` | juju/state/service.py:968-1000 | The restriction is needed: `assign_to_machine` puts two units on one machine, machine 0 included |
| `Placement.PlaceOnKeepsExclusiveIff` | juju/state/service.py:968-1000 | A successful `assign_to_machine` keeps machines exclusive exactly when it changes nothing, or the machine is not the root and carries no unit |
| `Placement.PlaceOnIsIdempotent` | juju/state/service.py:980-999 | Assigning again to the same machine changes nothing |
| `Placement.UnplaceMeans` | juju/state/service.py:1049-1065 | `unassign_from_machine` works for every known unit, puts it on no machine and leaves everything else as it was |
| `Placement.PlaceOnMeans` | juju/state/service.py:968-1000 | `assign_to_machine` works exactly for a known unit without container that is on that machine already, or on none while the machine is known; it puts the unit there and leaves everything else as it was |
| `Placement.PlaceUnusedMeans` | juju/state/service.py:1002-1047 | `assign_to_unused_machine` works exactly for a known unit on no machine while some machine is usable; it puts the unit on a usable one and leaves everything else as it was |
| `Placement.TryWriteMeans` | juju/state/base.py:51-75 | A write commits exactly when its change works and the version is the one read, and then stores the change and frees the client; on another version it stores nothing and the client has its task again with the present content; other clients are untouched |
| `Placement.UndisturbedCommits` | juju/state/base.py:51-75 | A client whose change works and that nobody disturbs commits it with its first write |
| `Placement.FindUnused` | juju/state/service.py:1027-1039 | The loop finds the first usable machine, or none |
| `Placement.AssignUnusedUnit` | juju/state/service.py:1019-1045 | The change function in place: the placement, or the error and no change |
| `Placement.AssignUnitTo` | juju/state/service.py:978-999 | The change function in place: assigned, left alone, or the error |
| `Placement.UnassignUnitFrom` | juju/state/service.py:1053-1064 | The change function in place: unassigned, or left alone |
| `YamlState.YAMLState.Write` | juju/state/utils.py:211-251 | Whatever the number of retries: the node ends with the three-way merge of what was read, the local copy and the content the write replaced, and the returned changes replayed on that content give it |
| `YamlState.YAMLState.ApplyChanges` | juju/state/utils.py:228-247 | The loop over all keys, in any order, computes the merge in place and lists each changed key once |
| `YamlState.YAMLState.EditKey` | juju/state/utils.py:233-246 | One key: added, modified, deleted or left alone |
| `YamlState.ReportMeans` | juju/state/utils.py:233-246 | A change is reported of a key exactly when: it was added here (with the new value), it was there and has another value here (with both), or it was there, is gone here and is in the content replaced (with the old value) |
| `YamlState.YAMLState.Read` | juju/state/utils.py:162-186 | Cache and pristine copy are the node's content; a missing node is an error only when required |
| `YamlState.YAMLState.GetItem` | juju/state/utils.py:199-201 | Needs a read; then the cached value or the missing-key error |
| `YamlState.YAMLState.SetItem` | juju/state/utils.py:203-205 | Needs a read; changes the one key of the cache |
| `YamlState.YAMLState.DelItem` | juju/state/utils.py:207-209 | Needs a read; removes the one key or raises |
| `YamlState.MergeIsUnique` | juju/state/utils.py:228-246 | The merge is determined: changed keys take the local value or deletion, all others the concurrent one |
| `YamlState.DisjointWritersCommute` | juju/state/utils.py:211-251 | Writers with disjoint changed keys commute |
| `YamlState.LastChangeWins` | juju/state/utils.py:211-251 | After any sequence of writers each key holds what the last writer that changed it wanted, or is untouched |
| `YamlState.LocalCopyIsMergedStateIff` | juju/state/utils.py:211-227 | After a write the local copy is the merged state exactly when nobody else touched a key this writer left alone |
| `YamlState.MergeIsIdempotent` | juju/state/utils.py:228-246 | Writing twice is writing once |
| `YamlState.MergeOfNothing` | juju/state/utils.py:228-247 | Without local changes nothing is written over |
| `Constraints.CollapsedIsConflictFreeIff` | juju/machine/constraints.py:211-249 | Collapsing any number of parsed layers never yields two conflicting constraints both effectively set, defaults included, exactly when no two conflicting constraints are both on by default |
| `Constraints.CollapseMasks` | juju/machine/constraints.py:247-249 | A collapse of parsed layers masks every conflict of what it sets |
| `Constraints.ParsedMasks` | juju/machine/constraints.py:139-173 | A parsed layer sets to None everything that conflicts with what it sets |
| `Constraints.UpdateMasks` | juju/machine/constraints.py:247-249 | Updating a masking layer with another masking layer gives a masking layer |
| `Constraints.ParsedLayerMeans` | juju/machine/constraints.py:139-173 | Entry by entry: parsing fails for a bad string or an ambiguous layer; otherwise exactly the names given and those in conflict with something set are there, the former as given, the latter unset |
| `Constraints.AmbiguousIff` | juju/machine/constraints.py:161-170 | A layer is ambiguous exactly when something set in it conflicts with another name given, unset or not |
| `Constraints.HighestLayerWins` | juju/machine/constraints.py:247-249 | In a collapse each entry is the one of the highest layer that has it, an unset one included |
| `Constraints.NoLayerSets` | juju/machine/constraints.py:247-249 | A name in no layer is in no collapse of them |
| `Constraints.RegisterKeepsSymmetricIff` | juju/machine/constraints.py:66-81 | Registering a name again keeps the conflicts symmetric exactly when nothing else conflicts with it |
| `Constraints.ConflictsKeepSymmetric` | juju/machine/constraints.py:83-100 | Registering conflicts keeps them symmetric |
| `Constraints.SatisfiesItself` | juju/machine/constraints.py:251-288 | A machine made for some complete constraints satisfies them |
| `Constraints.SatisfactionIsTransitive` | juju/machine/constraints.py:251-288 | What satisfies a machine's own constraints satisfies every unit that machine could take |
| `Constraints.SatisfyingIff` | juju/machine/constraints.py:251-288 | With the generic constraints registered a machine satisfies a unit exactly when provider and series are set and equal, its cpu and mem are at least what the unit asks, and architecture and instance type are the same text where the unit asks for a known one; unset, cpu counts as 1, mem as 512M and the architecture as amd64 |
| `Constraints.MemSuffixes` | juju/machine/constraints.py:313-320 | A memory amount is in megabytes, as it is with the suffix M; G stands for 1024 and T for 1048576 of them; a negative one is refused |
| `Constraints.ParseOneMeans` | juju/machine/constraints.py:139-159 | One `name=value` is accepted exactly when the name is registered and visible and the value converts: `any` unsets it, an empty value stands for the default, any other text is kept; the error of an unknown name comes before all others |
| `Constraints.AllParseIff` | juju/machine/constraints.py:142-159 | The strings parse exactly when each does |
| `Constraints.NoneSets` | juju/machine/constraints.py:142-159 | A name that no string sets is as it was |
| `Constraints.LastSets` | juju/machine/constraints.py:142-159 | Of several strings for one name the last counts, with the value it has alone |
| `Constraints.ConstraintSet.Register` | juju/machine/constraints.py:66-81 | The constraint is known and has no conflicts |
| `Constraints.ConstraintSet.RegisterConflicts` | juju/machine/constraints.py:83-100 | Both directions of every pair, or the error of a name that was not registered |
| `Constraints.ConstraintSet.RegisterGenerics` | juju/machine/constraints.py:102-126 | Registry and conflicts are those of the generic constraints put over whatever was registered |
| `Constraints.ConstraintSet.constructor` | juju/machine/constraints.py:56-64 | The two built-in constraints, symmetric, with compatible defaults and comparers that are preorders |
| `Constraints.GenericConflictsSymmetricIff` | juju/machine/constraints.py:102-126 | Registering the generic constraints keeps conflicts symmetric exactly when no other constraint conflicts with one of them |
| `Constraints.GenericsKeepDefaults` | juju/machine/constraints.py:102-126 | Then compatible defaults stay compatible |
| `Constraints.GenericsArePreorders` | juju/machine/constraints.py:102-126 | All comparers registered are reflexive and transitive |
| `Constraints.GenericSetIsSound` | juju/machine/constraints.py:102-126 | So with the generic constraints in place collapsed layers are free of conflicts, satisfaction is reflexive on complete constraints, and transitive |
| `Constraints.ConstraintSet.ParseLayer` | juju/machine/constraints.py:139-173 | The layer or the error of the parse function |
| `Constraints.ConstraintSet.CollectConflicts` | juju/machine/constraints.py:161-170 | The names to mask, or the error when two given constraints conflict |
| `Constraints.ConstraintSet.CanPlace` | juju/machine/constraints.py:251-288 | The loop answers whether every constraint of the unit is met |
| `CharmUrl.ParseOfStr` | juju/charm/url.py:31-114 | `parse(str(u)) == u` for every well-formed u |
| `CharmUrl.ParseRangeIff` | juju/charm/url.py:73-114 | Those are exactly the URLs `parse` can return |
| `CharmUrl.ParsesIff` | juju/charm/url.py:73-114 | A string parses, and to which URL, exactly when it spells that well-formed URL: its collection, a slash, and a name alone or a name with a dash and digits |
| `CharmUrl.StrOfParseIff` | juju/charm/url.py:54-114 | `str(parse(s)) == s` for a string that parses exactly when its revision has no leading zero |
| `CharmUrl.StrIsInjective` | juju/charm/url.py:54-57 | Two URLs with one text are one URL |
| `CharmUrl.InferOfStr` | juju/charm/url.py:117-148 | `infer` leaves a full URL alone, whatever the default series |
| `CharmUrl.InferFromName` | juju/charm/url.py:117-148 | A charm-store URL without user is inferred from its name and the default series |
| `CharmUrl.InferFromSchema` | juju/charm/url.py:117-148 | A URL without user is inferred from schema and name |
| `CharmUrl.InferFromUser` | juju/charm/url.py:117-148 | A URL of a user is inferred from user and name |
| `CharmUrl.InferFromSeries` | juju/charm/url.py:117-148 | A charm-store URL without user is inferred from series and name, whatever the default series |
| `CharmUrl.InferNeedsSchema` | juju/charm/url.py:117-148 | A user without a schema is refused |
| `CharmUrl.ParseNameOfStr` | juju/charm/url.py:103-112 | Each dashed word of a name has a letter, so a name alone is never read as name and revision |
| `CharmUrl.NameMatches` | juju/charm/url.py:9 | The test on names accepts exactly the language of the regular expression |
| `CharmUrl.UserMatches` | juju/charm/url.py:7 | The same for user names |
| `CharmUrl.SeriesMatches` | juju/charm/url.py:8 | The same for series |
| `Text.DecimalOfNumberIff` | juju/charm/url.py:107-110 | A digit string is the decimal of its value exactly when it has no leading zero |
| `Text.NumberOfDecimal` | juju/state/topology.py:252-274 | Reading back the decimal of a number gives the number |
| `Under.UnquoteOfQuote` | juju/lib/under.py:3-12 | Quoting has a left inverse on all byte strings |
| `Under.QuoteIsInjective` | juju/lib/under.py:11-12 | So different strings are never quoted alike |
| `Under.QuoteSpells` | juju/lib/under.py:3-12 | Byte by byte: a letter, digit, `.` or `-` stays, any other byte becomes `_`, its two lower-case hex digits and `_` |
| `Under.QuoteAlphabet` | juju/lib/under.py:3-12 | Only letters, digits, `.`, `-` and `_` come out, and exactly the strings of letters, digits, `.` and `-` stay as they are |

## Left out

- Hook processes, the hook command protocol, debug hooks, logging, file formats, ZooKeeper sessions and watches: atomic steps, abstract records and versioned nodes stand for them.
- txzookeeper's retry_change is not part of this model; it is taken to read, compute, write on condition and retry.
- Crashes in the middle of a scheduler callback: the scheduler restarts between callbacks and hooks only.
- Events between a stop and the end of the hook in progress, and events while a failed hook's error handler still runs: the code does not make these steps atomic.
- Hook exceptions without an error handler, which leave the run loop altogether.
- HookRuns.CompletedHooksAreLegal: settings events come for current members only, and the first membership callback starts from no members, as the watcher's does; the intended pop index is assumed, because with the index as written the property fails (HookPopIndex.PopIndexLosesAJoin); HookPopRuns.WrittenHooksAreLegal is about the code as written.
- HookNews.NewsReachesTheCharm: the same settings of the runs; a change popped by hand counts as told, as in the scheduler's history.
- MatchParams.MatchWithArray: values are taken not to define a `!=` of their own that would call a special argument equal, and not to be special arguments themselves.
- Forced charm upgrades, which run outside the workflow.
- UnitRuns.FlagsFollowState: crashes on an unsafe record are excluded, because then an assert does fail (UnitRuns.UnsafeFaults); exceptions other than those turned into a TransitionError are not modelled.
- The relations of a unit are not driven by the unit model: RelationWorkflow has the events that the unit lifecycle sends to one relation.
- RelationWorkflow.FlagsFollowState: between the start of a departure and its transition, with the lock free, the state still says up or error while nothing runs; for a workflow made anew without synchronizing only one direction holds; while a shutdown is in progress nothing is said.
- Several relations of one unit at once; storing and loading the list of known relations; deploying subordinates.
- Locks beyond what they exclude: the workflow lock is the idle state of the engine, the unit lifecycle's run lock the phases of a relation.
- Topology migration, dangling subordinate containers, and lookups of relations between endpoints.
- InternalTopologies.InternalTopology.AssignService: when both apply, which of the two errors comes first depends on the order in which the dictionary is walked.
- InternalTopologies.InternalTopology.AddServiceUnit: asks for unit ids that live in one service, which every mutator keeps.
- InternalTopologies.InternalTopology.UnitIdFromName: `int()` also accepts blanks and a sign around the number; the model reads digits only.
- The `$` of the charm URL expressions also matches before a final newline, and `\d` matches other digits; the model matches whole ASCII strings.
- Rounding of memory and CPU amounts: real numbers stand for floats, and the conversion of text to a number is a parameter.
- Constraints of machines and units stay as they are while units are placed; the warning about incompatible ones is not modelled.
- Commands, status, providers, machine and provisioning agents, charm archives, configuration schemas.
