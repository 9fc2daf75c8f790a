# hyperbox, verified

hyperbox runs code in sandboxes. Its control plane (`HyperboxServer`) creates sandboxes on a backend,
starts managed processes in them, gives sessions names, takes snapshots, and survives restarts because
everything it knows is also in a state store. This project models that control plane and the parts
around it whose correctness is not obvious from one function, and proves what they are for.

| file | subject |
|---|---|
| `World.dfy`, `Tables.dfy`, `Steps.dfy`, `Server.dfy`, `Runs.dfy`, `Scenarios.dfy` | the control plane as a class over a backend, a clock and a store that may fail at any call; its invariant; whole runs; states they come to |
| `Process.dfy` | process records, the lifecycle and the probe reader |
| `Store.dfy`, `StoreCalls.dfy`, `InMemoryStore.dfy`, `SqlTable.dfy`, `SqliteStore.dfy`, `StoresAgree.dfy` | the contract of the state store and its two implementations |
| `Utf8.dfy`, `Logs.dfy` | log reading on the server and the client's loops |
| `Pool.dfy`, `PoolRuns.dfy` | the warm pool, alone and shared by tasks |
| `ShellStream.dfy` | the agent's shell stream and the client's loop |
| `Quoting.dfy`, `LogFiles.dfy` | shell quoting of managed commands; the files their output goes to |
| `Fnv.dfy`, `SessionKey.dfy` | automatic session names |
| `Allowlist.dfy`, `Dns.dfy` | network allowlists and the DNS sidecar |
| `Metrics.dfy` | percentiles and summaries |
| `Types.dfy`, `Strings.dfy`, `HashMaps.dfy` | shared values and operations |

`dafny verify dfyconfig.toml` checks everything.

## How the control plane is modelled

`HyperboxServer` is a class with the in-memory sandbox table, the four tables of the store and the id
counters; `World` holds the clock, the backend's sandboxes and the snapshot artifacts, and decides
nondeterministically how each backend and store call ends. While `World.faults` is false, calls fail only
when they must (an absent sandbox, a refused path, a configuration that `World.accepts` does not include).
Only `World` writes down, in the ghost set `ran`, what the sandboxes did: which script they ran, when and
with what outcome. Contracts refer to it where a call has to ask or tell a sandbox something. Every public
call is one atomic step. `Inv` ties the tables together and every record of an ended process to the run
that ended it; `Evolves` is what any number of calls, restarts and disturbances keep. `Runs.Serve` shows
both for every sequence of requests.

A call first fills memory from the persisted records if the server process is new. What it does is stated
from the state after that, which it gives back as the ghost result `start`: `Hydrates(old(S()), start)` says
that nothing but memory changed, and nothing at all if the server was hydrated before. `Loses`, `Narrows`
and `Drifts` bound what a call may take away from there, `Adds` what it may add, and `Bounded` what a whole
`start_run` may do.

What becomes of process records is stated in the same way. `Prunes` says that no record is gone but one that
had expired. Calls that take time may also see a live record end and expire on the way, which takes at least
a day: `Retains` allows that, `Overdue` are the sandboxes that such records own, and `Tidies` says that
nothing else is lost. `AllOver` says that every process of a sandbox is stored as ended, `Busy` that one ran
before a call and still does after it. `Error.Passing` marks the errors that no call gives while
`World.faults` is false, and `ChoiceFails` and `RunFails` are all reasons for a run to fail then.

## Findings

Where the code does not do what one might expect, the exact behaviour is proved:

- The status table of `can_transition_to` is not what the runtime follows. `Processes.UndocumentedMovesExactly`
  gives the moves outside it: Running back to Starting on a "lost" probe within the grace period, and
  Starting straight to Succeeded, Cancelled or Lost.
- `destroy_sandbox` fails for a sandbox that a record owns, because purging that record already destroyed
  it. With a working backend it succeeds if and only if the sandbox exists and no record owns it, and the
  sandbox is gone either way (`DestroySandbox`, `Scenarios.DestroyOwned`; `Scenarios.StartedOwned` leads
  there from every idle sandbox).
- The TTL policy of `docs/MANAGED_PROCESS_EXECUTION_PLAN.md` says that busy sandboxes are never cleaned up.
  Cleanup does not check: a live process keeps its sandbox if and only if no expired record owns it
  (`Runs.LiveProcessLosesSandbox`). `Scenarios.ExpiredOwnerBesideLiveProcess` leads to such a state from
  every state with an idle sandbox.
- `next_offset` counts the bytes of the text after lossy decoding. A chunk is the part of the log between
  its offsets if and only if what was read is valid UTF-8 or cut inside a U+FFFD (`Logs.ChunkExactly`), and
  a client has the whole log of a finished process if and only if this holds for every chunk
  (`Logs.ReadProcessLogAll`). A read that ends inside another character skips past the end of the log
  (`Logs.SplitCharacterSkipped`).
- A session that cannot be inspected, for whatever reason, counts as gone. With a working backend
  `session_created` is true if and only if there was no live session after the cleanup (`StartRun`); with a
  failing one it can be true although the session was there, and then no name leads to the old sandbox any
  more (`Scenarios.FaultReplacesSession`).
- A template with a newline gives the same session key as a shorter template with another workspace, and
  only such templates do (`SessionKeys.ConfusableExactly`).
- A checkout that runs alone panics if and only if the pool is empty and the target is zero
  (`CheckoutSandbox`); two tasks of a new pool can come to a panic whatever the target is
  (`PoolRuns.NewPoolDies`).
- The DNS sidecar decides on text from which bytes that are not ASCII were dropped and in which a dot inside
  a label looks like one between labels. It is the name on the wire exactly if no label has such bytes
  or dots (`Dns.TextSpellsNameExactly`); adding such a byte changes the name but not the decision
  (`Dns.ForeignByteForwarded`).

## Model

| member | source | states |
|---|---|---|
| Runs.Serve | crates/hyperbox-server/src/runtime.rs:99-795 | in every run of API calls, restarts, backend failures and vanishing sandboxes, every state satisfies the invariant, every later state evolves from every earlier one, and each request leaves every record that was not due and whose sandbox it was not to destroy |
| Runs.Handle | crates/hyperbox-server/src/runtime.rs:99-795 | each single request keeps the invariant and is an evolution; a record is still there after it unless it expired, was live and had a day to end and expire, or ran in the sandbox the request destroys |
| Runs.RecordLeaves | crates/hyperbox-server/src/runtime.rs:655-676 | over a whole run a record leaves the table only if its time was up or a request in between was to destroy its sandbox |
| Runs.EndedForReason | crates/hyperbox-server/src/runtime.rs:813-841 | in every state of a run a record that says that its process ended has its reason among what the sandboxes did: the process's own inspect script, run in its sandbox, said so, or its launch script failed |
| Runs.LogsNeverShared | crates/hyperbox-server/src/runtime.rs:967-985 | in every state of a run every record names the two files to which the launch script of its process sends descriptors 1 and 2, and no two processes, nor the two streams of one, share a file |
| Runs.StartLogged | crates/hyperbox-server/src/runtime.rs:165-238 | the answer of every start that succeeds names the files that the launch script opens for output and errors |
| LogFiles.LaunchOpensRecordedFiles | crates/hyperbox-server/src/runtime.rs:1014-1018 | read as the shell reads redirections, the launch script opens the recorded stdout path for descriptor 1 and the recorded stderr path for descriptor 2 |
| LogFiles.LaunchAssignsBase | crates/hyperbox-server/src/runtime.rs:1014-1018 | the script gives `base` the process's directory, whatever characters that has |
| LogFiles.PathsDiffer | crates/hyperbox-server/src/runtime.rs:967-985 | the log paths of different processes, and of the two streams, differ |
| Runs.NeverTwoLive | crates/hyperbox-server/src/runtime.rs:165-238 | in every state of a run a sandbox has at most one live stored process |
| Runs.EndedForGood | crates/hyperbox-server/src/runtime.rs:813-841 | a terminal record is never rewritten until it is removed, and a removed one never returns |
| Runs.SandboxGoneForGood | crates/hyperbox-server/src/runtime.rs:655-676 | a sandbox that is gone never comes back, and its configuration never changes |
| Runs.ListAcrossRestart | crates/hyperbox-server/src/runtime.rs:99-140 | after a restart and hydration the listing shows exactly the same sandboxes and names |
| Runs.RunKeepsSession | crates/hyperbox-server/src/runtime.rs:240-335 | whatever a run asks for and however it ends, a sandbox no record owns stays, keeps its configuration and keeps its name; a run that resumes that session runs there or overflows, and does not report it as created |
| Runs.SnapshotDestroyResolve | crates/hyperbox-server/src/runtime.rs:686-795 | snapshot, destroy, resolve gives a new sandbox with the original configuration and the saved files, whenever the first two succeed and the third does; resolving again gives the same one without a restore; on a working backend all of it succeeds for unowned sandboxes without a shared workspace |
| Runs.LiveProcessLosesSandbox | crates/hyperbox-server/src/runtime.rs:870-931 | a cleanup that succeeds leaves every live record as it is, and its sandbox in the backend exactly if no expired record owns it, contrary to the documented policy |
| Scenarios.ExpiredOwnerBesideLiveProcess | crates/hyperbox-server/src/runtime.rs:922-931 | from every state with an idle sandbox, starting, finishing and starting a process leads to one in which an expired record owns the sandbox of a live process |
| Scenarios.FirstSandboxIdle | crates/hyperbox-server/src/runtime.rs:142-163 | the first sandbox of an installation is idle |
| Scenarios.DestroyOwned | crates/hyperbox-server/src/runtime.rs:655-676 | destroying a sandbox that a record owns fails, and on a working backend the sandbox is gone |
| Scenarios.StartedOwned | crates/hyperbox-server/src/runtime.rs:165-238 | starting an owning process in any idle sandbox makes it such a sandbox |
| Scenarios.FaultReplacesSession | crates/hyperbox-server/src/runtime.rs:258-285 | a failed inspection can make a run report its session as created although it is there, and leaves the old session without a name |
| Servers.HyperboxServer.EnsureHydrated | crates/hyperbox-server/src/runtime.rs:99-140 | hydration keeps the invariant, only adds to memory, does nothing on a hydrated server, and reports success exactly if the server is hydrated afterwards |
| Servers.HyperboxServer.CreateSandbox | crates/hyperbox-server/src/runtime.rs:142-163 | on success the new sandbox is live, remembered and bound to its name with the given configuration; in any case nothing else is touched; on a working backend it succeeds exactly for known templates and supported configurations, and the error says which was missing; all this also for the first call of a server process |
| Servers.HyperboxServer.StartProcess | crates/hyperbox-server/src/runtime.rs:165-238 | a process starts only in a sandbox in which every earlier process is stored as ended, as a fresh Running record with the given parameters and a start time within the call, after its own launch script ran in that sandbox and ended with 0; if the script fails, the record is Failed with its code; the sandbox keeps its configuration and names; with a working backend, a sandbox that exists and a command, it is refused as busy exactly if a process ran there before and still does, as its inspect script just said; however it ends, records other than expired ones stay |
| Servers.HyperboxServer.LaunchProcess | crates/hyperbox-server/src/runtime.rs:188-238 | exactly one record is added: Running if the process's launch script ran in its sandbox and ended with 0, Failed with the script's exit code otherwise, and left behind as Starting on any other error; the invariant holds in all three cases |
| Servers.HyperboxServer.ActiveProcessForSandbox | crates/hyperbox-server/src/runtime.rs:797-811 | None only after every record of the sandbox is stored as terminal; otherwise a record that was live before and whose inspect script just left it live; it fails on a working backend only if the sandbox is absent |
| Servers.HyperboxServer.RefreshProcess | crates/hyperbox-server/src/runtime.rs:813-841 | a live record becomes what the trimmed output of its own inspect script, run in its sandbox in this call, says at that time, and stays as it is if the script failed; the answer is what is stored; no other record changes |
| Servers.HyperboxServer.CleanupExpiredProcesses | crates/hyperbox-server/src/runtime.rs:870-881 | exact cleanup: only expired records go and only sandboxes they own lose anything; on success all of them are gone from every table, and a sandbox is gone from the backend exactly if an expired record owned it |
| Servers.HyperboxServer.PurgeProcess | crates/hyperbox-server/src/runtime.rs:920-965 | purging removes exactly the record, and the sandbox without a trace if the record owns it |
| Servers.HyperboxServer.GetProcess | crates/hyperbox-server/src/runtime.rs:337-348 | the answer is the stored record, which is what it was if it had ended and otherwise what its inspect script said in this call; no record and no sandbox is lost but expired ones and what they owned; it fails on a working backend only if the record or its sandbox is absent; only that record may evolve; sandboxes nobody owns survive |
| Servers.HyperboxServer.ListProcesses | crates/hyperbox-server/src/runtime.rs:350-362 | every row is the record as stored when the call returns, which is what it was if it had ended and otherwise what its inspect script said in this call; no record and no sandbox is lost but expired ones and what they owned; with a working backend every record of an existing sandbox has its row |
| Servers.HyperboxServer.WaitProcess | crates/hyperbox-server/src/runtime.rs:364-385 | returns only terminal records, which had ended or whose inspect script just said so, after at most 10 T + 31 polls, and gives up only after T seconds on a record that is still live, where T is the timeout but at least 1; other errors on a working backend come only from an absent record or sandbox; meanwhile only records whose time came are lost, and the sandboxes they owned |
| Servers.HyperboxServer.CancelProcess | crates/hyperbox-server/src/runtime.rs:484-528 | returns only terminal stored records, which had ended or whose inspect script just said so; gives up only after it marked the process as cancelled and told it to stop and five more seconds passed; loses only records whose time came and the sandboxes they owned |
| Servers.HyperboxServer.DestroySandbox | crates/hyperbox-server/src/runtime.rs:655-676 | success leaves no trace in backend, memory, records, names and processes, and other sandboxes lose only what had expired and keep their records; on a working backend it succeeds exactly for existing sandboxes that no record owns, and the sandbox is gone either way |
| Servers.HyperboxServer.CreateSnapshot | crates/hyperbox-server/src/runtime.rs:686-717 | the snapshot holds the sandbox's configuration, template, name and files and the given note, and the name's pointer moves to it; no session and no other pointer changes |
| Servers.HyperboxServer.RestoreSnapshot | crates/hyperbox-server/src/runtime.rs:719-756 | a restored sandbox is live and remembered with the snapshot's configuration and its artifact's files, and bound to its name; nothing else is touched |
| Servers.HyperboxServer.ResolveAffinity | crates/hyperbox-server/src/runtime.rs:763-795 | success leaves the name bound to the answer; restored or not tells whether the session was there or came from the name's own snapshot; no other sandbox and no other name is touched; on a working backend a session that is there is the answer, and otherwise the error says exactly whether the name, the wish to restore or the snapshot was missing, and only a shared workspace prevents a restore |
| Servers.HyperboxServer.RestoreNamed | crates/hyperbox-server/src/runtime.rs:791-795 | the restored session has the configuration and files of the name's own snapshot and is bound to the name; nothing else is touched; on a working backend it fails only without a snapshot or for a shared workspace |
| Servers.HyperboxServer.PrepareRunSandbox | crates/hyperbox-server/src/runtime.rs:605-643 | a sandbox is used as it is only if every process that ran there is stored as ended, and then it keeps its configuration and names; a busy one, as an inspect script just said, is passed over for a fresh one of the same making without the name, and keeps running; on a working backend an existing sandbox fails only if it is busy and no other can be made; however it ends, only expired records and what they owned are lost |
| Servers.HyperboxServer.ChooseSandbox | crates/hyperbox-server/src/runtime.rs:240-300 | which sandbox a run gets, with which configuration, bound to which name, and when a session counts as created, from the state in which the choice began; a reused sandbox has no live process left; no name but the run's own changes hands; on a working backend it fails only for the reasons of `ChoiceFails`, so a session that is missing is created and one that is there is used |
| Servers.HyperboxServer.StartRun | crates/hyperbox-server/src/runtime.rs:240-335 | from the state in which the call began: the run goes to the session it asks for, idle and still bound to its name, to one restored from the name's own snapshot, or to a new one; its files were written and its set-up commands succeeded there before its process was launched; overflow never takes a session away; however the run ends only records whose time came, the sandboxes they owned and the run's own dead session are lost; on a working backend session_created is true exactly if no live session was left after the cleanup, and the run fails only for a blank command, a target that cannot be had, a refused file or a script that failed (`RunFails`) |
| Servers.HyperboxServer.ListSandboxes | crates/hyperbox-server/src/runtime.rs:573-603 | the rows are the remembered sandboxes the backend still has, with their names, each once |
| Servers.HyperboxServer.Restart | crates/hyperbox-server/src/runtime.rs:77-89 | a new server process forgets memory and nothing else |
| Tables.VisibleIsPersisted | crates/hyperbox-server/src/runtime.rs:99-163 | in a hydrated server memory shows what the persisted records and the backend show together |
| Tables.EvolvesTransitive | crates/hyperbox-server/src/runtime.rs:99-795 | evolution composes over whole runs |
| Steps.CleanupKeepsUnowned | crates/hyperbox-server/src/runtime.rs:870-931 | cleanup leaves every sandbox alone that no record owns |
| Worlds.World.Destroy | crates/hyperbox-server/src/local_backend.rs:269-283 | destroying removes the one sandbox and reports NotFound for an absent one |
| Worlds.World.RestoreSnapshot | crates/hyperbox-server/src/local_backend.rs:319-363 | a restore makes a fresh sandbox with the artifact's files, unless a shared workspace is refused |
| Processes.ProbeKeepsShape | crates/hyperbox-server/src/runtime.rs:1045-1098 | for every probe text a live record stays well shaped: terminal, finished_at and expires_at come together, live records have no exit code, and Lost comes exactly from a "lost" probe after the grace period |
| Processes.ProbeSays | crates/hyperbox-server/src/runtime.rs:1045-1098 | status, exit code and process id for each answer of the inspect script, for every 32-bit exit code and process id as it is printed |
| Processes.UndocumentedMovesExactly | crates/hyperbox-core/src/process.rs:56-65 | the status moves outside the documented table, exactly |
| StoreCalls.ConversationsAgree | crates/hyperbox-server/src/snapshot_store.rs:21-586 | two stores that keep the contract give equal replies, up to list order, to every sequence of calls |
| StoreCalls.NewSnapshotListed | crates/hyperbox-server/src/snapshot_store.rs:21-53 | a snapshot that was just taken is listed under its configuration's template, with its name, note and time |
| StoresAgree.ReplyAlike | crates/hyperbox-server/src/snapshot_store.rs:21-586 | the in-memory and the SQLite store give equal replies, up to list order, to every sequence of calls |
| InMemoryStores.InMemorySnapshotStore.Perform | crates/hyperbox-server/src/snapshot_store.rs:21-156 | every call of the in-memory store does and answers what the contract says |
| InMemoryStores.InMemorySnapshotStore.ClearSandboxBinding | crates/hyperbox-server/src/snapshot_store.rs:78-87 | the loop clears exactly the records bound to the sandbox and keeps their snapshot pointers |
| InMemoryStores.InMemorySnapshotStore.BindSandbox | crates/hyperbox-server/src/snapshot_store.rs:61-76 | the name is bound, every snapshot pointer and every other binding stays |
| InMemoryStores.InMemorySnapshotStore.SetAffinitySnapshot | crates/hyperbox-server/src/snapshot_store.rs:89-104 | the pointer is set, every session and every other pointer stays |
| SqliteStores.SqliteSnapshotStore.Perform | crates/hyperbox-server/src/snapshot_store.rs:260-586 | every call of the SQLite store does and answers what the contract says, and its rows keep standing for the contract's tables |
| SqliteStores.BindRefines | crates/hyperbox-server/src/snapshot_store.rs:364-377 | the upsert with its ON CONFLICT clause is the map update that keeps the snapshot pointer |
| SqliteStores.SetSnapshotRefines | crates/hyperbox-server/src/snapshot_store.rs:390-403 | the upsert with its ON CONFLICT clause is the map update that keeps the session |
| SqliteStores.ClearRefines | crates/hyperbox-server/src/snapshot_store.rs:379-388 | the UPDATE clears exactly the names bound to the sandbox |
| SqliteStores.InsertRefines | crates/hyperbox-server/src/snapshot_store.rs:261-295 | inserting a snapshot with a new id does not conflict and adds exactly that entry |
| SqliteStores.ListRefines | crates/hyperbox-server/src/snapshot_store.rs:329-362 | the SELECT by template reads back exactly the snapshots of the template |
| SqliteStores.UpsertProcessRefines | crates/hyperbox-server/src/snapshot_store.rs:496-541 | the upsert replaces every column of the process |
| SqliteStores.ProcessRoundTrip | crates/hyperbox-server/src/snapshot_store.rs:588-632 | a process record survives being written to and read from its row |
| SqlTables.HoldsUpsert | crates/hyperbox-server/src/snapshot_store.rs:433-455 | INSERT with ON CONFLICT on a primary key is map update |
| SqlTables.ReadsValues | crates/hyperbox-server/src/snapshot_store.rs:559-574 | reading all rows gives every value of the table's map exactly as often as it occurs |
| Utf8.LossyExact | crates/hyperbox-server/src/local_backend.rs:224 | lossy decoding changes nothing exactly if the bytes are valid UTF-8 |
| Utf8.LossyLength | crates/hyperbox-server/src/local_backend.rs:224 | the decoded text is never shorter than the bytes, and as long exactly if all damaged parts are three bytes |
| Utf8.LossyPrefix | crates/hyperbox-server/src/local_backend.rs:224 | the decoded text is what stands in the longer text exactly if the bytes are valid or cut inside a U+FFFD |
| Utf8.EncodedValid | crates/hyperbox-server/src/local_backend.rs:224 | encoded text is valid UTF-8, so whole characters are read back unchanged |
| Utf8.CharDecodes | crates/hyperbox-server/src/runtime.rs:1153 | the bytes of a character stand for its number, as section 3 of RFC 3629 has it |
| Utf8.EncodingInjective | crates/hyperbox-server/src/runtime.rs:1153 | different texts have different bytes |
| Logs.ReadProcessLog | crates/hyperbox-server/src/runtime.rs:387-482 | however log and process change between size probe, status probe and read, the chunk is the decoding of the log's slice at the offset; an eof passes everything written before the call; an empty chunk without eof has waited |
| Logs.ChunkExactly | crates/hyperbox-server/src/runtime.rs:473-474 | the chunk is the slice that was read exactly if that is valid UTF-8, it is the log between offset and next_offset exactly if the slice is valid or cut inside a U+FFFD, and next_offset is the slice's end exactly if its damage fits |
| Logs.SplitCharacterSkipped | crates/hyperbox-server/src/runtime.rs:473-474 | a read ending inside a character returns other bytes and a next_offset beyond the log |
| Logs.ReadProcessLogAll | crates/hyperbox-cli/src/main.rs:1737-1760 | terminates; the result is a prefix of the log with at least what was there before the call as long as no chunk was damaged, as for every ASCII log; for a process that had ended it is the whole log exactly if the log is readable chunk by chunk |
| Logs.StreamProcessLogs | crates/hyperbox-cli/src/main.rs:1762-1833 | terminates; both results are prefixes of their logs, and with stop_on_exit the whole of both if nothing is written after the end, as long as no chunk was damaged; for a process that had ended each is the whole log exactly if that log is readable |
| Logs.ReadFromExact | crates/hyperbox-cli/src/main.rs:1737-1760 | reading an unchanging log in chunks gives the log exactly if every chunk is valid or cut inside a U+FFFD |
| Logs.PiecesReadable | crates/hyperbox-cli/src/main.rs:1737-1760 | which holds for every log whose pieces of 8192 bytes are valid UTF-8 |
| Logs.DrainLog | crates/hyperbox-cli/src/main.rs:1798-1825 | draining after the end passes everything that was there when it began |
| Pool.WarmPoolManager.Fill | crates/hyperbox-server/src/pool.rs:39-50 | fresh sandboxes go to the back until the target is reached; a failure keeps what there is |
| Pool.WarmPoolManager.CheckoutSandbox | crates/hyperbox-server/src/pool.rs:52-66 | alone, it panics exactly if the pool is empty and the target zero; otherwise it hands out the front, now in use |
| Pool.WarmPoolManager.CheckoutOrRestore | crates/hyperbox-server/src/pool.rs:68-81 | hands out the front of the pool, or a restored sandbox if the pool is empty |
| Pool.WarmPoolManager.Release | crates/hyperbox-server/src/pool.rs:83-89 | what is in use goes to the back of the pool; anything else changes nothing |
| PoolRuns.RunsConserve | crates/hyperbox-server/src/pool.rs:39-89 | under every interleaving of any number of tasks every sandbox ever created or restored is in exactly one place: the queue, in use, or one task's hands |
| PoolRuns.ConservedSeparates | crates/hyperbox-server/src/pool.rs:39-89 | so the queue has no duplicates and the places are pairwise disjoint |
| PoolRuns.OneHolder | crates/hyperbox-server/src/pool.rs:52-89 | no sandbox has two holders when clients release only what they hold |
| PoolRuns.PoolIsSafe | crates/hyperbox-server/src/pool.rs:29-89 | both claims for every run from a new pool |
| PoolRuns.AloneNeverDies | crates/hyperbox-server/src/pool.rs:52-66 | a task that runs alone with a positive target never panics, however the backend answers |
| PoolRuns.RaceDies | crates/hyperbox-server/src/pool.rs:52-66 | two tasks that see the same last sandbox: one panics, whatever the target |
| PoolRuns.NewPoolDies | crates/hyperbox-server/src/pool.rs:29-89 | and two honest tasks of a new pool come there, whatever the target |
| PoolRuns.ForeignReleaseShares | crates/hyperbox-server/src/pool.rs:83-89 | releasing another client's sandbox gives it two holders |
| PoolRuns.NewPoolShares | crates/hyperbox-server/src/pool.rs:29-89 | which two clients of a new pool can do, whatever the target |
| ShellStream.ShellDelivers | crates/hyperbox-agent/src/daemon.rs:258-466 | in every interleaving each output's payloads are what the child wrote, in order; an exit code comes once and last, and is the one with which the child exited, or 1 if it could not be started; stopping there misses nothing of an output unless a read of that output failed during the run |
| ShellStream.RunsSound | crates/hyperbox-agent/src/daemon.rs:374-466 | the invariant behind it, kept by every step of every task |
| ShellStream.ErrorTextIsStderr | crates/hyperbox-cli/src/main.rs:2166-2174 | as long as the agent reports no error, what the client prints on stderr is exactly the stderr payloads |
| ShellStream.Attach | crates/hyperbox-cli/src/main.rs:2158-2184 | the client exits with the first exit code after printing all before it, and fails exactly if there is none or an error comes first |
| Quoting.ScanEscaped | crates/hyperbox-server/src/runtime.rs:1108-1110 | an escaped value is read by the shell as itself, whatever it contains |
| Quoting.ScanJoined | crates/hyperbox-server/src/runtime.rs:1100-1106 | a joined command is read as exactly its argument list, including empty arguments, quotes and newlines |
| Quoting.LaunchDeliversCommand | crates/hyperbox-server/src/runtime.rs:1014-1026 | both levels: the outer shell runs nohup /bin/sh -lc with the wrapped script as one argument, and the inner shell reads exactly the original command |
| Quoting.RenderKeepsMode | crates/hyperbox-server/src/runtime.rs:1014-1026 | text formatted from plain, double-quoted and escaped pieces leaves no quote open |
| Quoting.ScriptsCloseQuotes | crates/hyperbox-server/src/runtime.rs:1014-1026 | neither the launch script nor the wrapped script leaves a quote open, for all base directories, commands and paths |
| SessionKeys.ScopeInjective | crates/hyperbox-server/src/runtime.rs:1121-1156 | for newline-free templates equal hashed strings have equal templates, equal workspaces (absent counting as empty) and the same network |
| SessionKeys.HashedBytesTell | crates/hyperbox-server/src/runtime.rs:1121-1156 | for newline-free templates equal hashed bytes have equal templates, equal workspaces and the same network |
| SessionKeys.OneByteTellsApart | crates/hyperbox-server/src/runtime.rs:1112-1156 | sessions whose hashed bytes differ in one place have different names |
| SessionKeys.SlugReadable | crates/hyperbox-server/src/runtime.rs:1158-1180 | the readable part of a name has lower-case letters, digits and inner dashes only, fits the length, and shows text of that kind as it is |
| SessionKeys.ScopeEqualExactly | crates/hyperbox-server/src/runtime.rs:1121-1156 | two hashed strings are equal exactly if the networks are the same and template and workspace read the same one below the other |
| SessionKeys.NewlineInTemplateConfuses | crates/hyperbox-server/src/runtime.rs:1121-1156 | every template with a newline shares its key with the part before the newline and another workspace |
| SessionKeys.ConfusableExactly | crates/hyperbox-server/src/runtime.rs:1121-1156 | exactly the templates with a newline can be taken for shorter ones |
| SessionKeys.NameTellsHash | crates/hyperbox-server/src/runtime.rs:1153-1156 | equal session names have equal hashes |
| Fnv.OneByteNeverCollides | crates/hyperbox-server/src/runtime.rs:1112-1119 | FNV-1a never collides on inputs that differ in one byte |
| Fnv.RoundInjective | crates/hyperbox-server/src/runtime.rs:1112-1119 | a round is injective in the state and in the byte |
| Fnv.RoundLowByte | crates/hyperbox-server/src/runtime.rs:1112-1119 | a round takes the byte in before it multiplies |
| Fnv.HashOfLetter | crates/hyperbox-server/src/runtime.rs:1112-1119 | the published value for one input, which depends on offset basis and prime |
| Fnv.Fnv1a64 | crates/hyperbox-server/src/runtime.rs:1112-1119 | the loop computes the hash |
| Allowlists.AllowlistRoundTrip | crates/hyperbox-core/src/config.rs:113-145 | parsing gives only well-formed lists, and parsing the printed list gives the list back |
| Allowlists.ParseAllows | crates/hyperbox-core/src/config.rs:113-138 | parsing, with duplicates dropped, allows exactly the hosts the domains allow |
| Allowlists.EntryReadAnyhow | crates/hyperbox-core/src/config.rs:12-44 | blanks around an entry and the case of its letters make no difference |
| Allowlists.ParseAllowlist | crates/hyperbox-core/src/config.rs:113-126 | the loop with its set of patterns computes the parsed list |
| Dns.SidecarAgrees | crates/hyperbox-cli/src/apple_helper.rs:51-60 | the sidecar's `allows` over the printed list agrees with the allowlist on every host |
| Dns.ParseQName | crates/hyperbox-cli/src/apple_helper.rs:63-77 | the loop reads the name of the packet |
| Dns.QNameOfQuestion | crates/hyperbox-cli/src/apple_helper.rs:63-77 | behind any header a name encoded as in sections 3.1 and 4.1.2 of RFC 1035 is read as its lower-cased labels joined by dots |
| Dns.NxDomainAnswers | crates/hyperbox-cli/src/apple_helper.rs:80-85 | a refusal keeps id and name, is a response that is not truncated, with code 3, and has no records |
| Dns.SidecarEnforcesPolicy | crates/hyperbox-cli/src/apple_helper.rs:93-103 | on the wire a query is forwarded exactly if the allowlist allows the text that its labels are decoded to |
| Dns.TextSpellsNameExactly | crates/hyperbox-cli/src/apple_helper.rs:63-77 | that text spells the name on the wire exactly if all labels are ASCII and free of dots |
| Dns.ForeignByteForwarded | crates/hyperbox-cli/src/apple_helper.rs:63-103 | a byte that is not ASCII added to any label of any name changes the name but not the decision |
| Metrics.PercentileIsNearestRank | crates/hyperbox-server/src/metrics.rs:63-70 | the percentile of the sorted samples is the least sample that at least p percent do not exceed |
| Metrics.NearestRankUnique | crates/hyperbox-server/src/metrics.rs:63-70 | there is only one such sample |
| Metrics.RankInBounds | crates/hyperbox-server/src/metrics.rs:68-69 | the index is in bounds exactly for percentages up to 100 |
| Metrics.SummaryOrdered | crates/hyperbox-cli/src/main.rs:2886-2905 | p50 and p95 are the nearest-rank percentiles, min, p50, p95 and max are in order for all samples, and the outer two are the extremes |
| Metrics.MetricsCollector.Snapshot | crates/hyperbox-server/src/metrics.rs:48-60 | the snapshot reports nearest-rank percentiles and leaves the latencies as recorded |

## Left out

- API calls of the control plane are atomic. Interleavings of two calls at their await points, in which
  `start_process` could launch twice or `refresh_process` write back a stale record, are not modelled.
- Real processes, containers, micro-VMs, archives and the file system: the backend is what `World` allows.
  The inspect script may print any text, and the path checks of `write_file` are a refusal that may happen.
- gRPC, protobuf and the Python and TypeScript clients: field-by-field mapping.
- UUIDs are numbers from a counter, so fresh by construction. Times are integers from one clock that does
  not run backwards; the store's clock and the monotonic clock of `wait_process` are the same. The retention
  of finished processes is any positive number of days.
- A store call that fails leaves the store as it was.
- Servers.HyperboxServer.StartRun: the reasons to fail on a working backend are given for states in which no
  record names a sandbox id that was not handed out yet. A caller can start a process under any id, and the
  record stays behind; that such an id is later given to a sandbox is out of the question for UUIDs, but
  not for the counter that stands for them.
- Servers.HyperboxServer.ChooseSandbox: likewise.
- The text of the inspect, cancel and set-up scripts: they are told apart by the process or step they are for.
- The order of listings: sorting and `ORDER BY` are not modelled.
- Errors are tags. `is_affinity_absent_error` recognises two of them by tag instead of by message text.
- InMemoryStores.InMemorySnapshotStore.ClearSandboxBinding: gives all records it clears the same time, while
  the code reads the clock once for each; a sandbox is the session of at most one name, so there is one.
- The SQLite columns for exit codes and process ids hold unbounded integers, and schema creation and
  connections are not modelled; how ids, times and JSON are written is any writing that can be read back.
- `next_offset`, sizes and counts are unbounded; the scripts that measure and cut the log run to completion
  when the backend reports success. A log is only appended to.
- Logs.ReadProcessLogAll: assumes that only finitely much happens to a process before it ends, without which
  the client's loop need not end.
- Logs.StreamProcessLogs: while a process still writes, where its chunks end depends on timing, so the
  prefix claim is for runs in which no chunk was damaged, which an ASCII log guarantees; the exact condition
  on the log is given for a process that had ended.
- Quoting.LaunchDeliversCommand: reads the words of simple commands that need no expansion; of the parts of the
  scripts that use `$base` and `$code` it is only shown that they leave no quote open (`ScriptsCloseQuotes`).
- `checkout_or_restore` is given a closure; its result is a sandbox id not seen before.
- PoolRuns.RunsConserve: tasks are never cancelled between steps, and the automatic refill is one more task
  that calls fill.
- The capacity of the shell channel, which only delays senders; standard input of the child; the log lines.
- The base64 and JSON of the sidecar's environment, UDP and the upstream server.
- Metrics.SummaryOrdered: the mean, a floating-point division, is left out.
- Network rules for nft and ipset, template detection, set-up, command-line handling, the other helper
  commands and the benchmark drivers: single-branch readings.
