# A model of SAI Challenger

SAI Challenger drives a switch through the Switch Abstraction Interface: it creates, sets, reads and
removes objects named by OIDs and entries named by structured keys.  This project models the parts of
it that have to keep a graph of objects in order, and proves what they promise.

Everything rests on one abstract store (`SaiStore`): a map from handles (an OID, or a type and a key) to
attributes that may refer to OIDs.  Creating an object takes an id from a counter and may bring along
companion objects the switch makes by itself; removing an object is refused while a live one refers to
it; reading a list into a buffer that is too small overflows.  `Integrity` states what references a store
may hold, and `StoreMeaning` when each operation is accepted, with which status a read is refused (`RefusedReads`),
and what it leaves.

Values are represented by what the code can tell about their text: a `$name` reference, one OID, a list
of OIDs, a JSON object, or text without OIDs.  A raised exception, a failed assert included, is `None` or
`ok == false`.

## What is modelled

- **Record replay** (`ReplaySpec`, `ReplayKeys`, `Replayer`, `Renaming`, `ReplaySim`, `ReplayTheorem`, `ReplayBulk`,
  `ReplayExact`, `ReplayMeaning`).
  `Replayer` is the code's own form: `rec2vid`, the list of OIDs and the status are updated record by
  record and attribute lists are rewritten in place; every method is proved to do what its `ReplaySpec`
  function says.  The recorded switch is a second store, whose companions have OIDs the recording shows
  only in replies.  The relation `Sim` says that an injective, type-preserving map, defined on exactly the
  live recorded OIDs, takes the recorded store to the live one, and that `rec2vid` is the known part of
  it.  A record is `Resolvable` when each of its OIDs stands alone and has been shown before; single
  records look up `oid:0x0` too, bulk records do not.  The recorded switch may refuse a call; it is
  `Accepted` when the code goes on after the same refusal.  The OIDs of an entry key are replaced one
  after the other, as the code does it.  A key is `CleanKey` when no counterpart of one of its OIDs is a
  later one of its OIDs with another counterpart: exactly then the replacement is the renaming.  Keys with
  at most one OID of each type always are.  `ChainedReplayGoesWrong` is a recording whose replay raises
  nothing and yet does not end in the recorded configuration.  `ReplayMeaning` says, of the values themselves,
  which OIDs a read collects and a reply teaches, when an expected failure raises, and what `Resolvable` means.
- **Symbolic commands** (`Commands`, `CommandProcessor`, `CommandsUndo`, `CommandsNames`,
  `CommandsLeftovers`, `CommandsMeaning`).  A command is
  resolved against the registry to at most one call.  Cleanup is derived from the creates as the code does
  it.  It does not always undo a script whose references point to earlier commands only:
  `EarlierNamesAreNotEnough` gives such a script, and `CleanupUndoesSetup` the exact condition.
- **Entry keys as text** (`EntryKey`, `KeyText`, `VidText`, `ReplayText`).  The code replaces OIDs in the text of a
  key one after the other, everywhere.  `EntryKey` is about any text: it says exactly when this replaces all
  OIDs at once, and `PrefixExample` and `ChainExample` show keys for which it does not.  `KeyText` prints keys
  as `TYPE:{"name":"value",...}` and proves that the text update is the update of `ReplaySpec` when no OID is
  found in the text of another; `VidText` proves that for virtual ids with counters below 2^44 and type numbers
  of one or two hex digits of which the last is not zero.
- **Remote commands and calls** (`RemoteCommand`, `RedisRpc`, `ZmqRpc`).  Each access to a shared list is
  one step of a state machine; a run is any sequence of steps of the two sides.  A ZMQ call can also end in
  another socket error, with the server reachable or not; the server may carry out any waiting request
  (`RequestIsServed`).
- **Bridge ports, topologies, ports** (`BridgePorts`, `TopologyLists`, `TopologyNames`, `TopologyLayouts`,
  `TopologyTable`, `TopologyBuilder`, `TopologyLearning`, `DefaultVlan`, `PortLinks`, `Npu`, `Layout`).  The switch may learn an address on any bridge port whose admin state is true, or age out a
  dynamic entry, between any two calls of a bridge port removal (`HappensExactly`).  `Topology` has its builder methods, the four
  fixed layouts and their teardown; its ghost field `base` is the store beside the tracked objects, in which
  builders change VLAN ids of ports and default routes only.  `Npu.Home` says that every default bridge port is
  bound to a live port and in the default VLAN once; each run of a layout starts from it and ends in it, so
  that `Session` can go on with the next.  `TopologyLayouts` lists the calls of each layout; `Holds` says that what
  they make is there, and `TopologyTable` is the table of the layouts, row by row.  A topology has fields for the
  first 24 ports only.  `TopologyLearning` runs the teardown with events between any two calls: a VLAN is removed
  before the bridge ports are flushed, so an address learned in it is in the way.
- **Texts** (`Text`, `Numbers`, `RecordText`, `ListText`, `Vid`).

Where the documentation and the code differ, the model follows the code: a created entry is registered by
its key, although the documentation of `process_command` speaks of an OID only; and LAG 2 joins VLAN 20 and LAG 5
joins VLAN 30 untagged, although the table at the head of `sai_ptf_topology.py` has them tagged.

Dafny's automatic induction is off in every lemma that would get it; each inductive proof is written out.

## Model

| member | source | states |
|---|---|---|
| ReplayTheorem.RunSimulates | common/sai.py:840-876 | for every recording a switch can produce, refused calls included, whose entry keys are clean when they are met: no exception if and only if each record names only OIDs shown before and was accepted; then the live store is the recorded store under an injective, type-preserving renaming, of which `rec2vid` is the known part |
| ReplayTheorem.StepSimulates | common/sai.py:850-874 | the same for one record of any kind, from any pair of related states; an unknown OID raises whether keys are clean or not, and the renaming stays what it was for every OID that lives on |
| ReplayBulk.ReplayTheoremFromStart | common/sai.py:840-876 | the simulation from a cleared switch, at every prefix of a recording whose entry keys are clean, or name at most one OID of each type |
| ReplayBulk.ReplayIsDeterministicUpToNames | common/sai.py:840-876 | two replays of one such recording, from any two counters, both raise or end in the same configuration up to the names of OIDs |
| ReplayBulk.TypedRunIsClean | common/sai.py:878-908 | a recording whose entry keys name at most one OID of each type meets only clean keys, whatever ids the live switch gives out |
| ReplaySim.RewriteAttrsIsRenaming | common/sai.py:678-681 | looking up the OIDs of an attribute list raises exactly if one is unknown, and otherwise renames the whole list |
| ReplaySim.RewriteKeyIsRenaming | common/sai.py:878-908 | updating a key raises exactly if an OID in it is unknown, and otherwise renames it if and only if the key is clean |
| ReplayKeys.ExactlyCleanKeys | common/sai.py:892-902 | replacing the OIDs of a key one after the other raises exactly if one is unknown; otherwise it replaces all at once if and only if no counterpart is a later OID of the key with another counterpart |
| ReplayExact.EntryCreateExactly | common/sai.py:671-694 | an accepted entry create with known OIDs never raises in the replay, and its end is related to the recorded one, by any renaming at all, if and only if the key is clean |
| ReplayExact.EntryRemoveExactly | common/sai.py:769-773 | with no read pending, an accepted entry remove is replayed to a related state if and only if the key is clean |
| ReplayExact.ChainedReplayGoesWrong | common/sai.py:892-902 | a valid recording of two objects and an entry, of a type made up for the example, that names both: the replay raises nothing, and no renaming relates its end to the recorded one; keys with at most one OID of each type are always clean (`TypedRunIsClean`) |
| ReplaySim.CreateSimulates | common/sai.py:683-694 | both switches accept or refuse a create alike, and afterwards correspond under the renaming extended by the new object and its companions |
| ReplayTheorem.CreateObjectSim | common/sai.py:671-694 | a replayed object create keeps the simulation, refused or not, and learns the new OID if accepted |
| ReplayTheorem.CreateEntrySim | common/sai.py:671-694 | a replayed entry create raises exactly if an OID is unknown, and keeps the simulation if its key is clean |
| ReplayMeaning.CreateSetsStatus | common/sai.py:683-685 | a replayed create succeeds exactly if its object is not there and all it names is; refused, it does not raise, leaves its status, and changes neither store nor `rec2vid` |
| ReplayTheorem.SetOneSim | common/sai.py:736-742 | a replayed set with a clean key raises exactly if an OID is unknown or the recorded switch refused it, and keeps the simulation |
| ReplayTheorem.RemoveOneSim | common/sai.py:769-773 | a replayed remove with a clean key has the recorded status; an OID that dies is taken out of `rec2vid` and out of the renaming, which is otherwise the old one |
| ReplayTheorem.GetSim | common/sai.py:796-811 | a replayed read raises exactly if an OID of its key is unknown; with a clean key its reply holds the renamed OIDs of the recorded reply |
| ReplayMeaning.ReadCollects | common/sai.py:796-811 | a read succeeds exactly if the live object has each attribute asked for and the buffer is large enough; then it collects the OIDs of the values the object has, in order, list elements one by one; a refused read collects nothing |
| ReplayTheorem.ReplySim | common/sai.py:813-833 | a recorded reply teaches `rec2vid` the live counterpart of each of its OIDs, companions included |
| ReplayMeaning.ReplyTeachesCounterparts | common/sai.py:813-833 | in a simulation, after a recorded reply an OID is known exactly if it was before or the reply shows it, alone or in a list; each OID shown leads to its live counterpart |
| ReplayMeaning.ReplyTeachesInOrder | common/sai.py:817-833 | from any state: a reply raises exactly if it shows another number of OIDs, list elements counted one by one, than have been collected; otherwise each OID is known by the one at its place, what else was known stays, and nothing is left collected |
| ReplayTheorem.BulkCreateObjectsSim | common/sai.py:696-734 | a bulk create of objects raises exactly if an OID is unknown or the recorded switch refused it, and keeps the simulation; its objects get consecutive live ids |
| ReplayTheorem.BulkCreateEntriesSim | common/sai.py:696-725 | the same for a bulk create of entries whose keys are clean |
| ReplayTheorem.BulkSetSim | common/sai.py:744-767 | the same for a bulk set |
| ReplayTheorem.BulkRemoveSim | common/sai.py:775-794 | the same for a bulk remove, which drops exactly the dead OIDs |
| ReplayMeaning.ExpectRaisesExactly | common/sai.py:835-838 | an expected failure raises exactly if the last create or read neither failed that way nor succeeded, or there was none |
| ReplayMeaning.StatusIsOfCreateOrRead | common/sai.py:856-872 | no record but a create or a read changes the status |
| ReplayMeaning.ResolvableIsShownBefore | common/sai.py:671-802 | a record is resolvable exactly if every value with an OID, at an odd place of its attribute lists or anywhere in its keys, has been shown as it stands; `oid:0x0` is exempt in bulk records alone; a bulk removal forgets as it goes |
| ReplayBulk.ReplaysAgree | common/sai.py:840-876 | two live switches that simulate one recorded store hold the same configuration under one renaming, which also relates the two `rec2vid` |
| ReplayBulk.BulkCreateRefines | common/sai.py:696-734 | for a bulk create the recorded switch may have refused: it and its single creates both succeed if and only if it was accepted and every OID in the batch, null ones included, was known before it; then they leave the same configuration and the same OIDs of `rec2vid` up to names |
| ReplayBulk.BulkEntriesRefine | common/sai.py:696-725 | the same for a bulk create of entries whose keys are clean |
| ReplayBulk.BulkSetRefines | common/sai.py:744-767 | the same for a bulk set whose entry keys are clean |
| ReplayBulk.BulkRemoveRefines | common/sai.py:775-794 | a bulk remove whose entry keys are clean raises exactly when its single removes do, and otherwise does the same |
| Renaming.CreateStatusCommutes | common/sai_client/sai_redis_client/sai_redis_client.py:156-180 | a renamed create is accepted exactly when the original is |
| Renaming.RemoveCommutes | common/sai_client/sai_redis_client/sai_redis_client.py:182-193 | a renamed remove has the same status and leaves the renamed store |
| Renaming.SetCommutes | common/sai_client/sai_redis_client/sai_redis_client.py:195-207 | a renamed set has the same status and leaves the renamed store |
| Renaming.GetCommutes | common/sai_client/sai_redis_client/sai_redis_client.py:209-227 | a renamed read has the same status and the renamed reply |
| StoreMeaning.CreatedExactly | common/sai_client/sai_redis_client/sai_redis_client.py:156-180 | a create is accepted exactly if the object is not there, the list has names and values by turns, and what its values and, for an entry, its key name is there |
| StoreMeaning.LiveExactly | common/sai_client/sai_redis_client/sai_redis_client.py:156-180 | what a value names is there exactly if each OID it mentions, in lists and at any depth of objects, is null or that of a live object |
| StoreMeaning.AttrsAreGiven | common/sai_client/sai_redis_client/sai_redis_client.py:156-180 | an object gets of each name the last value its list gives, and nothing else |
| StoreMeaning.SetExactly | common/sai_client/sai_redis_client/sai_redis_client.py:195-207 | a set is accepted exactly if the object is there and the pair is a name and a value that names what is there; then that attribute of that object changes and nothing else |
| StoreMeaning.RemovedExactly | common/sai_client/sai_redis_client/sai_redis_client.py:182-193 | a remove is accepted exactly if the object is there and, not being an entry, nothing refers to it; then it goes and nothing else |
| StoreMeaning.ReadExactly | common/sai_client/sai_redis_client/sai_redis_client.py:209-227 | a read succeeds exactly if each attribute is there and fits the buffer given with it, and then pairs each name with its value |
| Replayer.Replayer.RewriteInPlace | common/sai.py:678-681 | the loop rewrites the list in place to the looked-up list, and raises exactly at an unknown OID |
| Replayer.Replayer.UpdateEntryKeyOids | common/sai.py:892-902 | the loop replaces the OIDs of a key one after the other and raises at an unknown one |
| Replayer.Replayer.ProcessCreate | common/sai.py:671-694 | a single create does exactly its step: switch, `rec2vid` and status |
| Replayer.Replayer.ProcessSet | common/sai.py:736-742 | a single set does exactly its step |
| Replayer.Replayer.ProcessRemove | common/sai.py:769-773 | a single remove does exactly its step |
| Replayer.Replayer.ProcessGet | common/sai.py:796-811 | a read collects the OIDs of its reply and its status |
| Replayer.Replayer.ProcessReply | common/sai.py:813-833 | a recorded reply is matched with the collected OIDs by position, and empties them |
| Replayer.Replayer.ProcessBulkCreateObjects | common/sai.py:696-732 | all lookups come before the bulk call, all new names after it |
| Replayer.Replayer.ProcessBulkCreateEntries | common/sai.py:696-725 | the bulk create of entries does exactly its step |
| Replayer.Replayer.ProcessBulkSet | common/sai.py:744-767 | the bulk set does exactly its step |
| Replayer.Replayer.ProcessBulkRemove | common/sai.py:775-792 | keys are popped one by one before the bulk call |
| Replayer.Replayer.ApplyRec | common/sai.py:840-876 | the whole replay is the run of its records from a cleared switch, up to the first exception |
| CommandsUndo.CleanupUndoesSetup | common/sai.py:253-267 | for scripts of creates, reads and sets of their own objects under fresh names: cleanup succeeds if and only if no object made is referred to by itself or by one made before it; then store and registry are what they were |
| CommandsUndo.BackwardScriptsCleanUp | common/sai.py:253-267 | cleanup always undoes a script whose sets name only objects older than the one they change |
| CommandsUndo.EarlierNamesAreNotEnough | common/sai.py:253-267 | references to earlier commands alone do not suffice: a script of three commands whose cleanup raises |
| CommandsUndo.GoneNameStopsCleanup | common/sai.py:165-167 | cleanup raises when a name made by the script is no longer registered |
| CommandsUndo.SetupBuilds | common/sai.py:127-217 | after a successful script the registry holds exactly its names on top of the old ones, the store exactly its objects on top of the old ones, and each undo will find its object |
| CommandsUndo.UndoAll | common/sai.py:255-265 | removing in reverse order succeeds if and only if the objects are layered, and restores store and registry |
| CommandsUndo.UndoResolves | common/sai.py:80-109 | a cleanup command, with the key of its create, resolves to the object that create made |
| CommandsUndo.CreateAddsOne | common/sai.py:186-192 | a successful create adds one new object with the substituted attributes, and registers it under its name |
| CommandsUndo.SetChangesOne | common/sai.py:214-215 | a successful set writes a live value to one attribute of one object that is there, and nothing else |
| CommandsUndo.ReadsWhatIsThere | common/sai.py:204-212 | a successful get answers each name, in order, with the value in the store, and changes nothing |
| CommandsNames.NamesDoNotMatter | common/sai.py:36-217 | for a list whose references are to registered names when they are met: under any injective renaming of names and references it makes the same calls in the same order, with the same results, and fails at the same place, leaving the same switch and registry |
| CommandsLeftovers.LeftoversAreRenamed | common/sai.py:36-217 | for any list at all: under any injective renaming it makes the same calls in the same order, has the same results, fails at the same place and leaves the same switch and registry, but for the renaming of the references that are left because their names are not registered |
| CommandsNames.CallRenames | common/sai.py:63-125 | a renamed command whose references are registered resolves to the same call |
| CommandsLeftovers.CallAlike | common/sai.py:63-125 | any renamed command resolves to the renamed call |
| CommandsNames.ResolvedInOnePass | common/sai.py:95-121 | one pass replaces every reference to a registered name, at the top of a key as in attributes, by the registered OID or, without one, the registered key; nothing else is touched, and a second pass changes nothing |
| CommandsMeaning.ReferenceIsWhatWasMade | common/sai.py:95-121 | after any successful run, a later command that refers to a name under which the run has made an object has that object in its place: its OID, or the key of an entry, in attributes as in the fields of a key |
| CommandsMeaning.TargetIsMeant | common/sai.py:78-109 | a command with a type acts on what its own key says, else the key of its name, else its own OID, else the OID of its name, else on the type alone; a key or OID of another kind raises |
| CommandsMeaning.NameAlone | common/sai.py:78-109 | a command that gives no more than a registered name acts on the object registered under it |
| CommandsMeaning.CallIsMeant | common/sai.py:153-184 | a command makes a call exactly if it has a name, a known operation, a target and, but for a create, a registered name; the call is that of its operation with its attributes resolved |
| CommandsMeaning.CommandSucceedsExactly | common/sai.py:186-217 | a command succeeds exactly if its call is accepted, said of each operation in terms of what is in the store; a command that raises leaves the store as it was, and the registry but for a removal |
| CommandsMeaning.CallsMakeTheRun | common/sai.py:253-267 | what a run does to the switch is what its calls do in order, and a run that raises nothing makes one call for each command |
| CommandsNames.RegistryAgreesWithStore | common/sai.py:127-217 | after any run of successful commands the names it registered correspond one to one to the objects made and not removed, all of them in the store |
| CommandsNames.RemovalKeepsAgreement | common/sai.py:194-202 | a removal keeps that correspondence if and only if it removes what its name stands for, or nothing the commands made |
| CommandsNames.EntryTellsObject | common/sai.py:188-191 | a registry entry holds the type and exactly one of OID and key, and tells its object from all others |
| CommandProcessor.CommandProcessor.ProcessCommand | common/sai.py:127-217 | one command makes the call it resolves to and updates the registry; a removal forgets its name even when it fails |
| CommandProcessor.CommandProcessor.FindTarget | common/sai.py:78-109 | the target of a command from its own arguments or the registered ones |
| CommandProcessor.CommandProcessor.SubstituteKey | common/sai.py:98-109 | the fields of a key with registered references replaced, in order |
| CommandProcessor.CommandProcessor.CleanupCommands | common/sai.py:254-264 | the removes of the creates, last create first |
| CommandProcessor.CommandProcessor.ProcessCommands | common/sai.py:253-267 | both modes run their commands in order up to the first exception |
| EntryKey.SequentialIsSimultaneous | common/sai.py:892-902 | replacing one OID after the other replaces all at once, if no OID that changes is found in another token or in the new value of an OID before it |
| EntryKey.ExactlyWhenNoChain | common/sai.py:892-902 | for OIDs and new values of any lengths, none a proper part of another: this holds if and only if no OID's new value is a later OID of the key that changes itself |
| EntryKey.ExactlyWhenNeither | common/sai.py:892-902 | for OIDs of which one may be the front of another: it holds if and only if there is no such chain and no OID that changes is the front of a different one that no replacement before it has changed |
| EntryKey.RaisesIffUnknown | common/sai.py:899-900 | the update raises if and only if an OID of the key is unknown |
| EntryKey.UpdateKey | common/sai.py:892-902 | the two loops of the code compute that update |
| EntryKey.ChainExample | common/sai.py:892-902 | the text of a key, of a made-up entry type, whose first OID becomes its second, and is then replaced again |
| EntryKey.PrefixExample | common/sai.py:892-902 | the text of a key, of a made-up entry type, with OIDs of 13 and 14 digits, of which one is the beginning of the other |
| KeyText.TextUpdateIsKeyUpdate | common/sai.py:892-902 | if no OID is found in the text of another, the update of the text of a key gives the text of the key updated value by value, and raises exactly when that does |
| VidText.UsualIsLegible | common/sai_client/sai_redis_client/sai_redis_client.py:724-736 | of virtual ids with counters below 2^44 and type numbers of at most two hex digits, the last not zero, none is found in the text of another |
| ReplayText.TextOfKeyIsRenamed | common/sai.py:892-902 | in the middle of a replay, with such ids, the code turns the text of a clean key into the text of the renamed key, and raises exactly if an OID of it was not shown before |
| RemoteCommand.EachCommandRunsOnce | common/sai_client/sai_redis_client/sai_redis_client.py:767-788 | in every interleaving without a timeout: commands run in order and at most once, each answer is the status of its own command, and between calls all have run once and both lists are empty |
| RemoteCommand.StatusIsReturned | common/sai_client/sai_redis_client/sai_redis_client.py:779-788 | a poll that finds a status ends the call with it, whatever attempts are left and whatever the listener does meanwhile |
| RemoteCommand.LateExactly | common/sai_client/sai_redis_client/sai_redis_client.py:779-788 | a call times out exactly if its last poll, if it makes any, finds nothing |
| RemoteCommand.CallEnds | common/sai_client/sai_redis_client/sai_redis_client.py:779-785 | a call is over after at most its number of attempts, whatever the listener does, and is never stuck before |
| RemoteCommand.NoneLost | common/sai_client/sai_redis_client/sai_redis_client.py:779-785 | up to the last poll no attempt is skipped |
| RemoteCommand.AnswersFit | scripts/redis-cmd-listener.py:97-113 | in any run: orders that ran are answered ok, unknown or malformed commands err, and a stop only if the last start was not yet stopped, and then ok |
| RemoteCommand.AgentNext | scripts/redis-cmd-listener.py:97-113 | a query is answered ok exactly when the host says yes |
| RemoteCommand.CommandIsCarriedOut | scripts/redis-cmd-listener.py:79-116 | a command the listener looks at is taken, run once and answered as fits it, unless it is a stop with no agent running or raises where nothing is caught; exactly then the listener dies |
| RemoteCommand.LateStatusIsTakenForAnother | common/sai_client/sai_redis_client/sai_redis_client.py:779-788 | after a timeout the status of one command can be returned for another that has not run |
| RemoteCommand.RecoversAfterTimeouts | common/sai_client/sai_redis_client/sai_redis_client.py:767-788 | whatever timed out before: from a state in which the listener looks and finds nothing, even with late statuses lying about, every command runs once and in order and each answer is the status of its own command, as long as no further call times out |
| RemoteCommand.SettledAfterTimeout | common/sai_client/sai_redis_client/sai_redis_client.py:767-788 | such a state comes about after a timeout, once the late status has been pushed |
| RemoteCommand.ListenerKeepsInv | scripts/redis-cmd-listener.py:79-116 | reading, deleting, executing and answering, each a step of its own, keep the invariant of the protocol |
| RemoteCommand.ClientKeepsInv | common/sai_client/sai_redis_client/sai_redis_client.py:767-788 | so do the steps of the client as long as it does not time out |
| RedisRpc.ResponsesMatchRequests | common/sai_client/sai_redis_client/sai_redis_client.py:111-154 | while all calls complete, each returns the three response elements of its own request in order, also when they arrive one by one, and leaves both lists empty |
| RedisRpc.FullResponseIsReturned | common/sai_client/sai_redis_client/sai_redis_client.py:142-154 | a poll that finds the three elements ends the call with them, whatever attempts are left and whatever the server does meanwhile |
| RedisRpc.OnlyTimeoutsFail | common/sai_client/sai_redis_client/sai_redis_client.py:111-154 | in a run from the start in which no call finds fewer than three elements with its last attempt, no call fails and each request is answered by its own response |
| RedisRpc.CallEnds | common/sai_client/sai_redis_client/sai_redis_client.py:143-149 | the poll loop ends by its attempts |
| RedisRpc.NoneLost | common/sai_client/sai_redis_client/sai_redis_client.py:143-147 | up to the last poll no attempt is skipped: a call polls as often as it may |
| RedisRpc.LateResponseIsTakenForAnother | common/sai_client/sai_redis_client/sai_redis_client.py:143-154 | after a call that failed, the next can be given the response to the earlier request |
| ZmqRpc.RepliesAlwaysMatch | common/sai_client/sai_zmq_client/sai_zmq_client.py:86-117 | in every run, timeouts, socket errors and losses included, each answer belongs to the request of its own call, and no request is carried out twice |
| ZmqRpc.ReplyIsReturned | common/sai_client/sai_zmq_client/sai_zmq_client.py:99-117 | after any run a reply on the socket of the call under way can be received; the call returns it as the answer to its own request, and the next can begin |
| ZmqRpc.CallsCanEnd | common/sai_client/sai_zmq_client/sai_zmq_client.py:104-113 | a request can be sent exactly if no call is under way and the socket owes no reply; a timeout of sending or receiving ends the call and makes room for the next; so does another error if the server can be reached, and otherwise only if the socket owed no reply |
| ZmqRpc.ClientKeepsInv | common/sai_client/sai_zmq_client/sai_zmq_client.py:99-113 | sending, receiving, failing and replacing the socket keep: a message on the current socket is the request for which it owes a reply, which is that of the call under way if there is one |
| ZmqRpc.ReplyWithoutCall | common/sai_client/sai_zmq_client/sai_zmq_client.py:110-113 | after an error with the server out of reach a reply can come in on the socket in use with no call waiting for it; the next call cannot send, and only fail |
| BridgePorts.NothingLeftDangling | common/sai_npu.py:183-197 | with the switch learning and ageing between any two calls: the removal succeeds if and only if nothing but dynamic entries referred to the port; afterwards nothing refers to it; the calls drop nothing else |
| BridgePorts.RemovesUnpinned | common/sai_npu.py:183-197 | the same without events, with the resulting store |
| BridgePorts.FlushKeeps | common/sai_client/sai_redis_client/sai_redis_client.py:645-670 | flushing a disabled port leaves no dynamic entry on it and every other entry as it was |
| TopologyBuilder.Topology.BuildAndTearDown | topologies/sai_ptf_topology.py:150-164 | whatever builders are called, and wherever one raises, teardown restores the store but for the VLAN ids of ports that were set on the way |
| TopologyBuilder.Topology.Teardown | topologies/sai_ptf_topology.py:159-162 | every tracked object is removed, router interfaces and bridge ports last created first and the others in order, each kind once nothing needs it; the lists are empty and the store is what is beside them |
| TopologyBuilder.Topology.SetPortVlan | topologies/sai_ptf_topology.py:403-404 | the VLAN id of a port is set, nothing else changes, and the tracked objects are as before |
| TopologyBuilder.Topology.Setup | topologies/sai_ptf_topology.py:386-451 | a layout raises exactly if it needs a default route that is there already; otherwise the whole table of the layout is there under its names, row by row, with the tagging mode of each member, VLAN ids 10 and 20 are on ports 0 and 2 and 10 on LAG 1, the two drop routes are there if it is an L3 layout, and nothing else beside the tracked objects has changed |
| TopologyTable.LayoutIsTable | topologies/sai_ptf_topology.py:386-451 | what the calls of a layout make is its table: bridge ports that are up, VLANs with their ids, members with the full names of their modes, LAGs with their ports, interfaces of their types in the default router |
| Attributes.TaggingModeIsMeant | topologies/sai_ptf_topology.py:206-214 | a text is read as the mode it means: its own text if it begins like a full name, else one of the two short names in letters of any case; any other text raises |
| TopologyBuilder.Topology.TeardownLayout | topologies/sai_ptf_topology.py:150-162 | after such a layout every call of the teardown is accepted, the tracked objects and the routes are gone, and the VLAN ids of ports 0 and 2 are 0 |
| TopologyBuilder.Topology.CreateRoute | topologies/sai_ptf_topology.py:366-379 | a default route is added exactly if it was not there; otherwise it is refused and nothing changes |
| TopologyBuilder.Topology.DestroyDefaultRoutes | topologies/sai_ptf_topology.py:381-384 | the two default routes go, and nothing else |
| TopologyBuilder.Topology.Remove | topologies/sai_ptf_topology.py:334-364 | each single removal is accepted: the object is live and nothing refers to it |
| TopologyBuilder.Topology.CreateBridgePorts | topologies/sai_ptf_topology.py:216-229 | raises exactly at an index without a port; the new bridge ports are appended in order, bound to the ports of the given indices and up; each index then names such a bridge port of its port, and no other field changes |
| TopologyBuilder.Topology.CreateLagWithMembers | topologies/sai_ptf_topology.py:231-258 | raises exactly at an index without a port; one LAG, a bridge port bound to it, and for each index in order a member binding that port to the LAG, tracked and named; nothing older changes, and no other field |
| TopologyBuilder.Topology.CreateVlanWithMembers | topologies/sai_ptf_topology.py:260-279 | raises exactly if a member is not live or its text means no tagging mode; one VLAN with that id and, in order, one member per bridge port with the mode its text means, tracked and named by position; nothing older changes, and no other field |
| TopologyBuilder.Topology.CreateRoutingInterfaces | topologies/sai_ptf_topology.py:281-332 | raises exactly if a configuration has an unknown kind, an unset field, or something that is not live; one router interface per configuration in order, of its type, on its VLAN, LAG or port and in its virtual router or the default one, known under its name or followed by a later one of that name; nothing older changes |
| TopologyBuilder.Topology.Apply | topologies/sai_ptf_topology.py:216-332 | a builder call raises exactly if an index has no port, a field of a bridge port, VLAN or LAG is not set or its object is not live, a tagging mode or an interface kind is none; what it makes is then there under its names, and no other field changes |
| TopologyBuilder.Topology.PlaceAll | topologies/sai_ptf_topology.py:386-451 | builder calls that provide for one another and set different fields never raise, and what each has made is there at the end |
| TopologyLayouts.ProvidedIsPossible | topologies/sai_ptf_topology.py:386-451 | a call whose ports are among the first 24 and whose VLANs, LAGs and bridge ports were made before it does not raise |
| TopologyNames.MadeStays | topologies/sai_ptf_topology.py:216-332 | what a builder call has made and named is left alone by later calls that set other fields and by changes of VLAN ids |
| TopologyBuilder.Topology.DestroyRoutingInterfaces | topologies/sai_ptf_topology.py:360-364 | all router interfaces go, and the other lists still hold exactly the objects left |
| TopologyBuilder.Topology.DestroyVlanMembers | topologies/sai_ptf_topology.py:350-354 | all VLAN members go, once there are no router interfaces |
| TopologyBuilder.Topology.DestroyVlans | topologies/sai_ptf_topology.py:356-358 | all VLANs go, once they have no members |
| TopologyBuilder.Topology.DestroyBridgePorts | topologies/sai_ptf_topology.py:334-338 | all bridge ports go, once they are in no VLAN |
| TopologyBuilder.Topology.DestroyLagMembers | topologies/sai_ptf_topology.py:340-344 | all LAG members go |
| TopologyBuilder.Topology.DestroyLags | topologies/sai_ptf_topology.py:346-348 | all LAGs go, once nothing is on them |
| TopologyLearning.TeardownWhileLearning | topologies/sai_ptf_topology.py:159-162 | with learning and ageing between any two calls of the teardown: every removal is accepted if and only if, whenever a VLAN is due, no dynamic entry names it; then the store is what it was but for dynamic entries |
| TopologyLearning.LearnedAddressKeepsVlan | topologies/sai_ptf_topology.py:159-162 | one VLAN, one bridge port and one address learned before the VLAN is due: the teardown is refused; without the address it is not |
| TopologyLists.Adds | topologies/sai_ptf_topology.py:216-332 | an object created with references to later ranks only, and listed, keeps: the lists hold exactly what was added to the store |
| TopologyLists.Removes | topologies/sai_ptf_topology.py:334-364 | an object of the lowest rank left can be removed, and the rest stays exactly listed |
| TopologyLists.RemovesPort | common/sai_npu.py:183-197 | the three calls for a bridge port come to the same |
| Npu.Npu.SetSkuMode | common/sai_npu.py:254-325 | from an aligned start nothing in use is removed; afterwards one port per SKU port, bridge port i bound to port i, up, and in the default VLAN exactly once, untagged, whichever the switch added itself; the ports are aligned again and, if the default VLAN had no foreign members, the VLAN has exactly the new ports, and is ready to be detached; all that is gone belonged to one of the old ports |
| Npu.Npu.RemoveAllPorts | common/sai_npu.py:256-267 | every removal on the way is accepted, no port or bridge port is left, and nothing goes but them, their memberships and serdes, and dynamic entries on the removed bridge ports |
| Npu.Npu.CreateBridgePorts | common/sai_npu.py:305-314 | one bridge port per port, in order and up, in the default VLAN exactly if the switch adds it by itself |
| Npu.Npu.AddMissingMembers | common/sai_npu.py:316-325 | every bridge port ends up with exactly one membership; those it had stay, and each that is added is untagged |
| Npu.Npu.EnsureMembers | common/sai_npu.py:78-84 | the same at switch start, for any list of live bridge ports, repeated ones included; members that were there stay, new ones are untagged |
| Npu.Npu.GetVlanMember | common/sai_npu.py:170-176 | finds a membership of the bridge port if and only if there is one |
| Npu.Npu.SaveAndRemoveMembers | topologies/sai_ptf_topology.py:172-182 | notes port and tagging mode of every member, and removes exactly the members |
| Npu.Npu.RemoveDefaultBridgePorts | topologies/sai_ptf_topology.py:166-170 | removes the default bridge ports and nothing else but dynamic entries on them |
| Npu.Npu.DetachDefaults | topologies/sai_ptf_topology.py:166-182 | the default VLAN is noted and emptied; its members, the default bridge ports and dynamic entries on those are all that goes |
| Npu.Npu.RestoreDefaults | topologies/sai_ptf_topology.py:184-203 | the default VLAN holds exactly the noted ports with their tagging modes, on bridge ports with new ids that are up |
| Npu.Npu.SaveAndRestore | topologies/sai_ptf_topology.py:166-203 | taking the default VLAN apart and restoring it keeps its ports and tagging modes, on new bridge ports, and everything else but dynamic entries on the old ones; the start condition holds again |
| Layout.SetupAndTeardown | topologies/sai_ptf_topology.py:118-164 | a whole layout raises exactly if there are fewer than 24 ports or a default route it needs is there already; otherwise the default VLAN keeps its ports and tagging modes on new bridge ports, the VLAN ids of ports 0 and 2 are 0, everything else but dynamic entries on the old bridge ports is as before, and the start condition holds again |
| Layout.BuildersAndTeardown | topologies/sai_ptf_topology.py:118-203 | the same around any history of builder calls, wherever one raises, with VLAN ids of the first 24 ports all that may differ; with fewer ports nothing happens |
| Layout.Session | tests/native/test_vlan.py:42-48 | the ports are rebuilt for an SKU and then layouts come and go, any number in any order: no set-up raises exactly if there are none or the SKU has 24 ports and the routes of each are not there at the start; then the next can begin after each, and the ports of the SKU are there with their attributes but for the VLAN id and are, untagged, exactly the ports of the default VLAN |
| Layout.FreshSwitch | common/sai_npu.py:254-325 | on a switch without ports, the ports of any SKU are built, aligned and, untagged, exactly the ports of the default VLAN, and a session can follow |
| DefaultVlan.PortGoes | common/sai_npu.py:258-261 | a membership and then its bridge port can be removed, with dynamic entries on that port and nothing else |
| DefaultVlan.RestGoes | common/sai_npu.py:262-265 | then the serdes and the port can be removed |
| RecordText.ParsePrint | common/sai.py:910-937 | a printed record, single or bulk, of non-empty fields without bars or outer white space is parsed back |
| RecordText.ParsePrintAll | common/sai.py:910-937 | a printed recording of any length is parsed back, every record under the number of its line |
| RecordText.ParsePadded | common/sai.py:926-937 | white space at the ends of the line and of its pieces makes no difference |
| RecordText.AnyLineEnds | common/sai.py:926-937 | a recording is read the same whichever of the three line ends it has |
| RecordText.ParseRec | common/sai.py:922-937 | the loop over the lines of a recording computes its records, numbered from 1 |
| RecordText.LineData | common/sai.py:927-935 | the loop over the pieces of a line computes the parse of that line |
| RecordText.ReadBackExactly | common/sai_client/sai_redis_client/sai_redis_client.py:790-801 | serialized bulk attributes are read back as they were if and only if there is a pair, every name has a value, and no item has a bar or an equals sign |
| RecordText.BulkAttrSerialize | common/sai_client/sai_redis_client/sai_redis_client.py:790-801 | the loop computes that serialization |
| RecordText.AttrsOf | common/sai.py:703-705 | the loop computes that reading |
| RecordText.DeserializeCutsAtBoth | common/sai.py:703-705 | cutting at bars and then at equals signs is cutting at both |
| ListText.ToListOfMakeList | common/sai.py:522-523 | reading a made list gives its copies if and only if there are none or the element has no comma |
| ListText.ToListOfObjectList | common/sai_data.py:146-153 | the text of an object list is read as the texts of its first `count` ids |
| ListText.ObjectListRoundTrip | common/sai_client/sai_thrift_client/sai_thrift_utils.py:194-201 | the way to text and back keeps the count and the first `count` ids, zero included |
| ListText.FromSaiObjectList | common/sai_client/sai_thrift_client/sai_thrift_utils.py:477-487 | the loop with its trailing comma builds that text |
| ListText.GetList | common/sai.py:494-503 | the whole list in one read or two; it fails if and only if the length reported with the overflow was too small |
| ListText.GetByType | common/sai.py:433-442 | the same for the list types, with the status of the last read |
| Vid.DecodesToType | common/sai_client/sai_redis_client/sai_redis_client.py:803-806 | an id decodes, through its hex text and the shift, to its type if and only if the counter's bits from the 48th on are set in the type; always when the counter is below 2^48 |
| Vid.EncodeIsInjective | common/sai_client/sai_redis_client/sai_redis_client.py:736-736 | below 2^48 two ids have the same text if and only if they have the same type and counter |
| Vid.Allocator.AllocVid | common/sai_client/sai_redis_client/sai_redis_client.py:729-735 | the first id of all has number 0 if it is for a switch and 1 if not; every later one counts on |
| Vid.Allocator.AllocAll | common/sai_client/sai_redis_client/sai_redis_client.py:724-736 | over any run all ids are different from each other and from all earlier ones, and decode to the types asked for |
| Numbers.HexRoundTrip | common/sai_client/sai_redis_client/sai_redis_client.py:736-736 | parsing the hex text of a number gives it back |
| Numbers.DecimalRoundTrip | common/sai_data.py:149-151 | parsing the decimal text of a number gives it back, and it is all digits |

## Left out

- Replay aliases (`create_rec_alias`, `remove_rec_alias`, `objects_discovery`): they can raise on their own, as for a port create without a lane list, so "no exception if and only if" is about the rest of the replay; and a single remove looks up `type:oid` text against bare OIDs, so no tracking claim holds.
- Real Redis, ZMQ, Thrift, SSH and Docker calls, sleeps, process control and logging: they are steps on lists or calls on the store.
- Replay of a `g` record with one bare attribute name, which the code reads by metadata type; the model reads it as a refused request.
- A create record for `oid:0x0`, which no switch produces, and a record whose attribute values are JSON objects.
- Companions of a removed object: they stay in the store.  Scripts and topologies are proved for types without companions.
- `create_alias`: it puts an entry into the registry; the theorems about commands hold from any registry of types, OIDs and keys.
- Metadata lookup and the formats of values other than lists and OIDs; a read of a command sees the stored value.
- ReplayTheorem.RunSimulates: recordings whose entry keys are not clean when they are met; `ExactlyCleanKeys`, `EntryCreateExactly` and `EntryRemoveExactly` say what then happens.
- ReplayText.TextOfKeyIsRenamed: lists of OIDs within a key, quotes and "oid:" within other texts of a key, and ids that are not of the usual kind.
- CommandsUndo.CleanupUndoesSetup: scripts with removes, since cleanup then raises as `GoneNameStopsCleanup` states, and creates whose key names themselves or is given as the `oid` argument alone, whose undo has no target.
- Learning while a topology is built, and around the removal of default bridge ports and of ports: `BridgePorts` and `TopologyLearning` treat it for a bridge port removal and for a whole teardown.
- Layout.SetupAndTeardown: nothing is said of a set-up that raises; the fixtures run no teardown after it.
- Npu.Npu.SetSkuMode: after a layout run the bridge ports stand in the order of the member list, which need not be that of the ports; then the ports are not aligned, and a second rebuild is not covered.
- Npu.Npu.CreateBridgePorts: a membership that the switch adds by itself is taken to be untagged.
- Npu.Npu.CreatePorts: the lane, speed, auto-negotiation and FEC attributes of a port are an attribute list without references.
- Npu.Npu.RemovePort: the serdes of a port is the object that names the port, not an attribute of the port.
- Npu.Npu.RestoreDefaults: the order of the bridge port list, which the code reads back from the switch, is the order of creation.
- Redis responses after a timeout: no match is claimed, and `LateResponseIsTakenForAnother` shows why.
- The state machines of the protocols are values, not objects: loops over shared lists are sequences of steps, so that the two sides can be interleaved.
- White space beyond ASCII; `IsSpaceIs` lists what counts.
- Grouping of OIDs by type (`get_object_key`), counters, flex counters, warm reboot, host interfaces, packets and data planes, Thrift bulk calls and QoS maps, command line, test bed and fixtures.
