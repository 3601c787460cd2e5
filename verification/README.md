# outline-fedora: verified model of connect, revert, keys and daemon

outline-fedora is a VPN client for Linux. Before it changes anything on the host - the IPv6
switch, a TUN device, `resolv.conf`, two routes and eight policy rules - it writes a snapshot,
and a shell script, `ouf-panic`, undoes everything from that snapshot alone. This project models
that undo protocol, the meaning of the installed routing rules, the key store and the daemon that
ties them together, and proves what they promise: for every crash point, every failing command,
every interrupted recovery, every power loss and every finite sequence of requests.

## How the model is built

- `Hosts.dfy` gives the host (ordered rule list, routes, links, sysctls, `resolv.conf`) and the
  files on disk as a value, `World`. Every system call or shell command is one atomic `Cmd`;
  a program is a sequence of commands, and a crash after k commands leaves `Exec(w, cs[..k])`.
- `Machines.dfy` is the same host as a mutable object that logs each command that took effect.
  The imperative code of `PanicScript`, `Sessions` and `Server` works on such objects and is proved
  to issue exactly the commands of a specification program (`Panic`, `StartProgram`, `Daemon`), so
  what is proved about every prefix of a program holds at every moment of the code. `Keystore.Store`
  changes its own fields and file and is proved against `KeyStates.Step`; the loops of `Names` are
  proved against the functions beside them.
- `Discipline.dfy` holds the core of the argument: `Safe` describes every reachable world relative
  to the untouched host, `Permitted` says when a command may be issued (write-ahead, catchall last
  in and first out), and every permitted command keeps a safe world safe. `StartSafety.dfy` shows
  that connecting keeps this discipline, `Recovery.dfy` that every run of the script does,
  `DaemonRuns.dfy` lifts both to whole runs of the daemon. `Journals.dfy` says when each action is
  on record, `AcceptedSettings.dfy` what the daemon's bounds on its settings are worth, and
  `SharedFiles.dfy` what happens when one file is asked to play two roles.
- Specification programs are functions, and what they compute is stated a second time in plain
  values: `ConnectedState.dfy` lists the routes, rules, files, log entries and actions of a start,
  `Requests.dfy` what each request means and when it succeeds, `KeyOperations.dfy` and
  `NameRules.dfy` the effect of each key operation on the list and how names come about, and
  `PanicEffects.RefusedExactly` when the script refuses to act.
- `Routing.dfy` gives the rule list its meaning; `PanicEffects.dfy` says what the script does to an
  arbitrary world with an arbitrary snapshot; `Names.dfy` and `KeyStates.dfy` cover the key store.

## Assumptions

- The untouched host meets `BaselineOk`: rules ordered by priority, none of them inside the window
  base-7..base; no route in our table or over our device; the device does not exist; the IPv6
  switch exists; a symlinked `resolv.conf` has a non-empty target (Linux has no other kind).
- No file has two roles (`StartProgram.FilesApart`): the managed `resolv.conf` is not the snapshot
  and, if it is a regular file, not the backup. The theorems about undoing a connection and about
  runs of the daemon ask for it; `SharedFiles` does without. Nor is it one of the temporary files,
  and paths are written in one way, so that equal files have equal paths.
  `DaemonRuns.OrdinaryHost` shows that an ordinary host with the default flags qualifies.
- The theorems that keep destinations off the tunnel (`NoTunnelLoop`, `NoLoopAtAnyMoment`,
  `SessionNeverLoops`) ask in addition that no foreign rule selects the tunnel's table.
- Names, numbers and link targets reach the kernel and the tools of the script as they are: an
  interface name is no keyword of `ip link` (such as `up`), table and priority fit the kernel's 32
  bits, and a link target neither starts with a dash nor ends in a newline. `Config.Validate` checks
  none of this.
- During a run nobody but the daemon and the script changes the modelled parts of the host. When the
  power fails, every file is as the last completed command left it; booting sets up rules, routes,
  links and sysctls as they were before the first connect and leaves `resolv.conf` alone.
- Each command is atomic. A best-effort deletion (`soft_run`) fails only if its target is absent.
  The checked commands, the lookup of the server's address, the existence of the script and of its
  tools, and the removal of the snapshot may fail in any combination.
- SHA-256 is an arbitrary function `hash`; only `RegularContentRestored` needs it to be injective.
- Clock, lookup and write outcomes are parameters or choices of an `Environment` object.

## Where the code differs from its description

- `Config.Validate` is documented as being in lockstep with the script. It is not, and
  `SharedFiles.UndoneExactlyWhenRevertible` gives the exact condition under which an accepted
  connection can be undone. `Validate` accepts interface names such as `eth5`, which the script refuses
  whatever happens (`ReservedNameRefused`, `AcceptedButRefused`), and base priorities 1000..1006,
  for which the script exits with 0 and clears the snapshot but leaves exactly the bypass rules
  below 1000 behind (`LowBaseLeavesRules`, `AcceptedButLeftBehind`). It also accepts base priorities
  from 32766 up, for which nothing is tunnelled (`HighBaseTunnelsNothing`). The daemon's own
  settings are none of these (`Config.DaemonSettingsRevertible`).
- Nothing checks the paths given by `-resolv` and `-state-dir` either. With `-resolv
  /var/lib/outline-fedora/backup/resolv.conf` and a regular file there, the file is copied over
  itself: its content is lost, the hash of nothing is recorded, and from the takeover on the script
  exits with 1 for ever (`SharedPathAccepted`, `AcceptedButOverwritten`). With `-resolv` at the
  snapshot's path the takeover replaces the snapshot by text that the script cannot read
  (`SnapshotReplaced`).
- A "connected" status says nothing about the host once somebody ran the script from outside
  (`DaemonRuns.ScriptEndsSessionUnnoticed`); until then a session is intact (`SessionStaysIntact`).
- `docs/snapshot-format.md` says that the script touches no rule priority but `rule_priority`, that
  the backup is hashed for symlinks too, and that a restored `resolv.conf` is left alone. The script
  deletes every recorded priority from 1000 up, skips the hash for symlinks, and always recreates
  the file. The model follows the script.
- "Every host-mutating action is recorded before it happens" holds exactly but for three kinds of
  commands: setting the IPv6 switch, creating the TUN device and unlinking a symlinked
  `resolv.conf`. Routes, rules and the new `resolv.conf` are on record as intents first
  (`Journals.RecordedAheadExactly`); for the other three the undo rests on the pre-state and the
  marks, which are on disk before anything is touched.
- The script does not check whether removing the snapshot worked: exit code 0 can leave it behind.
- The rollback of a failed `Add` clears Active exactly if no key is left. So in a non-empty store
  without an active key it leaves Active naming a key that is not stored, and in an emptied store
  whose Active still names such a key it clears it. A failed `Remove` can reorder the listing when
  time stamps are equal. `KeyStates.StepIsTransaction` says exactly when, in every state;
  `FailedAddsShow` and `FailedRemoveReorders` are runs from an empty store on which it happens.
- A second normalisation of a label can change it again: exactly when the text is cut right behind a
  dash or underscore and some letter or digit is kept (`Names.NormalizeIdempotentExactly`);
  `NormalizedTwiceDiffers` is such a label.

## Model

| member | source | states |
|---|---|---|
| StartSafety.CrashSafeUndo | internal/tun/session_linux.go:72-179 | with no file in two roles: after a crash between any two commands of connecting (with the TUN already gone or not) and any series of failed or interrupted recoveries, one complete run of the script restores the untouched host and clears the snapshot |
| StartSafety.NoLoopAtAnyMoment | internal/tun/routing_linux.go:65-139 | after a start cut anywhere and any series of cut or failing recoveries, the server and all private destinations are never sent to the tunnel's table, if no foreign rule selects that table |
| SharedFiles.UndoneExactlyWhenRevertible | internal/tun/config.go:88-115 | for all settings the daemon accepts, every crash point is undone if and only if the interface name is not reserved by the script, the base priority is at least 1007, and resolv.conf is neither the snapshot file nor, as a regular file, its own backup; shared files are modelled |
| SharedFiles.AcceptedButOverwritten | internal/snapshot/snapshot.go:164-180 | when resolv.conf is its own backup, from the takeover on no run of the script, whatever fails, exits with 0, touches resolv.conf or clears the snapshot, unless our text and the empty one hash alike |
| SharedFiles.SharedPathAccepted | internal/tun/config.go:88-115 | the daemon's settings with the managed path at the default backup are accepted and in every other respect revertible |
| SharedFiles.SnapshotReplaced | internal/tun/resolv_linux.go:50-58 | when resolv.conf is the snapshot file, a start that dies right after the takeover is never undone |
| SharedFiles.HarmlessSharing | internal/snapshot/snapshot.go:139-180 | where no file has two roles that matter - a symlink or a missing resolv.conf at the backup path included - program and recovery are the plain ones |
| AcceptedSettings.UndoneWhenApart | internal/tun/config.go:88-115 | the same condition without the paths, for files that are apart |
| StartSafety.ProgramDisciplined | internal/tun/session_linux.go:72-179 | the whole start program keeps the write-ahead discipline from any safe world |
| StartSafety.InstallRulesDisciplined | internal/tun/routing_linux.go:94-139 | at every iteration of the bypass loop each rule is logged before it is added, and the catchall is added only when all seven bypass rules are in place |
| StartSafety.TakeOverDisciplined | internal/tun/resolv_linux.go:22-63 | unlinking a symlink before logging the intent is covered by the recorded pre-state |
| StartSafety.ActThenLogDisciplined | internal/tun/session_linux.go:120-155 | changing the sysctl or creating the TUN before logging it is covered by pre-state and marks |
| Journals.RecordedAheadExactly | internal/tun/config.go:4-9 | over the whole start: whenever the host is touched a snapshot is on disk, and the action about to happen is its newest, unconfirmed entry if and only if it is not the IPv6 switch, the TUN creation or the unlinking of a symlink; in those three cases it is not recorded at all yet |
| Journals.StartJournal | internal/snapshot/snapshot.go:202-253 | however a start ends, its first snapshot has an empty log; every later one keeps marks, pre-state, logged ops and confirmations of every earlier one, adds at most one action to the one on disk, is numbered 1..n and has at most its last action unconfirmed |
| PanicEffects.UnsweptRuleSurvives | scripts/ouf-panic:120-135 | a rule at a priority that is neither the marked nor a recorded one from 1000 up is there at every point of every run, whatever fails |
| PanicEffects.LowRuleSurvives | scripts/ouf-panic:129-133 | in particular every rule below priority 1000, recorded or not |
| StartProgram.StartResult | internal/tun/session_linux.go:91-165 | a complete start leaves the connected host, the full log and, for a regular file, the backup of its content; `ConnectedState` spells out the first two |
| ConnectedState.ConnectedSpelledOut | internal/tun/routing_linux.go:17-139 | after every complete start: two routes in our table over our device, one on-link to the gateway from the TUN address, the other the default by that same gateway; the eight rules beside those found, still in order; the device; IPv6 off; the nameserver of the settings |
| ConnectedState.DefaultConnection | internal/tun/config.go:15-27 | the same for the daemon's settings in plain values: table 233, ouftun0, 10.233.233.2/32 from 10.233.233.1, rules 23326..23333, nameserver 9.9.9.9 |
| ConnectedState.ActionsInOrder | internal/tun/session_linux.go:120-165 | all actions of a start on the host, in their order and nothing besides: sysctl, device, unlink of a symlink, resolv.conf, two routes, eight rules |
| ConnectedState.LogSpelledOut | internal/snapshot/snapshot.go:202-216 | the log of a complete start names its thirteen actions with their arguments, numbered 1..13 and all confirmed |
| ConnectedState.AdmittedExactly | internal/tun/session_linux.go:73-103 | a start is admitted exactly without a snapshot, with a readable IPv6 switch at 0 or 1, and with a free device name |
| ConnectedState.FailedStartRestores | internal/tun/session_linux.go:113-228 | a start that fails, wherever, leaves no device; if the script it runs works, the untouched host and no snapshot |
| Discipline.PermittedKeepsSafe | docs/snapshot-format.md:15-24 | every permitted command keeps a safe world safe: no snapshot means the untouched host, a snapshot describes it and the host differs only in marked places |
| Discipline.DisciplinedIsSafe | docs/snapshot-format.md:15-24 | a disciplined program can be cut after any number of commands |
| Recovery.PanicFromSafe | scripts/ouf-panic:105-203 | from any safe world and with any failing commands the script is disciplined; exit 0 means that the untouched host is back, a non-zero exit that the snapshot is still there |
| Recovery.CompleteRunRestores | scripts/ouf-panic:105-203 | one run without failures restores the untouched host from any safe world |
| Recovery.RecoveryConverges | docs/snapshot-format.md:121-132 | any number of cut or failing runs followed by a complete one end where one complete run ends, and a further run does nothing |
| Recovery.SweepDisciplined | scripts/ouf-panic:120-135 | deleting the catchall first and then the recorded rules leaves exactly the foreign rules, in order |
| Recovery.NoTunnelLoop | internal/tun/routing_linux.go:65-77 | in every safe world, mid-install and mid-revert included, the server and all private destinations are never sent to the tunnel's table, if no foreign rule selects that table |
| Routing.RoutingRefinement | internal/tun/routing_linux.go:65-139 | over the kernel's own rules the eight rules implement the classifier for all destinations if and only if the base priority is below 32766 |
| Routing.InstalledClassifies | internal/tun/routing_linux.go:65-139 | the same over any rule list whose only rule at or below the catchall is the kernel's local one |
| Routing.PrefixesAreBypass | internal/tun/routing_linux.go:78-91 | the seven prefixes cover exactly the server, 10/8, 172.16/12, 192.168/16, 127/8, 169.254/16 and 224/4, read off the dotted form |
| Routing.PriorityWindow | internal/tun/routing_linux.go:94-98 | the eight priorities are base-7..base, strictly increasing, catchall on top, and all pass the script's guard if and only if base is at least 1007 |
| Routing.MainShadows | internal/tun/routing_linux.go:122-129 | a catchall at or above 32766 is never reached |
| PanicEffects.PanicEffect | scripts/ouf-panic:105-203 | the exact final world and exit code of a run past the guards, on any world and snapshot |
| PanicEffects.ExitCodeSound | scripts/ouf-panic:193-203 | for any snapshot, failures and backup: exit 0 means that sysctls, routes, TUN and resolv.conf are reverted and that at every priority as many rules are gone as it occurs among the marked and the recorded ones from 1000 up, as far as there were any; otherwise the snapshot is still on disk |
| PanicEffects.FailureIsSticky | scripts/ouf-panic:149-191 | exactly when a run exits with 0; a failed sysctl or link deletion also keeps a regular resolv.conf from being restored, but not a symlink |
| PanicEffects.RefusedExactly | scripts/ouf-panic:61-102 | for every world and all failures, the script does nothing and exits with 2 exactly if the file is unreadable, a tool is missing, the version is not 1, the name is empty, lo, * or begins like another device's, the table is none or the kernel's, or the priority is below 1000; otherwise 2 means a recorded symlink without target |
| PanicEffects.RevertsWhatItCan | scripts/ouf-panic:105-146 | no failure stops the rest: every run that is not refused empties the table, deletes the rules, writes each sysctl that can be written, and leaves the device only if deleting it failed |
| PanicEffects.RegularContentRestored | scripts/ouf-panic:163-185 | with a collision-free hash, exit 0 means that the very content that was hashed is back |
| PanicEffects.PanicFrame | scripts/ouf-panic:83-146 | at no point of a run are other links, other tables, rules at other priorities or unrecorded sysctls touched |
| PanicEffects.DoneFlagsIrrelevant | docs/snapshot-format.md:78-78 | the revert is the same for every assignment of Done flags |
| PanicScript.RunPanic | scripts/ouf-panic:54-203 | the script as imperative code issues exactly the commands, and yields the exit code, of its specification; `PanicEffects` says what those are, and `RefusedExactly` when there are none |
| PanicScript.RevertSysctls | scripts/ouf-panic:107-118 | the sysctl loop writes back every entry it can and reports whether one failed |
| PanicScript.RevertRules | scripts/ouf-panic:120-135 | the rule loop deletes the catchall, then every recorded priority from 1000 up, in log order |
| PanicScript.RevertResolv | scripts/ouf-panic:148-191 | the resolv.conf branch, the sticky failure flag and the early exit included |
| Config.ValidateVersusGuards | internal/tun/config.go:88-115 | for accepted settings the script's guards pass exactly if the name is not reserved |
| Config.AcceptedExactly | internal/tun/config.go:88-115 | which settings are accepted, in plain bounds |
| Config.DaemonSettingsExactly | internal/tun/config.go:54-84 | the settings of the daemon: its two paths, the URL, and defaults for the rest |
| AcceptedSettings.ReservedNameRefused | scripts/ouf-panic:86-90 | with a reserved name, wherever the start is cut and whatever fails, the script refuses the snapshot and issues no command; `PanicEffects.RefusedExactly` lists the names |
| AcceptedSettings.AcceptedButRefused | internal/tun/config.go:88-115 | connecting over eth5 is accepted on any host without that link, changes the host, and no run of the script issues a command |
| AcceptedSettings.LowBaseLeavesRules | scripts/ouf-panic:129-133 | with no file in two roles: with a base priority of 1000..1006 a run without failures exits with 0, clears the snapshot and restores everything but the rules, of which exactly ours below 1000 are left |
| AcceptedSettings.AcceptedButLeftBehind | internal/tun/config.go:109-111 | base priority 1003 on an ordinary host: accepted, and the server's bypass rule outlives a revert that reports success |
| AcceptedSettings.HighBaseTunnelsNothing | internal/tun/config.go:109-111 | an accepted base priority from 32766 up tunnels no destination over the kernel's own rules |
| AcceptedSettings.ClassifiedExactly | internal/tun/routing_linux.go:65-139 | after a complete start with accepted settings over the kernel's own rules, every destination is routed as classified if and only if the base priority is below 32766 |
| Config.DaemonSettingsRevertible | cmd/oufdee/server.go:301-306 | whatever the key, the daemon's defaulted settings are accepted and revertible |
| Sessions.Writer.RecordResolvConf | internal/snapshot/snapshot.go:139-180 | the recorded pre-state describes resolv.conf as it was, and a regular file is backed up first |
| Sessions.Writer.Append | internal/snapshot/snapshot.go:202-206 | the new action gets the next sequence number |
| Sessions.Writer.MarkDone | internal/snapshot/snapshot.go:210-216 | only the last action is confirmed |
| Sessions.Session.Start | internal/tun/session_linux.go:72-179 | the commands executed are exactly those of the plan: all of the program, or a prefix and, once the snapshot exists, the cleanup; it fails only for a reason; `ConnectedState` lists what that program does |
| Sessions.Session.InstallPolicyRules | internal/tun/routing_linux.go:78-139 | the bypass loop and the catchall log, add and confirm the eight rules in order, or stop at a failure |
| Sessions.Session.InstallRoutes | internal/tun/routing_linux.go:17-63 | both routes, then the rules, each logged before it is added; `ConnectedState.ActionsInOrder` gives both with their arguments |
| Sessions.Session.WriteResolvConf | internal/tun/resolv_linux.go:22-63 | unlink a symlink, log, replace, confirm, or stop at a failure |
| Sessions.Session.NewTunDevice | internal/tun/tun_linux.go:23-64 | a device that cannot be brought up is closed again |
| Sessions.Session.Close | internal/tun/session_linux.go:190-209 | the TUN is dropped and the script run once; its verdict is the result, and a second call does nothing |
| Sessions.Session.CleanupOnFailure | internal/tun/session_linux.go:218-228 | the TUN is closed only if it is open, then the script runs |
| Names.DerivedNameIsFree | internal/keystore/keystore.go:399-422 | with fewer than 9999 names in use a derived name is valid and unused, so the last resort is unreachable |
| NameRules.DerivedNameExactly | internal/keystore/keystore.go:399-422 | the derived name is the normalised label, or key without one; if that is in use, the first free candidate of all |
| NameRules.NormalizedWords | internal/keystore/keystore.go:426-458 | two words in any case with anything between them become two words in small letters joined by one dash |
| NameRules.SlugWords | internal/keystore/keystore.go:430-444 | what is in front of the first word goes, words stay, and any gap becomes one dash |
| NameRules.ValidNameExactly | internal/keystore/keystore.go:368-382 | the characters and lengths of a valid name |
| NameRules.TrimSpaceExactly | internal/keystore/keystore.go:192-192 | trimming removes all space on both sides and nothing else |
| NameRules.DecimalExactly | internal/keystore/keystore.go:412-414 | the number behind a candidate is written in decimal without leading zeros |
| Names.CandidatesDistinct | internal/keystore/keystore.go:411-415 | no two numbered candidates coincide, whichever of the two forms they take |
| Names.TriedSize | internal/keystore/keystore.go:411-419 | the first n candidates are n different names |
| Names.NormalizedIsName | internal/keystore/keystore.go:426-458 | a normalised label is empty or a valid name without doubled dashes |
| Names.NormalizeTwice | internal/keystore/keystore.go:445-457 | normalising again changes nothing if and only if the result is empty or does not end in a dash or underscore |
| Names.NormalizeIdempotentExactly | internal/keystore/keystore.go:445-457 | normalising is idempotent if and only if the trimmed text has at most 32 characters, or its 32nd is no dash or underscore, or its first 32 hold no letter or digit |
| Names.NormalizedTwiceDiffers | internal/keystore/keystore.go:445-457 | thirty-one letters, a dash and a letter: the first pass leaves the dash at the end, the second drops it |
| Names.NormalizeIdempotent | internal/keystore/keystore.go:426-458 | normalising is idempotent on every label that is not truncated |
| Names.Normalize | internal/keystore/keystore.go:426-458 | the loop with its last-dash flag, the trims and the truncation compute the normal form |
| Names.DeriveName | internal/keystore/keystore.go:399-422 | the search loop finds the first free candidate |
| KeyStates.StepIsTransaction | internal/keystore/keystore.go:188-364 | in every state with sound keys, renaming a key to its own name changes nothing and every other operation is done in memory and on file, or leaves file, time stamp and keys as they were; Active changes exactly when a failed Add meets keys without an active one or an active name without keys, the listing exactly when a failed Remove meets a later key with the same time stamp; what a done operation does is spelled out in `KeyOperations` |
| KeyOperations.UseEffect | internal/keystore/keystore.go:317-337 | for every stored key: Active becomes its name, in memory and on file, and nothing else changes |
| KeyOperations.MarkConnectedEffect | internal/keystore/keystore.go:341-364 | Active and the time stamp change, and nothing else |
| KeyOperations.RenameEffect | internal/keystore/keystore.go:273-314 | the key keeps its position, URL, label and time and changes its name; Active follows exactly if it named the key |
| KeyOperations.RemoveEffect | internal/keystore/keystore.go:244-270 | exactly that key goes, wherever it stands, the others keep their order, and Active is cleared exactly if it named the key |
| KeyOperations.AddEffect | internal/keystore/keystore.go:188-240 | the key comes last with trimmed URL, label, time and chosen name, and becomes active exactly if none is |
| KeyOperations.NamedOutcome | internal/keystore/keystore.go:244-364 | Use, MarkConnected and Remove are refused exactly for a name that is not stored or a failed write |
| KeyOperations.RenameOutcome | internal/keystore/keystore.go:273-301 | when a rename is refused, and with which error |
| KeyOperations.AddOutcome | internal/keystore/keystore.go:192-232 | when a key is refused, and with which error: prefix, 128 keys, same URL, name |
| KeyOperations.LabelOf | internal/keystore/keystore.go:384-396 | the label is the text after the last #, unescaped if that works, and empty without one |
| KeyStates.FailedAddsShow | internal/keystore/keystore.go:230-238 | a run from an empty store after which Active names no stored key, and one more failed Add that clears it |
| KeyStates.FailedRemoveReorders | internal/keystore/keystore.go:260-269 | a run from an empty store after which a failed Remove changes the listing |
| KeyStates.EveryRunFromEmpty | internal/keystore/keystore.go:188-364 | over all operation sequences and write failures from an empty store: names and URLs distinct, names valid, at most 128 keys; memory and file hold the same keys and time stamp, so a crash loses none; and Active names a stored key or none at every point, in memory and on file, if and only if the bad rollback of Add never happens |
| KeyStates.StepKeepsStateOk | internal/keystore/keystore.go:188-364 | each operation keeps those invariants in memory and on file |
| KeyStates.ActiveStaysOk | internal/keystore/keystore.go:231-238 | Active keeps naming a stored key if and only if the operation is not a failed Add to a non-empty store without an active key |
| KeyStates.MovedToEnd | internal/keystore/keystore.go:155-164 | moving a key to the end is invisible in the sorted listing if and only if no later key has its time stamp |
| KeyStates.ListedIsStable | internal/keystore/keystore.go:155-164 | the listing is ordered by time and keeps the order of keys added at the same moment |
| KeyStates.AutomaticNameAccepted | internal/keystore/keystore.go:206-218 | an automatic name is never the reason for refusing a key |
| KeyStates.KeySurvives | internal/keystore/keystore.go:244-314 | a stored key keeps its URL under its current name through every operation but its own removal |
| Keystore.Store.Add | internal/keystore/keystore.go:188-240 | checks, in-place append and rollback amount to the specified step |
| Keystore.Store.Remove | internal/keystore/keystore.go:244-270 | removal in place, and the rollback that re-appends at the end |
| Keystore.Store.Rename | internal/keystore/keystore.go:273-314 | the rollback that searches for the new name restores the list exactly |
| Keystore.Store.Use | internal/keystore/keystore.go:317-337 | the active name changes only together with the file; see `KeyOperations.UseEffect` |
| Keystore.Store.MarkConnected | internal/keystore/keystore.go:341-364 | active name and time stamp change only together with the file |
| Keystore.Store.List | internal/keystore/keystore.go:155-164 | the sorted copy is the stable sort by time of addition |
| Daemon.EveryMomentSafe | cmd/oufdee/server.go:265-372 | between any two commands issued while serving any request the world is safe |
| Daemon.DirtyStartRefused | internal/tun/session_linux.go:73-79 | a start with a snapshot on disk issues no command, so neither the backup nor the recorded pre-state is ever overwritten |
| DaemonRuns.WholeRunSafety | cmd/oufdee/server.go:230-372 | after any finite run of requests, crashes, power losses and outside script runs: no snapshot means the untouched host; a snapshot describes the true baseline, backup included, and the host differs only where marked |
| DaemonRuns.NoBaselineDrift | internal/snapshot/snapshot.go:139-188 | however many sessions, crashes, power losses and recoveries came before, a snapshot on disk records the untouched host's values and its backup holds the original content |
| DaemonRuns.RunsKeepSysOk | cmd/oufdee/server.go:230-342 | over every such run a session exists exactly if a session key is set, and that key is stored with the session's URL |
| DaemonRuns.NextKeepsSysOk | cmd/oufdee/server.go:230-372 | the same for one event: a served request, a crash or power loss after any command, or a run of the script cut anywhere |
| DaemonRuns.KeyRequestKeepsSession | cmd/oufdee/server.go:230-263 | adding, removing, renaming and choosing keys keep the session's key stored with its URL |
| DaemonRuns.SessionsNeverStack | cmd/oufdee/server.go:278-314 | a start acts only after the previous session was closed successfully, with no snapshot left and the host untouched |
| DaemonRuns.ConnectConnects | internal/tun/session_linux.go:72-179 | right after every successful connect or switch the host is exactly the connected one |
| DaemonRuns.SessionStaysIntact | cmd/oufdee/server.go:230-372 | it stays so over every run of requests, crashes and power losses, for as long as a session is up |
| DaemonRuns.ConnectedRouting | internal/tun/routing_linux.go:65-139 | so while a session is up and nobody ran the script from outside, every destination is routed as it is classified, if the kernel's local rule is the only one up to 23333 |
| DaemonRuns.ScriptEndsSessionUnnoticed | cmd/oufdee/server.go:374-392 | a complete script run from outside restores the untouched host under a session that the status goes on reporting |
| DaemonRuns.UndoUnblocks | cmd/oufdee/server.go:351-372 | from every reachable state a successful undo leaves no session and the untouched host, and connecting is admitted again exactly if no snapshot was there or its removal worked |
| DaemonRuns.UndoSucceeds | cmd/oufdee/server.go:351-372 | an undo whose commands all work is always answered with success |
| Requests.ConnectMeans | cmd/oufdee/server.go:265-327 | an accepted connect by name makes exactly that key the session's, with its stored URL and the resolved address; without a name it is the active key; key and time are noted if the write works |
| Requests.ConnectedIsIdle | cmd/oufdee/server.go:279-285 | a connect to the connected key succeeds and does nothing |
| Requests.UnknownIsRefused | cmd/oufdee/server.go:265-276 | a name that is not stored, or no name without an active key, is refused and changes nothing |
| Requests.RefusedConnectEnds | cmd/oufdee/server.go:286-313 | any other refused connect leaves no session, and the keys as they were |
| Requests.ConnectWorks | cmd/oufdee/server.go:300-327 | on a clean host a connect to a stored key is accepted unless something fails on the way |
| Requests.SwitchWorks | cmd/oufdee/server.go:286-327 | so is a switch to another stored key |
| Requests.EndAccepted | internal/tun/session_linux.go:190-209 | with a session, disconnect, undo and shutdown succeed exactly if the script is there and exits with 0 |
| Requests.EndWithoutSession | cmd/oufdee/server.go:329-372 | without one, a disconnect is refused and changes nothing, a shutdown has nothing to do, and an undo depends on the script |
| Requests.EndEffect | cmd/oufdee/server.go:329-372 | such a request always leaves no session and no device; success means the untouched host, and no snapshot exactly if there was none or its removal worked; failure keeps the snapshot |
| Requests.KeyRequestMeans | cmd/oufdee/server.go:218-263 | the key requests leave the host alone and are the key operation of the same name; the connected key is not removed, and the session follows its rename |
| Requests.StatusMeans | cmd/oufdee/server.go:374-392 | connected and key name are the session's, and dirty means a snapshot without a session |
| Requests.AllClear | cmd/oufdee/server.go:329-392 | after a disconnect or undo that worked in full the status is all clear |
| DaemonRuns.CleanStatusIsTrue | cmd/oufdee/server.go:374-392 | a status without connection and without dirty flag means that the host is untouched |
| DaemonRuns.SessionNeverLoops | internal/tun/routing_linux.go:65-77 | while a session is up, its server and all private destinations stay off the tunnel's table, if no foreign rule selects that table |
| Server.Server.DoConnect | cmd/oufdee/server.go:265-327 | connecting and switching amount to the specified transition, and only a failing environment stops an admitted start; `Requests.ConnectMeans` says what that is |
| Server.Server.DoUndo | cmd/oufdee/server.go:351-372 | with a session its close, without one the script, and the verdict reported |
| Server.Server.DoDisconnect | cmd/oufdee/server.go:329-342 | the session is forgotten even if closing it fails, and the answer is the verdict of the close (`Requests.EndAccepted`, `EndEffect`) |
| Server.Server.DoRename | cmd/oufdee/server.go:245-256 | the session's key name follows a rename |
| Server.Server.DoRemove | cmd/oufdee/server.go:230-243 | the connected key is never removed |
| Server.Server.DoAdd | cmd/oufdee/server.go:218-228 | adding a key touches the key store only |
| Server.Server.DoUse | cmd/oufdee/server.go:258-263 | choosing a key touches the key store only, never the session; `Requests.KeyRequestMeans` and `KeyOperations.UseEffect` say what it does there |
| Server.Server.ShutDown | cmd/oufdee/server.go:138-152 | whatever session is left is forgotten and closed, and the verdict of the close is reported |
| Server.Server.DoStatus | cmd/oufdee/server.go:374-392 | the dirty flag is set exactly if a snapshot is on disk and there is no session |

## Left out

- Server.Server.ShutDown: states the world, the session and the answer; that the next daemon reads its keys from the file again is part of `Daemon.Served`, not of this handler.
- Sessions.Session.Start: the device, the dialer and the packet proxy are not modelled; building them is a point at which a start may stop.
- PanicScript.RunPanic: dry-run mode, logging and the parsing of the JSON text are not modelled; an unreadable snapshot is the value `Garbage`.
- Files in two roles are modelled on programs as values (`SharedFiles`); the imperative code of `Sessions` and `PanicScript` is proved for files that are apart.
- Requests are handled one at a time. The window between the snapshot check and the first write, and requests that overlap a start, are not modelled.
- The packet path, lwIP, Shadowsocks and the copy goroutines have no visible logic here.
- Netlink, TUN ioctls, file modes, ownership and leftover temporary files: "restored" means the content or link target at the managed path.
- The kernel copies a write to `conf/all/disable_ipv6` to every interface; only the switch itself is modelled.
- A rule that selects a table is taken to settle the lookup; falling through a table without a matching route is modelled for the kernel's local table only.
- The text of routes and rules in the log, time stamps, host name and process id in the snapshot: they do not influence the revert.
- `Settings` is a value: the source fills in defaults on a copy of its own.
- URL decoding of labels is an arbitrary function. Lower-casing is modelled for the characters that can become name characters.
- Reading a damaged key file or one of another version, file locks, the list request, the CLI, RPC framing, socket set-up, packaging and installation.
