# System optimizer core, modelled in Dafny

The system optimizer is a desktop tool for Windows. From a fixed catalogue of
eight maintenance actions, the user ticks some and presses "Apply Selected
Optimizations". A background task then does the following, in order:

1. reads live CPU, RAM and disk usage;
2. announces and performs a backup of the visual-effects registry value;
3. runs every selected action in catalogue order, collecting each one's
   outcome text under its name;
4. reads the usage again;
5. hands both readings and the outcomes to a completion callback.

The backup can later be restored. The dashboard rates usage as Poor,
Average or Good.

This project models that core:

- `WinState` (`win_state.dfy`) holds the machine state the program changes, a
  `Machine` class. Its fields are:
  - the registry, a map from value name to value, of which the program
    writes only VisualFxSetting and GlobalUserDisabled;
  - the backup file;
  - whether the Windows Update service runs;
  - an ordered log of events: progress messages, external commands,
    the recycle-bin call, the settings broadcast, usage readings and the
    completion call.
- `BackupUtils` (`backup_utils.dfy`) models the settings guard:
  `backup_critical_settings` and `restore_critical_settings`.
- `SystemUtils` (`system_utils.dfy`) models the eight actions and the
  coordinator `run_optimizations`. Every answer of the operating system is
  an input value of type `World`. This includes command exit statuses,
  exceptions, the environment, folder listings and the output of
  `powercfg /l`.
- `UiMain` (`ui_main.dfy`) models the selection of checked actions, the
  refusal of an empty selection, and the health rating and colours.
- `PowercfgOutput` (`powercfg_output.dfy`) describes the line that
  `powercfg /l` prints for the High performance plan, and how `split()`
  cuts it.
- `Text` (`text.dfy`) models the parts of Python's `str` the actions rely
  on:
  - `lower()`;
  - the `in` substring test;
  - `split()`;
  - `str(n)`.

## Model

| member | source | states |
|---|---|---|
| BackupUtils.BackupRecord | backup_utils.py:16-29 | the record holds only the "VisualEffects" entry, and holds it exactly when the read did not fail unexpectedly; its value is the registry value, or 1 when the value is absent |
| BackupUtils.BackupCriticalSettings | backup_utils.py:16-37 | returns true exactly when the file write succeeds; the file is then replaced by the record of the current registry, otherwise left as it was; registry, service and log are untouched |
| BackupUtils.RestoreCriticalSettings | backup_utils.py:39-63 | a missing file, or one on which json.load raises, gives false and changes nothing; a record without the entry gives true and changes nothing; a record with the entry gives true exactly when the registry write succeeds, and then sets the value to the stored one and broadcasts the change once; a failed write changes nothing |
| BackupUtils.BackupRestoreRoundTrip | backup_utils.py:21-55 | restoring a backup whose read succeeded gives back the value that was there at backup time, or 1 if there was none, whatever happened in between; no other registry value changes |
| BackupUtils.AbsentValueIsNotRestoredAsAbsent | backup_utils.py:24-26 | when the value was absent at backup time, restore creates it, so the round trip is not the identity |
| BackupUtils.FailedReadRestoresNothing | backup_utils.py:27-28 | a backup whose read raised an unexpected error stores an empty record, and restoring it leaves the registry as it is |
| SystemUtils.JoinPath | system_utils.py:72 | `os.path.join(dir, "Temp")` keeps `dir` as its prefix and the name as its suffix, with exactly one backslash between them unless `dir` is empty, ends in a separator or is a two-character drive such as "C:" |
| SystemUtils.TempFolders | system_utils.py:72 | the two folders visited: TEMP's value or "" when unset, then a path that starts with windir and ends in "Temp", which is just "Temp" when windir is unset or empty |
| SystemUtils.EntryFailuresCountsRaisingRemovals | system_utils.py:76-84 | the error count of a folder equals the number of its entries, files, links or directories, whose removal raised |
| SystemUtils.CountRemovalFailures | system_utils.py:72-84 | the nested loop over the two temp folders and their entries counts exactly the removal failures of the existing, listable folders, skipping an empty or missing path |
| SystemUtils.RemovalFailuresAsWritten | system_utils.py:74-84 | the loop as written ends in an exception exactly when some existing temp folder cannot be listed |
| SystemUtils.AsWrittenAgreesWhenListable | system_utils.py:74-84 | where every existing folder can be listed, the code as written and the corrected count give the same number |
| SystemUtils.ListingErrorEscapes | system_utils.py:72-76 | TEMP naming a regular file makes the code as written raise out of clean_temp_files, while the corrected count is 0 |
| SystemUtils.CleanTempFiles | system_utils.py:70-86 | the corrected action (see Findings): emits its progress message and nothing else; the outcome text carries the decimal count of removals that raised in the existing, listable temp folders; no registry, backup or service change |
| SystemUtils.UpdateCacheTry | system_utils.py:90-98 | the try block runs `net stop wuauserv`, and `net start wuauserv` only when the stop, the windir lookup and the cache re-creation all succeeded; it ends with the first exception, if any; the service is stopped by a successful stop and runs again only after a successful start |
| SystemUtils.UpdateCacheLog | system_utils.py:88-103 | the action's events are its progress message, `net stop`, then one or two `net start` and nothing else; no reading or completion event |
| SystemUtils.CleanWindowsUpdateCache | system_utils.py:88-103 | `net stop wuauserv` runs first and only `net start wuauserv` runs after it, once or twice; success is reported exactly when no step raised, and the service then runs; otherwise the text names the first error, and the service runs exactly when the unchecked restart succeeded or the stop itself failed on a running service |
| SystemUtils.EmptyRecycleBin | system_utils.py:105-114 | a size query error is reported as a failure; size 0 gives "already empty" with no emptying; otherwise the bin is emptied once and the result follows the emptying call |
| SystemUtils.RecycleBinOutcomesDistinct | system_utils.py:108-114 | the three outcome kinds of empty_recycle_bin have different texts |
| SystemUtils.ClearDnsCache | system_utils.py:116-123 | runs `ipconfig /flushdns` once; the outcome follows its exit status |
| SystemUtils.OptimizeDisk | system_utils.py:125-132 | runs `defrag C: /O` once; the outcome follows its exit status |
| Text.Lower | system_utils.py:140 | `lower()` keeps the length, maps each capital ASCII letter to its small letter and keeps every other character, so no capital letter remains |
| Text.LowerAppend | system_utils.py:140 | lowering distributes over concatenation |
| Text.ContainsIff | system_utils.py:140 | the left-to-right substring search succeeds exactly when the pattern occurs at some index |
| SystemUtils.FirstMention | system_utils.py:139-140 | the index found is of a line that contains "high performance" ignoring case, and no earlier line does; none is found only if no line does |
| SystemUtils.FindHighPerformanceLine | system_utils.py:139-145 | the scan over the output lines stops at exactly the first line that mentions the plan |
| SystemUtils.SetHighPerformancePowerPlan | system_utils.py:134-147 | runs `powercfg /l`; a listing error is a failure; no matching line gives "not found"; a matching line with fewer than four words fails with an index error; otherwise the fourth word is passed to `powercfg /s` and the outcome follows that command |
| SystemUtils.PlanNotFoundIsNotFailure | system_utils.py:144-147 | "not found" differs from the success text and from every failure text |
| Text.SplitWords | system_utils.py:141 | split() yields non-empty words without whitespace |
| Text.SplitInterleave | system_utils.py:141 | words without whitespace, laid out with any whitespace runs between them (non-empty between two words, possibly empty at either end), split back into exactly those words, in order |
| Text.SplitDecomposes | system_utils.py:141 | every string is the words split() returns laid out with whitespace runs, so those words are its maximal non-whitespace runs, in order |
| PowercfgOutput.PowercfgLineWords | system_utils.py:141 | the `powercfg /l` line "Power Scheme GUID: <guid>  (High performance)", with or without the trailing " *" of the active plan, splits into "Power", "Scheme", "GUID:", the GUID, "(High", "performance)" and, when active, "*" |
| SystemUtils.PowercfgLineMentions | system_utils.py:140 | the scan's test accepts that line, active or not |
| SystemUtils.PowercfgLineGuid | system_utils.py:139-141 | on that line, active or not, the scan's test holds and the fourth word is the GUID |
| SystemUtils.AdjustVisualEffects | system_utils.py:149-160 | a successful write sets VisualFxSetting to 2 and broadcasts the change; a failed write changes no registry value and broadcasts nothing |
| SystemUtils.DisableBackgroundApps | system_utils.py:162-172 | a successful write sets GlobalUserDisabled to 1; a failed write changes nothing; no broadcast |
| SystemUtils.ActionLogShape | system_utils.py:70-172 | every action's events start with its own progress message and hold no other progress message, no usage reading and no completion call |
| SystemUtils.PerformCommand | system_utils.py:183-184 | an action that only runs commands or touches files appends exactly its own events to the log: its progress message, then the commands it starts and the emptying call it makes, in order, and no reading or completion event. It returns the text fixed by the system's answers and leaves registry, backup file and service as they were |
| SystemUtils.PerformSetting | system_utils.py:183-184 | an action that writes the registry or restarts the service appends exactly its own events: its progress message, then `net stop` and the `net start` calls, or the settings broadcast after a successful visual-effects write. It changes only its own registry value or the service flag, as fixed by the system's answers, and never the backup file |
| SystemUtils.Perform | system_utils.py:183-184 | each action appends exactly its own events to the log: its progress message first, then the commands, the emptying call or the broadcast it makes, in order, and no reading or completion event. It returns a text fixed by the system's answers alone. It never touches the backup file, and only the two registry actions write the registry, each only its own value |
| SystemUtils.PutNewKey | system_utils.py:184 | assigning to a key the dictionary lacks appends the pair at the end, and the keys stay distinct |
| SystemUtils.PutExistingKey | system_utils.py:184 | assigning to a key the dictionary has replaces that key's value in place; the length, the key order and every other pair stay |
| SystemUtils.OutcomesAt | system_utils.py:183-184 | the results of a selection hold one pair per selected action, the j-th being that action's name and outcome |
| SystemUtils.OutcomesPut | system_utils.py:183-184 | storing an action's outcome under its name, which no earlier action has, appends it after the earlier results |
| SystemUtils.RunStep | system_utils.py:183-184 | one loop turn runs the next action once and stores its outcome after the earlier ones. The registry and service change as that action alone changes them. The log gains exactly that action's events, after those of the earlier actions |
| SystemUtils.RunSelected | system_utils.py:183-184 | every selected action runs once, in selection order, whatever earlier ones returned. The results hold each one's name and outcome, in order. The registry and the service flag are those the actions produce one after the other, and the backup file stays. The log gains exactly the actions' events, one action after the other: so their progress messages in order, and no reading or completion event |
| SystemUtils.RunEach | system_utils.py:183-184 | the loop over the selection leaves the results, the registry, the service flag and the log as the actions make them one after the other, and the backup file as it was |
| SystemUtils.RunLogProgresses | system_utils.py:183-184 | the progress messages among the actions' events are the selected actions' own messages, in selection order |
| SystemUtils.RunLogActionEvents | system_utils.py:183-184 | the actions' events hold no usage reading and no completion call |
| SystemUtils.RunLogTrail | system_utils.py:183-184 | the log after the actions is the log before, followed by action events only, which add the actions' progress messages in order |
| SystemUtils.RunLogMembership | system_utils.py:183-184 | an event is among the actions' events of a run exactly when one of the selected actions issues it |
| SystemUtils.StartedByUpdateCache | system_utils.py:88-103 | only the update-cache action issues `net start wuauserv`, and it always does: the checked start when the try block reaches it, the unchecked one of the except branch otherwise |
| SystemUtils.RunStartsService | system_utils.py:88-103 | a run issues `net start wuauserv` exactly when it selects the update-cache action, whether or not `net stop` failed |
| SystemUtils.EmptiedByRecycleBin | system_utils.py:105-114 | only the recycle-bin action empties the bin, and it does so exactly when the size query gave a positive number of items |
| SystemUtils.RunEmptiesBin | system_utils.py:105-114 | a run empties the bin exactly when it selects the recycle-bin action and the bin holds something |
| SystemUtils.RegistryAfterKeepsOtherValues | system_utils.py:149-172 | a run changes no registry value other than VisualFxSetting and GlobalUserDisabled |
| SystemUtils.RegistryAfterVisualEffects | system_utils.py:149-160 | after a run that selects the visual-effects action whose write succeeds, VisualFxSetting is 2; otherwise it is as it was |
| SystemUtils.RegistryAfterBackgroundApps | system_utils.py:162-172 | after a run that selects the background-apps action whose write succeeds, GlobalUserDisabled is 1; otherwise it is as it was |
| SystemUtils.ServiceAfterUpdateCache | system_utils.py:88-103 | a run without the update-cache action leaves the service flag as it was; with that action and no error in it, the service runs afterwards |
| SystemUtils.RunLogShape | system_utils.py:175-189 | the run's log starts with a reading and the backup message, ends with a reading and the completion call, has exactly one completion call and no other reading, and the closing events add no progress message |
| SystemUtils.RunOptimizations | system_utils.py:174-189 | the run takes a reading, announces the backup, backs up the registry as it was before any action ran, runs the selection, takes a second reading and makes exactly one completion call. The log gains exactly a reading, the backup message, every selected action's events in selection order, a reading and the completion call. The result holds both readings and each action's outcome under its name, in order. The registry and service flag are those the selection produces |
| Text.NatToString | system_utils.py:86 | str(n) is a non-empty run of decimal digits with no leading zero unless n is 0 |
| Text.NatToStringRoundTrip | system_utils.py:86 | the decimal text of the count reads back as the count |
| UiMain.Select | ui_main.py:267 | an entry is selected exactly when its check box reads "on"; the selection keeps catalogue order and distinct names |
| UiMain.SelectedOptimizations | ui_main.py:165-170 | over the catalogue, the selection is an ordered, duplicate-free subsequence of exactly the checked entries |
| UiMain.SelectionEmpty | ui_main.py:267-269 | the selection is empty exactly when no catalogue box reads "on" |
| UiMain.CatalogueNamesDistinct | ui_main.py:151-160 | the eight catalogue names are pairwise different |
| UiMain.RunOptimizations | ui_main.py:266-278 | nothing runs and nothing changes exactly when no box is checked. Otherwise the coordinator runs exactly the selection, with everything the coordinator's contract states: readings, outcomes in order, backup file, registry, service flag, the exact log and one completion call |
| UiMain.Max | ui_main.py:251 | Python's `max` on two readings is at least both and equal to one of them |
| UiMain.Rate | ui_main.py:251-257 | Poor exactly when some usage exceeds 80; Good exactly when all are at most 50; Average otherwise |
| UiMain.ShowHealth | ui_main.py:251-262 | the three bars take the label's colour; red exactly for Poor, green exactly for Good |

## Left out

- Effects on the real operating system are replaced by their outcome as input values: registry access, file deletion, subprocesses and `winshell`.
- `SystemParametersInfoW` has no input value. Each call is logged as a `SettingBroadcast` event and taken to return. ctypes does not raise when the call returns FALSE, and the code does not look at its result.
- The background thread (system_utils.py:194-196) is not modelled, and neither is any interleaving with the UI. The model runs the `task` body to completion.
- `time.sleep` and the diagnostic `print` calls are left out. They have no effect on state.
- `get_static_info`, `get_realtime_stats` (psutil) and the report formatting are not modelled. A reading is an input `Snapshot`.
- Presentation is not modelled:
  - widgets, the progress window and message boxes;
  - the restore confirmation dialog;
  - the periodic refresh.
- main.py's administrator check is not part of this model.
- JSON serialisation of the backup file is reduced to a map from identifier to integer. A stored value of another JSON type is not modelled.
- A backup file holding valid JSON that is not an object is not modelled. `Unreadable` stands only for a file on which `json.load` raises. For such a file, restore returns True without a write when "VisualEffects" is not an element (a list) or substring (a string) of it, and False when the membership test or the lookup raises a TypeError.
- `SetValueEx` with `REG_DWORD` rejects a value outside 0..2^32-1. The model keeps registry values as unbounded integers and leaves that rejection to the `write` status input of the restore.
- A failed backup write is modelled as leaving the old file untouched. Truncation by `open(..., "w")` before `json.dump` fails is not modelled.
- `os.environ` lookups are case-sensitive here, whereas Windows environment names are not.
- Text.Lower: lowers ASCII letters only. For the pattern "high performance" this decides the same lines as Python's full `lower()`. The only non-ASCII characters that lower to ASCII letters are KELVIN SIGN and the dotted capital I, and neither can produce this pattern's characters at the positions it needs.
- SystemUtils.JoinPath: covers only a relative name without a drive, which is all `clean_temp_files` joins. UNC and absolute second arguments are left out. NeedsSeparator treats only a two-character `dir` such as `C:` as a bare drive. `ntpath.join` also adds no backslash after a device path that names a drive, such as `\\?\C:` or `\\.\C:`: it gives `\\?\C:Temp` where JoinPath gives `\\?\C:\Temp`. How `ntpath` splits such drives also differs between Python versions.
- `splitlines()` on the `powercfg /l` output is not modelled. The output is given as its lines.
- Temp cleaning does not delete entries from the modelled folder listings. A later action sees the same `World`.
- SystemUtils.CleanTempFiles: models the corrected action. An existing temp folder that cannot be listed is skipped. In the source, `os.listdir` raises out of the action there (see Findings, and RemovalFailuresAsWritten for the code as written).
- SystemUtils.CleanWindowsUpdateCache: if launching `net` itself fails on the except path, that exception escapes. This is not modelled: the unchecked restart is taken to return.
- The recycle bin's contents are not state. Only the emptying call is logged.
- The `global backup_utils` import inside `run_optimizations` (system_utils.py:191-192) is not modelled. The backup module is called directly.
- SystemUtils.RunOptimizations: the exception path of `clean_temp_files` (see Findings) is not followed into the coordinator. With the corrected count, every action returns.

## Findings

| source | as written | input that shows it | evidently intended | confidence | as-written member | corrected member |
|---|---|---|---|---|---|---|
| system_utils.py:74-84 | `os.listdir(folder)` sits outside the `try`. A folder that exists but cannot be listed raises out of `clean_temp_files` and of the background task, so the completion callback is never made and the modal progress window stays open. | TEMP = `C:\Users\u\temp.txt`, a regular file: `os.path.exists` holds, and `os.listdir` raises NotADirectoryError | an unlistable temp folder is skipped (or counted) and the action returns its report | not executed | SystemUtils.RemovalFailuresAsWritten | SystemUtils.CountRemovalFailures |
