/** The eight maintenance actions and the coordinator that runs a selection of
    them. Every answer the operating system would give (exit status of a
    command, an exception from a file or registry call, the text a command
    prints, the environment, the listing of a folder) is an input; every
    effect the program causes is a change of the `Machine`. */
module SystemUtils {
  import opened WinState
  import opened Text
  import BackupUtils
  import opened PowercfgOutput

  datatype ActionKind =
    | TempFiles         // clean_temp_files
    | UpdateCache       // clean_windows_update_cache
    | RecycleBin        // empty_recycle_bin
    | DnsCache          // clear_dns_cache
    | DiskOptimization  // optimize_disk
    | PowerPlan         // set_high_performance_power_plan
    | VisualEffects     // adjust_visual_effects
    | BackgroundApps    // disable_background_apps

  /** One entry of a selection: the user-facing name and the action it runs. */
  datatype Optimization = Optimization(name: string, kind: ActionKind)

  /** A selection is a dictionary: no name occurs twice. */
  predicate DistinctNames(selected: seq<Optimization>)
  {
    forall i, j :: 0 <= i < j < |selected| ==> selected[i].name != selected[j].name
  }

  /** The message each action hands to the progress callback before anything else. */
  function ProgressMessage(kind: ActionKind): string
  {
    match kind
    case TempFiles => TempFilesProgress
    case UpdateCache => UpdateCacheProgress
    case RecycleBin => RecycleBinProgress
    case DnsCache => DnsCacheProgress
    case DiskOptimization => DiskOptimizationProgress
    case PowerPlan => PowerPlanProgress
    case VisualEffects => VisualEffectsProgress
    case BackgroundApps => BackgroundAppsProgress
  }

  const TempFilesProgress: string := "Cleaning temporary files..."
  const UpdateCacheProgress: string := "Cleaning Windows Update cache..."
  const RecycleBinProgress: string := "Emptying Recycle Bin..."
  const DnsCacheProgress: string := "Clearing DNS cache..."
  const DiskOptimizationProgress: string := "Optimizing system disk (Defrag/TRIM)..."
  const PowerPlanProgress: string := "Setting power plan to High Performance..."
  const VisualEffectsProgress: string := "Adjusting visual effects for performance..."
  const BackgroundAppsProgress: string := "Disabling background apps..."
  const BackupProgress: string := "Backing up critical settings..."

  // ---------------------------------------------------------------------
  // Answers of the operating system

  datatype EntryKind = FileOrLink | Directory | OtherEntry

  /** A folder entry and how removing it would end (unlink or rmtree). */
  datatype DirEntry = DirEntry(kind: EntryKind, removal: Status)

  /** What os.listdir gives for an existing path. */
  datatype Listing = Entries(entries: seq<DirEntry>) | ListingError(error: string)

  datatype UpdateCacheReplies = UpdateCacheReplies(
    stop: Status,        // net stop wuauserv, check=True
    cacheExists: bool,   // os.path.exists on the SoftwareDistribution folder
    recreate: Status,    // os.makedirs after the tree was removed
    start: Status,       // net start wuauserv, check=True
    restart: Status)     // net start wuauserv on the failure path (no check)

  datatype RecycleBinReplies = RecycleBinReplies(size: Result<nat>, empty: Status)

  datatype PowerPlanReplies = PowerPlanReplies(
    list: Result<seq<string>>,  // powercfg /l: its output lines, or the error
    select: Status)             // powercfg /s <guid>

  /** Everything the operating system answers during one run. A path that is
      not a key of `fs` does not exist. */
  datatype World = World(
    before: Snapshot,
    after: Snapshot,
    backupRead: Status,
    backupWrite: Status,
    environ: map<string, string>,
    fs: map<string, Listing>,
    updateCache: UpdateCacheReplies,
    recycleBin: RecycleBinReplies,
    flushDns: Status,
    defrag: Status,
    powerPlan: PowerPlanReplies,
    visualFxWrite: Status,
    backgroundAppsWrite: Status)

  /** The before and after readings and the outcome text of each action,
      keyed by name in insertion order. */
  datatype RunResult = RunResult(before: Snapshot, after: Snapshot, outcomes: seq<(string, string)>)

  // ---------------------------------------------------------------------
  // clean_temp_files

  /** ntpath.join puts a backslash after `dir` unless `dir` is empty, already
      ends with a separator, or is a bare drive such as "C:". */
  predicate NeedsSeparator(dir: string)
  {
    dir != [] && dir[|dir| - 1] != '\\' && dir[|dir| - 1] != '/' && !(|dir| == 2 && dir[1] == ':')
  }

  /** os.path.join(dir, name) for a relative `name` without a drive: `dir`,
      then at most one backslash, then `name`. */
  function JoinPath(dir: string, name: string): (path: string)
    ensures |path| == |dir| + |name| + (if NeedsSeparator(dir) then 1 else 0)
    ensures path[..|dir|] == dir
    ensures path[|path| - |name|..] == name
    ensures NeedsSeparator(dir) ==> path[|dir|] == '\\'
  {
    if dir == [] then name
    else if dir[|dir| - 1] == '\\' || dir[|dir| - 1] == '/' then dir + name
    else if |dir| == 2 && dir[1] == ':' then dir + name
    else dir + "\\" + name
  }

  /** The environment variable naming the Windows folder. */
  const Windir: string := "windir"

  /** The two folders clean_temp_files visits: TEMP, or "" when it is unset,
      and the Temp folder under windir, or the relative folder "Temp" when
      windir is unset or empty. */
  function TempFolders(environ: map<string, string>): (folders: seq<string>)
    ensures |folders| == 2
    ensures folders[0] == if "TEMP" in environ then environ["TEMP"] else ""
    ensures Windir !in environ || environ[Windir] == [] ==> folders[1] == "Temp"
    ensures Windir in environ ==> |environ[Windir]| <= |folders[1]| && folders[1][..|environ[Windir]|] == environ[Windir]
    ensures |folders[1]| >= 4 && folders[1][|folders[1]| - 4..] == "Temp"
  {
    var temp := if "TEMP" in environ then environ["TEMP"] else "";
    var windir := if Windir in environ then environ[Windir] else "";
    [temp, JoinPath(windir, "Temp")]
  }

  /** Removing the entry raises: only files, links and directories are removed. */
  predicate RemovalRaises(e: DirEntry)
  {
    e.kind != OtherEntry && e.removal.Err?
  }

  function EntryFailures(entries: seq<DirEntry>): nat
  {
    if entries == [] then 0
    else EntryFailures(entries[..|entries| - 1]) + (if RemovalRaises(entries[|entries| - 1]) then 1 else 0)
  }

  function FailingPositions(entries: seq<DirEntry>): set<int>
  {
    set k | 0 <= k < |entries| && RemovalRaises(entries[k])
  }

  /** The count is the number of entries whose removal raised. */
  lemma {:induction false} EntryFailuresCountsRaisingRemovals(entries: seq<DirEntry>)
    ensures EntryFailures(entries) == |FailingPositions(entries)|
    decreases |entries|
  {
    if entries == [] {
      assert FailingPositions(entries) == {};
    } else {
      var n := |entries| - 1;
      var init := entries[..n];
      EntryFailuresCountsRaisingRemovals(init);
      if RemovalRaises(entries[n]) {
        assert FailingPositions(entries) == FailingPositions(init) + {n};
      } else {
        assert FailingPositions(entries) == FailingPositions(init);
      }
    }
  }

  /** Removal failures in one folder. A folder is skipped when its path is
      empty or does not exist, and, unlike the code as written, when it
      cannot be listed. */
  function FolderFailures(path: string, fs: map<string, Listing>): nat
  {
    if path == [] || path !in fs then 0
    else match fs[path]
      case Entries(entries) => EntryFailures(entries)
      case ListingError(_) => 0
  }

  function RemovalFailures(paths: seq<string>, fs: map<string, Listing>): nat
  {
    if paths == [] then 0
    else RemovalFailures(paths[..|paths| - 1], fs) + FolderFailures(paths[|paths| - 1], fs)
  }

  /** The counting loop of clean_temp_files as written: os.listdir is outside
      the try, so a folder that exists but cannot be listed raises out of the
      action. */
  function RemovalFailuresAsWritten(paths: seq<string>, fs: map<string, Listing>): (r: Result<nat>)
    ensures r.Failure? <==> !AllListable(paths, fs)
    decreases |paths|
  {
    if paths == [] then Success(0)
    else
      match RemovalFailuresAsWritten(paths[..|paths| - 1], fs)
      case Failure(e) => Failure(e)
      case Success(n) =>
        var path := paths[|paths| - 1];
        assert forall k :: 0 <= k < |paths| - 1 ==> paths[..|paths| - 1][k] == paths[k];
        if path == [] || path !in fs then Success(n)
        else match fs[path]
          case Entries(entries) => Success(n + EntryFailures(entries))
          case ListingError(e) => Failure(e)
  }

  predicate AllListable(paths: seq<string>, fs: map<string, Listing>)
  {
    forall k :: 0 <= k < |paths| && paths[k] != [] && paths[k] in fs ==> fs[paths[k]].Entries?
  }

  /** Where every existing folder can be listed, the code as written and the
      corrected count agree. */
  lemma {:induction false} AsWrittenAgreesWhenListable(paths: seq<string>, fs: map<string, Listing>)
    requires AllListable(paths, fs)
    ensures RemovalFailuresAsWritten(paths, fs) == Success(RemovalFailures(paths, fs))
    decreases |paths|
  {
    if paths != [] {
      var init := paths[..|paths| - 1];
      assert forall k :: 0 <= k < |init| ==> init[k] == paths[k];
      AsWrittenAgreesWhenListable(init, fs);
    }
  }

  /** TEMP naming a regular file: os.path.exists holds, os.listdir raises
      NotADirectoryError, and the action as written does not return. */
  lemma ListingErrorEscapes()
    ensures var environ := map["TEMP" := "C:\\Users\\u\\temp.txt", "windir" := "C:\\Windows"];
      var fs := map["C:\\Users\\u\\temp.txt" := ListingError("[WinError 267] The directory name is invalid")];
      && RemovalFailuresAsWritten(TempFolders(environ), fs).Failure?
      && RemovalFailures(TempFolders(environ), fs) == 0
  {
    var environ := map["TEMP" := "C:\\Users\\u\\temp.txt", "windir" := "C:\\Windows"];
    var fs := map["C:\\Users\\u\\temp.txt" := ListingError("[WinError 267] The directory name is invalid")];
    var paths := TempFolders(environ);
    assert paths[0] == "C:\\Users\\u\\temp.txt";
    assert paths[1] == "C:\\Windows\\Temp";
    assert paths[..|paths| - 1] == [paths[0]];
    assert paths[1] !in fs;
    assert paths[..1] == ["C:\\Users\\u\\temp.txt"];
    assert paths[..1][..0] == [];
    assert FolderFailures(paths[0], fs) == 0 && FolderFailures(paths[1], fs) == 0;
    assert RemovalFailures(paths[..1], fs) == 0;
  }

  /** The nested loop of clean_temp_files, counting removals that raised. */
  method CountRemovalFailures(paths: seq<string>, fs: map<string, Listing>) returns (count: nat)
    ensures count == RemovalFailures(paths, fs)
  {
    count := 0;
    var i := 0;
    while i < |paths|
      invariant 0 <= i <= |paths|
      invariant count == RemovalFailures(paths[..i], fs)
    {
      var folder := paths[i];
      ghost var base := count;
      if folder != [] && folder in fs && fs[folder].Entries? {
        var entries := fs[folder].entries;
        var j := 0;
        while j < |entries|
          invariant 0 <= j <= |entries|
          invariant count == base + EntryFailures(entries[..j])
        {
          if entries[j].kind != OtherEntry && entries[j].removal.Err? {
            count := count + 1;
          }
          assert entries[..j + 1][..j] == entries[..j];
          j := j + 1;
        }
        assert entries[..j] == entries;
      }
      assert count == base + FolderFailures(folder, fs);
      assert paths[..i + 1][..i] == paths[..i];
      i := i + 1;
    }
    assert paths[..i] == paths;
  }

  const TempFilesCleaned: string := "Temp files cleaned. Could not remove "
  const LockedFiles: string := " locked file(s)."

  /** The report of clean_temp_files for `count` removals that raised. */
  function TempFilesReport(count: nat): string
  {
    TempFilesCleaned + NatToString(count) + LockedFiles
  }

  /** clean_temp_files, corrected: a temp folder that exists but cannot be
      listed is skipped instead of raising (see RemovalFailuresAsWritten for
      the code as written). The report counts the removals that raised. */
  method CleanTempFiles(m: Machine, environ: map<string, string>, fs: map<string, Listing>) returns (outcome: string)
    modifies m
    ensures m.log == old(m.log) + [Progress(ProgressMessage(TempFiles))]
    ensures EmitsOneProgress(old(m.log), m.log, ProgressMessage(TempFiles)) && ActionEvents(m.log, |old(m.log)|)
    ensures m.registry == old(m.registry) && m.backupFile == old(m.backupFile)
    ensures m.updateServiceRunning == old(m.updateServiceRunning)
    ensures outcome == TempFilesReport(RemovalFailures(TempFolders(environ), fs))
  {
    m.log := m.log + [Progress(ProgressMessage(TempFiles))];
    EmitsAlone(old(m.log), ProgressMessage(TempFiles));
    var errorCount := CountRemovalFailures(TempFolders(environ), fs);
    outcome := TempFilesReport(errorCount);
  }

  // ---------------------------------------------------------------------
  // clean_windows_update_cache

  const NetStop: seq<string> := ["net", "stop", "wuauserv"]
  const NetStart: seq<string> := ["net", "start", "wuauserv"]
  const UpdateCacheCleared: string := "Windows Update cache cleared successfully."
  const UpdateCacheFailed: string := "Failed to clear Update cache: "

  /** os.path.join(None, ...) when windir is unset. */
  const JoinNoneError: string := "expected str, bytes or os.PathLike object, not NoneType"

  /** The exception that ends the try block, if any. */
  function UpdateCacheError(environ: map<string, string>, r: UpdateCacheReplies): Option<string>
  {
    if r.stop.Err? then Some(r.stop.error)
    else if Windir !in environ then Some(JoinNoneError)
    else if r.cacheExists && r.recreate.Err? then Some(r.recreate.error)
    else if r.start.Err? then Some(r.start.error)
    else None
  }

  /** The checked `net start` inside the try block is reached. */
  predicate StartReached(environ: map<string, string>, r: UpdateCacheReplies)
  {
    r.stop.Ok? && Windir in environ && !(r.cacheExists && r.recreate.Err?)
  }

  /** The events clean_windows_update_cache adds to the log: its progress
      message, `net stop`, the checked `net start` if reached, and the
      unchecked `net start` of the except branch if an error occurred. */
  function UpdateCacheEvents(environ: map<string, string>, r: UpdateCacheReplies): seq<Event>
  {
    [Progress(ProgressMessage(UpdateCache)), Command(NetStop)]
    + (if StartReached(environ, r) then [Command(NetStart)] else [])
    + (if UpdateCacheError(environ, r).Some? then [Command(NetStart)] else [])
  }

  /** The log after clean_windows_update_cache: `net stop` first, then only
      `net start`, once or twice. */
  lemma UpdateCacheLog(log0: seq<Event>, environ: map<string, string>, r: UpdateCacheReplies)
    ensures EmitsOneProgress(log0, log0 + UpdateCacheEvents(environ, r), ProgressMessage(UpdateCache))
    ensures ActionEvents(log0 + UpdateCacheEvents(environ, r), |log0|)
    ensures |log0 + UpdateCacheEvents(environ, r)| == |log0| + (if StartReached(environ, r) && r.start.Err? then 4 else 3)
    ensures (log0 + UpdateCacheEvents(environ, r))[|log0| + 1] == Command(NetStop)
    ensures forall k :: |log0| + 2 <= k < |log0| + |UpdateCacheEvents(environ, r)| ==>
      (log0 + UpdateCacheEvents(environ, r))[k] == Command(NetStart)
  {
    var events := UpdateCacheEvents(environ, r);
    var log := log0 + events;
    assert forall k :: |log0| <= k < |log| ==> log[k] == events[k - |log0|];
    assert forall k :: 2 <= k < |events| ==> events[k] == Command(NetStart);
    assert log[..|log0|] == log0;
    assert log[|log0|] == Progress(ProgressMessage(UpdateCache));
    assert forall k :: |log0| < k < |log| ==> !log[k].Progress?;
  }

  /** The try block of clean_windows_update_cache: `net stop`, the cache
      folder, and the checked `net start` when reached. It returns the
      exception that ends it, if any. */
  method UpdateCacheTry(m: Machine, environ: map<string, string>, r: UpdateCacheReplies)
    returns (error: Option<string>)
    modifies m
    ensures error == UpdateCacheError(environ, r)
    ensures m.log == old(m.log) + [Command(NetStop)] + (if StartReached(environ, r) then [Command(NetStart)] else [])
    ensures m.registry == old(m.registry) && m.backupFile == old(m.backupFile)
    ensures m.updateServiceRunning ==
      if r.stop.Err? then old(m.updateServiceRunning) else StartReached(environ, r) && r.start.Ok?
  {
    error := None;
    m.log := m.log + [Command(NetStop)];
    if r.stop.Err? {
      error := Some(r.stop.error);
    } else {
      m.updateServiceRunning := false;
      if Windir !in environ {
        error := Some(JoinNoneError);
      } else if r.cacheExists && r.recreate.Err? {
        // rmtree ignores its errors; makedirs raised
        error := Some(r.recreate.error);
      } else {
        m.log := m.log + [Command(NetStart)];
        if r.start.Err? {
          error := Some(r.start.error);
        } else {
          m.updateServiceRunning := true;
        }
      }
    }
  }

  method CleanWindowsUpdateCache(m: Machine, environ: map<string, string>, r: UpdateCacheReplies)
    returns (outcome: string)
    modifies m
    ensures m.log == old(m.log) + UpdateCacheEvents(environ, r)
    ensures EmitsOneProgress(old(m.log), m.log, ProgressMessage(UpdateCache)) && ActionEvents(m.log, |old(m.log)|)
    ensures m.registry == old(m.registry) && m.backupFile == old(m.backupFile)
    // the service is stopped first and started last, on every path
    ensures |m.log| == |old(m.log)| + (if StartReached(environ, r) && r.start.Err? then 4 else 3)
    ensures m.log[|old(m.log)| + 1] == Command(NetStop)
    ensures forall k :: |old(m.log)| + 2 <= k < |m.log| ==> m.log[k] == Command(NetStart)
    ensures UpdateCacheError(environ, r).None? ==> outcome == UpdateCacheCleared && m.updateServiceRunning
    ensures UpdateCacheError(environ, r).Some? ==>
      && outcome == UpdateCacheFailed + UpdateCacheError(environ, r).value
      && m.updateServiceRunning == (r.restart.Ok? || (r.stop.Err? && old(m.updateServiceRunning)))
  {
    m.log := m.log + [Progress(ProgressMessage(UpdateCache))];
    var error := UpdateCacheTry(m, environ, r);
    ghost var tried := m.log;
    assert tried == old(m.log) + ([Progress(ProgressMessage(UpdateCache)), Command(NetStop)]
                                  + (if StartReached(environ, r) then [Command(NetStart)] else []));
    if error.None? {
      outcome := UpdateCacheCleared;
    } else {
      // the except branch starts the service again, without checking
      m.log := m.log + [Command(NetStart)];
      if r.restart.Ok? {
        m.updateServiceRunning := true;
      }
      outcome := UpdateCacheFailed + error.value;
    }
    assert m.log == old(m.log) + UpdateCacheEvents(environ, r);
    UpdateCacheLog(old(m.log), environ, r);
  }


  // ---------------------------------------------------------------------
  // empty_recycle_bin, clear_dns_cache, optimize_disk

  const DnsFlushed: string := "DNS cache flushed successfully."
  const DnsFailed: string := "Failed to flush DNS cache: "
  const DiskOptimized: string := "System disk optimization complete."
  const DiskFailed: string := "Disk optimization failed: "
  const BinAlreadyEmpty: string := "Recycle Bin is already empty."
  const BinEmptied: string := "Recycle Bin emptied successfully."
  const BinFailed: string := "Failed to empty Recycle Bin: "

  /** The events empty_recycle_bin adds to the log: its progress message,
      and the emptying call when the bin is not empty. */
  function RecycleBinEvents(r: RecycleBinReplies): seq<Event>
  {
    [Progress(ProgressMessage(RecycleBin))] + (if r.size.Success? && r.size.value > 0 then [RecycleBinEmptied] else [])
  }

  method EmptyRecycleBin(m: Machine, r: RecycleBinReplies) returns (outcome: string)
    modifies m
    ensures m.log == old(m.log) + RecycleBinEvents(r)
    ensures EmitsOneProgress(old(m.log), m.log, ProgressMessage(RecycleBin)) && ActionEvents(m.log, |old(m.log)|)
    ensures m.registry == old(m.registry) && m.backupFile == old(m.backupFile)
    ensures m.updateServiceRunning == old(m.updateServiceRunning)
    ensures r.size.Failure? ==>
      outcome == BinFailed + r.size.error && m.log == old(m.log) + [Progress(ProgressMessage(RecycleBin))]
    ensures r.size == Success(0) ==>
      outcome == BinAlreadyEmpty && m.log == old(m.log) + [Progress(ProgressMessage(RecycleBin))]
    ensures r.size.Success? && r.size.value > 0 ==>
      && m.log == old(m.log) + [Progress(ProgressMessage(RecycleBin)), RecycleBinEmptied]
      && outcome == (if r.empty.Ok? then BinEmptied else BinFailed + r.empty.error)
  {
    m.log := m.log + [Progress(ProgressMessage(RecycleBin))];
    match r.size
    case Failure(e) =>
      outcome := BinFailed + e;
    case Success(size) =>
      if size == 0 {
        outcome := BinAlreadyEmpty;
      } else {
        m.log := m.log + [RecycleBinEmptied];
        outcome := if r.empty.Ok? then BinEmptied else BinFailed + r.empty.error;
      }
  }

  /** The three outcomes of empty_recycle_bin are told apart by their text. */
  lemma RecycleBinOutcomesDistinct(e: string)
    ensures BinAlreadyEmpty != BinEmptied
    ensures BinAlreadyEmpty != BinFailed + e && BinEmptied != BinFailed + e
  {
    assert (BinFailed + e)[0] == 'F';
  }

  const FlushDns: seq<string> := ["ipconfig", "/flushdns"]

  method ClearDnsCache(m: Machine, flush: Status) returns (outcome: string)
    modifies m
    ensures m.log == old(m.log) + [Progress(ProgressMessage(DnsCache)), Command(FlushDns)]
    ensures EmitsOneProgress(old(m.log), m.log, ProgressMessage(DnsCache)) && ActionEvents(m.log, |old(m.log)|)
    ensures m.registry == old(m.registry) && m.backupFile == old(m.backupFile)
    ensures m.updateServiceRunning == old(m.updateServiceRunning)
    ensures outcome == if flush.Ok? then DnsFlushed else DnsFailed + flush.error
  {
    m.log := m.log + [Progress(ProgressMessage(DnsCache))];
    m.log := m.log + [Command(FlushDns)];
    if flush.Ok? {
      outcome := DnsFlushed;
    } else {
      outcome := DnsFailed + flush.error;
    }
  }

  const DefragSystemDisk: seq<string> := ["defrag", "C:", "/O"]

  method OptimizeDisk(m: Machine, defrag: Status) returns (outcome: string)
    modifies m
    ensures m.log == old(m.log) + [Progress(ProgressMessage(DiskOptimization)), Command(DefragSystemDisk)]
    ensures EmitsOneProgress(old(m.log), m.log, ProgressMessage(DiskOptimization)) && ActionEvents(m.log, |old(m.log)|)
    ensures m.registry == old(m.registry) && m.backupFile == old(m.backupFile)
    ensures m.updateServiceRunning == old(m.updateServiceRunning)
    ensures outcome == if defrag.Ok? then DiskOptimized else DiskFailed + defrag.error
  {
    m.log := m.log + [Progress(ProgressMessage(DiskOptimization))];
    m.log := m.log + [Command(DefragSystemDisk)];
    if defrag.Ok? {
      outcome := DiskOptimized;
    } else {
      outcome := DiskFailed + defrag.error;
    }
  }

  // ---------------------------------------------------------------------
  // set_high_performance_power_plan

  const PowercfgList: seq<string> := ["powercfg", "/l"]
  /** `powercfg /s`, followed by the GUID of the plan to activate. */
  const PowercfgSet: seq<string> := ["powercfg", "/s"]
  const PlanSet: string := "Power plan set to High Performance."
  const PlanNotFound: string := "High Performance plan not found."
  const PlanFailed: string := "Failed to set power plan: "
  const IndexErrorText: string := "list index out of range"

  /** The plan name the scan looks for, in lower case. */
  const PlanNameLowered: string := "high performance"

  /** The scan's test: the line, lower-cased, contains the plan name. */
  predicate MentionsHighPerformance(line: string)
  {
    Contains(Lower(line), PlanNameLowered)
  }

  /** The first line that mentions the plan, if any. */
  function FirstMention(lines: seq<string>): (found: Option<nat>)
    ensures found.Some? ==>
      && found.value < |lines|
      && MentionsHighPerformance(lines[found.value])
      && forall k :: 0 <= k < found.value ==> !MentionsHighPerformance(lines[k])
    ensures found.None? ==> forall k :: 0 <= k < |lines| ==> !MentionsHighPerformance(lines[k])
    decreases |lines|
  {
    if lines == [] then None
    else if MentionsHighPerformance(lines[0]) then Some(0)
    else match FirstMention(lines[1..])
      case None => None
      case Some(k) => Some(k + 1)
  }

  /** The scan over the output lines of `powercfg /l`, stopping at the first match. */
  method FindHighPerformanceLine(lines: seq<string>) returns (found: Option<nat>)
    ensures found == FirstMention(lines)
  {
    var i := 0;
    while i < |lines|
      invariant 0 <= i <= |lines|
      invariant forall k :: 0 <= k < i ==> !MentionsHighPerformance(lines[k])
    {
      if Contains(Lower(lines[i]), PlanNameLowered) {
        return Some(i);
      }
      i := i + 1;
    }
    return None;
  }

  /** The GUID passed to `powercfg /s`: the fourth word of the first
      matching line, when the listing succeeded and that line has one. */
  function SelectedGuid(r: PowerPlanReplies): Option<string>
  {
    if r.list.Failure? then None
    else match FirstMention(r.list.value)
      case None => None
      case Some(i) =>
        var words := Split(r.list.value[i]);
        if |words| < 4 then None else Some(words[3])
  }

  /** The events set_high_performance_power_plan adds to the log: its
      progress message, `powercfg /l`, and `powercfg /s` with the GUID found. */
  function PowerPlanEvents(r: PowerPlanReplies): seq<Event>
  {
    [Progress(ProgressMessage(PowerPlan)), Command(PowercfgList)]
    + (match SelectedGuid(r)
       case None => []
       case Some(guid) => [Command(PowercfgSet + [guid])])
  }

  method SetHighPerformancePowerPlan(m: Machine, r: PowerPlanReplies) returns (outcome: string)
    modifies m
    ensures m.log == old(m.log) + PowerPlanEvents(r)
    ensures EmitsOneProgress(old(m.log), m.log, ProgressMessage(PowerPlan)) && ActionEvents(m.log, |old(m.log)|)
    ensures m.registry == old(m.registry) && m.backupFile == old(m.backupFile)
    ensures m.updateServiceRunning == old(m.updateServiceRunning)
    ensures |m.log| >= |old(m.log)| + 2 && m.log[|old(m.log)| + 1] == Command(PowercfgList)
    ensures r.list.Failure? ==> outcome == PlanFailed + r.list.error && |m.log| == |old(m.log)| + 2
    ensures r.list.Success? && FirstMention(r.list.value).None? ==>
      outcome == PlanNotFound && |m.log| == |old(m.log)| + 2
    ensures r.list.Success? && FirstMention(r.list.value).Some? ==>
      var words := Split(r.list.value[FirstMention(r.list.value).value]);
      && (|words| < 4 ==> outcome == PlanFailed + IndexErrorText && |m.log| == |old(m.log)| + 2)
      && (|words| >= 4 ==>
            && m.log == old(m.log) + [Progress(ProgressMessage(PowerPlan)), Command(PowercfgList),
                                      Command(PowercfgSet + [words[3]])]
            && outcome == (if r.select.Ok? then PlanSet else PlanFailed + r.select.error))
  {
    m.log := m.log + [Progress(ProgressMessage(PowerPlan))];
    m.log := m.log + [Command(PowercfgList)];
    match r.list
    case Failure(e) =>
      outcome := PlanFailed + e;
    case Success(lines) =>
      var found := FindHighPerformanceLine(lines);
      match found
      case None =>
        outcome := PlanNotFound;
      case Some(i) =>
        var words := Split(lines[i]);
        if |words| < 4 {
          outcome := PlanFailed + IndexErrorText;
        } else {
          var guid := words[3];
          m.log := m.log + [Command(PowercfgSet + [guid])];
          outcome := if r.select.Ok? then PlanSet else PlanFailed + r.select.error;
        }
  }

  /** "not found" is reported distinctly from every failure. */
  lemma PlanNotFoundIsNotFailure(e: string)
    ensures PlanNotFound != PlanFailed + e && PlanNotFound != PlanSet
  {
    assert (PlanFailed + e)[0] == 'F';
  }

  /** The plan name, in the capitalisation Windows prints, lowers to the pattern. */
  lemma LowerPlanName()
    ensures Lower("High performance") == "high performance"
  {
  }

  /** Where the plan name sits in such a line. */
  lemma PlanNameInLine(guid: string, active: bool)
    ensures PowercfgLine(guid, active)
            == ("Power" + (" " + ("Scheme" + (" " + ("GUID:" + (" " + (guid + "  (")))))))
               + ("High performance" + (")" + Mark(active)))
  {
  }

  /** The scan's test accepts such a line. */
  lemma PowercfgLineMentions(guid: string, active: bool)
    ensures MentionsHighPerformance(PowercfgLine(guid, active))
  {
    PlanNameInLine(guid, active);
    LowerPlanName();
    ContainsLoweredMiddle("Power" + (" " + ("Scheme" + (" " + ("GUID:" + (" " + (guid + "  (")))))),
                          "High performance", ")" + Mark(active));
  }

  /** Such a line is the one the scan picks, and its fourth word is the GUID. */
  lemma PowercfgLineGuid(guid: string, active: bool)
    requires guid != [] && NoSpace(guid)
    ensures MentionsHighPerformance(PowercfgLine(guid, active))
    ensures var words := Split(PowercfgLine(guid, active)); |words| >= 4 && words[3] == guid
  {
    PowercfgLineWords(guid, active);
    PowercfgLineMentions(guid, active);
  }

  // ---------------------------------------------------------------------
  // adjust_visual_effects, disable_background_apps

  const VisualFxAdjusted: string := "Visual effects adjusted for performance."
  const VisualFxFailed: string := "Failed to adjust visual effects: "
  const BackgroundAppsDisabled: string := "Background apps setting disabled."
  const BackgroundAppsFailed: string := "Failed to disable background apps: "

  /** The events adjust_visual_effects adds to the log: its progress
      message, and the settings broadcast when the write succeeded. */
  function VisualEffectsEvents(write: Status): seq<Event>
  {
    [Progress(ProgressMessage(VisualEffects))] + (if write.Ok? then [SettingBroadcast] else [])
  }

  method AdjustVisualEffects(m: Machine, write: Status) returns (outcome: string)
    modifies m
    ensures m.log == old(m.log) + VisualEffectsEvents(write)
    ensures EmitsOneProgress(old(m.log), m.log, ProgressMessage(VisualEffects)) && ActionEvents(m.log, |old(m.log)|)
    ensures m.backupFile == old(m.backupFile) && m.updateServiceRunning == old(m.updateServiceRunning)
    ensures write.Ok? ==>
      && m.registry == old(m.registry)[VisualFxSetting := 2]
      && m.log == old(m.log) + [Progress(ProgressMessage(VisualEffects)), SettingBroadcast]
      && outcome == VisualFxAdjusted
    ensures write.Err? ==>
      && m.registry == old(m.registry)
      && m.log == old(m.log) + [Progress(ProgressMessage(VisualEffects))]
      && outcome == VisualFxFailed + write.error
  {
    m.log := m.log + [Progress(ProgressMessage(VisualEffects))];
    if write.Err? {
      return VisualFxFailed + write.error;
    }
    m.registry := m.registry[VisualFxSetting := 2];
    m.log := m.log + [SettingBroadcast];
    outcome := VisualFxAdjusted;
  }

  method DisableBackgroundApps(m: Machine, write: Status) returns (outcome: string)
    modifies m
    ensures m.log == old(m.log) + [Progress(ProgressMessage(BackgroundApps))]
    ensures EmitsOneProgress(old(m.log), m.log, ProgressMessage(BackgroundApps)) && ActionEvents(m.log, |old(m.log)|)
    ensures m.backupFile == old(m.backupFile) && m.updateServiceRunning == old(m.updateServiceRunning)
    ensures write.Ok? ==>
      m.registry == old(m.registry)[BackgroundAppsSetting := 1] && outcome == BackgroundAppsDisabled
    ensures write.Err? ==>
      m.registry == old(m.registry) && outcome == BackgroundAppsFailed + write.error
  {
    m.log := m.log + [Progress(ProgressMessage(BackgroundApps))];
    if write.Err? {
      return BackgroundAppsFailed + write.error;
    }
    m.registry := m.registry[BackgroundAppsSetting := 1];
    outcome := BackgroundAppsDisabled;
  }

  // ---------------------------------------------------------------------
  // run_optimizations

  /** The text the action `kind` returns, given the world's answers. It does
      not depend on the machine state, so neither on the actions run before. */
  function ActionOutcome(kind: ActionKind, w: World): string
  {
    match kind
    case TempFiles =>
      TempFilesReport(RemovalFailures(TempFolders(w.environ), w.fs))
    case UpdateCache =>
      (match UpdateCacheError(w.environ, w.updateCache)
       case None => UpdateCacheCleared
       case Some(e) => UpdateCacheFailed + e)
    case RecycleBin =>
      (match w.recycleBin.size
       case Failure(e) => BinFailed + e
       case Success(n) =>
         if n == 0 then BinAlreadyEmpty
         else if w.recycleBin.empty.Ok? then BinEmptied
         else BinFailed + w.recycleBin.empty.error)
    case DnsCache =>
      if w.flushDns.Ok? then DnsFlushed else DnsFailed + w.flushDns.error
    case DiskOptimization =>
      if w.defrag.Ok? then DiskOptimized else DiskFailed + w.defrag.error
    case PowerPlan =>
      (match w.powerPlan.list
       case Failure(e) => PlanFailed + e
       case Success(lines) =>
         match FirstMention(lines)
         case None => PlanNotFound
         case Some(i) =>
           if |Split(lines[i])| < 4 then PlanFailed + IndexErrorText
           else if w.powerPlan.select.Ok? then PlanSet
           else PlanFailed + w.powerPlan.select.error)
    case VisualEffects =>
      if w.visualFxWrite.Ok? then VisualFxAdjusted
      else VisualFxFailed + w.visualFxWrite.error
    case BackgroundApps =>
      if w.backgroundAppsWrite.Ok? then BackgroundAppsDisabled
      else BackgroundAppsFailed + w.backgroundAppsWrite.error
  }

  /** The events the action `kind` adds to the log, given the world's
      answers: its progress message first, then the commands it starts,
      the emptying call and the settings broadcast it makes, in order. */
  function ActionLog(kind: ActionKind, w: World): seq<Event>
  {
    match kind
    case TempFiles => [Progress(ProgressMessage(TempFiles))]
    case UpdateCache => UpdateCacheEvents(w.environ, w.updateCache)
    case RecycleBin => RecycleBinEvents(w.recycleBin)
    case DnsCache => [Progress(ProgressMessage(DnsCache)), Command(FlushDns)]
    case DiskOptimization => [Progress(ProgressMessage(DiskOptimization)), Command(DefragSystemDisk)]
    case PowerPlan => PowerPlanEvents(w.powerPlan)
    case VisualEffects => VisualEffectsEvents(w.visualFxWrite)
    case BackgroundApps => [Progress(ProgressMessage(BackgroundApps))]
  }

  /** A progress message followed by events that are neither progress
      messages, readings nor completion calls. */
  lemma ProgressThen(message: string, tail: seq<Event>)
    requires forall k :: 0 <= k < |tail| ==> !tail[k].Progress? && !tail[k].StatsRead? && !tail[k].Completion?
    ensures ActionEvents([Progress(message)] + tail, 0)
    ensures Progresses([Progress(message)] + tail) == [message]
  {
    var events := [Progress(message)] + tail;
    assert forall k :: 0 < k < |events| ==> events[k] == tail[k - 1];
    NoProgresses(tail);
    ProgressesAppend([Progress(message)], tail);
    assert [Progress(message)][..0] == [];
  }

  /** Every action's events start with its own progress message and hold no
      other progress message, no usage reading and no completion call. */
  lemma ActionLogShape(kind: ActionKind, w: World)
    ensures ActionLog(kind, w) != [] && ActionLog(kind, w)[0] == Progress(ProgressMessage(kind))
    ensures ActionEvents(ActionLog(kind, w), 0)
    ensures Progresses(ActionLog(kind, w)) == [ProgressMessage(kind)]
  {
    var message := ProgressMessage(kind);
    var tail: seq<Event> := match kind {
      case TempFiles => []
      case UpdateCache =>
        [Command(NetStop)]
        + (if StartReached(w.environ, w.updateCache) then [Command(NetStart)] else [])
        + (if UpdateCacheError(w.environ, w.updateCache).Some? then [Command(NetStart)] else [])
      case RecycleBin =>
        if w.recycleBin.size.Success? && w.recycleBin.size.value > 0 then [RecycleBinEmptied] else []
      case DnsCache => [Command(FlushDns)]
      case DiskOptimization => [Command(DefragSystemDisk)]
      case PowerPlan =>
        [Command(PowercfgList)]
        + (match SelectedGuid(w.powerPlan)
           case None => []
           case Some(guid) => [Command(PowercfgSet + [guid])])
      case VisualEffects => if w.visualFxWrite.Ok? then [SettingBroadcast] else []
      case BackgroundApps => []
    };
    assert ActionLog(kind, w) == [Progress(message)] + tail;
    ProgressThen(message, tail);
  }

  /** The registry after the action `kind`: only the two registry actions
      write, each its own value, and only when the write succeeds. */
  function RegistryAfterAction(kind: ActionKind, w: World, registry: map<string, int>): map<string, int>
  {
    match kind
    case VisualEffects => if w.visualFxWrite.Ok? then registry[VisualFxSetting := 2] else registry
    case BackgroundApps => if w.backgroundAppsWrite.Ok? then registry[BackgroundAppsSetting := 1] else registry
    case _ => registry
  }

  /** Whether the update service runs after the action `kind`. */
  function ServiceAfterAction(kind: ActionKind, w: World, running: bool): bool
  {
    if kind != UpdateCache then running
    else if UpdateCacheError(w.environ, w.updateCache).None? then true
    else w.updateCache.restart.Ok? || (w.updateCache.stop.Err? && running)
  }

  /** The actions that write the registry or stop and start the update service. */
  predicate ChangesSettings(kind: ActionKind)
  {
    kind == UpdateCache || kind == VisualEffects || kind == BackgroundApps
  }

  /** An action that only runs commands or touches files: it leaves the
      registry, the backup file and the update service as they were. */
  method PerformCommand(m: Machine, kind: ActionKind, w: World) returns (outcome: string)
    requires !ChangesSettings(kind)
    modifies m
    ensures outcome == ActionOutcome(kind, w)
    ensures m.log == old(m.log) + ActionLog(kind, w)
    ensures EmitsOneProgress(old(m.log), m.log, ProgressMessage(kind)) && ActionEvents(m.log, |old(m.log)|)
    ensures m.backupFile == old(m.backupFile) && m.registry == old(m.registry)
    ensures m.updateServiceRunning == old(m.updateServiceRunning)
  {
    match kind
    case TempFiles => outcome := CleanTempFiles(m, w.environ, w.fs);
    case RecycleBin => outcome := EmptyRecycleBin(m, w.recycleBin);
    case DnsCache => outcome := ClearDnsCache(m, w.flushDns);
    case DiskOptimization => outcome := OptimizeDisk(m, w.defrag);
    case PowerPlan => outcome := SetHighPerformancePowerPlan(m, w.powerPlan);
  }

  /** An action that writes the registry or restarts the update service. */
  method PerformSetting(m: Machine, kind: ActionKind, w: World) returns (outcome: string)
    requires ChangesSettings(kind)
    modifies m
    ensures outcome == ActionOutcome(kind, w)
    ensures m.log == old(m.log) + ActionLog(kind, w)
    ensures EmitsOneProgress(old(m.log), m.log, ProgressMessage(kind)) && ActionEvents(m.log, |old(m.log)|)
    ensures m.backupFile == old(m.backupFile)
    ensures m.registry == RegistryAfterAction(kind, w, old(m.registry))
    ensures m.updateServiceRunning == ServiceAfterAction(kind, w, old(m.updateServiceRunning))
  {
    match kind
    case UpdateCache => outcome := CleanWindowsUpdateCache(m, w.environ, w.updateCache);
    case VisualEffects => outcome := AdjustVisualEffects(m, w.visualFxWrite);
    case BackgroundApps => outcome := DisableBackgroundApps(m, w.backgroundAppsWrite);
  }

  /** Calls the action `kind` stands for with its share of the world's answers. */
  method Perform(m: Machine, kind: ActionKind, w: World) returns (outcome: string)
    modifies m
    ensures outcome == ActionOutcome(kind, w)
    ensures m.log == old(m.log) + ActionLog(kind, w)
    ensures EmitsOneProgress(old(m.log), m.log, ProgressMessage(kind)) && ActionEvents(m.log, |old(m.log)|)
    ensures m.backupFile == old(m.backupFile)
    ensures m.registry == RegistryAfterAction(kind, w, old(m.registry))
    ensures m.updateServiceRunning == ServiceAfterAction(kind, w, old(m.updateServiceRunning))
  {
    if ChangesSettings(kind) {
      outcome := PerformSetting(m, kind, w);
    } else {
      outcome := PerformCommand(m, kind, w);
    }
  }

  /** An insertion-ordered dictionary as a list of pairs: no key twice. */
  predicate DistinctKeys(d: seq<(string, string)>)
  {
    forall i, j :: 0 <= i < j < |d| ==> d[i].0 != d[j].0
  }

  /** Assignment `d[key] = value` on an insertion-ordered dictionary: a new
      key is appended, an existing key keeps its place and takes the new
      value, and every other pair stays. */
  function Put(d: seq<(string, string)>, key: string, value: string): seq<(string, string)>
    requires DistinctKeys(d)
  {
    if d == [] then [(key, value)]
    else if d[0].0 == key then [(key, value)] + d[1..]
    else [d[0]] + Put(d[1..], key, value)
  }

  /** Assigning to a key the dictionary lacks appends the pair at the end. */
  lemma {:induction false} PutNewKey(d: seq<(string, string)>, key: string, value: string)
    requires DistinctKeys(d)
    requires forall j :: 0 <= j < |d| ==> d[j].0 != key
    ensures Put(d, key, value) == d + [(key, value)]
    ensures DistinctKeys(Put(d, key, value))
    decreases |d|
  {
    if d != [] {
      PutNewKey(d[1..], key, value);
      assert [d[0]] + (d[1..] + [(key, value)]) == d + [(key, value)];
    }
  }

  /** A list with the same keys, place by place, as a dictionary is one. */
  lemma SameKeys(d: seq<(string, string)>, d': seq<(string, string)>)
    requires DistinctKeys(d) && |d'| == |d|
    requires forall j :: 0 <= j < |d| ==> d'[j].0 == d[j].0
    ensures DistinctKeys(d')
  {
  }

  /** Assigning to a key the dictionary has replaces its value in place:
      the length, the key order and every other pair stay. */
  lemma {:induction false} PutExistingKey(d: seq<(string, string)>, key: string, value: string)
    requires DistinctKeys(d)
    requires exists j :: 0 <= j < |d| && d[j].0 == key
    ensures |Put(d, key, value)| == |d|
    ensures forall j :: 0 <= j < |d| ==> Put(d, key, value)[j] == (if d[j].0 == key then (key, value) else d[j])
    ensures DistinctKeys(Put(d, key, value))
    decreases |d|
  {
    var d' := Put(d, key, value);
    if d[0].0 == key {
      assert d' == [(key, value)] + d[1..];
      forall j | 1 <= j < |d| ensures d'[j] == d[j] && d[j].0 != key {
        assert d[0].0 != d[j].0;
      }
    } else {
      var j0 :| 0 <= j0 < |d| && d[j0].0 == key;
      var tail := d[1..];
      assert tail[j0 - 1].0 == key;
      PutExistingKey(tail, key, value);
      var rest := Put(tail, key, value);
      assert d' == [d[0]] + rest;
      forall j | 1 <= j < |d| ensures d'[j] == (if d[j].0 == key then (key, value) else d[j]) {
        assert d'[j] == rest[j - 1] && tail[j - 1] == d[j];
      }
    }
    SameKeys(d, d');
  }

  /** The progress messages of the selected actions, in selection order. */
  function ProgressMessages(selected: seq<Optimization>): seq<string>
  {
    if selected == [] then []
    else ProgressMessages(selected[..|selected| - 1]) + [ProgressMessage(selected[|selected| - 1].kind)]
  }

  /** The events the selected actions add to the log, one action after the other. */
  function RunLog(selected: seq<Optimization>, w: World): seq<Event>
  {
    if selected == [] then []
    else RunLog(selected[..|selected| - 1], w) + ActionLog(selected[|selected| - 1].kind, w)
  }

  /** The progress messages of the actions' events are the actions' own, in
      selection order. */
  lemma {:induction false} RunLogProgresses(selected: seq<Optimization>, w: World)
    ensures Progresses(RunLog(selected, w)) == ProgressMessages(selected)
    decreases |selected|
  {
    if selected != [] {
      var init, last := selected[..|selected| - 1], selected[|selected| - 1];
      RunLogProgresses(init, w);
      ActionLogShape(last.kind, w);
      ProgressesAppend(RunLog(init, w), ActionLog(last.kind, w));
    }
  }

  /** The actions make no usage reading and no completion call. */
  lemma {:induction false} RunLogActionEvents(selected: seq<Optimization>, w: World)
    ensures ActionEvents(RunLog(selected, w), 0)
    decreases |selected|
  {
    if selected != [] {
      var init, last := selected[..|selected| - 1], selected[|selected| - 1];
      RunLogActionEvents(init, w);
      ActionLogShape(last.kind, w);
      var a, b := RunLog(init, w), ActionLog(last.kind, w);
      assert RunLog(selected, w) == a + b;
      ActionEventsAppend(a, b);
    }
  }

  lemma ActionEventsAppend(a: seq<Event>, b: seq<Event>)
    requires ActionEvents(a, 0) && ActionEvents(b, 0)
    ensures ActionEvents(a + b, 0)
  {
    assert forall k :: |a| <= k < |a + b| ==> (a + b)[k] == b[k - |a|];
  }

  /** An event is in the actions' log exactly when one of the selected
      actions issues it. */
  lemma RunLogMembership(selected: seq<Optimization>, w: World, e: Event)
    ensures e in RunLog(selected, w) <==> exists j :: 0 <= j < |selected| && e in ActionLog(selected[j].kind, w)
  {
    var parts := ActionLogs(selected, w);
    RunLogConcat(selected, w);
    if e in RunLog(selected, w) {
      ConcatSource(parts, e);
      var j :| 0 <= j < |parts| && e in parts[j];
      assert e in ActionLog(selected[j].kind, w);
    }
    if exists j :: 0 <= j < |selected| && e in ActionLog(selected[j].kind, w) {
      var j :| 0 <= j < |selected| && e in ActionLog(selected[j].kind, w);
      assert e in parts[j];
      ConcatIssued(parts, e, j);
    }
  }

  /** The selected actions' events, one sequence per action. */
  function ActionLogs(selected: seq<Optimization>, w: World): seq<seq<Event>>
  {
    seq(|selected|, k requires 0 <= k < |selected| => ActionLog(selected[k].kind, w))
  }

  function Concat(parts: seq<seq<Event>>): seq<Event>
  {
    if parts == [] then [] else Concat(parts[..|parts| - 1]) + parts[|parts| - 1]
  }

  lemma {:induction false} RunLogConcat(selected: seq<Optimization>, w: World)
    ensures RunLog(selected, w) == Concat(ActionLogs(selected, w))
    decreases |selected|
  {
    if selected != [] {
      var n := |selected| - 1;
      var init := selected[..n];
      RunLogConcat(init, w);
      assert ActionLogs(selected, w)[..n] == ActionLogs(init, w);
    }
  }

  lemma {:induction false} ConcatSource(parts: seq<seq<Event>>, e: Event)
    requires e in Concat(parts)
    ensures exists j :: 0 <= j < |parts| && e in parts[j]
    decreases |parts|
  {
    var n := |parts| - 1;
    if e !in parts[n] {
      ConcatSource(parts[..n], e);
      var j :| 0 <= j < n && e in parts[..n][j];
      assert e in parts[j];
    }
  }

  lemma {:induction false} ConcatIssued(parts: seq<seq<Event>>, e: Event, j: nat)
    requires j < |parts| && e in parts[j]
    ensures e in Concat(parts)
    decreases |parts|
  {
    var n := |parts| - 1;
    if j < n {
      assert parts[..n][j] == parts[j];
      ConcatIssued(parts[..n], e, j);
    }
  }

  /** Only the recycle-bin action empties the bin, and it does so exactly
      when the size query gave a positive number of items. */
  lemma EmptiedByRecycleBin(kind: ActionKind, w: World)
    ensures RecycleBinEmptied in ActionLog(kind, w)
            <==> kind == RecycleBin && w.recycleBin.size.Success? && w.recycleBin.size.value > 0
  {
    if kind == PowerPlan {
      assert ActionLog(kind, w) == PowerPlanEvents(w.powerPlan);
    }
  }

  /** Only the update-cache action starts the service, and it always issues
      `net start`: the checked one when the try block reaches it, the
      unchecked one of the except branch otherwise. */
  lemma StartedByUpdateCache(kind: ActionKind, w: World)
    ensures Command(NetStart) in ActionLog(kind, w) <==> kind == UpdateCache
  {
    if kind == UpdateCache {
      assert UpdateCacheEvents(w.environ, w.updateCache)[2] == Command(NetStart);
    } else if kind == PowerPlan {
      assert ActionLog(kind, w) == PowerPlanEvents(w.powerPlan);
      match SelectedGuid(w.powerPlan)
      case None =>
      case Some(guid) => assert (PowercfgSet + [guid])[0] != NetStart[0];
    } else if kind == DiskOptimization {
      assert DefragSystemDisk[0] != NetStart[0];
    }
  }

  /** A run empties the bin exactly when it selects the recycle-bin action
      and the bin holds something. */
  lemma RunEmptiesBin(selected: seq<Optimization>, w: World)
    ensures RecycleBinEmptied in RunLog(selected, w)
            <==> Selects(selected, RecycleBin) && w.recycleBin.size.Success? && w.recycleBin.size.value > 0
  {
    RunLogMembership(selected, w, RecycleBinEmptied);
    forall j | 0 <= j < |selected|
      ensures RecycleBinEmptied in ActionLog(selected[j].kind, w)
              <==> selected[j].kind == RecycleBin && w.recycleBin.size.Success? && w.recycleBin.size.value > 0
    {
      EmptiedByRecycleBin(selected[j].kind, w);
    }
  }

  /** A run issues `net start wuauserv` exactly when it selects the
      update-cache action, whether or not `net stop` failed. */
  lemma RunStartsService(selected: seq<Optimization>, w: World)
    ensures Command(NetStart) in RunLog(selected, w) <==> Selects(selected, UpdateCache)
  {
    RunLogMembership(selected, w, Command(NetStart));
    forall j | 0 <= j < |selected|
      ensures Command(NetStart) in ActionLog(selected[j].kind, w) <==> selected[j].kind == UpdateCache
    {
      StartedByUpdateCache(selected[j].kind, w);
    }
  }

  /** The registry after the selected actions ran, in order. */
  function RegistryAfter(selected: seq<Optimization>, w: World, registry: map<string, int>): map<string, int>
  {
    if selected == [] then registry
    else RegistryAfterAction(selected[|selected| - 1].kind, w, RegistryAfter(selected[..|selected| - 1], w, registry))
  }

  /** Whether the update service runs after the selected actions ran, in order. */
  function ServiceAfter(selected: seq<Optimization>, w: World, running: bool): bool
  {
    if selected == [] then running
    else ServiceAfterAction(selected[|selected| - 1].kind, w, ServiceAfter(selected[..|selected| - 1], w, running))
  }

  predicate Selects(selected: seq<Optimization>, kind: ActionKind)
  {
    exists j :: 0 <= j < |selected| && selected[j].kind == kind
  }

  /** A run changes no registry value other than the two the registry
      actions write. */
  lemma {:induction false} RegistryAfterKeepsOtherValues(selected: seq<Optimization>, w: World, registry: map<string, int>)
    ensures var after := RegistryAfter(selected, w, registry);
      forall key :: key != VisualFxSetting && key != BackgroundAppsSetting ==>
        (key in after <==> key in registry) && (key in registry ==> after[key] == registry[key])
    decreases |selected|
  {
    if selected != [] {
      RegistryAfterKeepsOtherValues(selected[..|selected| - 1], w, registry);
    }
  }

  /** A run that selects the visual-effects action, whose write succeeds,
      leaves VisualFxSetting at 2; a run that does not select it, or whose
      write fails, leaves that value as it was. */
  lemma {:induction false} RegistryAfterVisualEffects(selected: seq<Optimization>, w: World, registry: map<string, int>)
    ensures var after := RegistryAfter(selected, w, registry);
      && (Selects(selected, VisualEffects) && w.visualFxWrite.Ok? ==> VisualFxSetting in after && after[VisualFxSetting] == 2)
      && (!Selects(selected, VisualEffects) || w.visualFxWrite.Err? ==>
            (VisualFxSetting in after <==> VisualFxSetting in registry)
            && (VisualFxSetting in registry ==> after[VisualFxSetting] == registry[VisualFxSetting]))
    decreases |selected|
  {
    if selected != [] {
      var init := selected[..|selected| - 1];
      RegistryAfterVisualEffects(init, w, registry);
      assert forall j :: 0 <= j < |init| ==> init[j] == selected[j];
      assert Selects(selected, VisualEffects) && selected[|selected| - 1].kind != VisualEffects ==> Selects(init, VisualEffects);
    }
  }

  /** The same for the background-apps action and GlobalUserDisabled. */
  lemma {:induction false} RegistryAfterBackgroundApps(selected: seq<Optimization>, w: World, registry: map<string, int>)
    ensures var after := RegistryAfter(selected, w, registry);
      && (Selects(selected, BackgroundApps) && w.backgroundAppsWrite.Ok? ==>
            BackgroundAppsSetting in after && after[BackgroundAppsSetting] == 1)
      && (!Selects(selected, BackgroundApps) || w.backgroundAppsWrite.Err? ==>
            (BackgroundAppsSetting in after <==> BackgroundAppsSetting in registry)
            && (BackgroundAppsSetting in registry ==> after[BackgroundAppsSetting] == registry[BackgroundAppsSetting]))
    decreases |selected|
  {
    if selected != [] {
      var init := selected[..|selected| - 1];
      RegistryAfterBackgroundApps(init, w, registry);
      assert forall j :: 0 <= j < |init| ==> init[j] == selected[j];
      assert Selects(selected, BackgroundApps) && selected[|selected| - 1].kind != BackgroundApps ==> Selects(init, BackgroundApps);
    }
  }

  /** Only the update-cache action stops or starts the service; when it
      runs without error, the service runs afterwards. */
  lemma {:induction false} ServiceAfterUpdateCache(selected: seq<Optimization>, w: World, running: bool)
    ensures !Selects(selected, UpdateCache) ==> ServiceAfter(selected, w, running) == running
    ensures Selects(selected, UpdateCache) && UpdateCacheError(w.environ, w.updateCache).None? ==>
      ServiceAfter(selected, w, running)
    decreases |selected|
  {
    if selected != [] {
      var init := selected[..|selected| - 1];
      ServiceAfterUpdateCache(init, w, running);
      assert forall j :: 0 <= j < |init| ==> init[j] == selected[j];
      assert Selects(selected, UpdateCache) && selected[|selected| - 1].kind != UpdateCache ==> Selects(init, UpdateCache);
      assert Selects(init, UpdateCache) ==> Selects(selected, UpdateCache);
    }
  }

  /** The results dictionary after the selected actions ran, in order. */
  function Outcomes(selected: seq<Optimization>, w: World): seq<(string, string)>
  {
    if selected == [] then []
    else
      var last := selected[|selected| - 1];
      Outcomes(selected[..|selected| - 1], w) + [(last.name, ActionOutcome(last.kind, w))]
  }

  /** The `j`-th result is the `j`-th selected action's name and outcome. */
  lemma {:induction false} OutcomesAt(selected: seq<Optimization>, w: World)
    ensures |Outcomes(selected, w)| == |selected|
    ensures forall j :: 0 <= j < |selected| ==> Outcomes(selected, w)[j] == (selected[j].name, ActionOutcome(selected[j].kind, w))
    decreases |selected|
  {
    if selected != [] {
      var n := |selected| - 1;
      var init := selected[..n];
      OutcomesAt(init, w);
      var a, b := Outcomes(init, w), (selected[n].name, ActionOutcome(selected[n].kind, w));
      assert Outcomes(selected, w) == a + [b];
      forall j | 0 <= j < |selected|
        ensures Outcomes(selected, w)[j] == (selected[j].name, ActionOutcome(selected[j].kind, w))
      {
        if j < n {
          assert init[j] == selected[j];
        }
      }
    }
  }

  /** Extending the selection by one action extends each fold by that action. */
  lemma PrefixStep(selected: seq<Optimization>, i: nat, w: World, registry: map<string, int>, running: bool)
    requires i < |selected|
    ensures RegistryAfter(selected[..i + 1], w, registry)
            == RegistryAfterAction(selected[i].kind, w, RegistryAfter(selected[..i], w, registry))
    ensures ServiceAfter(selected[..i + 1], w, running)
            == ServiceAfterAction(selected[i].kind, w, ServiceAfter(selected[..i], w, running))
    ensures ProgressMessages(selected[..i + 1]) == ProgressMessages(selected[..i]) + [ProgressMessage(selected[i].kind)]
    ensures RunLog(selected[..i + 1], w) == RunLog(selected[..i], w) + ActionLog(selected[i].kind, w)
    ensures Outcomes(selected[..i + 1], w) == Outcomes(selected[..i], w) + [(selected[i].name, ActionOutcome(selected[i].kind, w))]
  {
    assert selected[..i + 1][..i] == selected[..i];
  }

  /** Storing the `i`-th outcome under its name, which no earlier action
      has, appends it to the results. */
  lemma OutcomesPut(selected: seq<Optimization>, i: nat, w: World)
    requires DistinctNames(selected) && i < |selected|
    ensures DistinctKeys(Outcomes(selected[..i], w))
    ensures Put(Outcomes(selected[..i], w), selected[i].name, ActionOutcome(selected[i].kind, w))
            == Outcomes(selected[..i + 1], w)
  {
    OutcomesAt(selected[..i], w);
    PrefixStep(selected, i, w, map[], false);
    PutNewKey(Outcomes(selected[..i], w), selected[i].name, ActionOutcome(selected[i].kind, w));
  }

  /** One turn of the loop: the `i`-th selected action runs and its outcome
      is stored under its name, after the earlier ones. */
  method RunStep(m: Machine, selected: seq<Optimization>, i: nat, w: World, results: seq<(string, string)>,
                 ghost registry0: map<string, int>, ghost running0: bool, ghost log0: seq<Event>)
    returns (results': seq<(string, string)>)
    requires DistinctNames(selected) && i < |selected| && results == Outcomes(selected[..i], w)
    requires m.registry == RegistryAfter(selected[..i], w, registry0)
    requires m.updateServiceRunning == ServiceAfter(selected[..i], w, running0)
    requires m.log == log0 + RunLog(selected[..i], w)
    modifies m
    ensures results' == Outcomes(selected[..i + 1], w)
    ensures m.backupFile == old(m.backupFile)
    ensures m.registry == RegistryAfter(selected[..i + 1], w, registry0)
    ensures m.updateServiceRunning == ServiceAfter(selected[..i + 1], w, running0)
    ensures m.log == log0 + RunLog(selected[..i + 1], w)
  {
    var outcome := Perform(m, selected[i].kind, w);
    OutcomesPut(selected, i, w);
    results' := Put(results, selected[i].name, outcome);
    PrefixStep(selected, i, w, registry0, running0);
    RunLogStep(log0, selected, i, w, old(m.log), m.log);
  }

  /** The loop of the `task` body: every selected action runs once, in
      order, whatever the earlier ones returned, and its outcome is stored
      under its name. The actions only append action events to the log,
      and their progress messages in selection order. */
  method RunSelected(m: Machine, selected: seq<Optimization>, w: World) returns (results: seq<(string, string)>)
    requires DistinctNames(selected)
    modifies m
    ensures results == Outcomes(selected, w)
    ensures m.backupFile == old(m.backupFile)
    ensures m.registry == RegistryAfter(selected, w, old(m.registry))
    ensures m.updateServiceRunning == ServiceAfter(selected, w, old(m.updateServiceRunning))
    ensures m.log == old(m.log) + RunLog(selected, w)
    ensures ExtendsWithActionEvents(old(m.log), m.log)
    ensures Progresses(m.log) == Progresses(old(m.log)) + ProgressMessages(selected)
  {
    results := RunEach(m, selected, w);
    RunLogTrail(old(m.log), selected, w, m.log);
  }

  /** The loop itself, stated by the folds over the selection. */
  method RunEach(m: Machine, selected: seq<Optimization>, w: World) returns (results: seq<(string, string)>)
    requires DistinctNames(selected)
    modifies m
    ensures results == Outcomes(selected, w)
    ensures m.backupFile == old(m.backupFile)
    ensures m.registry == RegistryAfter(selected, w, old(m.registry))
    ensures m.updateServiceRunning == ServiceAfter(selected, w, old(m.updateServiceRunning))
    ensures m.log == old(m.log) + RunLog(selected, w)
  {
    results := [];
    var i := 0;
    while i < |selected|
      invariant 0 <= i <= |selected|
      invariant results == Outcomes(selected[..i], w)
      invariant m.backupFile == old(m.backupFile)
      invariant m.registry == RegistryAfter(selected[..i], w, old(m.registry))
      invariant m.updateServiceRunning == ServiceAfter(selected[..i], w, old(m.updateServiceRunning))
      invariant m.log == old(m.log) + RunLog(selected[..i], w)
    {
      results := RunStep(m, selected, i, w, results, old(m.registry), old(m.updateServiceRunning), old(m.log));
      i := i + 1;
    }
    Whole(selected);
  }

  lemma Whole<T>(s: seq<T>)
    ensures s[..|s|] == s
  {
  }

  /** One more action extends the log by that action's events. */
  lemma RunLogStep(log0: seq<Event>, selected: seq<Optimization>, i: nat, w: World, mid: seq<Event>, after: seq<Event>)
    requires i < |selected|
    requires mid == log0 + RunLog(selected[..i], w)
    requires after == mid + ActionLog(selected[i].kind, w)
    ensures after == log0 + RunLog(selected[..i + 1], w)
  {
    PrefixStep(selected, i, w, map[], false);
    AppendAssoc(log0, RunLog(selected[..i], w), ActionLog(selected[i].kind, w));
  }

  lemma AppendAssoc<T>(a: seq<T>, b: seq<T>, c: seq<T>)
    ensures (a + b) + c == a + (b + c)
  {
  }

  /** The log after the actions: the log before, then action events only,
      which add the actions' progress messages in order. */
  lemma RunLogTrail(log0: seq<Event>, selected: seq<Optimization>, w: World, log: seq<Event>)
    requires log == log0 + RunLog(selected, w)
    ensures ExtendsWithActionEvents(log0, log)
    ensures Progresses(log) == Progresses(log0) + ProgressMessages(selected)
  {
    var events := RunLog(selected, w);
    RunLogActionEvents(selected, w);
    assert forall k :: |log0| <= k < |log| ==> log[k] == events[k - |log0|];
    RunLogProgresses(selected, w);
    ProgressesAppend(log0, events);
  }

  /** The log of a whole run: a reading and the backup message, then action
      events only, then a reading and the completion call. */
  lemma RunLogShape(start: seq<Event>, body: seq<Event>, final: seq<Event>)
    requires ExtendsWithActionEvents(start + [StatsRead, Progress(BackupProgress)], body)
    requires final == body + [StatsRead, Completion]
    ensures |final| >= |start| + 4
    ensures final[..|start| + 2] == start + [StatsRead, Progress(BackupProgress)]
    ensures final[|final| - 2..] == [StatsRead, Completion]
    ensures forall k :: |start| <= k < |final| ==> (final[k].Completion? <==> k == |final| - 1)
    ensures forall k :: |start| <= k < |final| ==> (final[k].StatsRead? <==> k == |start| || k == |final| - 2)
    ensures Progresses(final) == Progresses(body)
  {
    var head := start + [StatsRead, Progress(BackupProgress)];
    RunLogEvents(start, head, body, final);
    assert final[..|start| + 2] == head by {
      assert forall k :: 0 <= k < |head| ==> final[k] == body[k];
    }
    RunLogTail(body, final);
  }

  /** Where the readings and the completion call sit in the whole run's log. */
  lemma RunLogEvents(start: seq<Event>, head: seq<Event>, body: seq<Event>, final: seq<Event>)
    requires head == start + [StatsRead, Progress(BackupProgress)]
    requires ExtendsWithActionEvents(head, body)
    requires final == body + [StatsRead, Completion]
    ensures forall k :: |start| <= k < |final| ==> (final[k].Completion? <==> k == |final| - 1)
    ensures forall k :: |start| <= k < |final| ==> (final[k].StatsRead? <==> k == |start| || k == |final| - 2)
  {
    assert forall k :: |start| <= k < |head| ==> body[k] == head[k] by {
      assert body[..|head|] == head;
    }
    assert forall k :: 0 <= k < |body| ==> final[k] == body[k];
  }

  /** The second reading and the completion call add no progress message. */
  lemma RunLogTail(body: seq<Event>, final: seq<Event>)
    requires final == body + [StatsRead, Completion]
    ensures Progresses(final) == Progresses(body)
  {
    ProgressesSnoc(body, StatsRead);
    assert body + [StatsRead] + [Completion] == final;
    ProgressesSnoc(body + [StatsRead], Completion);
  }

  /** The two events before the backup add only the backup message to the progress. */
  lemma RunLogHead(start: seq<Event>)
    ensures Progresses(start + [StatsRead, Progress(BackupProgress)]) == Progresses(start) + [BackupProgress]
  {
    ProgressesSnoc(start, StatsRead);
    assert start + [StatsRead] + [Progress(BackupProgress)] == start + [StatsRead, Progress(BackupProgress)];
    ProgressesSnoc(start + [StatsRead], Progress(BackupProgress));
  }

  /** What a whole run of `selected` leaves behind, from the registry,
      backup file, service flag and log before it (`registry0`, `file0`,
      `running0`, `log0`) to those after it, with `r` its report. */
  ghost predicate CoordinatorRan(selected: seq<Optimization>, w: World, r: RunResult,
                                 registry0: map<string, int>, file0: BackupFile, running0: bool, log0: seq<Event>,
                                 registry: map<string, int>, file: BackupFile, running: bool, log: seq<Event>)
  {
    // the report: both readings, and each action's outcome under its name, in order
    && r.before == w.before && r.after == w.after
    && |r.outcomes| == |selected|
    && (forall j :: 0 <= j < |selected| ==> r.outcomes[j] == (selected[j].name, ActionOutcome(selected[j].kind, w)))
    // the backup saw the registry as it was before any action ran
    && file == (if w.backupWrite.Ok? then Stored(BackupUtils.BackupRecord(registry0, w.backupRead)) else file0)
    && registry == RegistryAfter(selected, w, registry0)
    && running == ServiceAfter(selected, w, running0)
    // a reading and the backup message, the actions' events, a reading and the completion call
    && log == log0 + [StatsRead, Progress(BackupProgress)] + RunLog(selected, w) + [StatsRead, Completion]
    && |log| >= |log0| + 4
    && log[..|log0| + 2] == log0 + [StatsRead, Progress(BackupProgress)]
    && log[|log| - 2..] == [StatsRead, Completion]
    // one completion call, and no reading in between
    && (forall k :: |log0| <= k < |log| ==> (log[k].Completion? <==> k == |log| - 1))
    && (forall k :: |log0| <= k < |log| ==> (log[k].StatsRead? <==> k == |log0| || k == |log| - 2))
    && Progresses(log) == Progresses(log0) + [BackupProgress] + ProgressMessages(selected)
  }

  /** The `task` body of run_optimizations, run to completion: a reading,
      the backup message, the backup, the actions, a second reading and one
      completion call. The backup's result does not decide anything. */
  method RunOptimizations(m: Machine, selected: seq<Optimization>, w: World) returns (r: RunResult)
    requires DistinctNames(selected)
    modifies m
    ensures CoordinatorRan(selected, w, r,
                           old(m.registry), old(m.backupFile), old(m.updateServiceRunning), old(m.log),
                           m.registry, m.backupFile, m.updateServiceRunning, m.log)
  {
    ghost var start := m.log;
    m.log := m.log + [StatsRead];
    var beforeStats := w.before;
    m.log := m.log + [Progress(BackupProgress)];
    var _ := BackupUtils.BackupCriticalSettings(m, w.backupRead, w.backupWrite);
    RunLogHead(start);

    var results := RunSelected(m, selected, w);
    OutcomesAt(selected, w);

    ghost var body := m.log;
    m.log := m.log + [StatsRead];
    var afterStats := w.after;
    m.log := m.log + [Completion];
    RunLogShape(start, body, m.log);
    assert m.log == start + [StatsRead, Progress(BackupProgress)] + RunLog(selected, w) + [StatsRead, Completion];
    r := RunResult(beforeStats, afterStats, results);
  }
}
