/** The part of a Windows machine the optimizer reads and changes, reduced to
    abstract state: the registry, of which it writes two values, the
    settings-backup file, whether the Windows Update service runs, and an
    ordered log of what the program asked of the system and of its caller. */
module WinState {

  datatype Option<+T> = None | Some(value: T)

  /** How a foreign call that returns nothing ended: normally, or by raising
      an exception whose text is `error`. */
  datatype Status = Ok | Err(error: string)

  /** How a foreign call that returns a value ended. */
  datatype Result<+T> = Success(value: T) | Failure(error: string)

  /** One reading of live usage, in percent. */
  datatype Snapshot = Snapshot(cpuUsage: real, ramUsage: real, diskUsage: real)

  /** The backup file at its fixed per-user path: absent, present but such
      that json.load raises on it, or holding a record from setting
      identifier to raw value. */
  datatype BackupFile = NoFile | Unreadable | Stored(record: map<string, int>)

  datatype Event =
    | Progress(message: string)   // one call of the progress callback
    | Command(argv: seq<string>)  // an external command started with subprocess.run
    | RecycleBinEmptied           // winshell's recycle_bin().empty(...)
    | SettingBroadcast            // SystemParametersInfoW(0x0057, 0, 0, SPIF_SENDCHANGE), taken to return
    | StatsRead                   // one live-usage reading
    | Completion                  // the completion callback

  /** Registry values, named by key path and value name under HKEY_CURRENT_USER. */
  const VisualFxSetting: string :=
    "HKCU\\Software\\Microsoft\\Windows\\CurrentVersion\\Explorer\\VisualEffects\\VisualFxSetting"
  const BackgroundAppsSetting: string :=
    "HKCU\\Software\\Microsoft\\Windows\\CurrentVersion\\BackgroundAccessApplications\\GlobalUserDisabled"

  class Machine {
    var registry: map<string, int>
    var backupFile: BackupFile
    var updateServiceRunning: bool
    var log: seq<Event>
  }

  /** The progress messages in `log`, in the order they were emitted. */
  function Progresses(log: seq<Event>): seq<string>
  {
    if log == [] then []
    else
      var last := log[|log| - 1];
      Progresses(log[..|log| - 1]) + (if last.Progress? then [last.message] else [])
  }

  lemma {:induction false} ProgressesAppend(a: seq<Event>, b: seq<Event>)
    ensures Progresses(a + b) == Progresses(a) + Progresses(b)
    decreases |b|
  {
    if b == [] {
      assert a + b == a;
    } else {
      var b' := b[..|b| - 1];
      assert (a + b)[..|a + b| - 1] == a + b';
      ProgressesAppend(a, b');
    }
  }

  lemma {:induction false} NoProgresses(log: seq<Event>)
    requires forall k :: 0 <= k < |log| ==> !log[k].Progress?
    ensures Progresses(log) == []
    decreases |log|
  {
    if log != [] {
      NoProgresses(log[..|log| - 1]);
    }
  }

  /** Going from `before` to `after`, an operation appended events of which
      the first is the progress message `message` and no other is a
      progress message. */
  predicate EmitsOneProgress(before: seq<Event>, after: seq<Event>, message: string)
  {
    && |before| < |after|
    && after[..|before|] == before
    && after[|before|] == Progress(message)
    && forall k :: |before| < k < |after| ==> !after[k].Progress?
  }

  /** The events of `log` from index `from` on are ones an action causes: no
      usage reading and no completion call among them. */
  predicate ActionEvents(log: seq<Event>, from: int)
  {
    forall k :: 0 <= from <= k < |log| ==> !log[k].StatsRead? && !log[k].Completion?
  }

  /** `after` is `before` followed by action events only. */
  predicate ExtendsWithActionEvents(before: seq<Event>, after: seq<Event>)
  {
    |before| <= |after| && after[..|before|] == before && ActionEvents(after, |before|)
  }

  lemma ExtendsTransitive(a: seq<Event>, b: seq<Event>, c: seq<Event>)
    requires ExtendsWithActionEvents(a, b) && ExtendsWithActionEvents(b, c)
    ensures ExtendsWithActionEvents(a, c)
  {
    assert forall k :: 0 <= k < |b| ==> c[k] == b[k];
  }

  /** Appending a progress message alone emits exactly that message. */
  lemma EmitsAlone(before: seq<Event>, message: string)
    ensures EmitsOneProgress(before, before + [Progress(message)], message)
    ensures ActionEvents(before + [Progress(message)], |before|)
  {
    assert (before + [Progress(message)])[..|before|] == before;
  }

  lemma ProgressesOfEmission(before: seq<Event>, after: seq<Event>, message: string)
    requires EmitsOneProgress(before, after, message)
    ensures Progresses(after) == Progresses(before) + [message]
  {
    var n := |before|;
    var rest := after[n + 1..];
    assert after == before + [Progress(message)] + rest;
    assert forall k :: 0 <= k < |rest| ==> rest[k] == after[n + 1 + k];
    NoProgresses(rest);
    ProgressesAppend(before + [Progress(message)], rest);
    ProgressesAppend(before, [Progress(message)]);
    assert [Progress(message)][..0] == [];
  }

  lemma ProgressesSnoc(log: seq<Event>, e: Event)
    ensures Progresses(log + [e]) == Progresses(log) + (if e.Progress? then [e.message] else [])
  {
    assert (log + [e])[..|log|] == log;
  }
}
