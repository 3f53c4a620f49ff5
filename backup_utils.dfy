/** The settings guard: saves the visual-effects registry value to the backup
    file before a run and writes it back on request. Registry access, the
    file system and the broadcast act on a `Machine`; the outcome of each
    foreign call the real code makes is passed in as a `Status`. */
module BackupUtils {
  import opened WinState

  /** The one setting identifier the backup record knows. */
  const VisualEffectsEntry: string := "VisualEffects"

  /** Stored when the registry value is absent: "let Windows decide". */
  const DefaultVisualFx: int := 1

  /** The record a backup writes, given the registry it reads and whether the
      read failed for a reason other than the value being absent. */
  function BackupRecord(registry: map<string, int>, read: Status): (record: map<string, int>)
    ensures record.Keys <= {VisualEffectsEntry}
    ensures VisualEffectsEntry in record <==> read.Ok?
    ensures read.Ok? && VisualFxSetting in registry ==> record[VisualEffectsEntry] == registry[VisualFxSetting]
    ensures read.Ok? && VisualFxSetting !in registry ==> record[VisualEffectsEntry] == DefaultVisualFx
  {
    if read.Err? then map[]
    else if VisualFxSetting in registry then map[VisualEffectsEntry := registry[VisualFxSetting]]
    else map[VisualEffectsEntry := DefaultVisualFx]
  }

  /** The registry after a successful restore from `record`. */
  function RestoredRegistry(registry: map<string, int>, record: map<string, int>): map<string, int>
  {
    if VisualEffectsEntry in record then registry[VisualFxSetting := record[VisualEffectsEntry]]
    else registry
  }

  /** backup_critical_settings. `read` is the outcome of opening and querying
      the registry value when that value exists, or an unexpected error;
      `write` is the outcome of writing the file. */
  method BackupCriticalSettings(m: Machine, read: Status, write: Status) returns (ok: bool)
    modifies m
    ensures ok <==> write.Ok?
    ensures m.backupFile == if write.Ok? then Stored(BackupRecord(old(m.registry), read)) else old(m.backupFile)
    ensures m.registry == old(m.registry) && m.log == old(m.log)
    ensures m.updateServiceRunning == old(m.updateServiceRunning)
  {
    var backupData: map<string, int> := map[];
    if read.Ok? {
      if VisualFxSetting in m.registry {
        backupData := backupData[VisualEffectsEntry := m.registry[VisualFxSetting]];
      } else {
        // the key or the value is missing: FileNotFoundError
        backupData := backupData[VisualEffectsEntry := DefaultVisualFx];
      }
    }
    if write.Ok? {
      m.backupFile := Stored(backupData);
      ok := true;
    } else {
      ok := false;
    }
  }

  /** restore_critical_settings. `write` is the outcome of creating the key
      and setting the value. */
  method RestoreCriticalSettings(m: Machine, write: Status) returns (ok: bool)
    modifies m
    ensures m.backupFile == old(m.backupFile) && m.updateServiceRunning == old(m.updateServiceRunning)
    ensures !old(m.backupFile).Stored? ==> !ok && m.registry == old(m.registry) && m.log == old(m.log)
    ensures old(m.backupFile).Stored? && VisualEffectsEntry !in old(m.backupFile).record ==>
      ok && m.registry == old(m.registry) && m.log == old(m.log)
    ensures old(m.backupFile).Stored? && VisualEffectsEntry in old(m.backupFile).record ==>
      (ok <==> write.Ok?) &&
      (ok ==> m.registry == RestoredRegistry(old(m.registry), old(m.backupFile).record)
              && m.log == old(m.log) + [SettingBroadcast]) &&
      (!ok ==> m.registry == old(m.registry) && m.log == old(m.log))
  {
    match m.backupFile
    case NoFile =>
      return false;
    case Unreadable =>
      return false;
    case Stored(record) =>
      if VisualEffectsEntry in record {
        if write.Err? {
          return false;
        }
        m.registry := m.registry[VisualFxSetting := record[VisualEffectsEntry]];
        m.log := m.log + [SettingBroadcast];
      }
      return true;
  }

  /** A backup that read the value, restored after any later registry
      change, gives the value back; an absent value comes back as 1. No other
      registry value is touched. */
  lemma BackupRestoreRoundTrip(before: map<string, int>, later: map<string, int>)
    ensures var restored := RestoredRegistry(later, BackupRecord(before, Ok));
      && VisualFxSetting in restored
      && restored[VisualFxSetting] == (if VisualFxSetting in before then before[VisualFxSetting] else DefaultVisualFx)
      && forall k :: k != VisualFxSetting ==> (k in restored <==> k in later) && (k in later ==> restored[k] == later[k])
  {
  }

  /** When the value was absent at backup time, restoring creates it: the
      round trip is not the identity. */
  lemma AbsentValueIsNotRestoredAsAbsent(before: map<string, int>)
    requires VisualFxSetting !in before
    ensures RestoredRegistry(before, BackupRecord(before, Ok)) != before
  {
    assert VisualFxSetting in RestoredRegistry(before, BackupRecord(before, Ok));
  }

  /** A backup whose read failed unexpectedly restores nothing. */
  lemma FailedReadRestoresNothing(before: map<string, int>, later: map<string, int>, e: string)
    ensures RestoredRegistry(later, BackupRecord(before, Err(e))) == later
  {
  }
}
