/** The rules of the interactive shell that are not presentation: which
    optimizations a click on "Apply Selected Optimizations" runs, the refusal
    of an empty selection, and the health rating of a usage reading. */
module UiMain {
  import opened WinState
  import SU = SystemUtils
  import opened BackupUtils

  /** App.optimizations: the fixed catalogue, in display order. */
  const Optimizations: seq<SU.Optimization> := [
    SU.Optimization("Clean Temporary Files", SU.TempFiles),
    SU.Optimization("Clear Windows Update Cache", SU.UpdateCache),
    SU.Optimization("Empty Recycle Bin", SU.RecycleBin),
    SU.Optimization("Clear DNS Cache", SU.DnsCache),
    SU.Optimization("Optimize System Disk (Defrag/TRIM)", SU.DiskOptimization),
    SU.Optimization("Set High Performance Power Plan", SU.PowerPlan),
    SU.Optimization("Adjust Visual Effects for Performance", SU.VisualEffects),
    SU.Optimization("Disable Background Apps (Global)", SU.BackgroundApps)
  ]

  /** `a` is `b` with some elements left out. */
  predicate IsSubsequence<T(==)>(a: seq<T>, b: seq<T>)
    decreases |b|
  {
    if a == [] then true
    else if b == [] then false
    else (a[0] == b[0] && IsSubsequence(a[1..], b[1..])) || IsSubsequence(a, b[1..])
  }

  /** The entries whose check box reads "on", in catalogue order. */
  function Select(entries: seq<SU.Optimization>, boxes: map<string, string>): (selected: seq<SU.Optimization>)
    requires forall e :: e in entries ==> e.name in boxes
    ensures forall e :: e in selected <==> e in entries && boxes[e.name] == "on"
    ensures IsSubsequence(selected, entries)
    ensures SU.DistinctNames(entries) ==> SU.DistinctNames(selected)
    decreases |entries|
  {
    if entries == [] then []
    else
      var rest := Select(entries[1..], boxes);
      assert forall e :: e in entries[1..] ==> e in entries;
      if boxes[entries[0].name] == "on" then
        assert ([entries[0]] + rest)[1..] == rest;
        assert SU.DistinctNames(entries) ==> forall e :: e in rest ==> e.name != entries[0].name by {
          if SU.DistinctNames(entries) {
            forall e | e in rest ensures e.name != entries[0].name {
              var k :| 0 <= k < |entries[1..]| && entries[1..][k] == e;
              assert entries[k + 1] == e;
            }
          }
        }
        [entries[0]] + rest
      else
        rest
  }

  /** The comprehension in App.run_optimizations over App.opt_checkboxes,
      whose keys are the catalogue names in catalogue order. */
  function SelectedOptimizations(boxes: map<string, string>): (selected: seq<SU.Optimization>)
    requires forall k :: 0 <= k < |Optimizations| ==> Optimizations[k].name in boxes
    ensures forall e :: e in selected <==> e in Optimizations && boxes[e.name] == "on"
    ensures IsSubsequence(selected, Optimizations)
    ensures SU.DistinctNames(selected)
  {
    CatalogueNamesDistinct();
    Select(Optimizations, boxes)
  }

  /** The selection is empty exactly when no catalogue box reads "on". */
  lemma SelectionEmpty(boxes: map<string, string>)
    requires forall k :: 0 <= k < |Optimizations| ==> Optimizations[k].name in boxes
    ensures SelectedOptimizations(boxes) == [] <==> forall e :: e in Optimizations ==> boxes[e.name] != "on"
  {
    var selected := SelectedOptimizations(boxes);
    if selected != [] {
      assert selected[0] in selected;
    }
  }

  lemma CatalogueNamesDistinct()
    ensures SU.DistinctNames(Optimizations)
  {
  }

  /** App.run_optimizations: an empty selection is refused and nothing runs;
      otherwise the coordinator runs exactly the selection. */
  method RunOptimizations(m: Machine, boxes: map<string, string>, w: SU.World) returns (report: Option<SU.RunResult>)
    requires forall k :: 0 <= k < |Optimizations| ==> Optimizations[k].name in boxes
    modifies m
    ensures report.None? <==> forall e :: e in Optimizations ==> boxes[e.name] != "on"
    ensures report.None? ==> unchanged(m)
    ensures report.Some? ==>
      SU.CoordinatorRan(SelectedOptimizations(boxes), w, report.value,
                        old(m.registry), old(m.backupFile), old(m.updateServiceRunning), old(m.log),
                        m.registry, m.backupFile, m.updateServiceRunning, m.log)
  {
    var selected := SelectedOptimizations(boxes);
    SelectionEmpty(boxes);
    if selected == [] {
      // "No Selection": a message box, no progress window, no run
      return None;
    }
    var result := SU.RunOptimizations(m, selected, w);
    report := Some(result);
  }

  // ---------------------------------------------------------------------
  // Health rating in App.update_realtime_stats

  datatype Health = Poor | Average | Good

  /** Python's `max` on two readings. */
  function Max(a: real, b: real): (r: real)
    ensures r >= a && r >= b
    ensures r == a || r == b
  {
    if b > a then b else a
  }

  /** The rating of the largest of the three usage percentages. */
  function Rate(cpu: real, ram: real, disk: real): (h: Health)
    ensures h == Poor <==> cpu > 80.0 || ram > 80.0 || disk > 80.0
    ensures h == Average <==> !(cpu > 80.0 || ram > 80.0 || disk > 80.0) && (cpu > 50.0 || ram > 50.0 || disk > 50.0)
    ensures h == Good <==> cpu <= 50.0 && ram <= 50.0 && disk <= 50.0
  {
    var maxUsage := Max(Max(cpu, ram), disk);
    if maxUsage > 80.0 then Poor
    else if maxUsage > 50.0 then Average
    else Good
  }

  const Red: string := "#FF5733"
  const Yellow: string := "#FFC300"
  const Green: string := "#00A67E"

  /** What the dashboard shows for a rating: the label text, the label colour
      and the colour of the CPU, RAM and disk bars. */
  datatype HealthView = HealthView(caption: string, labelColor: string, cpuBar: string, ramBar: string, diskBar: string)

  function ShowHealth(stats: Snapshot): (v: HealthView)
    ensures v.cpuBar == v.labelColor && v.ramBar == v.labelColor && v.diskBar == v.labelColor
    ensures v.labelColor == Red <==> Rate(stats.cpuUsage, stats.ramUsage, stats.diskUsage) == Poor
    ensures v.labelColor == Green <==> Rate(stats.cpuUsage, stats.ramUsage, stats.diskUsage) == Good
  {
    var (text, color) :=
      match Rate(stats.cpuUsage, stats.ramUsage, stats.diskUsage)
      case Poor => ("Poor \U{1F534}", Red)
      case Average => ("Average \U{1F7E1}", Yellow)
      case Good => ("Good \U{1F7E2}", Green);
    HealthView("System Health: " + text, color, color, color, color)
  }
}
