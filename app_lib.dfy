/** The older tray of `src-tauri/src/lib.rs`: its initial configuration, its
    flip-one-flag menu handler, and the title step of `spawn_tray_updater`,
    which shows all three metrics only when all three reads succeed. */
module AppLib {
  import opened Wrappers
  import opened UiTypes
  import opened StrOps
  import opened MacMetrics
  import MetricsService
  import CollectMacos
  import TrayUpdater
  import Tray

  /** The configuration the tray starts with (lib.rs:121-127). */
  function InitialConfig(): (cfg: TrayConfig)
    ensures cfg.showCpu && cfg.showMem && !cfg.showNw
    ensures cfg.mode == List && cfg.isAlert
  {
    TrayConfig(showCpu := true, showMem := true, showNw := false, mode := List, isAlert := true)
  }

  /** The ids this handler knows. Every other id is `Other`. */
  datatype LibEvent = ToggleCpu | ToggleMem | ToggleNw | ToggleAlert | ModeList | ModeRotation | Quit | Hide | Other

  /** The handler's dispatch on `event.id()` (lib.rs:144-168): exactly the
      eight ids with an arm of their own are recognised. */
  function LibEventOf(id: string): (e: LibEvent)
    ensures e == Quit <==> id == "quit"
    ensures e == Hide <==> id == "hide"
    ensures IsToggle(e) <==> id in {"toggle_cpu", "toggle_mem", "toggle_nw", "toggle_alert"}
    ensures e == ToggleCpu <==> id == "toggle_cpu"
    ensures e == ToggleMem <==> id == "toggle_mem"
    ensures e == ToggleNw <==> id == "toggle_nw"
    ensures e == ToggleAlert <==> id == "toggle_alert"
    ensures e == ModeList <==> id == "mode_list"
    ensures e == ModeRotation <==> id == "mode_rotation"
    ensures e == Other <==>
      id !in {"quit", "hide", "toggle_cpu", "toggle_mem", "toggle_nw", "toggle_alert", "mode_list", "mode_rotation"}
  {
    if id == "quit" then Quit
    else if id == "hide" then Hide
    else if id == "toggle_cpu" then ToggleCpu
    else if id == "toggle_mem" then ToggleMem
    else if id == "toggle_nw" then ToggleNw
    else if id == "toggle_alert" then ToggleAlert
    else if id == "mode_list" then ModeList
    else if id == "mode_rotation" then ModeRotation
    else Other
  }

  predicate IsToggle(e: LibEvent) {
    e.ToggleCpu? || e.ToggleMem? || e.ToggleNw? || e.ToggleAlert?
  }

  /** The second `match` of the handler (lib.rs:161-169): the new configuration,
      or `None` where the handler returns before `sync_menu_checks`. */
  function ApplyToggleEvent(cfg: TrayConfig, e: LibEvent): (r: Option<TrayConfig>)
    ensures r.None? <==> e in {Quit, Hide, Other}
    ensures r.Some? ==> FieldsChanged(cfg, r.value) <= 1
    ensures r.Some? && IsToggle(e) ==> FieldsChanged(cfg, r.value) == 1
    ensures r.Some? ==> r.value.mode == (if e == ModeList then List else if e == ModeRotation then Rotation else cfg.mode)
  {
    match e
    case ToggleCpu => Some(cfg.(showCpu := !cfg.showCpu))
    case ToggleMem => Some(cfg.(showMem := !cfg.showMem))
    case ToggleNw => Some(cfg.(showNw := !cfg.showNw))
    case ToggleAlert => Some(cfg.(isAlert := !cfg.isAlert))
    case ModeList => Some(cfg.(mode := List))
    case ModeRotation => Some(cfg.(mode := Rotation))
    case _ => None
  }

  /** How many of the five fields differ between two configurations. */
  function FieldsChanged(a: TrayConfig, b: TrayConfig): nat {
    (if a.showCpu != b.showCpu then 1 else 0) + (if a.showMem != b.showMem then 1 else 0)
    + (if a.showNw != b.showNw then 1 else 0) + (if a.mode != b.mode then 1 else 0)
    + (if a.isAlert != b.isAlert then 1 else 0)
  }

  /** Each toggle changes exactly one field, the one it names. */
  lemma ToggleChangesOneField(cfg: TrayConfig, e: LibEvent)
    requires IsToggle(e)
    ensures ApplyToggleEvent(cfg, e).Some?
    ensures FieldsChanged(cfg, ApplyToggleEvent(cfg, e).value) == 1
    ensures e == ToggleCpu ==> ApplyToggleEvent(cfg, e).value.showCpu != cfg.showCpu
    ensures e == ToggleMem ==> ApplyToggleEvent(cfg, e).value.showMem != cfg.showMem
    ensures e == ToggleNw ==> ApplyToggleEvent(cfg, e).value.showNw != cfg.showNw
    ensures e == ToggleAlert ==> ApplyToggleEvent(cfg, e).value.isAlert != cfg.isAlert
  {
  }

  /** The same toggle twice gives the configuration back. */
  lemma ToggleTwiceRestores(cfg: TrayConfig, e: LibEvent)
    requires IsToggle(e)
    ensures ApplyToggleEvent(ApplyToggleEvent(cfg, e).value, e) == Some(cfg)
  {
  }

  /** The mode events set the mode, change nothing else, and are idempotent. */
  lemma ModeEventsIdempotent(cfg: TrayConfig, e: LibEvent)
    requires e == ModeList || e == ModeRotation
    ensures ApplyToggleEvent(cfg, e) == Some(cfg.(mode := if e == ModeList then List else Rotation))
    ensures ApplyToggleEvent(ApplyToggleEvent(cfg, e).value, e) == ApplyToggleEvent(cfg, e)
  {
  }

  /** `quit`, `hide` and unknown ids change nothing and skip the menu sync. */
  lemma UnhandledIdsIgnored(cfg: TrayConfig, e: LibEvent)
    requires e == Quit || e == Hide || e == Other
    ensures ApplyToggleEvent(cfg, e) == None
  {
  }

  /** Where the two handlers share an id, they agree: the alert toggle and the
      mode items do the same in lib.rs as in tray.rs. */
  lemma AgreesWithTrayHandler(cfg: TrayConfig)
    ensures ApplyToggleEvent(cfg, ToggleAlert) == Some(Tray.ApplyMenuEvent(cfg, Tray.ToggleAlert))
    ensures ApplyToggleEvent(cfg, ModeList) == Some(Tray.ApplyMenuEvent(cfg, Tray.ModeList))
    ensures ApplyToggleEvent(cfg, ModeRotation) == Some(Tray.ApplyMenuEvent(cfg, Tray.ModeRotation))
  {
  }

  /** The menu handler (lib.rs:143-172). `quit` asks the app to exit and then,
      like `hide` and every unknown id, reaches `_ => return` in the second
      `match`. Known ids update the configuration in place and then
      synchronise the menu checks. */
  method OnMenuEvent(st: TrayUiState, id: string) returns (exitRequested: bool, synced: Option<MenuChecks>)
    modifies st
    ensures exitRequested <==> LibEventOf(id) == Quit
    ensures ApplyToggleEvent(old(st.config), LibEventOf(id)).None? ==>
      st.config == old(st.config) && synced == None
    ensures ApplyToggleEvent(old(st.config), LibEventOf(id)).Some? ==>
      st.config == ApplyToggleEvent(old(st.config), LibEventOf(id)).value &&
      synced == Some(MenuChecksOf(st.config))
  {
    var e := LibEventOf(id);
    exitRequested := e == Quit;
    match e {
      case ToggleCpu => st.config := st.config.(showCpu := !st.config.showCpu);
      case ToggleMem => st.config := st.config.(showMem := !st.config.showMem);
      case ToggleNw => st.config := st.config.(showNw := !st.config.showNw);
      case ToggleAlert => st.config := st.config.(isAlert := !st.config.isAlert);
      case ModeList => st.config := st.config.(mode := List);
      case ModeRotation => st.config := st.config.(mode := Rotation);
      case _ => return exitRequested, None;
    }
    var checks := st.SyncMenuChecks();
    synced := Some(checks);
  }

  /** The outcomes of the three reads one updater cycle may make, in the
      order the loop makes them: memory pressure, CPU, network latency. */
  datatype CycleReads = CycleReads(mem: Result<real, MacError>, cpu: Result<real, MacError>, nw: Result<real, MacError>)

  /** How many readers a cycle calls: it stops at the first failure. */
  function ReadersCalled(t: CycleReads): (n: nat)
    ensures 1 <= n <= 3
    ensures n == 1 <==> t.mem.Err?
    ensures n == 3 <==> t.mem.Ok? && t.cpu.Ok?
  {
    if t.mem.Err? then 1 else if t.cpu.Err? then 2 else 3
  }

  /** `format!("{} {} {}", cpu_text, mem_text, nw_text)` with the values already
      rounded (lib.rs:57-61): read word by word, the title is the three labels,
      each followed by its value and unit, CPU first. */
  function AllMetricsTitle(cpu: int, mem: int, nw: int): (title: string)
    ensures SplitWhitespace(title) ==
      ["CPU", IntToString(cpu) + "%", "Mem", IntToString(mem) + "%", "NW", IntToString(nw) + "ms"]
  {
    var memText := "Mem " + IntToString(mem) + "%";
    var cpuText := "CPU " + IntToString(cpu) + "%";
    var nwText := "NW " + IntToString(nw) + "ms";
    TitleWordsAreTokens(IntToString(cpu), IntToString(mem), IntToString(nw));
    TitleWordsJoin(IntToString(cpu), IntToString(mem), IntToString(nw));
    SplitWhitespaceOfJoin(["CPU", IntToString(cpu) + "%", "Mem", IntToString(mem) + "%", "NW", IntToString(nw) + "ms"]);
    cpuText + " " + memText + " " + nwText
  }

  /** A value followed by its unit is still a single word. */
  lemma UnitSuffixToken(a: string, u: string)
    requires IsToken(a) && NoWhitespace(u)
    ensures IsToken(a + u)
  {
    assert forall k :: 0 <= k < |a + u| ==> if k < |a| then (a + u)[k] == a[k] else (a + u)[k] == u[k - |a|];
  }

  /** Each of the six words of a full title is a single word. */
  lemma TitleWordsAreTokens(a: string, b: string, c: string)
    requires IsToken(a) && IsToken(b) && IsToken(c)
    ensures forall t :: t in ["CPU", a + "%", "Mem", b + "%", "NW", c + "ms"] ==> IsToken(t)
  {
    UnitSuffixToken(a, "%");
    UnitSuffixToken(b, "%");
    UnitSuffixToken(c, "ms");
  }

  /** The six words of a full title, joined by single spaces, give the title. */
  lemma {:induction false} TitleWordsJoin(a: string, b: string, c: string)
    ensures Join(["CPU", a + "%", "Mem", b + "%", "NW", c + "ms"], " ") ==
      ("CPU " + a + "%") + " " + ("Mem " + b + "%") + " " + ("NW " + c + "ms")
  {
    var a1, b1, c1 := a + "%", b + "%", c + "ms";
    TrayUpdater.JoinLabelValue("NW", c1, []);
    TrayUpdater.JoinLabelValue("Mem", b1, ["NW", c1]);
    TrayUpdater.JoinLabelValue("CPU", a1, ["Mem", b1, "NW", c1]);
    assert ["NW", c1] + [] == ["NW", c1];
    assert ["Mem", b1] + ["NW", c1] == ["Mem", b1, "NW", c1];
    assert ["CPU", a1] + ["Mem", b1, "NW", c1] == ["CPU", a1, "Mem", b1, "NW", c1];
    assert "CPU" + " " == "CPU " && "Mem" + " " == "Mem " && "NW" + " " == "NW ";
    ConcatAssoc("CPU ", a, "%");
    ConcatAssoc("Mem ", b, "%");
    ConcatAssoc("NW ", c, "ms");
  }

  lemma ConcatAssoc(x: string, y: string, z: string)
    ensures x + y + z == x + (y + z)
  {
  }

  /** The title one cycle sets (lib.rs:33-67), or `None` when a read failed and
      the cycle `continue`s without touching the title. The configuration is
      not consulted. */
  function CycleTitle(t: CycleReads, round: real -> int): (r: Option<string>)
    ensures r.Some? <==> t.mem.Ok? && t.cpu.Ok? && t.nw.Ok?
  {
    if t.mem.Err? || t.cpu.Err? || t.nw.Err? then None
    else Some(AllMetricsTitle(round(t.cpu.value), round(t.mem.value), round(t.nw.value)))
  }

  /** With the memory reading taken from the mac_metrics.rs reader, a cycle
      that sets a title shows the rounding of a pressure in [0, 100] as its
      memory word. */
  lemma CycleMemoryWordInRange(
    out: CollectMacos.CommandOutput, parseF64: string -> Option<real>,
    cpu: Result<real, MacError>, nw: Result<real, MacError>, round: real -> int)
    requires CycleTitle(CycleReads(ReadMemoryPressurePct(out, parseF64), cpu, nw), round).Some?
    ensures 0.0 <= ReadMemoryPressurePct(out, parseF64).value <= 100.0
    ensures SplitWhitespace(CycleTitle(CycleReads(ReadMemoryPressurePct(out, parseF64), cpu, nw), round).value)
         == ["CPU", IntToString(round(cpu.value)) + "%",
             "Mem", IntToString(round(ReadMemoryPressurePct(out, parseF64).value)) + "%",
             "NW", IntToString(round(nw.value)) + "ms"]
  {
  }

  /** The old title is the new list-mode title with all three metrics shown
      and all three readings present. */
  lemma {:induction false} CycleTitleIsFullListTitle(t: CycleReads, round: real -> int, cfg: TrayConfig, at: nat)
    requires t.mem.Ok? && t.cpu.Ok? && t.nw.Ok?
    requires cfg.showCpu && cfg.showMem && cfg.showNw
    ensures CycleTitle(t, round) == Some(TrayUpdater.TitleText(cfg,
      MetricsService.MetricsSnapshot(Some(t.cpu.value), Some(at), Some(t.mem.value), Some(at), Some(t.nw.value), Some(at)),
      round))
  {
    var s := MetricsService.MetricsSnapshot(Some(t.cpu.value), Some(at), Some(t.mem.value), Some(at), Some(t.nw.value), Some(at));
    var a := "CPU " + IntToString(round(t.cpu.value)) + "%";
    var b := "Mem " + IntToString(round(t.mem.value)) + "%";
    var d := "NW " + IntToString(round(t.nw.value)) + "ms";
    TrayUpdater.CpuSegmentText(Some(t.cpu.value), round);
    TrayUpdater.MemSegmentText(Some(t.mem.value), round);
    TrayUpdater.NwSegmentText(Some(t.nw.value), round);
    TrayUpdater.AllVisibleSegments(cfg, s, round);
    JoinThree(a, b, d);
  }

  /** The title after a run of cycles, starting from `initial` (the tray is
      built with "..."): each cycle whose reads all succeed replaces it. */
  function TitleAfter(cycles: seq<CycleReads>, initial: string, round: real -> int): (r: string)
    ensures r == initial || exists k :: 0 <= k < |cycles| && CycleTitle(cycles[k], round) == Some(r)
    decreases |cycles|
  {
    if cycles == [] then initial
    else
      match CycleTitle(cycles[|cycles| - 1], round)
      case Some(title) => title
      case None =>
        var prefix := cycles[..|cycles| - 1];
        assert forall k :: 0 <= k < |prefix| ==> prefix[k] == cycles[k];
        TitleAfter(prefix, initial, round)
  }

  /** One more cycle either replaces the title or leaves it as it was. */
  lemma TitleAfterStep(cycles: seq<CycleReads>, initial: string, round: real -> int, i: nat)
    requires i < |cycles|
    ensures TitleAfter(cycles[..i + 1], initial, round)
         == if CycleTitle(cycles[i], round).Some? then CycleTitle(cycles[i], round).value
            else TitleAfter(cycles[..i], initial, round)
  {
    assert cycles[..i + 1][..i] == cycles[..i];
    assert cycles[..i + 1][i] == cycles[i];
  }

  /** How many reader calls a run of cycles makes in all. */
  function TotalReadersCalled(cycles: seq<CycleReads>): (n: nat)
    ensures |cycles| <= n <= 3 * |cycles|
    decreases |cycles|
  {
    if cycles == [] then 0
    else TotalReadersCalled(cycles[..|cycles| - 1]) + ReadersCalled(cycles[|cycles| - 1])
  }

  /** One more cycle adds its own reader calls to the total. */
  lemma ReadersCalledStep(cycles: seq<CycleReads>, i: nat)
    requires i < |cycles|
    ensures TotalReadersCalled(cycles[..i + 1]) == TotalReadersCalled(cycles[..i]) + ReadersCalled(cycles[i])
  {
    assert cycles[..i + 1][..i] == cycles[..i];
    assert cycles[..i + 1][i] == cycles[i];
  }

  /** The body of `spawn_tray_updater`'s loop, run over a finite prefix of its
      cycles; the timer ticks between cycles are not modelled. `calls` counts
      the reader calls the `continue`s leave standing. */
  method RunTrayUpdater(cycles: seq<CycleReads>, initial: string, round: real -> int) returns (title: string, calls: nat)
    ensures title == TitleAfter(cycles, initial, round)
    ensures calls == TotalReadersCalled(cycles)
  {
    title := initial;
    calls := 0;
    var i := 0;
    while i < |cycles|
      invariant 0 <= i <= |cycles|
      invariant title == TitleAfter(cycles[..i], initial, round)
      invariant calls == TotalReadersCalled(cycles[..i])
    {
      var t := cycles[i];
      TitleAfterStep(cycles, initial, round, i);
      ReadersCalledStep(cycles, i);
      calls := calls + 1;
      if t.mem.Err? {
        i := i + 1;
        continue;
      }
      calls := calls + 1;
      if t.cpu.Err? {
        i := i + 1;
        continue;
      }
      calls := calls + 1;
      if t.nw.Err? {
        i := i + 1;
        continue;
      }
      title := AllMetricsTitle(round(t.cpu.value), round(t.mem.value), round(t.nw.value));
      i := i + 1;
    }
    assert cycles[..i] == cycles;
  }

  /** Cycle `j` is the last whose reads all succeed. */
  predicate LastFullCycle(cycles: seq<CycleReads>, j: int) {
    && 0 <= j < |cycles|
    && cycles[j].mem.Ok? && cycles[j].cpu.Ok? && cycles[j].nw.Ok?
    && forall k :: j < k < |cycles| ==> cycles[k].mem.Err? || cycles[k].cpu.Err? || cycles[k].nw.Err?
  }

  /** The title shown is the one of the last cycle whose three reads all
      succeeded; failed cycles never change it. */
  lemma {:induction false} TitleIsFromLastFullCycle(cycles: seq<CycleReads>, initial: string, round: real -> int, j: int)
    requires LastFullCycle(cycles, j)
    ensures TitleAfter(cycles, initial, round) == CycleTitle(cycles[j], round).value
    decreases |cycles|
  {
    if j < |cycles| - 1 {
      var prefix := cycles[..|cycles| - 1];
      assert LastFullCycle(prefix, j);
      TitleIsFromLastFullCycle(prefix, initial, round, j);
    }
  }

  /** Without a single fully successful cycle the title is still the initial one. */
  lemma {:induction false} TitleUnchangedWithoutFullCycle(cycles: seq<CycleReads>, initial: string, round: real -> int)
    requires forall k :: 0 <= k < |cycles| ==> cycles[k].mem.Err? || cycles[k].cpu.Err? || cycles[k].nw.Err?
    ensures TitleAfter(cycles, initial, round) == initial
    decreases |cycles|
  {
    if cycles != [] {
      TitleUnchangedWithoutFullCycle(cycles[..|cycles| - 1], initial, round);
    }
  }
}
