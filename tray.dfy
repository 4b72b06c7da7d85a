/** The menu-event handler of `src-tauri/src/ui/tray.rs`: each "show" event
    sets an exact combination of visible metrics, the mode events pick the
    display mode, and `toggle_alert` flips the alert flag. */
module Tray {
  import opened UiTypes

  /** The handler's menu ids. Every id without an arm of its own is `Other`. */
  datatype MenuEvent =
    | ShowCpu | ShowMem | ShowNw | ShowCpuMem | ShowMemNw | ShowCpuNw | ShowAll
    | ModeList | ModeRotation | ToggleAlert | Exit | Other

  /** The handler's dispatch on `event.id` (tray.rs:76, 88-99): exactly the
      eleven ids with an arm of their own are recognised. */
  function EventOf(id: string): (e: MenuEvent)
    ensures e == Exit <==> id == "exit"
    ensures IsShowEvent(e) <==>
      id in {"show_cpu", "show_mem", "show_nw", "show_cpu_mem", "show_mem_nw", "show_cpu_nw", "show_all"}
    ensures IsModeEvent(e) <==> id in {"mode_list", "mode_rotation"}
    ensures e == ShowCpu <==> id == "show_cpu"
    ensures e == ShowMem <==> id == "show_mem"
    ensures e == ShowNw <==> id == "show_nw"
    ensures e == ShowCpuMem <==> id == "show_cpu_mem"
    ensures e == ShowMemNw <==> id == "show_mem_nw"
    ensures e == ShowCpuNw <==> id == "show_cpu_nw"
    ensures e == ShowAll <==> id == "show_all"
    ensures e == ModeList <==> id == "mode_list"
    ensures e == ModeRotation <==> id == "mode_rotation"
    ensures e == ToggleAlert <==> id == "toggle_alert"
    ensures e == Other <==>
      id !in {"exit", "show_cpu", "show_mem", "show_nw", "show_cpu_mem", "show_mem_nw", "show_cpu_nw",
              "show_all", "mode_list", "mode_rotation", "toggle_alert"}
  {
    if id == "exit" then Exit
    else if id == "show_cpu" then ShowCpu
    else if id == "show_mem" then ShowMem
    else if id == "show_nw" then ShowNw
    else if id == "show_cpu_mem" then ShowCpuMem
    else if id == "show_mem_nw" then ShowMemNw
    else if id == "show_cpu_nw" then ShowCpuNw
    else if id == "show_all" then ShowAll
    else if id == "mode_list" then ModeList
    else if id == "mode_rotation" then ModeRotation
    else if id == "toggle_alert" then ToggleAlert
    else Other
  }

  /** The seven "Show Metrics" items. */
  predicate IsShowEvent(e: MenuEvent) {
    e.ShowCpu? || e.ShowMem? || e.ShowNw? || e.ShowCpuMem? || e.ShowMemNw? || e.ShowCpuNw? || e.ShowAll?
  }

  predicate IsModeEvent(e: MenuEvent) {
    e.ModeList? || e.ModeRotation?
  }

  /** The configuration after the handler's `match` (tray.rs:88-100): only a
      "show" event touches the visibility flags, and it never hides all three;
      only the mode events touch the mode; only `toggle_alert` touches the
      alert flag, which it flips. */
  function ApplyMenuEvent(cfg: TrayConfig, e: MenuEvent): (r: TrayConfig)
    ensures !IsShowEvent(e) ==> r.showCpu == cfg.showCpu && r.showMem == cfg.showMem && r.showNw == cfg.showNw
    ensures IsShowEvent(e) ==> r.showCpu || r.showMem || r.showNw
    ensures r.mode == (if e == ModeList then List else if e == ModeRotation then Rotation else cfg.mode)
    ensures r.isAlert == (if e == ToggleAlert then !cfg.isAlert else cfg.isAlert)
  {
    match e
    case ShowCpu => cfg.(showCpu := true, showMem := false, showNw := false)
    case ShowMem => cfg.(showCpu := false, showMem := true, showNw := false)
    case ShowNw => cfg.(showCpu := false, showMem := false, showNw := true)
    case ShowCpuMem => cfg.(showCpu := true, showMem := true, showNw := false)
    case ShowMemNw => cfg.(showCpu := false, showMem := true, showNw := true)
    case ShowCpuNw => cfg.(showCpu := true, showMem := false, showNw := true)
    case ShowAll => cfg.(showCpu := true, showMem := true, showNw := true)
    case ModeList => cfg.(mode := List)
    case ModeRotation => cfg.(mode := Rotation)
    case ToggleAlert => cfg.(isAlert := !cfg.isAlert)
    case Exit => cfg
    case Other => cfg
  }

  /** A "show" event shows exactly the metrics its id names and leaves the mode
      and the alert flag alone. */
  lemma ShowEventSetsNamedMetrics(cfg: TrayConfig, e: MenuEvent)
    requires IsShowEvent(e)
    ensures ApplyMenuEvent(cfg, e).mode == cfg.mode
    ensures ApplyMenuEvent(cfg, e).isAlert == cfg.isAlert
    ensures ApplyMenuEvent(cfg, e).showCpu <==> e in {ShowCpu, ShowCpuMem, ShowCpuNw, ShowAll}
    ensures ApplyMenuEvent(cfg, e).showMem <==> e in {ShowMem, ShowCpuMem, ShowMemNw, ShowAll}
    ensures ApplyMenuEvent(cfg, e).showNw <==> e in {ShowNw, ShowMemNw, ShowCpuNw, ShowAll}
  {
  }

  /** Every non-empty choice of visible metrics is reached by some "show" event,
      from any configuration. */
  lemma {:induction false} ShowEventsCoverNonEmptyChoices(cfg: TrayConfig, cpu: bool, mem: bool, nw: bool)
    requires cpu || mem || nw
    ensures exists e ::
              IsShowEvent(e) && ApplyMenuEvent(cfg, e) == cfg.(showCpu := cpu, showMem := mem, showNw := nw)
  {
    var e :=
      if cpu && mem && nw then ShowAll
      else if cpu && mem then ShowCpuMem
      else if cpu && nw then ShowCpuNw
      else if mem && nw then ShowMemNw
      else if cpu then ShowCpu
      else if mem then ShowMem
      else ShowNw;
    assert IsShowEvent(e) && ApplyMenuEvent(cfg, e) == cfg.(showCpu := cpu, showMem := mem, showNw := nw);
  }

  /** "Show" and mode events are idempotent. */
  lemma ShowAndModeIdempotent(cfg: TrayConfig, e: MenuEvent)
    requires IsShowEvent(e) || IsModeEvent(e)
    ensures ApplyMenuEvent(ApplyMenuEvent(cfg, e), e) == ApplyMenuEvent(cfg, e)
  {
  }

  /** The mode events change the mode and nothing else. */
  lemma ModeEventSetsOnlyMode(cfg: TrayConfig, e: MenuEvent)
    requires IsModeEvent(e)
    ensures ApplyMenuEvent(cfg, e) == cfg.(mode := if e == ModeList then List else Rotation)
  {
  }

  /** `toggle_alert` flips the alert flag only, and twice is no change. */
  lemma ToggleAlertInvolution(cfg: TrayConfig)
    ensures ApplyMenuEvent(cfg, ToggleAlert) == cfg.(isAlert := !cfg.isAlert)
    ensures ApplyMenuEvent(ApplyMenuEvent(cfg, ToggleAlert), ToggleAlert) == cfg
  {
  }

  /** Only "show" events touch visibility, and each leaves at least one metric
      visible; so a configuration showing something keeps showing something. */
  lemma {:induction false} SomethingStaysVisible(cfg: TrayConfig, e: MenuEvent)
    ensures IsShowEvent(e) ==> VisibleCount(ApplyMenuEvent(cfg, e)) > 0
    ensures !IsShowEvent(e) ==> VisibleCount(ApplyMenuEvent(cfg, e)) == VisibleCount(cfg)
    ensures VisibleCount(cfg) > 0 ==> VisibleCount(ApplyMenuEvent(cfg, e)) > 0
  {
  }

  /** Ids without an arm leave the configuration as it is. */
  lemma UnknownEventUnchanged(cfg: TrayConfig, id: string)
    requires EventOf(id) == Other
    ensures ApplyMenuEvent(cfg, EventOf(id)) == cfg
  {
  }

  /** What one call of the handler does besides updating the configuration. */
  datatype HandlerOutcome =
    | Exited
      /** The checks `sync_menu_checks` set, and the value given to `save_config_async`. */
    | Handled(checks: MenuChecks, saved: TrayConfig)

  /** `on_menu_event` (tray.rs:75-108). "exit" leaves before the configuration is
      touched. Otherwise the configuration is updated in place, a copy is taken,
      the menu checks are synchronised and the copy is saved; unknown ids take
      the same path with the configuration unchanged. */
  method OnMenuEvent(st: TrayUiState, id: string) returns (out: HandlerOutcome)
    modifies st
    ensures EventOf(id) == Exit ==> out == Exited && st.config == old(st.config)
    ensures EventOf(id) != Exit ==> st.config == ApplyMenuEvent(old(st.config), EventOf(id))
    ensures EventOf(id) != Exit ==> out == Handled(MenuChecksOf(st.config), st.config)
  {
    var e := EventOf(id);
    if e == Exit {
      return Exited;
    }
    match e {
      case ShowCpu =>
        st.config := st.config.(showCpu := true);
        st.config := st.config.(showMem := false);
        st.config := st.config.(showNw := false);
      case ShowMem =>
        st.config := st.config.(showCpu := false);
        st.config := st.config.(showMem := true);
        st.config := st.config.(showNw := false);
      case ShowNw =>
        st.config := st.config.(showCpu := false);
        st.config := st.config.(showMem := false);
        st.config := st.config.(showNw := true);
      case ShowCpuMem =>
        st.config := st.config.(showCpu := true);
        st.config := st.config.(showMem := true);
        st.config := st.config.(showNw := false);
      case ShowMemNw =>
        st.config := st.config.(showCpu := false);
        st.config := st.config.(showMem := true);
        st.config := st.config.(showNw := true);
      case ShowCpuNw =>
        st.config := st.config.(showCpu := true);
        st.config := st.config.(showMem := false);
        st.config := st.config.(showNw := true);
      case ShowAll =>
        st.config := st.config.(showCpu := true);
        st.config := st.config.(showMem := true);
        st.config := st.config.(showNw := true);
      case ModeList =>
        st.config := st.config.(mode := List);
      case ModeRotation =>
        st.config := st.config.(mode := Rotation);
      case ToggleAlert =>
        st.config := st.config.(isAlert := !st.config.isAlert);
      case _ =>
    }
    var cfgCopy := st.config;
    var checks := st.SyncMenuChecks();
    out := Handled(checks, cfgCopy);
  }
}
