/** The display configuration of `src-tauri/src/ui/types.rs` and the
    projection of it onto the six check-box items of the tray menu. */
module UiTypes {

  datatype DisplayMode = List | Rotation

  /** `TrayConfig`: which metrics the title shows, how, and whether alerts are on. */
  datatype TrayConfig = TrayConfig(
    showCpu: bool,
    showMem: bool,
    showNw: bool,
    mode: DisplayMode,
    isAlert: bool)

  /** Number of metrics the configuration shows. */
  function VisibleCount(cfg: TrayConfig): nat {
    (if cfg.showCpu then 1 else 0) + (if cfg.showMem then 1 else 0) + (if cfg.showNw then 1 else 0)
  }

  /** The checked state given to `mi_show_cpu`, `mi_show_mem`, `mi_show_nw`,
      `mi_mode_list`, `mi_mode_rotation` and `mi_is_alert`. */
  datatype MenuChecks = MenuChecks(
    showCpu: bool,
    showMem: bool,
    showNw: bool,
    modeList: bool,
    modeRotation: bool,
    isAlert: bool)

  /** The six check states `sync_menu_checks` sets for a configuration. */
  function MenuChecksOf(cfg: TrayConfig): (c: MenuChecks)
    ensures c.showCpu == cfg.showCpu && c.showMem == cfg.showMem && c.showNw == cfg.showNw
    ensures c.modeList <==> cfg.mode == List
    ensures c.modeRotation <==> cfg.mode == Rotation
    ensures c.modeList != c.modeRotation
    ensures c.isAlert == cfg.isAlert
  {
    MenuChecks(cfg.showCpu, cfg.showMem, cfg.showNw, cfg.mode == List, cfg.mode == Rotation, cfg.isAlert)
  }

  /** Reads a configuration back off the check states. */
  function ConfigOfChecks(c: MenuChecks): TrayConfig {
    TrayConfig(c.showCpu, c.showMem, c.showNw, if c.modeList then List else Rotation, c.isAlert)
  }

  /** The menu shows the whole configuration: it can be read back from the checks. */
  lemma {:induction false} MenuChecksLossless(cfg: TrayConfig)
    ensures ConfigOfChecks(MenuChecksOf(cfg)) == cfg
  {
    match cfg.mode
    case List =>
    case Rotation =>
  }

  /** Distinct configurations never show the same check states. */
  lemma {:induction false} MenuChecksInjective(a: TrayConfig, b: TrayConfig)
    requires MenuChecksOf(a) == MenuChecksOf(b)
    ensures a == b
  {
    MenuChecksLossless(a);
    MenuChecksLossless(b);
  }

  /** `TrayUiState`. The `Mutex` around `config` is not modelled, and neither
      are the menu-item handles: the checks `sync_menu_checks` would set are
      returned instead. tray.rs:60-63 also sets four combination items that
      the struct does not declare; they are never synchronised. */
  class TrayUiState {
    var config: TrayConfig

    constructor (initial: TrayConfig)
      ensures config == initial
    {
      config := initial;
    }

    /** `sync_menu_checks`: copies the configuration and computes the six check
        states from the copy; nothing is changed. */
    method SyncMenuChecks() returns (checks: MenuChecks)
      ensures checks == MenuChecksOf(config)
    {
      var cfg := config;
      checks := MenuChecks(cfg.showCpu, cfg.showMem, cfg.showNw,
                           cfg.mode == List, cfg.mode == Rotation, cfg.isAlert);
    }
  }
}
