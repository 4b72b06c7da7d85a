# VitalMonitor core, modelled in Dafny

VitalMonitor is a macOS menu-bar monitor built with Tauri. It samples three metrics:
- CPU usage;
- memory pressure, derived from the free percentage that `memory_pressure -Q` prints;
- network latency, measured as the time of a TCP connect.

`metrics/types.rs` defines how a reading is classified against three lower limits into Safe, Normal, Warning or Critical, but no code in the source calls that classification. Both tray titles show only the rounded readings, without a level. Tray menu items choose which metrics are shown, the display mode and whether alerts are on. A small Node script, `scripts/bump-version.mjs`, sets the version number in the package manifests.

This project models that core in Dafny, one module per source file:

| module | source file | form |
|---|---|---|
| `MetricTypes` | `src-tauri/src/metrics/types.rs` | datatypes and functions |
| `UiTypes` | `src-tauri/src/ui/types.rs` | datatypes; class `TrayUiState` |
| `Tray` | `src-tauri/src/ui/tray.rs` | transition function; in-place handler method |
| `AppLib` | `src-tauri/src/lib.rs` | transition function; handler method; updater loop as a `while` loop |
| `TrayUpdater` | `src-tauri/src/updater/tray_updater.rs` | `FormatTitle` pushes parts, then joins |
| `MetricsService` | `src-tauri/src/metrics/service.rs` | class `SharedMetrics` with one method per loop tick |
| `CollectMacos` | `src-tauri/src/metrics/collect_macos.rs` | reader results as functions |
| `MacMetrics` | `src-tauri/src/mac_metrics.rs` | reader result as a function |
| `BumpVersion` | `scripts/bump-version.mjs` | string functions; class `Workspace` for the three files |

Two helper modules support the others:
- `Wrappers` holds `Option` and `Result`.
- `StrOps` states the Rust string operations the code relies on, over `seq<char>`: `split_whitespace`, `ends_with`, `trim_end_matches`, `join` and integer formatting.

Numbers are `real`. The model makes these choices about numbers and I/O:
- `{:.0}` formatting is a caller-supplied rounding function `real -> int` followed by decimal rendering.
- `str::parse` is a caller-supplied `string -> Option<real>`.
- Process spawning, CPU sampling, TCP connects, clocks and file I/O are left to the caller. Their outcomes are parameters: `CommandOutput`, a usage value, a connected flag with the elapsed time, a `Timed` result, and a `nat` timestamp.

The model follows the code where its behaviour may be unexpected:
- **Failed reads clear the stored value.** service.rs writes `.ok()` of each read into the snapshot. A failed or timed-out read therefore stores `None`; it does not keep the last good value (service.rs:18-20, 33-35, 49-58).
- **The lib.rs tray starts with network hidden.** Its initial configuration has `show_nw: false` (lib.rs:124).

Some files do not compile as written. The model takes the evident intent:
- `format_title` ends without returning `text` (tray_updater.rs:33-35). The model returns the joined string.
- `collect_macos.rs:55` uses `ReadError::Timeout`, which the enum at types.rs:116-122 lacks. `MetricTypes.ReadError` adds it.
- service.rs uses undefined interval names (`cpu_secs`, `mem_secs`, `nw_secs`, `nw_timeout_secs`), and tray_updater.rs:9 uses an undefined `tick`. Timers are outside the model.
- tray.rs:60-63 fills four combination menu items that `TrayUiState` (ui/types.rs:19-31) does not declare. `sync_menu_checks` never updates them.
- Several names are used but not defined in the source: `Percent::clamp_0_100`, `MetricsSnapshot` and `SharedMetrics`. They are modelled from their uses.

## Model

| member | source | states |
|---|---|---|
| MetricTypes.Classify | src-tauri/src/metrics/types.rs:22-25 | the metric keeps the value unchanged, and its level is the policy's level of that value |
| MetricTypes.NewThreshold2 | src-tauri/src/metrics/types.rs:41-43 | the three limits are stored in argument order, with no check that they are ordered |
| MetricTypes.LevelByThreshold | src-tauri/src/metrics/types.rs:46-56 | for any limits: Safe iff value < normal; Normal iff normal ≤ value < warning; Warning iff value ≥ normal and ≥ warning and < critical; Critical iff the value is ≥ all three limits |
| MetricTypes.LevelBands | src-tauri/src/metrics/types.rs:46-56 | with ascending limits each level is the half-open band between consecutive limits |
| MetricTypes.LevelMonotone | src-tauri/src/metrics/types.rs:46-56 | for any limits, ordered or not, a larger value never gets a lower level in the order Safe < Normal < Warning < Critical |
| MetricTypes.Clamp | src-tauri/src/mac_metrics.rs:27 | the result lies in [lo, hi]; it is the value itself inside the range and the nearer bound outside it |
| MetricTypes.Clamp0To100 | src-tauri/src/metrics/collect_macos.rs:33 | the clamped percentage lies in [0, 100]: it is unchanged when already inside, 0 below the range and 100 above it |
| MetricTypes.CpuPolicy.Default | src-tauri/src/metrics/types.rs:63-69 | the CPU limits are 50, 75 and 90 |
| MetricTypes.MemoryPolicy.Default | src-tauri/src/metrics/types.rs:82-88 | the memory limits are 60, 75 and 90 |
| MetricTypes.NetworkPolicy.Default | src-tauri/src/metrics/types.rs:101-107 | the network limits are 50, 200 and 450 ms |
| MetricTypes.CpuDefaultBands | src-tauri/src/metrics/types.rs:63-75 | the default CPU policy reports Safe below 50, Normal in [50, 75), Warning in [75, 90) and Critical from 90, both directions |
| MetricTypes.MemoryDefaultBands | src-tauri/src/metrics/types.rs:82-94 | the default memory policy reports Safe below 60, Normal in [60, 75), Warning in [75, 90) and Critical from 90 |
| MetricTypes.NetworkDefaultBands | src-tauri/src/metrics/types.rs:101-113 | the default network policy reports Safe below 50 ms, Normal in [50, 200), Warning in [200, 450) and Critical from 450 |
| MetricTypes.ClassifyCpuMonotone | src-tauri/src/metrics/types.rs:22-25 | classifying through a CPU policy keeps the reading, and the level is monotone in it |
| UiTypes.MenuChecksOf | src-tauri/src/ui/types.rs:34-45 | the CPU, MEM and NW checks equal the three visibility flags; List is checked iff mode is List, Rotation iff mode is Rotation, and exactly one of the two is checked; the alert check equals `is_alert` |
| UiTypes.MenuChecksLossless | src-tauri/src/ui/types.rs:37-44 | the configuration can be read back from the six checks |
| UiTypes.MenuChecksInjective | src-tauri/src/ui/types.rs:37-44 | two configurations with the same checks are equal |
| UiTypes.TrayUiState.constructor | src-tauri/src/ui/types.rs:19-31 | the state holds the given configuration |
| UiTypes.TrayUiState.SyncMenuChecks | src-tauri/src/ui/types.rs:34-45 | returns the checks of the current configuration; with no `modifies` clause it cannot change the configuration |
| Tray.EventOf | src-tauri/src/ui/tray.rs:76-99 | the handler's id dispatch: `exit`, the seven show ids, the two mode ids and `toggle_alert` are recognised, and each one gives its own event and no other id gives that event; every other id falls to the empty arm |
| Tray.ApplyMenuEvent | src-tauri/src/ui/tray.rs:88-100 | the in-lock transition: only show events touch the visibility flags and they leave at least one set; mode changes only on a mode event; `is_alert` flips only on `toggle_alert` |
| Tray.ShowEventSetsNamedMetrics | src-tauri/src/ui/tray.rs:89-95 | each show event makes exactly the metrics its id names visible, and the others hidden; mode and alert flag are kept |
| Tray.ShowEventsCoverNonEmptyChoices | src-tauri/src/ui/tray.rs:89-95 | every non-empty choice of visible metrics is reached by some show event from any configuration |
| Tray.ShowAndModeIdempotent | src-tauri/src/ui/tray.rs:89-97 | applying a show or mode event twice gives the same configuration as applying it once |
| Tray.ModeEventSetsOnlyMode | src-tauri/src/ui/tray.rs:96-97 | `mode_list` and `mode_rotation` set the mode and change no other field |
| Tray.ToggleAlertInvolution | src-tauri/src/ui/tray.rs:98 | `toggle_alert` flips only `is_alert`, and applying it twice restores the configuration |
| Tray.SomethingStaysVisible | src-tauri/src/ui/tray.rs:88-100 | show events leave at least one metric visible and other events leave the visible count alone, so a configuration that shows something keeps showing something |
| Tray.UnknownEventUnchanged | src-tauri/src/ui/tray.rs:99 | an id without an arm leaves the configuration unchanged |
| Tray.OnMenuEvent | src-tauri/src/ui/tray.rs:75-108 | `exit` returns before the configuration is touched; any other id updates the configuration in place as the transition says, then syncs the checks of the new configuration and saves that same copied value |
| MetricsService.TimedValue | src-tauri/src/metrics/service.rs:49-55 | a value is stored iff the read finished before the timeout and succeeded, and it is the read's value |
| MetricsService.SharedMetrics.CpuTick | src-tauri/src/metrics/service.rs:17-21 | the CPU value becomes the read's value, or `None` when the read failed, whatever was stored before; the CPU timestamp becomes the tick time on success and failure alike; all other fields are unchanged |
| MetricsService.SharedMetrics.MemTick | src-tauri/src/metrics/service.rs:32-36 | the same update for the memory-pressure field and its timestamp: a failed read clears the value to `None` |
| MetricsService.SharedMetrics.NwTick | src-tauri/src/metrics/service.rs:47-59 | the same update for the network field: a value is stored only when the read finished in time and succeeded; a timeout stores `None` just as an error does |
| TrayUpdater.TitleText | src-tauri/src/updater/tray_updater.rs:22-35 | the title joins the visible segments with single spaces and is empty exactly when no metric is visible |
| TrayUpdater.ValueText | src-tauri/src/updater/tray_updater.rs:25-31 | the value part of a segment is a single non-empty word without whitespace |
| TrayUpdater.SegmentWords | src-tauri/src/updater/tray_updater.rs:25-31 | a segment is exactly two words: the metric's label, then its value text |
| TrayUpdater.CpuSegmentText | src-tauri/src/updater/tray_updater.rs:25 | the CPU segment reads `CPU <rounded>%` with a reading and `CPU --` without one |
| TrayUpdater.MemSegmentText | src-tauri/src/updater/tray_updater.rs:28 | the memory segment reads `Mem <rounded>%` or `Mem --` |
| TrayUpdater.NwSegmentText | src-tauri/src/updater/tray_updater.rs:31 | the network segment reads `NW <rounded>ms` or `NW --` |
| TrayUpdater.VisibleKinds | src-tauri/src/updater/tray_updater.rs:24-32 | the title has one segment per visible metric and no other, in the fixed order CPU, Mem, NW |
| TrayUpdater.AllVisibleSegments | src-tauri/src/updater/tray_updater.rs:23-32 | with all three metrics visible the segments are CPU, Mem and NW, in that order |
| TrayUpdater.FormatTitle | src-tauri/src/updater/tray_updater.rs:22-35 | the text built by pushing segments and joining them equals the title function |
| TrayUpdater.TitleSplitsIntoWords | src-tauri/src/updater/tray_updater.rs:33 | splitting the title at whitespace gives back each visible metric's label and value, in order: 2 words per visible metric |
| TrayUpdater.NothingVisibleEmptyTitle | src-tauri/src/updater/tray_updater.rs:23-33 | with no metric visible the title is empty |
| TrayUpdater.TitleIgnoresModeAndAlert | src-tauri/src/updater/tray_updater.rs:22-35 | the title depends only on the visibility flags and the snapshot, not on mode or alert flag |
| TrayUpdater.ExampleTitle | src-tauri/src/updater/tray_updater.rs:22-35 | CPU 42, no memory reading and network 180 with everything visible give `CPU 42% Mem -- NW 180ms` |
| CollectMacos.FreePercentText | src-tauri/src/metrics/collect_macos.rs:24-28 | no text iff no whitespace-separated word ends in `%`; otherwise the first such word without its trailing `%` characters |
| CollectMacos.PressureFromFree | src-tauri/src/metrics/collect_macos.rs:33 | pressure is 100 − free, clamped to [0, 100]: 100 for a negative free value and 0 above 100 |
| CollectMacos.ReadMemoryPressurePct | src-tauri/src/metrics/collect_macos.rs:15-33 | the error cases in order, then success: spawn failure gives `CommandSpawn`; non-zero exit gives `NonZeroExit`; invalid UTF-8 gives `Utf8`; "percent not found" iff no word ends in `%`; "percent parse failed" iff that word's number does not parse; otherwise the clamped pressure of the parsed free value |
| CollectMacos.ReadCpuUsagePct | src-tauri/src/metrics/collect_macos.rs:46-47 | the CPU reader always succeeds, with the usage clamped to [0, 100]: unchanged inside the range, 0 for a negative usage, 100 above 100 |
| CollectMacos.NetworkLatencyMsTcp | src-tauri/src/metrics/collect_macos.rs:53-58 | a failed connect, for any reason, is `Timeout("tcp connect")`; a successful connect gives the elapsed seconds × 1000 |
| CollectMacos.TrimOneTrailing | src-tauri/src/metrics/collect_macos.rs:28 | trimming `%` from `n%` gives back `n` when `n` does not end in `%` |
| CollectMacos.FirstPercentWordDecides | src-tauri/src/metrics/collect_macos.rs:23-33 | for any output, however spaced or broken into lines, whose first whitespace-separated word ending in `%` is `n%` (with `n` not ending in `%`), the result depends on `n` alone: a parse error or the pressure of its value, whatever follows |
| MacMetrics.ReadMemoryPressurePct | src-tauri/src/mac_metrics.rs:7-27 | spawn failure is an I/O error; non-zero exit gives "memory_pressure failed"; invalid UTF-8 gives a UTF-8 error; "percent not found" iff no word ends in `%`; `ParseFloat` iff that word's number does not parse; otherwise success with 100 − free clamped to [0, 100] |
| MacMetrics.AgreesWithCollectMacos | src-tauri/src/mac_metrics.rs:19-27 | the two readers succeed on the same inputs and give the same pressure |
| AppLib.InitialConfig | src-tauri/src/lib.rs:120-127 | the tray starts with CPU and memory shown, network hidden, List mode and alerts on |
| AppLib.LibEventOf | src-tauri/src/lib.rs:144-168 | the dispatch on the id: `quit`, `hide`, the four toggle ids and the two mode ids are recognised, and each one gives its own event and no other id gives that event; every other id is unhandled |
| AppLib.ApplyToggleEvent | src-tauri/src/lib.rs:161-169 | the in-lock transition: no new configuration (early return) exactly for `quit`, `hide` and unknown ids; otherwise at most one field changes, exactly one for a toggle, and the mode follows the mode events |
| AppLib.ToggleChangesOneField | src-tauri/src/lib.rs:162-165 | each toggle changes exactly one field, the one it names |
| AppLib.ToggleTwiceRestores | src-tauri/src/lib.rs:162-165 | the same toggle twice gives the configuration back |
| AppLib.ModeEventsIdempotent | src-tauri/src/lib.rs:166-167 | the mode events set the mode only and are idempotent |
| AppLib.UnhandledIdsIgnored | src-tauri/src/lib.rs:168 | `quit`, `hide` and unknown ids return before any change and before the sync |
| AppLib.AgreesWithTrayHandler | src-tauri/src/lib.rs:165-167 | for the ids both handlers share, lib.rs and tray.rs give the same configuration |
| AppLib.OnMenuEvent | src-tauri/src/lib.rs:143-172 | exit is requested iff the id is `quit`; unhandled ids change nothing and do not sync; handled ids update the configuration and sync its checks |
| AppLib.AllMetricsTitle | src-tauri/src/lib.rs:57-61 | read word by word, the title is `CPU`, the CPU value with `%`, `Mem`, the memory value with `%`, `NW`, the latency with `ms`, in that order |
| AppLib.ReadersCalled | src-tauri/src/lib.rs:33-55 | a cycle calls 1 to 3 readers and stops at the first failure: just one iff memory failed, all three iff memory and CPU succeeded |
| AppLib.CycleTitle | src-tauri/src/lib.rs:33-61 | a cycle yields a title iff all three reads succeed |
| AppLib.CycleTitleIsFullListTitle | src-tauri/src/lib.rs:57-61 | the lib.rs title equals the tray_updater.rs title with all three metrics visible and all readings present |
| AppLib.CycleMemoryWordInRange | src-tauri/src/lib.rs:33-57 | when the memory reading comes from the mac_metrics.rs reader, a cycle that sets a title shows the rounding of a pressure in [0, 100] as its memory word |
| AppLib.TitleAfter | src-tauri/src/lib.rs:30-68 | the title after a run of cycles is the initial one or the title of one of the cycles |
| AppLib.TotalReadersCalled | src-tauri/src/lib.rs:33-55 | a run of n cycles calls between n and 3n readers |
| AppLib.RunTrayUpdater | src-tauri/src/lib.rs:30-68 | the loop with its early `continue`s leaves the title `TitleAfter` gives for the cycles run, and makes `TotalReadersCalled` reader calls |
| AppLib.TitleIsFromLastFullCycle | src-tauri/src/lib.rs:30-68 | the title shown is the one from the last cycle whose three reads all succeeded |
| AppLib.TitleUnchangedWithoutFullCycle | src-tauri/src/lib.rs:33-55 | if no cycle has all three reads succeed, the initial title stays |
| BumpVersion.IsVersion | scripts/bump-version.mjs:4 | the scanner for `/^\d+\.\d+\.\d+$/`: an accepted string is at least 5 characters long and starts and ends with a digit |
| BumpVersion.ValidArg | scripts/bump-version.mjs:4 | the argument passes the guard iff it is present and matches the version pattern; the separate empty-string test adds nothing |
| BumpVersion.IsVersionIff | scripts/bump-version.mjs:4 | the argument check accepts exactly three non-empty ASCII digit runs joined by `.`, with nothing before or after |
| BumpVersion.VersionCharset | scripts/bump-version.mjs:4 | an accepted version is at least 5 characters and holds only digits and dots |
| BumpVersion.MatchAtIff | scripts/bump-version.mjs:20 | the scan matches from i to j exactly when `s[i..j]` is `version`, `\s*`, `=`, `\s*`, `"`, a non-empty quote-free body and `"`, with i at a line start; so the match end is unique |
| BumpVersion.MatchAt | scripts/bump-version.mjs:20 | the deterministic match of the pattern at position i; a match ends after i and within the text |
| BumpVersion.FirstMatchFrom | scripts/bump-version.mjs:20 | returns the leftmost match: no earlier position matches, and none matches at all when it finds nothing |
| BumpVersion.RewriteCargo | scripts/bump-version.mjs:20 | `replace` without the `g` flag: no match leaves the text unchanged; otherwise the text before the leftmost match is kept, the match becomes `version = "<v>"`, and the text after it is kept |
| BumpVersion.RewriteWithoutMatch | scripts/bump-version.mjs:20 | with no line-start match, Cargo.toml is unchanged |
| BumpVersion.RewriteFirstMatch | scripts/bump-version.mjs:20 | only the leftmost match is replaced, by exactly `version = "<v>"`; the text before and after it is kept |
| BumpVersion.RewrittenLineMatches | scripts/bump-version.mjs:20 | the written line is itself a match of the pattern at the same position |
| BumpVersion.SetMember | scripts/bump-version.mjs:15-16 | after the assignment the key maps to the new value and every other key keeps its value; an existing key keeps its place and a new one is appended |
| BumpVersion.PatchVersion | scripts/bump-version.mjs:15-16 | on an object, `version` becomes the string and no other property changes; an array is unchanged; null or a primitive throws |
| BumpVersion.BumpOutcome | scripts/bump-version.mjs:3-21 | an invalid argument exits 1 with no file changed; a throwing package.json patch exits 1 with no file changed; a throwing tauri.conf.json patch exits 1 with only package.json patched; otherwise status 0 with both documents patched and Cargo.toml rewritten by `RewriteCargo` |
| BumpVersion.BumpSetsVersionEverywhere | scripts/bump-version.mjs:15-20 | a valid version with two object documents succeeds: both have the new `version`, no other property changed, and Cargo.toml gets the leftmost rewrite |
| BumpVersion.Workspace.Bump | scripts/bump-version.mjs:3-21 | running the script on the three files gives exactly the status and file contents of `BumpOutcome` |

## Left out

- Tray and menu construction (tray.rs:12-72, 109-115; lib.rs:77-117, 140-142, 173-179), `set_title`, `set_checked`, `app.exit` and `try_state` are UI-framework calls. The model computes the check states, the title and an exit flag instead.
- `save_config_async` (tray.rs:118-127) is file I/O. `Tray.OnMenuEvent` returns the value it would be given.
- Timers, `spawn`, `RwLock`/`Mutex` and lock ordering are about concurrency. Each loop iteration is modelled on its own; the updater loop of lib.rs runs over a finite list of cycle outcomes.
- `spawn_tray_renderer` (tray_updater.rs:3-20) is left out. It only computes a title and drops it, and it uses the undefined `tick`. Rotation mode, its interval and the rotation cursor have no code in the source.
- Spawning `memory_pressure`, `sysinfo` sampling, the 120 ms sleep, `TcpStream::connect_timeout` and `Instant` are foreign I/O. Their results are parameters. The parse of the constant address "1.1.1.1:443" (collect_macos.rs:51) always succeeds, so its error branch is not modelled.
- `mac_metrics::read_cpu_usage_pct` and `mac_metrics::network_latency_ms` are called by lib.rs (lib.rs:41, 49) and by service.rs (service.rs:18, 51) but are not defined in mac_metrics.rs. Their results enter `AppLib.CycleReads` and the `MetricsService` tick methods as parameters.
- The `println!` and `eprintln!` logging (lib.rs:36, 44, 52, 146, 150, 154) is console output and is left out.
- IEEE `f32`/`f64` arithmetic, NaN, and the number parser are not modelled. Numbers are reals and parsing is a parameter.
- The `{:.0}` rounding mode is a parameter. TrayUpdater.ValueText: a value that rounds to negative zero prints as `-0` in Rust; the model prints `0`.
- The `Utf8` and `Io` payloads of `ReadError`, and the boxed `dyn Error` values of mac_metrics.rs, are modelled as plain variants without their library error values.
- In bump-version.mjs, reading and writing files, `JSON.parse`, `JSON.stringify` and the console output are left out. The documents are parsed values and Cargo.toml is its text.
- BumpVersion: a JSON document that does not parse is not modelled. In the script this throws before the write.
- BumpVersion.SetMember: JavaScript's rule that integer-like keys are listed first is not modelled; `version` is not such a key.
- BumpVersion.RewriteFirstMatch: the replacement is taken literally. JavaScript would expand `$` patterns, but an accepted version holds only digits and dots.
- The policies' `level` methods (types.rs:71-75, 90-94, 109-113) delegate to `level_by_threshold`. Their behaviour is stated through `CpuDefaultBands`, `MemoryDefaultBands` and `NetworkDefaultBands`.
