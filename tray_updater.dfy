/** `format_title` of `src-tauri/src/updater/tray_updater.rs`: the list-mode
    title built from the visibility flags and a metrics snapshot. The `{:.0}`
    float formatting is modelled as a caller-supplied rounding to an integer,
    followed by its decimal rendering. */
module TrayUpdater {
  import opened Wrappers
  import opened UiTypes
  import opened StrOps
  import opened MetricsService

  datatype MetricKind = Cpu | Mem | Nw

  /** The fixed order of the title: CPU, then memory, then network. */
  function Order(k: MetricKind): nat {
    match k
    case Cpu => 0
    case Mem => 1
    case Nw => 2
  }

  function Label(k: MetricKind): string {
    match k
    case Cpu => "CPU"
    case Mem => "Mem"
    case Nw => "NW"
  }

  function Unit(k: MetricKind): string {
    match k
    case Cpu => "%"
    case Mem => "%"
    case Nw => "ms"
  }

  predicate IsVisible(cfg: TrayConfig, k: MetricKind) {
    match k
    case Cpu => cfg.showCpu
    case Mem => cfg.showMem
    case Nw => cfg.showNw
  }

  function Reading(s: MetricsSnapshot, k: MetricKind): Option<real> {
    match k
    case Cpu => s.cpuPct
    case Mem => s.memPressurePct
    case Nw => s.nwMs
  }

  /** The text after the label: the rounded reading and its unit, or `--`. */
  function ValueText(k: MetricKind, v: Option<real>, round: real -> int): (t: string)
    ensures IsToken(t)
  {
    match v
    case Some(x) => IntToString(round(x)) + Unit(k)
    case None => "--"
  }

  /** One entry of `parts`, e.g. "CPU 42%" or "Mem --". */
  function Segment(k: MetricKind, v: Option<real>, round: real -> int): string {
    Label(k) + " " + ValueText(k, v, round)
  }

  /** A segment reads as exactly two words: the label, then the value text. */
  lemma SegmentWords(k: MetricKind, v: Option<real>, round: real -> int)
    ensures SplitWhitespace(Segment(k, v, round)) == [Label(k), ValueText(k, v, round)]
  {
    var value := ValueText(k, v, round);
    assert [Label(k), value][1..] == [value];
    assert Join([Label(k), value], " ") == Label(k) + " " + value;
    SplitWhitespaceOfJoin([Label(k), value]);
  }

  /** A visible metric renders as label, space, rounded value and unit, or as
     label and `--` when there is no reading. */
  lemma CpuSegmentText(v: Option<real>, round: real -> int)
    ensures Segment(Cpu, v, round) == if v.Some? then "CPU " + IntToString(round(v.value)) + "%" else "CPU --"
  {
    if v.Some? {
      var n := IntToString(round(v.value));
      assert Segment(Cpu, v, round) == "CPU" + " " + (n + "%");
      assert "CPU" + " " + (n + "%") == "CPU " + n + "%";
    }
  }

  lemma MemSegmentText(v: Option<real>, round: real -> int)
    ensures Segment(Mem, v, round) == if v.Some? then "Mem " + IntToString(round(v.value)) + "%" else "Mem --"
  {
    if v.Some? {
      var n := IntToString(round(v.value));
      assert Segment(Mem, v, round) == "Mem" + " " + (n + "%");
      assert "Mem" + " " + (n + "%") == "Mem " + n + "%";
    }
  }

  lemma NwSegmentText(v: Option<real>, round: real -> int)
    ensures Segment(Nw, v, round) == if v.Some? then "NW " + IntToString(round(v.value)) + "ms" else "NW --"
  {
    if v.Some? {
      var n := IntToString(round(v.value));
      assert Segment(Nw, v, round) == "NW" + " " + (n + "ms");
      assert "NW" + " " + (n + "ms") == "NW " + n + "ms";
    }
  }

  /** The metrics the configuration shows, in title order. */
  function VisibleKinds(cfg: TrayConfig): (ks: seq<MetricKind>)
    ensures |ks| == VisibleCount(cfg)
    ensures forall i, j :: 0 <= i < j < |ks| ==> Order(ks[i]) < Order(ks[j])
    ensures forall k :: k in ks <==> IsVisible(cfg, k)
  {
    (if cfg.showCpu then [Cpu] else []) + (if cfg.showMem then [Mem] else []) + (if cfg.showNw then [Nw] else [])
  }

  function SegmentsOf(ks: seq<MetricKind>, s: MetricsSnapshot, round: real -> int): (parts: seq<string>)
    ensures |parts| == |ks|
  {
    seq(|ks|, i requires 0 <= i < |ks| => Segment(ks[i], Reading(s, ks[i]), round))
  }

  lemma SegmentsOfSnoc(ks: seq<MetricKind>, k: MetricKind, s: MetricsSnapshot, round: real -> int)
    ensures SegmentsOf(ks + [k], s, round) == SegmentsOf(ks, s, round) + [Segment(k, Reading(s, k), round)]
  {
  }

  /** The segments the title is joined from: one per visible metric, in order. */
  function Segments(cfg: TrayConfig, s: MetricsSnapshot, round: real -> int): (parts: seq<string>)
    ensures |parts| == VisibleCount(cfg)
  {
    SegmentsOf(VisibleKinds(cfg), s, round)
  }

  /** With all three metrics visible there are three segments, CPU first. */
  lemma AllVisibleSegments(cfg: TrayConfig, s: MetricsSnapshot, round: real -> int)
    requires cfg.showCpu && cfg.showMem && cfg.showNw
    ensures Segments(cfg, s, round)
         == [Segment(Cpu, s.cpuPct, round), Segment(Mem, s.memPressurePct, round), Segment(Nw, s.nwMs, round)]
  {
    assert VisibleKinds(cfg) == [Cpu, Mem, Nw];
  }

  /** The joined title (tray_updater.rs:34): empty exactly when no metric is
      visible. */
  function TitleText(cfg: TrayConfig, s: MetricsSnapshot, round: real -> int): (title: string)
    ensures title == "" <==> VisibleCount(cfg) == 0
  {
    var parts := Segments(cfg, s, round);
    assert VisibleCount(cfg) > 0 ==> parts[0] == Segment(VisibleKinds(cfg)[0], Reading(s, VisibleKinds(cfg)[0]), round);
    Join(parts, " ")
  }

  /** `format_title` (tray_updater.rs:22-35). As written, the function ends
      without returning `text`; the model returns the joined string, which is
      what its signature promises. */
  method FormatTitle(cfg: TrayConfig, s: MetricsSnapshot, round: real -> int) returns (text: string)
    ensures text == TitleText(cfg, s, round)
  {
    var parts: seq<string> := [];
    ghost var shown: seq<MetricKind> := [];
    if cfg.showCpu {
      var part;
      match s.cpuPct {
        case Some(v) =>
          part := "CPU " + IntToString(round(v)) + "%";
        case None =>
          part := "CPU --";
      }
      CpuSegmentText(s.cpuPct, round);
      SegmentsOfSnoc(shown, Cpu, s, round);
      parts, shown := parts + [part], shown + [Cpu];
    }
    if cfg.showMem {
      var part;
      match s.memPressurePct {
        case Some(v) =>
          part := "Mem " + IntToString(round(v)) + "%";
        case None =>
          part := "Mem --";
      }
      MemSegmentText(s.memPressurePct, round);
      SegmentsOfSnoc(shown, Mem, s, round);
      parts, shown := parts + [part], shown + [Mem];
    }
    if cfg.showNw {
      var part;
      match s.nwMs {
        case Some(v) =>
          part := "NW " + IntToString(round(v)) + "ms";
        case None =>
          part := "NW --";
      }
      NwSegmentText(s.nwMs, round);
      SegmentsOfSnoc(shown, Nw, s, round);
      parts, shown := parts + [part], shown + [Nw];
    }
    assert shown == VisibleKinds(cfg);
    text := Join(parts, " ");
  }

  /** The words of a title: label, then value text, for each visible metric in order. */
  function TitleWords(ks: seq<MetricKind>, s: MetricsSnapshot, round: real -> int): (ws: seq<string>)
    ensures |ws| == 2 * |ks|
    ensures forall w :: w in ws ==> IsToken(w)
    decreases |ks|
  {
    if ks == [] then []
    else [Label(ks[0]), ValueText(ks[0], Reading(s, ks[0]), round)] + TitleWords(ks[1..], s, round)
  }

  /** Joining a label, its value text and further words. */
  lemma JoinLabelValue(name: string, value: string, rest: seq<string>)
    ensures Join([name, value] + rest, " ") == if rest == [] then name + " " + value else (name + " " + value) + " " + Join(rest, " ")
  {
    var ws := [name, value] + rest;
    assert ws[1..] == [value] + rest;
    if rest == [] {
      assert ws[1..] == [value];
    } else {
      assert ws[1..][1..] == rest;
    }
  }

  lemma {:induction false} JoinOfSegments(ks: seq<MetricKind>, s: MetricsSnapshot, round: real -> int)
    ensures Join(SegmentsOf(ks, s, round), " ") == Join(TitleWords(ks, s, round), " ")
    decreases |ks|
  {
    var segs := SegmentsOf(ks, s, round);
    if ks != [] {
      var rest := TitleWords(ks[1..], s, round);
      var name, value := Label(ks[0]), ValueText(ks[0], Reading(s, ks[0]), round);
      JoinLabelValue(name, value, rest);
      assert TitleWords(ks, s, round) == [name, value] + rest;
      if |ks| > 1 {
        assert segs[1..] == SegmentsOf(ks[1..], s, round);
        JoinOfSegments(ks[1..], s, round);
      }
    }
  }

  /** Splitting the title at whitespace gives back, for each visible metric in
      title order, its label followed by its value text: the segments are
      joined by single spaces and nothing else is added. */
  lemma {:induction false} TitleSplitsIntoWords(cfg: TrayConfig, s: MetricsSnapshot, round: real -> int)
    ensures SplitWhitespace(TitleText(cfg, s, round)) == TitleWords(VisibleKinds(cfg), s, round)
    ensures |SplitWhitespace(TitleText(cfg, s, round))| == 2 * VisibleCount(cfg)
  {
    JoinOfSegments(VisibleKinds(cfg), s, round);
    SplitWhitespaceOfJoin(TitleWords(VisibleKinds(cfg), s, round));
  }

  /** With no metric visible the title is empty. */
  lemma NothingVisibleEmptyTitle(cfg: TrayConfig, s: MetricsSnapshot, round: real -> int)
    requires !cfg.showCpu && !cfg.showMem && !cfg.showNw
    ensures TitleText(cfg, s, round) == ""
  {
  }

  /** The title depends on the three visibility flags and the snapshot only,
      not on the mode or the alert flag. */
  lemma TitleIgnoresModeAndAlert(a: TrayConfig, b: TrayConfig, s: MetricsSnapshot, round: real -> int)
    requires a.showCpu == b.showCpu && a.showMem == b.showMem && a.showNw == b.showNw
    ensures TitleText(a, s, round) == TitleText(b, s, round)
  {
    assert VisibleKinds(a) == VisibleKinds(b);
  }

  /** The segments of the worked example below. */
  lemma {:induction false} ExampleSegments(round: real -> int, at: nat)
    requires round(42.0) == 42 && round(180.0) == 180
    ensures Segments(TrayConfig(true, true, true, List, false),
                     MetricsSnapshot(Some(42.0), Some(at), None, None, Some(180.0), Some(at)), round)
         == ["CPU 42%", "Mem --", "NW 180ms"]
  {
    var cfg := TrayConfig(true, true, true, List, false);
    var s := MetricsSnapshot(Some(42.0), Some(at), None, None, Some(180.0), Some(at));
    AllVisibleSegments(cfg, s, round);
    CpuSegmentText(s.cpuPct, round);
    MemSegmentText(s.memPressurePct, round);
    NwSegmentText(s.nwMs, round);
    assert IntToString(42) == "42" by {
      assert NatToString(4) == "4";
    }
    assert IntToString(180) == "180" by {
      assert NatToString(1) == "1" && NatToString(8) == "8";
      assert NatToString(18) == "18";
    }
    assert Segment(Cpu, s.cpuPct, round) == "CPU 42%" by {
      assert "CPU " + "42" + "%" == "CPU 42%";
    }
    assert Segment(Nw, s.nwMs, round) == "NW 180ms" by {
      assert "NW " + "180" + "ms" == "NW 180ms";
    }
  }

  /** A worked example: CPU 42, no memory reading, network 180 ms, all visible. */
  lemma {:induction false} ExampleTitle(round: real -> int, at: nat)
    requires round(42.0) == 42 && round(180.0) == 180
    ensures TitleText(TrayConfig(true, true, true, List, false),
                      MetricsSnapshot(Some(42.0), Some(at), None, None, Some(180.0), Some(at)), round)
         == "CPU 42% Mem -- NW 180ms"
  {
    ExampleSegments(round, at);
    JoinThree("CPU 42%", "Mem --", "NW 180ms");
  }
}
