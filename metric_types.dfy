/** Readings, alert levels and the threshold classification of
    `src-tauri/src/metrics/types.rs`. Values are modelled as `real`; the
    source's `f32` rounding and NaN are not part of this model. */
module MetricTypes {

  /** `Percent(pub f32)`. */
  datatype Percent = Percent(value: real)

  /** `Millisecond(pub f32)`. */
  datatype Millisecond = Millisecond(value: real)

  /** Declared in the order Safe, Normal, Warning, Critical; `Rank` gives that order. */
  datatype AlertLevel = Safe | Normal | Warning | Critical

  function Rank(l: AlertLevel): nat {
    match l
    case Safe => 0
    case Normal => 1
    case Warning => 2
    case Critical => 3
  }

  /** `Metric<V>`: a value paired with its level. */
  datatype Metric<V> = Metric(value: V, level: AlertLevel)

  /** `Metric::classify`: the value is kept as it is and the policy decides the level.
      A policy is passed as its `level` function. */
  function Classify<V>(value: V, level: V -> AlertLevel): (m: Metric<V>)
    ensures m.value == value
    ensures m.level == level(value)
  {
    Metric(value, level(value))
  }

  /** The three lower limits of `Threshold2`. Nothing ties them to each other. */
  datatype Threshold2 = Threshold2(normalLowerLimit: real, warningLowerLimit: real, criticalLowerLimit: real)

  /** `Threshold2::new`: stores the limits in argument order and checks nothing. */
  function NewThreshold2(normal: real, warning: real, critical: real): (t: Threshold2)
    ensures t.normalLowerLimit == normal
    ensures t.warningLowerLimit == warning
    ensures t.criticalLowerLimit == critical
  {
    Threshold2(normal, warning, critical)
  }

  /** `level_by_threshold`: the first limit, in the order normal, warning,
      critical, that the value lies below decides the level; at or above all
      three the value is critical. The limits need not be ordered. */
  function LevelByThreshold(value: real, t: Threshold2): (l: AlertLevel)
    ensures l == Safe <==> value < t.normalLowerLimit
    ensures l == Normal <==> t.normalLowerLimit <= value < t.warningLowerLimit
    ensures l == Warning <==>
      t.normalLowerLimit <= value && t.warningLowerLimit <= value < t.criticalLowerLimit
    ensures l == Critical <==>
      t.normalLowerLimit <= value && t.warningLowerLimit <= value && t.criticalLowerLimit <= value
  {
    if value < t.normalLowerLimit then Safe
    else if value < t.warningLowerLimit then Normal
    else if value < t.criticalLowerLimit then Warning
    else Critical
  }

  /** With ascending limits each level is a half-open band of values. */
  lemma LevelBands(value: real, t: Threshold2)
    requires t.normalLowerLimit <= t.warningLowerLimit <= t.criticalLowerLimit
    ensures LevelByThreshold(value, t) == Safe <==> value < t.normalLowerLimit
    ensures LevelByThreshold(value, t) == Normal <==> t.normalLowerLimit <= value < t.warningLowerLimit
    ensures LevelByThreshold(value, t) == Warning <==> t.warningLowerLimit <= value < t.criticalLowerLimit
    ensures LevelByThreshold(value, t) == Critical <==> t.criticalLowerLimit <= value
  {
  }

  /** A larger value never gets a lower level, whatever the limits are. */
  lemma {:induction false} LevelMonotone(v1: real, v2: real, t: Threshold2)
    requires v1 <= v2
    ensures Rank(LevelByThreshold(v1, t)) <= Rank(LevelByThreshold(v2, t))
  {
    var l1, l2 := LevelByThreshold(v1, t), LevelByThreshold(v2, t);
    if l1 == Critical {
      assert l2 == Critical;
    } else if l1 == Warning {
      assert l2 == Warning || l2 == Critical;
    } else if l1 == Normal {
      assert l2 != Safe;
    }
  }

  /** `Percent::clamp_0_100` (called in collect_macos.rs; it is not defined in
      types.rs) and `f64::clamp(lo, hi)`, which panics unless `lo <= hi`. */
  function Clamp(x: real, lo: real, hi: real): (r: real)
    requires lo <= hi
    ensures lo <= r <= hi
    ensures lo <= x <= hi ==> r == x
    ensures x < lo ==> r == lo
    ensures hi < x ==> r == hi
  {
    if x < lo then lo else if hi < x then hi else x
  }

  function Clamp0To100(p: Percent): (r: Percent)
    ensures 0.0 <= r.value <= 100.0
    ensures 0.0 <= p.value <= 100.0 ==> r == p
    ensures p.value < 0.0 ==> r.value == 0.0
    ensures 100.0 < p.value ==> r.value == 100.0
  {
    Percent(Clamp(p.value, 0.0, 100.0))
  }

  datatype CpuPolicy = CpuPolicy(thresholds: Threshold2) {
    /** `CpuPolicy::default`. */
    static function Default(): (p: CpuPolicy)
      ensures p.thresholds == Threshold2(50.0, 75.0, 90.0)
    {
      CpuPolicy(NewThreshold2(50.0, 75.0, 90.0))
    }

    /** `Policy<Percent>::level`: delegates to `level_by_threshold`. */
    function Level(value: Percent): AlertLevel {
      LevelByThreshold(value.value, thresholds)
    }
  }

  datatype MemoryPolicy = MemoryPolicy(thresholds: Threshold2) {
    /** `MemoryPolicy::default`. */
    static function Default(): (p: MemoryPolicy)
      ensures p.thresholds == Threshold2(60.0, 75.0, 90.0)
    {
      MemoryPolicy(NewThreshold2(60.0, 75.0, 90.0))
    }

    function Level(value: Percent): AlertLevel {
      LevelByThreshold(value.value, thresholds)
    }
  }

  datatype NetworkPolicy = NetworkPolicy(thresholds: Threshold2) {
    /** `NetworkPolicy::default`. */
    static function Default(): (p: NetworkPolicy)
      ensures p.thresholds == Threshold2(50.0, 200.0, 450.0)
    {
      NetworkPolicy(NewThreshold2(50.0, 200.0, 450.0))
    }

    function Level(value: Millisecond): AlertLevel {
      LevelByThreshold(value.value, thresholds)
    }
  }

  /** What the default CPU policy reports, band by band. */
  lemma {:induction false} CpuDefaultBands(v: real)
    ensures CpuPolicy.Default().Level(Percent(v)) == Safe <==> v < 50.0
    ensures CpuPolicy.Default().Level(Percent(v)) == Normal <==> 50.0 <= v < 75.0
    ensures CpuPolicy.Default().Level(Percent(v)) == Warning <==> 75.0 <= v < 90.0
    ensures CpuPolicy.Default().Level(Percent(v)) == Critical <==> 90.0 <= v
  {
    LevelBands(v, CpuPolicy.Default().thresholds);
  }

  /** What the default memory policy reports, band by band. */
  lemma {:induction false} MemoryDefaultBands(v: real)
    ensures MemoryPolicy.Default().Level(Percent(v)) == Safe <==> v < 60.0
    ensures MemoryPolicy.Default().Level(Percent(v)) == Normal <==> 60.0 <= v < 75.0
    ensures MemoryPolicy.Default().Level(Percent(v)) == Warning <==> 75.0 <= v < 90.0
    ensures MemoryPolicy.Default().Level(Percent(v)) == Critical <==> 90.0 <= v
  {
    LevelBands(v, MemoryPolicy.Default().thresholds);
  }

  /** What the default network policy reports, band by band. */
  lemma {:induction false} NetworkDefaultBands(v: real)
    ensures NetworkPolicy.Default().Level(Millisecond(v)) == Safe <==> v < 50.0
    ensures NetworkPolicy.Default().Level(Millisecond(v)) == Normal <==> 50.0 <= v < 200.0
    ensures NetworkPolicy.Default().Level(Millisecond(v)) == Warning <==> 200.0 <= v < 450.0
    ensures NetworkPolicy.Default().Level(Millisecond(v)) == Critical <==> 450.0 <= v
  {
    LevelBands(v, NetworkPolicy.Default().thresholds);
  }

  /** Classifying through a policy keeps the reading and is monotone in it. */
  lemma {:induction false} ClassifyCpuMonotone(v1: real, v2: real, p: CpuPolicy)
    requires v1 <= v2
    ensures Classify(Percent(v1), p.Level).value == Percent(v1)
    ensures Rank(Classify(Percent(v1), p.Level).level) <= Rank(Classify(Percent(v2), p.Level).level)
  {
    LevelMonotone(v1, v2, p.thresholds);
  }

  /** `ReadError`. `Timeout` is used by collect_macos.rs:55 but is missing from
      the enum at types.rs:116-122; the model adds it. The `Utf8` and `Io` payloads are
      library error values and are not modelled. */
  datatype ReadError =
    | CommandSpawn(what: string)
    | NonZeroExit(what: string)
    | Utf8
    | Parse(what: string)
    | Io
    | Timeout(what: string)
}
