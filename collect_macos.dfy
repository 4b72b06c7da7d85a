/** The reader results of `src-tauri/src/metrics/collect_macos.rs`: parsing
    the output of `memory_pressure -Q`, clamping the CPU usage, and mapping a
    failed TCP connect. Spawning the process, sampling the CPU and opening the
    connection are I/O; their outcomes are parameters here. */
module CollectMacos {
  import opened Wrappers
  import opened StrOps
  import opened MetricTypes

  /** What `Command::output()` and `String::from_utf8` give: the process could
      not be spawned, or it ran with some exit status; `stdout` is `None` when
      the bytes are not valid UTF-8. */
  datatype CommandOutput = SpawnFailed | Output(success: bool, stdout: Option<string>)

  /** The text of the free percentage in the output: the first
      whitespace-separated token that ends in '%', without any of its trailing
      '%' characters. */
  function FreePercentText(stdout: string): (r: Option<string>)
    ensures r.None? <==>
      forall i :: 0 <= i < |SplitWhitespace(stdout)| ==> !EndsWith(SplitWhitespace(stdout)[i], '%')
    ensures r.Some? ==> exists i ::
      FirstEndingWith(SplitWhitespace(stdout), '%', i) && r.value == TrimEndMatches(SplitWhitespace(stdout)[i], '%')
  {
    match FindEndingWith(SplitWhitespace(stdout), '%')
    case None => None
    case Some(token) => Some(TrimEndMatches(token, '%'))
  }

  /** Memory pressure from the free percentage: `100 - free`, clamped to [0, 100]. */
  function PressureFromFree(free: real): (p: Percent)
    ensures 0.0 <= p.value <= 100.0
    ensures 0.0 <= free <= 100.0 ==> p.value == 100.0 - free
    ensures free < 0.0 ==> p.value == 100.0
    ensures 100.0 < free ==> p.value == 0.0
  {
    Clamp0To100(Percent(100.0 - free))
  }

  /** `read_memory_pressure_pct` after the command has run (collect_macos.rs:17-33).
      `parseF32` stands for `str::parse::<f32>`: `None` when the text is not a number. */
  function ReadMemoryPressurePct(out: CommandOutput, parseF32: string -> Option<real>): (r: Result<Percent, ReadError>)
    ensures out.SpawnFailed? ==> r == Err(CommandSpawn("memory_pressure"))
    ensures out.Output? && !out.success ==> r == Err(NonZeroExit("memory_pressure"))
    ensures out.Output? && out.success && out.stdout.None? ==> r == Err(Utf8)
    ensures out.Output? && out.success && out.stdout.Some? ==>
      (r == Err(Parse("percent not found")) <==> FreePercentText(out.stdout.value).None?)
    ensures r == Err(Parse("percent parse failed")) <==>
      out.Output? && out.success && out.stdout.Some? && FreePercentText(out.stdout.value).Some? &&
      parseF32(FreePercentText(out.stdout.value).value).None?
    ensures r.Ok? ==> 0.0 <= r.value.value <= 100.0
    ensures r.Ok? ==>
      out.Output? && out.success && out.stdout.Some? && FreePercentText(out.stdout.value).Some? &&
      parseF32(FreePercentText(out.stdout.value).value).Some? &&
      r.value == PressureFromFree(parseF32(FreePercentText(out.stdout.value).value).value)
    ensures (out.Output? && out.success && out.stdout.Some? && FreePercentText(out.stdout.value).Some? &&
             parseF32(FreePercentText(out.stdout.value).value).Some?) ==>
      r == Ok(PressureFromFree(parseF32(FreePercentText(out.stdout.value).value).value))
  {
    match out
    case SpawnFailed => Err(CommandSpawn("memory_pressure"))
    case Output(success, stdout) =>
      if !success then Err(NonZeroExit("memory_pressure"))
      else
        match stdout
        case None => Err(Utf8)
        case Some(text) =>
          match FreePercentText(text)
          case None => Err(Parse("percent not found"))
          case Some(number) =>
            match parseF32(number)
            case None => Err(Parse("percent parse failed"))
            case Some(free) => Ok(PressureFromFree(free))
  }

  /** `read_cpu_usage_pct` after sampling (collect_macos.rs:46-47): the global
      usage clamped to [0, 100]; this reader never fails. */
  function ReadCpuUsagePct(usage: real): (r: Result<Percent, ReadError>)
    ensures r.Ok?
    ensures 0.0 <= r.value.value <= 100.0
    ensures 0.0 <= usage <= 100.0 ==> r.value.value == usage
    ensures usage < 0.0 ==> r.value.value == 0.0
    ensures 100.0 < usage ==> r.value.value == 100.0
  {
    Ok(Clamp0To100(Percent(usage)))
  }

  /** `network_latency_ms_tcp` after the connect attempt (collect_macos.rs:53-58):
      a failed connect, whatever the reason, is reported as a timeout; a
      successful one is timed in milliseconds. The address is a constant
      literal that always parses, so the "invalid addr" branch is not reachable. */
  function NetworkLatencyMsTcp(connected: bool, elapsedSecs: real): (r: Result<Millisecond, ReadError>)
    ensures !connected <==> r == Err(Timeout("tcp connect"))
    ensures connected ==> r == Ok(Millisecond(elapsedSecs * 1000.0))
  {
    if !connected then Err(Timeout("tcp connect")) else Ok(Millisecond(elapsedSecs * 1000.0))
  }

  /** Trimming a single trailing `c` off a string that does not end in `c`. */
  lemma TrimOneTrailing(s: string, c: char)
    requires !EndsWith(s, c)
    ensures TrimEndMatches(s + [c], c) == s
  {
    var r := TrimEndMatches(s + [c], c);
    assert r == (s + [c])[..|r|];
  }

  /** For any output whose whitespace-separated words are `before`, then
      `number` followed by '%', then `after`, where no word of `before` ends in
      '%': the reading is decided by `number` alone, whatever `after` holds and
      however the words are spaced or broken into lines. */
  lemma {:induction false} FirstPercentWordDecides(
    stdout: string, before: seq<string>, number: string, after: seq<string>, parseF32: string -> Option<real>)
    requires SplitWhitespace(stdout) == before + [number + "%"] + after
    requires forall t :: t in before ==> !EndsWith(t, '%')
    requires !EndsWith(number, '%')
    ensures ReadMemoryPressurePct(Output(true, Some(stdout)), parseF32)
         == match parseF32(number)
            case None => Err(Parse("percent parse failed"))
            case Some(free) => Ok(PressureFromFree(free))
  {
    var word := number + "%";
    var words := SplitWhitespace(stdout);
    var k := |before|;
    assert words[k] == word;
    assert EndsWith(word, '%');
    forall j | 0 <= j < k ensures !EndsWith(words[j], '%') {
      assert words[j] == before[j];
      assert before[j] in before;
    }
    assert FirstEndingWith(words, '%', k);
    var found := FindEndingWith(words, '%');
    var i :| FirstEndingWith(words, '%', i) && words[i] == found.value;
    assert i == k;
    TrimOneTrailing(number, '%');
    assert FreePercentText(stdout) == Some(number);
  }
}
