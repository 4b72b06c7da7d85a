/** `read_memory_pressure_pct` of `src-tauri/src/mac_metrics.rs`, the older
    reader the toggle-style tray of lib.rs uses. It parses the output of
    `memory_pressure -Q` like collect_macos.rs does, but reports errors as
    boxed `dyn Error` values and returns a bare `f64`. */
module MacMetrics {
  import opened Wrappers
  import MetricTypes
  import CollectMacos

  /** The boxed errors the function can produce: the spawn's `io::Error`, a
      message string, a UTF-8 error, or the float parser's error. */
  datatype MacError = Io | Message(text: string) | Utf8 | ParseFloat

  /** After the command has run (mac_metrics.rs:12-27). `parseF64` stands for
      `str::parse::<f64>`: `None` when the text is not a number. */
  function ReadMemoryPressurePct(out: CollectMacos.CommandOutput, parseF64: string -> Option<real>): (r: Result<real, MacError>)
    ensures out.SpawnFailed? ==> r == Err(Io)
    ensures out.Output? && !out.success ==> r == Err(Message("memory_pressure failed"))
    ensures out.Output? && out.success && out.stdout.None? ==> r == Err(Utf8)
    ensures out.Output? && out.success && out.stdout.Some? ==>
      (r == Err(Message("percent not found")) <==> CollectMacos.FreePercentText(out.stdout.value).None?)
    ensures r == Err(ParseFloat) <==>
      out.Output? && out.success && out.stdout.Some? && CollectMacos.FreePercentText(out.stdout.value).Some? &&
      parseF64(CollectMacos.FreePercentText(out.stdout.value).value).None?
    ensures (out.Output? && out.success && out.stdout.Some? && CollectMacos.FreePercentText(out.stdout.value).Some? &&
             parseF64(CollectMacos.FreePercentText(out.stdout.value).value).Some?) ==>
      r == Ok(MetricTypes.Clamp(100.0 - parseF64(CollectMacos.FreePercentText(out.stdout.value).value).value, 0.0, 100.0))
    ensures r.Ok? ==> 0.0 <= r.value <= 100.0
    ensures r.Ok? ==>
      out.Output? && out.success && out.stdout.Some? && CollectMacos.FreePercentText(out.stdout.value).Some? &&
      parseF64(CollectMacos.FreePercentText(out.stdout.value).value).Some? &&
      r.value == MetricTypes.Clamp(100.0 - parseF64(CollectMacos.FreePercentText(out.stdout.value).value).value, 0.0, 100.0)
  {
    match out
    case SpawnFailed => Err(Io)
    case Output(success, stdout) =>
      if !success then Err(Message("memory_pressure failed"))
      else
        match stdout
        case None => Err(Utf8)
        case Some(text) =>
          match CollectMacos.FreePercentText(text)
          case None => Err(Message("percent not found"))
          case Some(number) =>
            match parseF64(number)
            case None => Err(ParseFloat)
            case Some(free) => Ok(MetricTypes.Clamp(100.0 - free, 0.0, 100.0))
  }

  /** The two readers agree: given the same command output and the same number
      parser, both succeed or both fail, with the same pressure. */
  lemma {:induction false} AgreesWithCollectMacos(out: CollectMacos.CommandOutput, parse: string -> Option<real>)
    ensures ReadMemoryPressurePct(out, parse).Ok? <==> CollectMacos.ReadMemoryPressurePct(out, parse).Ok?
    ensures ReadMemoryPressurePct(out, parse).Ok? ==>
      ReadMemoryPressurePct(out, parse).value == CollectMacos.ReadMemoryPressurePct(out, parse).value.value
  {
  }
}
