/**
 * The compatibility probe: which bundled app_process test binary an SDK level
 * needs, and how the output of running it is read.
 */
module Compatibility {
  import opened Text

  const SDK_KITKAT := 19
  const PROBE_PREFIX := "Xposed version: "
  const EXTRACT_FAILED_ERROR := "could not write app_process to cache"

  /**
   * The asset name, below the binaries folder, of the test binary for `sdk`;
   * None where the probe is skipped and the build is assumed compatible.
   */
  function ProbeBinary(sdk: int): (name: Option<string>)
    ensures sdk == 15 ==> name == Some("app_process_xposed_sdk15")
    ensures 16 <= sdk <= 18 ==> name == Some("app_process_xposed_sdk16")
    ensures sdk == 19 ==> name == Some("app_process_xposed_sdk19")
    ensures name.Some? <==> 15 <= sdk <= SDK_KITKAT
  {
    if sdk == 15 then Some("app_process_xposed_sdk15")
    else if 16 <= sdk <= 18 then Some("app_process_xposed_sdk16")
    else if sdk == SDK_KITKAT then Some("app_process_xposed_sdk19")
    else None
  }

  /**
   * What happens when the test binary is materialised and run. Process
   * spawning and stream reading are outside the model; these are their
   * possible outcomes.
   */
  datatype ProbeRun =
      /** AssetUtil.writeAssetToCacheFile returned null. */
    | ExtractFailed
      /** Runtime.exec, or reading stdout, threw an IOException with this message. */
    | SpawnFailed(message: string)
      /**
       * The binary ran: its first stdout line (None at end of stream), the
       * stderr lines read, and the message of an IOException that ended the
       * stderr read early, if one did.
       */
    | Ran(firstLine: Option<string>, stderr: seq<string>, readError: Option<string>)

  /** The stdout line that reports a working bridge. */
  predicate ReportsVersion(firstLine: Option<string>) {
    firstLine.Some? && StartsWith(firstLine.value, PROBE_PREFIX)
  }

  /** The errors the probe collects, in the order it adds them. */
  function ProbeErrors(binary: Option<string>, run: ProbeRun): seq<string> {
    if binary.None? then []
    else match run
      case ExtractFailed => [EXTRACT_FAILED_ERROR]
      case SpawnFailed(message) => [message]
      case Ran(_, stderr, readError) =>
        stderr + (if readError.Some? then [readError.value] else [])
  }

  /** Whether the probe passes. */
  predicate ProbePasses(binary: Option<string>, run: ProbeRun) {
    binary.Some? && run.Ran? && run.readError.None? && ReportsVersion(run.firstLine)
  }

  /** The probe's verdict and the errors it leaves, as one statement. */
  lemma ProbeOutcome(binary: Option<string>, run: ProbeRun)
    ensures binary.None? ==> !ProbePasses(binary, run) && ProbeErrors(binary, run) == []
    ensures binary.Some? && run.ExtractFailed? ==>
      !ProbePasses(binary, run) && ProbeErrors(binary, run) == [EXTRACT_FAILED_ERROR]
    ensures binary.Some? && run.SpawnFailed? ==>
      !ProbePasses(binary, run) && ProbeErrors(binary, run) == [run.message]
    ensures binary.Some? && run.Ran? ==>
      ProbeErrors(binary, run)[..|run.stderr|] == run.stderr
    ensures binary.Some? && run.Ran? && run.readError.Some? ==>
      !ProbePasses(binary, run) && ProbeErrors(binary, run) == run.stderr + [run.readError.value]
    ensures binary.Some? && run.Ran? && run.readError.None? ==>
      (ProbePasses(binary, run) <==> ReportsVersion(run.firstLine)) && ProbeErrors(binary, run) == run.stderr
  {
  }

  /** An empty first line, or any line not starting with the prefix, fails the probe. */
  lemma NoVersionLineFails(binary: Option<string>, first: Option<string>, stderr: seq<string>)
    requires first.None? || !StartsWith(first.value, PROBE_PREFIX)
    ensures !ProbePasses(binary, Ran(first, stderr, None))
  {
  }

  /** "Xposed version: 89" on an empty stderr passes with no errors. */
  lemma VersionLinePasses(binary: string)
    ensures ProbePasses(Some(binary), Ran(Some("Xposed version: 89"), [], None))
    ensures ProbeErrors(Some(binary), Ran(Some("Xposed version: 89"), [], None)) == []
  {
    assert "Xposed version: 89"[..|PROBE_PREFIX|] == PROBE_PREFIX;
  }
}
