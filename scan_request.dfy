/**
 * The body of a scan job: fixed A4 geometry in millimetres, the selected
 * device, resolution and colour mode, and a pipeline string that names the
 * output format and quality preset.
 */
module ScanRequests {
  import opened Wrappers

  const A4Width: int := 210
  const A4Height: int := 297

  const PipelinePrefix: string := "JPG | @:pipeline."
  const PipelineSuffix: string := "-quality"

  datatype ScanParams = ScanParams(
    deviceId: string,
    resolution: int,
    mode: string,
    width: int,
    height: int,
    pageWidth: int,
    pageHeight: int,
    top: int,
    left: int)

  datatype ScanRequest = ScanRequest(params: ScanParams, pipeline: string)

  /** What the caller chooses for a scan; everything else in a request is fixed. */
  datatype ScanSettings = ScanSettings(deviceId: string, resolution: int, mode: string, quality: string)

  /** The page is A4, anchored at the top-left corner. */
  predicate IsA4(p: ScanParams) {
    p.width == A4Width && p.height == A4Height &&
    p.pageWidth == A4Width && p.pageHeight == A4Height &&
    p.top == 0 && p.left == 0
  }

  /** The pipeline string names the JPG format first and the quality preset last. */
  function Pipeline(quality: string): (r: string)
    ensures |r| == |PipelinePrefix| + |quality| + |PipelineSuffix|
    ensures r[..|PipelinePrefix|] == PipelinePrefix && r[|r| - |PipelineSuffix|..] == PipelineSuffix
  {
    PipelinePrefix + quality + PipelineSuffix
  }

  /** The quality preset a pipeline string names, if it has the JPG pipeline's shape. */
  function PipelineQuality(p: string): (q: Option<string>)
    ensures q.Some? ==> |q.value| + |PipelinePrefix| + |PipelineSuffix| == |p|
  {
    var n, m := |PipelinePrefix|, |PipelineSuffix|;
    if |p| >= n + m && p[..n] == PipelinePrefix && p[|p| - m..] == PipelineSuffix
    then Some(p[n..|p| - m])
    else None
  }

  /** An A4 request for the given device, with the caller's resolution, mode and quality preset. */
  function A4Request(deviceId: string, resolution: int, mode: string, quality: string): (r: ScanRequest)
    ensures IsA4(r.params)
    ensures r.params.deviceId == deviceId && r.params.resolution == resolution && r.params.mode == mode
    ensures PipelineQuality(r.pipeline) == Some(quality)
  {
    PipelineRoundTrip(quality);
    ScanRequest(
      ScanParams(deviceId, resolution, mode, A4Width, A4Height, A4Width, A4Height, 0, 0),
      Pipeline(quality))
  }

  /** Reads the caller's choices back out of a request; None unless it is an A4 JPG request. */
  function SettingsOf(r: ScanRequest): (s: Option<ScanSettings>)
    ensures s.Some? ==> IsA4(r.params) && s.value.deviceId == r.params.deviceId
  {
    if !IsA4(r.params) then None
    else match PipelineQuality(r.pipeline)
      case None => None
      case Some(q) => Some(ScanSettings(r.params.deviceId, r.params.resolution, r.params.mode, q))
  }

  lemma PipelineRoundTrip(quality: string)
    ensures PipelineQuality(Pipeline(quality)) == Some(quality)
  {
  }

  /** Every request built for a scan is A4 and carries exactly the caller's choices. */
  lemma A4RequestRoundTrip(deviceId: string, resolution: int, mode: string, quality: string)
    ensures IsA4(A4Request(deviceId, resolution, mode, quality).params)
    ensures SettingsOf(A4Request(deviceId, resolution, mode, quality)) == Some(ScanSettings(deviceId, resolution, mode, quality))
  {
    PipelineRoundTrip(quality);
  }

  /** Conversely, a request from which settings can be read back is the one built from them. */
  lemma SettingsDetermineRequest(r: ScanRequest)
    requires SettingsOf(r).Some?
    ensures var s := SettingsOf(r).value; A4Request(s.deviceId, s.resolution, s.mode, s.quality) == r
  {
  }
}
