/** The one decision the command line makes for a scan: where, if anywhere, to download it. */
module Cli {
  import opened Wrappers
  import opened ScannerClient

  /**
   * `--no-download` withholds the output directory, which is what switches
   * the download off; otherwise the configured directory reaches the scan
   * unchanged, an empty one included.
   */
  function ScanOutputDir(noDownload: bool, outputDir: Option<string>): (r: Option<string>)
    ensures DownloadRequested(r) <==> !noDownload && DownloadRequested(outputDir)
    ensures DownloadRequested(r) ==> r.value == outputDir.value
  {
    if noDownload then None else outputDir
  }
}
