/**
 * The scanner client: a device registry filled from the server, a selected
 * device, the scan of an A4 page, and downloads of the resulting files.
 * Every reply the server gives is a parameter, and every method returns the
 * requests it sent, so that which requests are made, and in what order, is
 * part of each contract.
 */
module ScannerClient {
  import opened Wrappers
  import opened Paths
  import opened Transport
  import opened ScanRequests

  type Bytes = seq<bv8>

  datatype Device = Device(id: string, name: string)

  /** The body of the context endpoint; its `devices` entry may be missing. */
  datatype Context = Context(devices: Option<seq<Device>>)

  datatype RemoteFile = RemoteFile(name: string, sizeString: string)

  /** The body of a scan reply: the name of the file it produced, when it names one. */
  datatype ScanReply = ScanReply(file: Option<string>)

  datatype SelectError = NoScanners | OutOfRange(count: nat) | NotANumber

  /** Selecting a scanner either succeeds, naming the device, or ends the command. */
  datatype Selection = Selected(name: string) | Fatal(error: SelectError)

  /** A device id counts as selected only when it is present and non-empty. */
  predicate HasDevice(id: Option<string>) {
    id.Some? && id.value != ""
  }

  /** A scan downloads its file whenever an output directory is given, even an empty one. */
  predicate DownloadRequested(outputDir: Option<string>) {
    outputDir.Some?
  }

  /** Files go into the output directory only when it is given and non-empty. */
  predicate UsesDir(outputDir: Option<string>) {
    outputDir.Some? && outputDir.value != ""
  }

  /**
   * Where a downloaded file is written: joined to a given, non-empty output
   * directory (where an absolute name still wins), the bare name otherwise.
   */
  function LocalPath(filename: string, outputDir: Option<string>): (r: string)
    ensures !UsesDir(outputDir) ==> r == filename
    ensures UsesDir(outputDir) && IsAbsolute(filename) ==> r == filename
    ensures UsesDir(outputDir) && !IsAbsolute(filename) ==>
      |r| >= |outputDir.value| + |filename| &&
      r[..|outputDir.value|] == outputDir.value && r[|r| - |filename|..] == filename
  {
    if UsesDir(outputDir) then Join(outputDir.value, filename) else filename
  }

  /** The device list after a listing call: replaced on success, kept otherwise. */
  function ListedDevices(resp: Response<Context>, cached: seq<Device>): seq<Device> {
    if IsOk(resp) then resp.body.devices.GetOr([]) else cached
  }

  function ListedFiles(resp: Response<seq<RemoteFile>>): seq<RemoteFile> {
    if IsOk(resp) then resp.body else []
  }

  /** The name of the file a scan produced, if the scan succeeded and named one. */
  function ScannedFile(resp: Response<ScanReply>): Option<string> {
    if IsOk(resp) then resp.body.file else None
  }

  /** One download request per file, in list order. */
  function DownloadCalls(server: string, files: seq<RemoteFile>): seq<HttpCall> {
    if files == [] then []
    else DownloadCalls(server, files[..|files| - 1]) + [Get(FileUrl(server, files[|files| - 1].name))]
  }

  lemma {:induction false} DownloadCallsInOrder(server: string, files: seq<RemoteFile>)
    ensures |DownloadCalls(server, files)| == |files|
    ensures forall i :: 0 <= i < |files| ==> DownloadCalls(server, files)[i] == Get(FileUrl(server, files[i].name))
  {
    if files != [] {
      DownloadCallsInOrder(server, files[..|files| - 1]);
    }
  }

  /**
   * An output directory that is given and non-empty is joined with the file
   * name, so a plain file name lands inside it; otherwise the file name is
   * used as it is, relative to the current directory.
   */
  lemma LocalPathPlacement(filename: string, outputDir: Option<string>)
    requires Sep !in filename
    ensures UsesDir(outputDir) ==> |LocalPath(filename, outputDir)| >= |outputDir.value|
    ensures UsesDir(outputDir) ==> LocalPath(filename, outputDir)[..|outputDir.value|] == outputDir.value
    ensures BaseName(LocalPath(filename, outputDir)) == filename
    ensures !UsesDir(outputDir) ==> LocalPath(filename, outputDir) == filename
  {
    if UsesDir(outputDir) {
      JoinBaseName(outputDir.value, filename);
    } else {
      BaseNameAfterSep([], filename);
      assert [] + filename == filename;
    }
  }

  class Scanner {
    var serverUrl: string
    var deviceId: Option<string>
    var devices: seq<Device>

    constructor (serverUrl: string := "http://scan.home")
      ensures this.serverUrl == serverUrl && deviceId == None && devices == []
    {
      this.serverUrl := serverUrl;
      deviceId := None;
      devices := [];
    }

    /** Asks the server for its devices and caches them when the reply is a success. */
    method ListScanners(resp: Response<Context>) returns (listed: seq<Device>, calls: seq<HttpCall>)
      modifies this`devices
      ensures calls == [Get(ContextUrl(serverUrl))]
      ensures devices == ListedDevices(resp, old(devices))
      ensures listed == if IsOk(resp) then devices else []
    {
      calls := [Get(ContextUrl(serverUrl))];
      if IsOk(resp) {
        devices := resp.body.devices.GetOr([]);
        listed := devices;
      } else {
        listed := [];
      }
    }

    /**
     * Selects the device at a 1-based position. `number` is the conversion
     * of the argument to an integer, None when it is not one. The device
     * list is fetched only when none is cached.
     */
    method SelectScanner(number: Option<int>, listing: Response<Context>) returns (outcome: Selection, calls: seq<HttpCall>)
      modifies this`devices, this`deviceId
      ensures old(devices) != [] ==> devices == old(devices) && calls == []
      ensures old(devices) == [] ==> devices == ListedDevices(listing, []) && calls == [Get(ContextUrl(serverUrl))]
      ensures outcome.Selected? <==> devices != [] && number.Some? && 1 <= number.value <= |devices|
      ensures outcome.Selected? ==> deviceId == Some(devices[number.value - 1].id) && outcome.name == devices[number.value - 1].name
      ensures devices == [] ==> outcome == Fatal(NoScanners)
      ensures devices != [] && number.None? ==> outcome == Fatal(NotANumber)
      ensures devices != [] && number.Some? && !(1 <= number.value <= |devices|) ==> outcome == Fatal(OutOfRange(|devices|))
      ensures outcome.Fatal? ==> deviceId == old(deviceId)
    {
      calls := [];
      if devices == [] {
        var _, listCalls := ListScanners(listing);
        calls := listCalls;
      }
      if devices == [] {
        return Fatal(NoScanners), calls;
      }
      if number.None? {
        return Fatal(NotANumber), calls;
      }
      var index := number.value - 1;
      if 0 <= index < |devices| {
        deviceId := Some(devices[index].id);
        outcome := Selected(devices[index].name);
      } else {
        outcome := Fatal(OutOfRange(|devices|));
      }
    }

    /** Asks the server for its stored files; nothing on failure. */
    method ListFiles(resp: Response<seq<RemoteFile>>) returns (files: seq<RemoteFile>, calls: seq<HttpCall>)
      ensures calls == [Get(FilesUrl(serverUrl))]
      ensures IsOk(resp) ==> files == resp.body
      ensures !IsOk(resp) ==> files == []
    {
      calls := [Get(FilesUrl(serverUrl))];
      if IsOk(resp) {
        files := resp.body;
      } else {
        files := [];
      }
    }

    /** Fetches one file; the path it was saved to, or None when the server did not deliver it. */
    method DownloadFile(filename: string, resp: Response<Bytes>, outputDir: Option<string> := None) returns (path: Option<string>, calls: seq<HttpCall>)
      ensures calls == [Get(FileUrl(serverUrl, filename))]
      ensures path.Some? <==> IsOk(resp)
      ensures path.Some? ==> path.value == LocalPath(filename, outputDir)
    {
      calls := [Get(FileUrl(serverUrl, filename))];
      if IsOk(resp) {
        path := Some(LocalPath(filename, outputDir));
      } else {
        path := None;
      }
    }

    /**
     * Downloads every listed file in order, one attempt each, going on after
     * a failure. `serve(i)` is the server's reply to the i-th download;
     * `saved[i]` is where the i-th file went, None if it failed.
     */
    method DownloadAll(listing: Response<seq<RemoteFile>>, serve: nat -> Response<Bytes>, outputDir: Option<string> := None)
      returns (saved: seq<Option<string>>, calls: seq<HttpCall>)
      ensures |saved| == |ListedFiles(listing)|
      ensures calls == [Get(FilesUrl(serverUrl))] + DownloadCalls(serverUrl, ListedFiles(listing))
      ensures forall i :: 0 <= i < |saved| ==> (saved[i].Some? <==> IsOk(serve(i)))
      ensures forall i :: 0 <= i < |saved| && saved[i].Some? ==> saved[i].value == LocalPath(ListedFiles(listing)[i].name, outputDir)
    {
      var files;
      files, calls := ListFiles(listing);
      saved := [];
      if files == [] {
        return;
      }
      var i := 0;
      while i < |files|
        invariant 0 <= i <= |files|
        invariant |saved| == i
        invariant calls == [Get(FilesUrl(serverUrl))] + DownloadCalls(serverUrl, files[..i])
        invariant forall j :: 0 <= j < i ==> (saved[j].Some? <==> IsOk(serve(j)))
        invariant forall j :: 0 <= j < i && saved[j].Some? ==> saved[j].value == LocalPath(files[j].name, outputDir)
      {
        var path, fileCalls := DownloadFile(files[i].name, serve(i), outputDir);
        assert files[..i + 1][..i] == files[..i];
        saved := saved + [path];
        calls := calls + fileCalls;
        i := i + 1;
      }
      assert files[..i] == files;
    }

    /**
     * Scans one A4 page with the selected device and, when an output
     * directory is given (even an empty one), downloads the result.
     * Returns the local path only when that download succeeded.
     */
    method ScanA4(scanResp: Response<ScanReply>, fileResp: Response<Bytes>,
                  outputDir: Option<string> := None, resolution: int := 200, mode: string := "Color", quality: string := "high")
      returns (path: Option<string>, calls: seq<HttpCall>)
      ensures !HasDevice(deviceId) ==> path == None && calls == []
      ensures HasDevice(deviceId) ==> 1 <= |calls| <= 2
      ensures HasDevice(deviceId) ==> calls[0] == Post(ScanUrl(serverUrl), A4Request(deviceId.value, resolution, mode, quality))
      ensures |calls| == 2 <==> HasDevice(deviceId) && ScannedFile(scanResp).Some? && DownloadRequested(outputDir)
      ensures |calls| == 2 ==> calls[1] == Get(FileUrl(serverUrl, ScannedFile(scanResp).value))
      ensures path.Some? <==> |calls| == 2 && IsOk(fileResp) && LocalPath(ScannedFile(scanResp).value, outputDir) != ""
      ensures path.Some? ==> path.value == LocalPath(ScannedFile(scanResp).value, outputDir)
    {
      if !HasDevice(deviceId) {
        return None, [];
      }
      var request := A4Request(deviceId.value, resolution, mode, quality);
      calls := [Post(ScanUrl(serverUrl), request)];
      path := None;
      if IsOk(scanResp) {
        if scanResp.body.file.Some? {
          var filename := scanResp.body.file.value;
          if DownloadRequested(outputDir) {
            var localPath, fileCalls := DownloadFile(filename, fileResp, outputDir);
            calls := calls + fileCalls;
            if localPath.Some? && localPath.value != "" {
              path := localPath;
            }
          }
        }
      }
    }
  }
}
