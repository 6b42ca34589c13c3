/**
 * The four HTTP endpoints of the scan server, and the shape of a reply as
 * the client sees it: a status code with a decoded body, or a failure to
 * reach the server at all.
 */
module Transport {
  import opened ScanRequests

  datatype Response<T> = Reply(status: int, body: T) | ConnError(reason: string)

  /** Only a 200 reply is treated as success; every other status is reported and dropped. */
  predicate IsOk<T>(r: Response<T>) {
    r.Reply? && r.status == 200
  }

  /** A request the client sent, in the order it sent them. */
  datatype HttpCall = Get(url: string) | Post(url: string, body: ScanRequest)

  /** Every endpoint lives under the server's `/api/v1/` prefix. */
  function ApiUrl(server: string, path: string): (r: string)
    ensures |r| == |server| + |"/api/v1/"| + |path|
    ensures r[..|server|] == server && r[|server|..|r| - |path|] == "/api/v1/" && r[|r| - |path|..] == path
  {
    server + "/api/v1/" + path
  }

  function ContextUrl(server: string): string { ApiUrl(server, "context") }

  function FilesUrl(server: string): string { ApiUrl(server, "files") }

  function FileUrl(server: string, name: string): string { ApiUrl(server, "files/" + name) }

  /** A stored file is addressed by its name, appended as it is, under the server's `files/` path. */
  lemma FileUrlNamesFile(server: string, name: string)
    ensures |FileUrl(server, name)| == |server| + |"/api/v1/files/"| + |name|
    ensures FileUrl(server, name)[..|server|] == server
    ensures FileUrl(server, name)[|FileUrl(server, name)| - |name|..] == name
  {
  }

  function ScanUrl(server: string): string { ApiUrl(server, "scan") }
}
