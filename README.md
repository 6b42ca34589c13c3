# scanserv client core, modelled in Dafny

`scanserv` is a command-line client for a network scanner server. It lists
the server's scan devices, selects one by its 1-based number, submits an A4
scan job, and downloads the resulting image files. This project models the
sequential logic of the client:

- the configuration loader, which fills missing sections from built-in defaults;
- the `Scanner` object, which holds the cached device list and the selected device id;
- the construction of the scan request;
- the decision whether to download a scan, and where the file goes;
- the batch download of every file on the server.

Network replies are parameters of type `Response<T>`. A `Response<T>` is
either `Reply(status, body)`, whose body is already decoded, or `ConnError`.
Every `Scanner` method returns the HTTP requests it sent, in order
(`calls: seq<HttpCall>`). That is how the contracts say which requests are
made: none without a selected device, one download per listed file, and a
device listing only when the cache is empty.

Modules:

- `Wrappers` (wrappers.dfy): `Option`, standing for Python's `None`.
- `Paths` (paths.dfy): `os.path.join` for two parts with POSIX rules, plus a base-name function used to state where a joined file lands.
- `Config` (config.dfy): `load_config`. A missing file and an unreadable or unparsable file are both inputs (`ConfigFile`).
- `ScanRequests` (scan_request.dfy): the A4 scan request and its pipeline string. `SettingsOf` is the inverse of the request builder and reads the caller's choices back out of a request.
- `Transport` (transport.dfy): the reply shape, the sent-request log and the four endpoint URLs.
- `ScannerClient` (scanner.dfy): class `Scanner` and the functions that specify it.
- `Cli` (cli.dfy): the `--no-download` / `--output-dir` choice passed to the scan.

The comment at src/scanserv.py:43 says the merge is there "to ensure all
keys exist". Lines 44-49 fill in only `scan`, `files` and `device`, however.
A configuration file without `server` therefore loads without it, and the
model follows the code (`Config.ServerIsNotBackfilled`).

The output directory has three states, kept apart as `Option<string>`:
`None`, `Some("")` and `Some(dir)`. A scan downloads its file for both
`Some` forms (`DownloadRequested`). `download_file` treats `Some("")` like
`None` and writes to the bare file name (`LocalPath`).

The source's default arguments are kept as defaults of the in-parameters:
the server `http://scan.home` for a new `Scanner`, no output directory for
`DownloadFile`, `DownloadAll` and `ScanA4`, and 200 dpi, `Color` and `high`
for `ScanA4`. The server's replies come first in each parameter list,
because they have no default.

## Model

| member | source | states |
|---|---|---|
| `Config.Defaults` | src/scanserv.py:26-37 | The defaults hold exactly `server`, `device`, `scan` and `files`. |
| `Config.LoadConfig` | src/scanserv.py:22-54 | With no file, or one that cannot be read or parsed, the result is exactly the defaults. With a parsed file, the keys are the file's keys plus `scan`, `files` and `device`. Every key in the file keeps its value, so a section that is present is not merged field by field. Every missing section equals its default. |
| `Config.BackfilledIdempotent` | src/scanserv.py:43-50 | Backfilling a table that was already backfilled changes nothing. |
| `Config.DefaultsAreBackfilled` | src/scanserv.py:26-54 | A file equal to the defaults loads exactly as a missing file does. |
| `Config.ServerIsNotBackfilled` | src/scanserv.py:43-49 | A file without `server` loads into a configuration without `server`, although the defaults have one. |
| `Paths.Join` | src/scanserv.py:141 | An absolute file name replaces the directory. Otherwise the joined path starts with the directory and ends with the file name. |
| `Paths.JoinBaseName` | src/scanserv.py:141 | A file name without separators is the last component of the joined path. |
| `ScanRequests.Pipeline` | src/scanserv.py:219 | The pipeline string starts with the fixed prefix that selects JPG output and the `pipeline.` preset namespace, and ends with `-quality`. The quality preset fills exactly the space between them. |
| `ScanRequests.A4Request` | src/scanserv.py:204-220 | The request has A4 geometry. It carries the given device id, resolution and mode, and the given quality preset can be read back from its pipeline. |
| `ScanRequests.PipelineRoundTrip` | src/scanserv.py:219 | The quality preset can be read back from the pipeline string built from it. |
| `ScanRequests.A4RequestRoundTrip` | src/scanserv.py:204-220 | A built request has A4 geometry: width and page width 210, height and page height 297, top and left 0. The device id, resolution, mode and quality read back from it are exactly the ones it was built from. |
| `ScanRequests.SettingsDetermineRequest` | src/scanserv.py:207-220 | Conversely, any request whose settings can be read back is the request built from those settings, so building is a bijection onto well-formed A4 requests. |
| `ScanRequests.SettingsOf` | src/scanserv.py:207-220 | Settings are read back only from an A4 request, and they carry that request's device id. |
| `Transport.ApiUrl` | src/scanserv.py:65 | Every endpoint URL is the server URL, then `/api/v1/`, then the endpoint path. |
| `Transport.ContextUrl` | src/scanserv.py:65 | The device listing is requested from the `context` endpoint. |
| `Transport.FilesUrl` | src/scanserv.py:109 | The file listing is requested from the `files` endpoint. |
| `Transport.FileUrl` | src/scanserv.py:136 | One file is requested from `files/` followed by its name. |
| `Transport.FileUrlNamesFile` | src/scanserv.py:136 | A file's URL starts with the server URL and ends with the file name exactly as given, not escaped. |
| `Transport.ScanUrl` | src/scanserv.py:225 | A scan job is posted to the `scan` endpoint. |
| `ScannerClient.HasDevice` | src/scanserv.py:195 | A device counts as selected only when its id is present and non-empty, which is Python's truthiness of the id. |
| `ScannerClient.DownloadRequested` | src/scanserv.py:235 | A scan downloads whenever an output directory is given, an empty one included. |
| `ScannerClient.LocalPath` | src/scanserv.py:141 | Without an output directory, or with an empty one, the file is written under its bare name. With a non-empty directory, a relative name is placed after the directory: the path starts with the directory and ends with the name. An absolute name is used as it is. |
| `ScannerClient.ListedDevices` | src/scanserv.py:66-79 | A 200 reply replaces the cached devices with the reply's `devices`, or with nothing when that entry is missing. Any other reply keeps the cache. |
| `ScannerClient.ListedFiles` | src/scanserv.py:108-123 | A 200 reply gives the reply's list of files. Every failure gives the empty list. |
| `ScannerClient.ScannedFile` | src/scanserv.py:227-244 | A scan names a file only when the reply is a 200 and has a `file` entry. |
| `ScannerClient.DownloadCallsInOrder` | src/scanserv.py:176-181 | The batch makes exactly one download request per listed file, and the i-th request fetches the i-th file. |
| `ScannerClient.LocalPathPlacement` | src/scanserv.py:141 | Take a file name without separators. With a non-empty output directory, it is written inside that directory. Without one, it is written under its own name in the current directory. |
| `ScannerClient.Scanner.constructor` | src/scanserv.py:57-60 | A new scanner has the given server, no selected device and no cached devices. |
| `ScannerClient.Scanner.ListScanners` | src/scanserv.py:62-83 | Sends one request to the context endpoint. A 200 reply replaces the cache with the reply's devices, or with nothing when the reply has none, and returns them. Any other outcome keeps the cache and returns nothing. |
| `ScannerClient.Scanner.SelectScanner` | src/scanserv.py:85-104 | A cached list is reused and the listing is fetched only when the cache is empty. Selection succeeds iff the list is non-empty and the number is an integer in 1..count. On success the id of device number-1 is recorded and its name is reported. The failures are: no scanners, which is checked before the number is parsed; not a number; and out of range, carrying the count. A failure leaves the selected id unchanged. |
| `ScannerClient.Scanner.ListFiles` | src/scanserv.py:106-123 | Sends one request to the files endpoint. It returns the reply's list on a 200 reply and the empty list on any failure. |
| `ScannerClient.Scanner.DownloadFile` | src/scanserv.py:125-155 | Sends one request for the named file. It returns a path iff the reply is a 200, and that path is the local path chosen from the output directory. |
| `ScannerClient.Scanner.DownloadAll` | src/scanserv.py:157-181 | Lists the files and then downloads each one in order. A failed download does not stop the rest. An empty or failed listing downloads nothing. The i-th result is a path iff the i-th download succeeded. |
| `ScannerClient.Scanner.ScanA4` | src/scanserv.py:183-252 | Without a selected device (absent or empty id), nothing is sent and nothing is returned. Otherwise it first posts the A4 request built from the selected id. It then downloads iff the scan replied 200 with a file and an output directory is given, even an empty one. It returns the local path only when that download succeeded and the path is non-empty. |
| `Cli.ScanOutputDir` | src/scanserv.py:300 | A scan from the command line downloads iff `--no-download` is not set and an output directory is configured. The configured directory then reaches the scan unchanged, an empty one included. |

## Left out

- HTTP requests and JSON decoding: each reply is a parameter, already decoded. A body that fails to decode, or a reply without the `id`, `name` or `file.name` entries, is not modelled.
- Console output: the numbered scanner listing, the file listing and the progress and error messages are not modelled. The outcome of `select_scanner` is returned as a value instead of printed.
- `sys.exit` in `select_scanner`: it is the `Fatal` outcome, not the end of a process.
- `int(device_number)`: the conversion is the parameter `number`, with `None` where it raises `ValueError`. A `TypeError` from converting a non-scalar is not modelled.
- TOML parsing, `os.path.exists` and the file read: their result is the `ConfigFile` parameter. TOML floats and dates are not among the modelled values.
- `get_config_path`: it depends on the operating system and the environment.
- `ScannerClient.Scanner.DownloadFile`: does not model `os.makedirs` or writing the content to the local path, because both are file-system effects. A failing write, which raises in the source, is not modelled either.
- `ScannerClient.Scanner.DownloadAll`: does not model the directory creation at the start, for the same reason.
- `ScannerClient.Scanner.ScanA4`: does not model the directory creation before the request, for the same reason.
- `Paths.Join`: follows POSIX `os.path.join`. Windows drive and separator rules are not modelled.
- `main`: argument parsing and the `--list` and `--download` branches are not modelled. Only the output-directory choice for a scan is.
