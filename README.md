# IPython MCP kernel bridge — a Dafny model

The repository offers two small servers that let a tool-calling client drive a running
IPython kernel.

- `ipython_mcp/server.py` holds a session of one Jupyter kernel client and, optionally, one
  kernel process it started itself. Its tools are `start_kernel`, `connect_to_kernel`,
  `execute_code`, `kernel_status`, `disconnect_kernel`, `shutdown_kernel` and
  `interrupt_kernel`.
- `ipython_mcp_server.py` speaks the Jupyter messaging protocol (version 5.3) directly over
  ZeroMQ sockets. It keeps four globals (the parsed connection file, a context, a shell
  socket and an IOPub socket) and offers `connect_to_kernel`, `execute_code`,
  `kernel_status` and `disconnect_kernel`.

The model keeps the decision logic of both servers and turns every outside result into an
input value:

- Outside calls are the protocol calls, socket calls, process control and file reads.
  Their outcomes are given as `Outcome` (`Done` or `Raised(message)`) or as `Result` values.
- The broadcast channel is a finite sequence of poll events.
- The connection files on disk are a map from path to parsed contents.
- The calls that change the kernel, its process or the sockets are appended to a `calls`
  trace in the state, so their order can be stated and proved. These are channel start
  and stop, `wait_for_ready`, the protocol shutdown and interrupt, the temporary
  directory and batch file, spawning and signalling the process, and the ZeroMQ context,
  socket, connect, subscribe, close, term and send calls. Some other calls are not
  recorded, and their results are inputs: `execute` (which submits the code),
  `get_shell_msg`, `get_iopub_msg`, `load_connection_info`, `get_connection_info`,
  `poll`, `wait`, `communicate` and `recv_multipart`.

The modules are:

- `Outcomes` — option, outcome and result values.
- `PyText` — the Python string operations the servers use: `strip`, `join`,
  `replace(p, '')`, `in`, slicing and integer formatting.
- `ConnectionFile` — connection-file resolution and `~` expansion.
- `ToolReports` — report texts shared by several tools.
- `IopubOutput` — broadcast contents and the text each one contributes, including the
  traceback cleaner. Both servers use the same rules.
- `ExecutionCollector` — the collection loop and the final report of `server.py`'s
  `execute_code`.
- `KernelSession` — `server.py`'s session:
  - pure step functions from a state to the next state and the report;
  - lemmas about those step functions;
  - a `Session` class whose `client` and `process` fields and methods follow the module
    globals. Each method is proved equal to its step function.
- `WireProtocol` — bytes and UTF-8, the hex signature and its loop, the request's header,
  content and seven frames, the polling loop and the grouped report.
- `ZmqSession` — the four-slot state of `ipython_mcp_server.py`:
  - step functions and lemmas for connect, execute, status and disconnect;
  - a `ZmqServer` class that follows the globals.

Behaviours of the code that the model keeps as written, including some that are easy to
overlook:

- When `wait_for_ready` fails, the new client stays stored with its channels running.
- When `stop_channels` raises, disconnecting keeps the client. So "no client after
  shutdown" holds exactly when that final stop succeeds.
- On Windows the kernel is started without pipes, so `communicate()` yields no stderr.
  An early exit is then never taken for a kernel that is already running.
- The Windows dry run still creates the temporary directory before it returns.
- In the ZeroMQ server, a failed connect after the old sockets were closed leaves the
  parsed connection stored and the closed IOPub socket in its slot. `kernel_status` still
  reports "connected" in that state.
- The ZeroMQ server's polling loop reads every message of seven or more frames, whichever
  request it belongs to. It has no parent-id filter.

## Model

| member | source | states |
|---|---|---|
| ConnectionFile.ResolveConnectionFile | ipython_mcp/server.py:32-58 | a present (non-empty) explicit path is returned unchanged; otherwise a non-empty environment value; otherwise `default_connection.json` in the package directory; the result is never empty |
| ConnectionFile.ResolvePrecedence | ipython_mcp/server.py:42-58 | an explicit path makes the environment and the package directory irrelevant; an environment value makes the package directory irrelevant; an empty explicit string counts as absent |
| ConnectionFile.StripTrailingSlashes | ipython_mcp/server.py:81 | the home directory loses exactly its trailing slashes, as the join in `expanduser` does |
| ConnectionFile.ExpandUser | ipython_mcp/server.py:81 | a path not starting with `~` is unchanged; `~` or `~/…` becomes the home directory followed by the rest |
| ConnectionFile.ConnectionPath | ipython_mcp/server.py:80-81 | the expanded resolved path is never empty |
| PyText.Strip | ipython_mcp/server.py:247 | the result is the input minus its leading and trailing whitespace, with no whitespace at either end; it is empty exactly when the input is all whitespace |
| PyText.Join | ipython_mcp/server.py:290 | a non-empty list's join starts with its first element |
| PyText.JoinAppend | ipython_mcp/server.py:290 | joining two non-empty lists puts exactly one separator between their joins |
| PyText.JoinLength | ipython_mcp/server.py:290 | the join is as long as the parts plus one separator between each two |
| PyText.Contains | ipython_mcp/server.py:136 | true exactly when the text occurs somewhere in the string |
| PyText.RemoveAll | ipython_mcp/server.py:267-268 | deleting every occurrence never lengthens the string; a string without an occurrence is unchanged; one with an occurrence loses at least the pattern's length |
| PyText.RemoveAllDropsLead | ipython_mcp/server.py:267-268 | a leading occurrence is deleted and the rest is scanned on its own |
| PyText.RemoveAllSkipsFree | ipython_mcp/server.py:267-268 | text without the pattern's first character passes through unchanged |
| PyText.RemoveAllPassesOther | ipython_mcp/server.py:267-268 | a piece that departs from the pattern and never repeats its first character is kept whole, and scanning resumes after it |
| PyText.Head | ipython_mcp/server.py:203 | the first `n` characters, or the whole string when it is shorter |
| PyText.NatToDecimal | ipython_mcp_server.py:72 | digits only, no leading zero, and their decimal value is the number |
| PyText.IntToDecimal | ipython_mcp/server.py:141 | a minus sign exactly for negative numbers, then digits whose value is the magnitude |
| IopubOutput.CleanLine | ipython_mcp/server.py:267-268 | the cleaned line is never longer than the line |
| IopubOutput.CleanLineKeepsPlainText | ipython_mcp/server.py:265-269 | a line with no escape character is left exactly as it was |
| IopubOutput.CleanLineIsOnePass | ipython_mcp/server.py:267-268 | each sequence is deleted in one pass, so a reset sequence split by another reset survives the cleaning |
| IopubOutput.ColourPass | ipython_mcp/server.py:267-268 | one `replace(colour, '')` deletes exactly that colour's occurrences between escape-free texts and keeps every other colour in place |
| IopubOutput.CleanLineRemovesColours | ipython_mcp/server.py:265-269 | every red, reset, bold-green and green sequence between escape-free texts is deleted, in any order, and the texts are kept |
| IopubOutput.CleanTraceback | ipython_mcp/server.py:264-269 | one cleaned line per traceback line, in order |
| IopubOutput.ErrorText | ipython_mcp/server.py:257-270 | starts with `ename: evalue` (`Error` when the name is absent), is longer exactly when there is a traceback, and then continues with a newline and the cleaned lines joined by newlines |
| IopubOutput.ErrorFragment | ipython_mcp/server.py:271 | a cross mark, a space, then exactly the error text |
| IopubOutput.StreamFragment | ipython_mcp/server.py:246-249 | nothing for all-whitespace text, otherwise the one stripped text |
| IopubOutput.ResultFragment | ipython_mcp/server.py:251-254 | nothing exactly for an empty `text/plain`, otherwise that text |
| IopubOutput.OutputFragment | ipython_mcp/server.py:246-275 | a stream adds its stripped text unless blank; a result adds its `text/plain` unless empty; an error adds its marked text; statuses and other kinds add nothing; never an empty fragment |
| ExecutionCollector.CollectedNonblank | ipython_mcp/server.py:246-271 | no collected fragment is the empty string |
| ExecutionCollector.CollectionEnd | ipython_mcp/server.py:273-279 | the stop index lies within the events |
| ExecutionCollector.CollectionEndIsFirstStop | ipython_mcp/server.py:235-279 | collection stops at the first failed read or idle status of this request, and at no earlier event |
| ExecutionCollector.CollectedIsGatheredPrefix | ipython_mcp/server.py:235-279 | the loop's fragments are the fragments of this request's messages before the stop, in arrival order |
| ExecutionCollector.CollectedIgnoresForeign | ipython_mcp/server.py:240-241 | inserting a message of another request anywhere changes nothing |
| ExecutionCollector.CollectedOnlyFromRequest | ipython_mcp/server.py:240-241 | with no message of this request, nothing is collected |
| ExecutionCollector.Fragments | ipython_mcp/server.py:246-271 | the branch for one message yields exactly that message's fragment |
| ExecutionCollector.Absorb | ipython_mcp/server.py:236-279 | one loop turn: whether the event ends collection, and what it adds otherwise |
| ExecutionCollector.Collect | ipython_mcp/server.py:233-279 | the loop returns exactly the collected fragments and the stop index |
| ExecutionCollector.FinalReport | ipython_mcp/server.py:282-290 | an error reply gives `❌ ename: evalue`; otherwise no fragments gives the no-output report, else the fragments joined by newlines |
| ExecutionCollector.ReplyIsAuthoritative | ipython_mcp/server.py:282-285 | an error reply decides the report whatever was collected |
| ExecutionCollector.FinalReportNonEmpty | ipython_mcp/server.py:282-290 | the report is never empty and, without an error reply, starts with the first fragment |
| KernelSession.ConnectedReportRedactsKey | ipython_mcp/server.py:203 | the connect report depends on the key only through its first 8 characters |
| KernelSession.ConnectStep | ipython_mcp/server.py:172-206 | a missing or unparsable file is reported and changes nothing; the process slot is never touched; calls are only appended; a replaced client is the new one with the next id; with a parsed file and no failed stop the new client is stored; when every call also succeeds the report is the connected report; at most one client runs |
| KernelSession.ConnectStopsOldClientFirst | ipython_mcp/server.py:184-190 | a stored client is stopped before anything else; the new channels start right after a successful stop; a failed stop adds nothing else and keeps the old client |
| KernelSession.ConnectKeepsClientWhenNotReady | ipython_mcp/server.py:188-196 | a `wait_for_ready` failure is reported, yet the new client stays stored and is the only one running |
| KernelSession.DisconnectStep | ipython_mcp/server.py:318-335 | with no client nothing happens; otherwise the channels are stopped once, and the slot is cleared and success reported exactly when the stop succeeded |
| KernelSession.DisconnectIdempotent | ipython_mcp/server.py:327-332 | a second disconnect after a successful one changes nothing and reports success |
| KernelSession.ShutdownStep | ipython_mcp/server.py:339-400 | not connected changes nothing; the process slot is never touched; at most one client runs; a protocol shutdown that returned reports graceful; with no live tracked process it reports connections closed; otherwise terminate, then a wait that ends or a timed-out wait followed by kill and wait, reports forceful, and the first of those calls that raised gives termination failed with its message |
| KernelSession.ShutdownAlwaysDisconnects | ipython_mcp/server.py:351-396 | every path ends with the channels stopped; terminate and kill are sent only if the protocol shutdown failed and the process is alive, kill only after a timed-out wait |
| KernelSession.ShutdownOfExitedProcess | ipython_mcp/server.py:362-396 | an already exited process gets no signal; its connections are closed and reported so |
| KernelSession.InterruptStep | ipython_mcp/server.py:404-440 | the session slots never change; not connected or Windows gives the fixed report with no call; a protocol interrupt that returned reports it was sent; after a failed one, a live tracked process gets SIGINT and the report says it was sent with the PID, or gives the signal's failure; with no live process there is no interrupt method |
| KernelSession.InterruptFallbackOrder | ipython_mcp/server.py:420-437 | the protocol interrupt is tried first; SIGINT is sent exactly when it failed and the process is alive; "no interrupt method" exactly when it failed and no live process remains |
| KernelSession.UnixCommandText | ipython_mcp/server.py:109-117 | the dry-run command is `ipython kernel` and the three options, separated by spaces |
| KernelSession.LaunchStep | ipython_mcp/server.py:119-154 | the spawn is the first new call; the process slot holds the new process exactly when spawning succeeded; a failed spawn gives the failed-to-start report; a kernel still running after the first second is connected to, and the report is the start line followed by the connect report; at most one client runs |
| KernelSession.WindowsStartStep | ipython_mcp/server.py:89-106 | the Windows path only appends calls and keeps at most one client running; a failed temporary directory or batch write gives the failed-to-start report; otherwise the batch file `start_kernel.bat` in that directory is written and launched |
| KernelSession.StartStep | ipython_mcp/server.py:64-154 | a missing connection file gives the not-found report and changes nothing; calls are only appended; on Windows it takes the batch-file path, off Windows and not a dry run it launches the `ipython kernel` command |
| KernelSession.StartDryRunSpawnsNothing | ipython_mcp/server.py:97-98 | a dry run changes no slot; on Unix it reports the exact command and makes no call; on Windows it only creates the temporary directory and reports the batch content |
| KernelSession.StartConnectsToNewKernel | ipython_mcp/server.py:148-151 | a start whose kernel is still running after the first second leaves the new client stored and the new process tracked, so the status says connected; when every connect call succeeds the report is the start line followed by the connected report |
| KernelSession.StartEarlyExitClassification | ipython_mcp/server.py:130-146 | an early exit whose stderr names an address clash connects to the existing kernel and gives the ⚠️ fallback before the connect report; otherwise the client is unchanged and the report is the failure with exit code; the report has that prefix exactly in the first case |
| KernelSession.StartEarlyExitOnWindows | ipython_mcp/server.py:103-106 | on Windows an early exit is reported with the exit code alone and no client change |
| KernelSession.StatusReport | ipython_mcp/server.py:297-314 | "not connected" exactly without a client; otherwise the report starts with the check mark, is the stored address when introspection works, and is "connection details unavailable" exactly when it raises |
| KernelSession.Session.constructor | ipython_mcp/server.py:28-29 | both slots start empty |
| KernelSession.Session.ConnectToKernel | ipython_mcp/server.py:158-206 | the new fields and report are those of `ConnectStep` |
| KernelSession.Session.DisconnectKernel | ipython_mcp/server.py:318-335 | the new fields and report are those of `DisconnectStep` |
| KernelSession.Session.ShutdownKernel | ipython_mcp/server.py:339-400 | the new fields and report are those of `ShutdownStep`, so each path gives its graceful, forceful, termination-failed or connections-closed report |
| KernelSession.Session.InterruptKernel | ipython_mcp/server.py:404-440 | the new fields and report are those of `InterruptStep`, so each path gives its sent, SIGINT-sent, SIGINT-failed or no-method report |
| KernelSession.Session.StartKernel | ipython_mcp/server.py:64-154 | the new fields and report are those of `StartStep`, so a start whose kernel keeps running leaves the session connected |
| KernelSession.Session.Launch | ipython_mcp/server.py:119-151 | the new fields and report are those of `LaunchStep`, including the connect to the started kernel |
| KernelSession.Session.KernelStatus | ipython_mcp/server.py:297-314 | changes nothing; reports "not connected" exactly without a client, and "connection details unavailable" exactly when introspection raises |
| KernelSession.Session.ExecuteCode | ipython_mcp/server.py:210-293 | not connected gives the fixed message; a failed submission or reply gives the execution-failed report; otherwise the final report over this request's fragments before the stop; never empty |
| WireProtocol.EncodeChar | ipython_mcp_server.py:128 | one to four bytes, one exactly for ASCII |
| WireProtocol.EncodeCharRoundTrip | ipython_mcp_server.py:128 | decoding the encoding of a character gives back its code point |
| WireProtocol.Utf8 | ipython_mcp_server.py:128 | at least one byte per character; ASCII text maps byte for byte |
| WireProtocol.Utf8Append | ipython_mcp_server.py:31 | the encoding of a concatenation is the concatenation of the encodings |
| WireProtocol.AsciiText | ipython_mcp_server.py:34 | one character per byte |
| WireProtocol.HexDigest | ipython_mcp_server.py:34 | two hex digits per byte |
| WireProtocol.UnHex | ipython_mcp_server.py:34 | one byte per two digits |
| WireProtocol.HexRoundTrip | ipython_mcp_server.py:34 | reading the hex digest back yields the digest |
| WireProtocol.SignatureIsHexOfDigest | ipython_mcp_server.py:29-34 | the signature is 64 hex digits that read back as the MAC of the UTF-8 key over the concatenated parts |
| WireProtocol.SignMessage | ipython_mcp_server.py:29-34 | the loop feeding each part to the hasher yields the signature over their concatenation |
| WireProtocol.RequestHeader | ipython_mcp_server.py:108-115 | the header has the six keys in order |
| WireProtocol.RequestHeaderFields | ipython_mcp_server.py:108-115 | the header carries the request id, `ipython-mcp`, the session, `execute_request` and version `5.3` |
| WireProtocol.RequestContent | ipython_mcp_server.py:117-124 | the content has the six keys in order |
| WireProtocol.RequestContentFields | ipython_mcp_server.py:117-124 | the content carries the code, `silent=False`, `store_history=True`, empty user expressions, `allow_stdin=False` and `stop_on_error=True` |
| WireProtocol.RequestParts | ipython_mcp_server.py:127-132 | four body parts: the encoded dumped header, `{}`, `{}` and the encoded dumped content |
| WireProtocol.RequestFrames | ipython_mcp_server.py:134-145 | seven frames: empty, `<IDS|MSG>`, the signature over exactly frames 3 to 6, then the header, `{}`, `{}` and the content |
| WireProtocol.AddTo | ipython_mcp_server.py:165-190 | a non-blank stream appends its stripped text to the streams; a non-empty result appends to the results; an error appends its error text to the errors; statuses and other kinds change nothing; collected texts stay non-empty and streams stripped |
| WireProtocol.Drain | ipython_mcp_server.py:153-200 | the collected groups stay non-empty and earlier streams keep their place |
| WireProtocol.GroupedCons | ipython_mcp_server.py:165-190 | adding one message, then the rest, groups them all |
| WireProtocol.DrainIsGroupedReads | ipython_mcp_server.py:153-200 | the loop's groups are the read messages split into streams, results and errors, each in arrival order; it aborts exactly when reading meets frames `json.loads` rejects |
| WireProtocol.ReadContentsOfReadyMessages | ipython_mcp_server.py:156-161 | when every event is a full, readable, non-idle message, all of them are read, in order |
| WireProtocol.EmptyPollsEndDrain | ipython_mcp_server.py:156 | once 100 empty polls in a row are reached, nothing more is read |
| WireProtocol.DrainReadsOnlyHeaderAndContent | ipython_mcp_server.py:159-161 | only the frame count and frames 3 and 6 of a message matter |
| WireProtocol.DrainStep | ipython_mcp_server.py:156-200 | an empty poll adds one to the count; a short message is skipped and resets it; a full one aborts on a decode error, ends on idle, or is added and resets the count |
| WireProtocol.Poll | ipython_mcp_server.py:153-200 | the loop's result is exactly the drained groups or the decode error |
| WireProtocol.MarkedErrors | ipython_mcp_server.py:214-215 | each error after a cross mark and a space, in order |
| WireProtocol.ReportParts | ipython_mcp_server.py:203-215 | all streams, then all results, then all marked errors, each group in arrival order |
| WireProtocol.GroupedReport | ipython_mcp_server.py:203-220 | no output gives the fixed success text; otherwise the report is the parts joined by newlines; non-blank groups never give an empty report; the report starts with the first stream, else the first result, else the first marked error |
| WireProtocol.FormatReport | ipython_mcp_server.py:203-220 | the three loops build exactly the grouped report |
| ZmqSession.ReleaseOld | ipython_mcp_server.py:60-65 | the held shell socket, IOPub socket and context are closed in that order and leave the open set |
| ZmqSession.WireConnectStep | ipython_mcp_server.py:50-84 | a missing or unparsable file is reported and changes nothing; a tidy state stays tidy |
| ZmqSession.OpenNew | ipython_mcp_server.py:67-81 | fresh objects keep the state tidy and do not change the stored connection |
| ZmqSession.WireConnectReplacesEverything | ipython_mcp_server.py:56-81 | a successful connect closes the old objects first, then opens a context, a DEALER socket on `tcp://ip:shell_port` and a subscribed SUB socket on `tcp://ip:iopub_port`; only those three stay open |
| ZmqSession.WireConnectFailureLeavesClosedSocket | ipython_mcp_server.py:56-84 | a shell connect failure after the old objects were closed leaves the closed IOPub socket stored while status says connected |
| ZmqSession.WireDisconnectStep | ipython_mcp_server.py:243-264 | all four slots are cleared, the held objects are closed, and in a tidy state nothing stays open |
| ZmqSession.WireDisconnectIdempotent | ipython_mcp_server.py:252-264 | a second disconnect makes no call and changes nothing |
| ZmqSession.WireStatusReport | ipython_mcp_server.py:227-239 | "not connected" exactly without a stored connection |
| ZmqSession.WireStatusReadsOnlyConnection | ipython_mcp_server.py:236-239 | the status depends only on the stored connection |
| ZmqSession.WireExecuteStep | ipython_mcp_server.py:88-223 | only the call trace changes; a missing connection, shell or IOPub slot gives the fixed message; the report is never empty |
| ZmqSession.WireExecuteSendsSignedRequest | ipython_mcp_server.py:105-145 | exactly one call is made: a seven-frame send on the shell socket of an empty frame, `<IDS|MSG>`, the signature with the stored key over frames 3 to 6, the request's header, `{}`, `{}` and the request's content |
| ZmqSession.WireExecuteGroupsStreamsFirst | ipython_mcp_server.py:153-220 | after a successful send the report is the grouped report of the drained messages and starts with the first stream |
| ZmqSession.WireExecuteReportsReadMessages | ipython_mcp_server.py:153-220 | after a successful send the report is the grouped report of the read messages' streams, results and errors, or the execution-failed report for a rejected frame |
| ZmqSession.ZmqServer.constructor | ipython_mcp_server.py:23-26 | all four globals start empty |
| ZmqSession.ZmqServer.ReleaseObjects | ipython_mcp_server.py:60-65 | the new state is `ReleaseOld` of the old one |
| ZmqSession.ZmqServer.OpenObjects | ipython_mcp_server.py:67-81 | the new state and report are those of `OpenNew` |
| ZmqSession.ZmqServer.ConnectToKernel | ipython_mcp_server.py:38-84 | the new state and report are those of `WireConnectStep` |
| ZmqSession.ZmqServer.ExecuteCode | ipython_mcp_server.py:88-223 | the new state and report are those of `WireExecuteStep` |
| ZmqSession.ZmqServer.KernelStatus | ipython_mcp_server.py:227-239 | changes nothing and reports "not connected" exactly without a stored connection |
| ZmqSession.ZmqServer.DisconnectKernel | ipython_mcp_server.py:243-267 | the new state and report are those of `WireDisconnectStep` |

## Left out

- The jupyter_client and ZeroMQ transports (channels, `execute`, `get_shell_msg`, `get_iopub_msg`, `send_multipart`, `recv_multipart`) are not modelled; their results are inputs: outcomes, a shell reply and finite poll-event sequences.
- Process control: `Popen`, `terminate`, `kill` and `send_signal` are recorded as calls in the trace; `poll`, `wait` and `communicate` are not recorded and their results are inputs.
- `time.sleep` calls are left out; they only delay.
- HMAC-SHA256 and `hexdigest`'s hashing are a function parameter (`Mac`) from key bytes and message bytes to a 32-byte digest. The hex encoding, UTF-8 encoding and the concatenation order are modelled.
- `json.load`, `json.dumps` and `json.loads` are parameters: the file map holds parsed contents, `Dumps` renders a JSON value and `Decoder` reads frames 3 and 6.
- `uuid4` and `datetime.now` are parameters (the message id, session id and date).
- `os.environ`, `importlib.resources` and `Path.exists` are inputs (the `Host` value and the file map). `resources.files` and the `__file__` fallback give the same package directory, so one directory is taken.
- `Path.expanduser` is modelled only for `~` and `~/…` read from the home directory. `~user` forms and pathlib's normalisation are not modelled: pathlib drops `.` components, repeated slashes and a trailing slash, and keeps `..`.
- Paths are built in POSIX form on every platform: `resolve_connection_file` joins the package directory with `/`, and `~` expands from the POSIX home directory. On Windows, `str(Path(...))` uses backslashes and `expanduser` reads `USERPROFILE`, so the connection path in the reports and in the batch file would differ there. Only the batch-file name is joined with a backslash.
- In `start_kernel` the batch-file name is joined with `os.path.join`. The model builds it as the directory, a backslash and `start_kernel.bat`, the Windows form; the separator is not a parameter.
- A `poll()` call that raises inside `shutdown_kernel` or `interrupt_kernel` is not modelled. So the outer handlers "❌ Shutdown failed…" and "❌ Failed to interrupt kernel…" do not appear.
- Failures of `load_connection_info`, and a connection file without `ip`, `shell_port`, `iopub_port` or `key`, are not modelled. The file map holds either complete contents or a read error.
- In the ZeroMQ server, failures of `zmq.Context`, `socket`, `setsockopt`, `close` and `term` are not modelled. Only the two `connect` calls and the send may fail.
- UTF-8 decoding errors of a process's output are not modelled; stdout and stderr arrive as text.
- An empty JSON object read as a connection (Python treats `{}` as false) is not modelled; a parsed file is a full `ConnectionInfo`.
- Incoming multipart messages are assumed to carry one routing identity, so frames 3 and 6 are the header and the content, as the code reads them.
- FastMCP tool registration, `main` and `mcp.run` are glue and are left out; `platform.system()` is the `isWindows` flag.
- GroupedReport: the contract does not state "no output exactly when nothing was collected". A collected result may itself equal the no-output text, so that equivalence is false.
- `recv_multipart` is modelled as returning frames or raising `zmq.Again`. Any other error it raises (a closed socket, a terminated context) goes to the outer handler and is not modelled.
- The literal UTF-8 forms of the constant frames (`<IDS|MSG>` and `{}`) are written as bytes; no lemma proves them equal to the encoding of the strings.
