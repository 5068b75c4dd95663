/** The session server of `ipython_mcp/server.py`: one kernel client slot, one kernel
    process slot and the tools that change them. Each tool is first given as a step
    function from a session state to the next state and the report; the class below
    holds the slots as fields and its methods are proved to take exactly those steps. */
module KernelSession {
  import opened Outcomes
  import opened PyText
  import opened ConnectionFile
  import opened IopubOutput
  import opened ExecutionCollector
  import opened ToolReports

  /** A `BlockingKernelClient`: the `id` tells clients apart, `info` is what it loaded. */
  datatype ClientHandle = ClientHandle(id: nat, info: ConnectionInfo)

  /** A `subprocess.Popen` handle of a kernel started by `start_kernel`. */
  datatype ProcessHandle = ProcessHandle(pid: nat)

  /** The calls the server makes into the kernel client library and the operating system,
      in the order it makes them (each call is recorded whether it returned or raised). */
  datatype Call =
    | StopChannels(client: nat)
    | StartChannels(client: nat)
    | WaitForReady(client: nat)
    | ProtocolShutdown(client: nat)
    | ProtocolInterrupt(client: nat)
    | MakeTempDir
    | WriteBatchFile(path: string, content: string)
    | Spawn(argv: seq<string>)
    | Terminate(pid: nat)
    | Kill(pid: nat)
    | SendSigint(pid: nat)

  /** The globals `kernel_client` and `kernel_process`, the next client identity, the
      clients whose channels are running, and the calls made so far. */
  datatype State = State(
    client: Option<ClientHandle>,
    process: Option<ProcessHandle>,
    nextClientId: nat,
    running: set<nat>,
    calls: seq<Call>)

  /** The state after a tool call and the string the tool returns. */
  datatype Step = Step(state: State, report: string)

  function HeldIds(s: State): set<nat> {
    if s.client.Some? then {s.client.value.id} else {}
  }

  /** At most one client has running channels, and it is the stored one. */
  predicate Consistent(s: State) {
    s.running <= HeldIds(s) && (s.client.Some? ==> s.client.value.id < s.nextClientId)
  }

  /** `calls` extends `before`; `Added` is what was appended. */
  predicate Extends(before: seq<Call>, calls: seq<Call>) {
    |before| <= |calls| && calls[..|before|] == before
  }

  function Added(before: seq<Call>, calls: seq<Call>): seq<Call>
    requires Extends(before, calls)
  {
    calls[|before|..]
  }

  // ---------------------------------------------------------------- reports

  const FolderSign: string := "\U{1F4C1}"
  const KeySign: string := "\U{1F511}"

  const WindowsNotice: string :=
    "\n" + WarningSign + " Note: interrupt_kernel() not supported on Windows - use Ctrl+C in kernel window to interrupt execution"

  function ReadyFailed(message: string): string {
    CrossMark + " Failed to connect to kernel: " + message
  }

  /** The report of a successful connection; of the key only `key[:8]` is shown. */
  function ConnectedReport(info: ConnectionInfo, path: string, isWindows: bool): string {
    CheckMark + " Connected to IPython kernel at " + info.ip + ":" + NatToDecimal(info.shellPort) +
    "\n" + FolderSign + " Connection file: " + path +
    "\n" + KeySign + " Using key: " + Head(info.key, 8) + "..." +
    (if isWindows then WindowsNotice else "")
  }

  /** Keys that agree on their first eight characters give the same report: nothing
      beyond that prefix reaches the caller. */
  lemma ConnectedReportRedactsKey(info: ConnectionInfo, key': string, path: string, isWindows: bool)
    requires Head(info.key, 8) == Head(key', 8)
    ensures ConnectedReport(info, path, isWindows) == ConnectedReport(info.(key := key'), path, isWindows)
  {
  }

  // ---------------------------------------------------------------- connect_to_kernel

  /** How the client library's calls made while connecting turn out. */
  datatype ConnectOutcomes = ConnectOutcomes(stopOld: Outcome, startChannels: Outcome, waitForReady: Outcome)

  /** `connect_to_kernel` once the connection file has been resolved to `path`. */
  function ConnectStep(s: State, path: string, files: map<string, FileState>, o: ConnectOutcomes, isWindows: bool): (r: Step)
    ensures Consistent(s) ==> Consistent(r.state)
    ensures r.state.process == s.process
    ensures Extends(s.calls, r.state.calls)
    ensures path !in files ==> r == Step(s, NotFound(path))
    ensures path in files && files[path].Unparsable? ==> r == Step(s, FailedToConnect(files[path].error))
    ensures r.state.client != s.client ==>
              path in files && files[path].Parsed? &&
              r.state.client == Some(ClientHandle(s.nextClientId, files[path].info))
    ensures path in files && files[path].Parsed? && (s.client.None? || o.stopOld.Done?) ==>
              r.state.client == Some(ClientHandle(s.nextClientId, files[path].info))
    ensures path in files && files[path].Parsed? && (s.client.None? || o.stopOld.Done?) &&
            o.startChannels.Done? && o.waitForReady.Done? ==>
              r.report == ConnectedReport(files[path].info, path, isWindows)
  {
    if path !in files then Step(s, NotFound(path))
    else match files[path]
      case Unparsable(e) => Step(s, FailedToConnect(e))
      case Parsed(info) =>
        var stopped := if s.client.Some? then s.(calls := s.calls + [StopChannels(s.client.value.id)]) else s;
        if s.client.Some? && o.stopOld.Raised? then Step(stopped, FailedToConnect(o.stopOld.message))
        else
          var id := s.nextClientId;
          var stored := stopped.(client := Some(ClientHandle(id, info)), nextClientId := id + 1,
                                 running := s.running - HeldIds(s), calls := stopped.calls + [StartChannels(id)]);
          if o.startChannels.Raised? then Step(stored, FailedToConnect(o.startChannels.message))
          else
            var started := stored.(running := stored.running + {id}, calls := stored.calls + [WaitForReady(id)]);
            if o.waitForReady.Raised? then Step(started, ReadyFailed(o.waitForReady.message))
            else Step(started, ConnectedReport(info, path, isWindows))
  }

  /** A stored client is stopped before anything else happens. The new client's channels
      are started right after that stop returned; when it raised, nothing else is done and
      the old client stays stored. */
  lemma ConnectStopsOldClientFirst(s: State, path: string, files: map<string, FileState>, o: ConnectOutcomes, isWindows: bool)
    requires path in files && files[path].Parsed? && s.client.Some?
    ensures var r := ConnectStep(s, path, files, o, isWindows);
            var added := Added(s.calls, r.state.calls);
            |added| >= 1 && added[0] == StopChannels(s.client.value.id) &&
            (o.stopOld.Done? ==> |added| >= 2 && added[1] == StartChannels(s.nextClientId)) &&
            (o.stopOld.Raised? ==> added == [StopChannels(s.client.value.id)] && r.state.client == s.client)
  {
    var r := ConnectStep(s, path, files, o, isWindows);
    var id := s.client.value.id;
    if o.stopOld.Done? {
      var n := s.nextClientId;
      if o.startChannels.Raised? {
        assert Added(s.calls, r.state.calls) == [StopChannels(id), StartChannels(n)];
      } else {
        assert Added(s.calls, r.state.calls) == [StopChannels(id), StartChannels(n), WaitForReady(n)];
      }
    } else {
      assert Added(s.calls, r.state.calls) == [StopChannels(id)];
    }
  }

  /** A failure of `wait_for_ready` is reported, yet the new client stays stored with
      its channels running. */
  lemma ConnectKeepsClientWhenNotReady(s: State, path: string, files: map<string, FileState>, o: ConnectOutcomes, isWindows: bool)
    requires Consistent(s)
    requires path in files && files[path].Parsed?
    requires s.client.None? || o.stopOld.Done?
    requires o.startChannels.Done? && o.waitForReady.Raised?
    ensures var r := ConnectStep(s, path, files, o, isWindows);
            r.report == ReadyFailed(o.waitForReady.message) &&
            r.state.client == Some(ClientHandle(s.nextClientId, files[path].info)) &&
            r.state.running == {s.nextClientId}
  {
  }

  // ---------------------------------------------------------------- disconnect_kernel

  /** `disconnect_kernel`: stop the client's channels and clear the slot. When
      `stop_channels` raises, the slot keeps the client. */
  function DisconnectStep(s: State, stop: Outcome): (r: Step)
    ensures Consistent(s) ==> Consistent(r.state)
    ensures r.state.process == s.process && r.state.nextClientId == s.nextClientId
    ensures s.client.None? ==> r == Step(s, Disconnected)
    ensures s.client.Some? ==> r.state.calls == s.calls + [StopChannels(s.client.value.id)]
    ensures s.client.Some? ==> (r.state.client.None? <==> stop.Done?) && (r.report == Disconnected <==> stop.Done?)
  {
    if s.client.None? then Step(s, Disconnected)
    else
      var id := s.client.value.id;
      var stopped := s.(calls := s.calls + [StopChannels(id)]);
      if stop.Raised? then Step(stopped, DisconnectFailed(stop.message))
      else Step(stopped.(client := None, running := s.running - {id}), Disconnected)
  }

  /** Disconnecting twice: the second call finds nothing to close and changes nothing. */
  lemma DisconnectIdempotent(s: State, stop: Outcome, stop': Outcome)
    requires s.client.None? || stop.Done?
    ensures var once := DisconnectStep(s, stop);
            DisconnectStep(once.state, stop') == Step(once.state, Disconnected)
  {
  }

  // ---------------------------------------------------------------- shutdown_kernel

  /** How `Popen.wait(timeout=5)` ends. */
  datatype WaitOutcome = Exited | TimedOut | WaitRaised(message: string)

  /** The results of the calls `shutdown_kernel` may make: the protocol shutdown, whether
      `poll()` finds the process alive, terminate, the bounded wait, kill, the final
      wait, and `stop_channels` inside `disconnect_kernel`. */
  datatype ShutdownOutcomes = ShutdownOutcomes(
    protocol: Outcome, alive: bool, terminate: Outcome, wait: WaitOutcome,
    kill: Outcome, killWait: Outcome, stop: Outcome)

  const Graceful: string := CheckMark + " Kernel shutdown gracefully via Jupyter protocol"
  const ConnectionsClosed: string := CheckMark + " Kernel connections closed (process may still be running)"

  function Forceful(isWindows: bool): string {
    if isWindows then CheckMark + " Kernel shutdown forcefully (Windows terminate/kill)"
    else CheckMark + " Kernel shutdown forcefully (Unix SIGTERM/SIGKILL)"
  }

  function TerminationFailed(message: string): string {
    WarningSign + " Kernel process termination failed: " + message + ", but connections closed"
  }

  /** A connected shutdown whose protocol shutdown raised, with a tracked process that
      `poll()` finds alive: the signalling path. */
  predicate Forcing(s: State, o: ShutdownOutcomes) {
    s.client.Some? && o.protocol.Raised? && s.process.Some? && o.alive
  }

  /** `shutdown_kernel`. */
  function ShutdownStep(s: State, o: ShutdownOutcomes, isWindows: bool): (r: Step)
    ensures Consistent(s) ==> Consistent(r.state)
    ensures r.state.process == s.process
    ensures s.client.None? ==> r == Step(s, NotConnectedAny)
    ensures s.client.Some? && o.protocol.Done? ==> r.report == Graceful
    ensures s.client.Some? && o.protocol.Raised? && !Forcing(s, o) ==> r.report == ConnectionsClosed
    ensures Forcing(s, o) && o.terminate.Done? && (o.wait.Exited? || (o.wait.TimedOut? && o.kill.Done? && o.killWait.Done?)) ==>
              r.report == Forceful(isWindows)
    ensures Forcing(s, o) && o.terminate.Raised? ==> r.report == TerminationFailed(o.terminate.message)
    ensures Forcing(s, o) && o.terminate.Done? && o.wait.WaitRaised? ==> r.report == TerminationFailed(o.wait.message)
    ensures Forcing(s, o) && o.terminate.Done? && o.wait.TimedOut? && o.kill.Raised? ==>
              r.report == TerminationFailed(o.kill.message)
    ensures Forcing(s, o) && o.terminate.Done? && o.wait.TimedOut? && o.kill.Done? && o.killWait.Raised? ==>
              r.report == TerminationFailed(o.killWait.message)
  {
    if s.client.None? then Step(s, NotConnectedAny)
    else
      var asked := s.(calls := s.calls + [ProtocolShutdown(s.client.value.id)]);
      if o.protocol.Done? then Step(DisconnectStep(asked, o.stop).state, Graceful)
      else if s.process.Some? && o.alive then
        var pid := s.process.value.pid;
        var terminated := asked.(calls := asked.calls + [Terminate(pid)]);
        if o.terminate.Raised? then Step(DisconnectStep(terminated, o.stop).state, TerminationFailed(o.terminate.message))
        else match o.wait
          case Exited => Step(DisconnectStep(terminated, o.stop).state, Forceful(isWindows))
          case WaitRaised(e) => Step(DisconnectStep(terminated, o.stop).state, TerminationFailed(e))
          case TimedOut =>
            var killed := terminated.(calls := terminated.calls + [Kill(pid)]);
            if o.kill.Raised? then Step(DisconnectStep(killed, o.stop).state, TerminationFailed(o.kill.message))
            else if o.killWait.Raised? then Step(DisconnectStep(killed, o.stop).state, TerminationFailed(o.killWait.message))
            else Step(DisconnectStep(killed, o.stop).state, Forceful(isWindows))
      else Step(DisconnectStep(asked, o.stop).state, ConnectionsClosed)
  }

  /** The signals a connected shutdown sends: none when the protocol shutdown returned
      or no tracked process is alive; else terminate, and kill only when terminate's
      wait timed out. */
  function ShutdownSignals(s: State, o: ShutdownOutcomes): seq<Call>
    requires s.process.Some?
  {
    var pid := s.process.value.pid;
    [Terminate(pid)] + (if o.terminate.Done? && o.wait.TimedOut? then [Kill(pid)] else [])
  }

  /** A connected shutdown tries the protocol first and ends, on every path, with the
      `stop_channels` of `disconnect_kernel`; the slot is then empty unless that raised.
      In between come the signals, and only to a tracked process that is alive once the
      protocol shutdown failed. */
  lemma ShutdownAlwaysDisconnects(s: State, o: ShutdownOutcomes, isWindows: bool)
    requires s.client.Some?
    ensures var r := ShutdownStep(s, o, isWindows);
            var id := s.client.value.id;
            (r.state.client.None? <==> o.stop.Done?) &&
            (o.protocol.Raised? && s.process.Some? && o.alive ==>
               r.state.calls == s.calls + [ProtocolShutdown(id)] + ShutdownSignals(s, o) + [StopChannels(id)]) &&
            (!(o.protocol.Raised? && s.process.Some? && o.alive) ==>
               r.state.calls == s.calls + [ProtocolShutdown(id)] + [StopChannels(id)])
  {
    var id := s.client.value.id;
    var asked := s.(calls := s.calls + [ProtocolShutdown(id)]);
    if o.protocol.Raised? && s.process.Some? && o.alive {
      var pid := s.process.value.pid;
      var terminated := asked.(calls := asked.calls + [Terminate(pid)]);
      if o.terminate.Done? && o.wait.TimedOut? {
        var killed := terminated.(calls := terminated.calls + [Kill(pid)]);
        assert ShutdownStep(s, o, isWindows).state == DisconnectStep(killed, o.stop).state;
      } else {
        assert ShutdownStep(s, o, isWindows).state == DisconnectStep(terminated, o.stop).state;
      }
    } else {
      assert ShutdownStep(s, o, isWindows).state == DisconnectStep(asked, o.stop).state;
    }
  }

  /** A kernel whose tracked process already exited: the shutdown still closes the
      connections and reports so, and no signal is sent. */
  lemma ShutdownOfExitedProcess(s: State, o: ShutdownOutcomes, isWindows: bool)
    requires s.client.Some? && o.protocol.Raised? && !o.alive && o.stop.Done?
    ensures var r := ShutdownStep(s, o, isWindows);
            r.report == ConnectionsClosed && r.state.client.None? &&
            r.state.calls == s.calls + [ProtocolShutdown(s.client.value.id), StopChannels(s.client.value.id)]
  {
  }

  // ---------------------------------------------------------------- interrupt_kernel

  /** The protocol interrupt, whether `poll()` finds the process alive, and `send_signal`. */
  datatype InterruptOutcomes = InterruptOutcomes(protocol: Outcome, alive: bool, signal: Outcome)

  const InterruptUnsupported: string :=
    CrossMark + " Interrupt not supported on Windows - press Ctrl+C in the kernel window to interrupt execution"
  const InterruptSent: string := CheckMark + " Sent interrupt to kernel via Jupyter protocol"
  const NoInterruptMethod: string := CrossMark + " No interrupt method available"

  function SigintSent(pid: nat): string {
    CheckMark + " Sent SIGINT to kernel (PID: " + NatToDecimal(pid) + ") via subprocess"
  }

  function SigintFailed(message: string): string {
    CrossMark + " OS-level interrupt failed: " + message
  }

  /** `interrupt_kernel`: only the call record changes, never a slot. */
  function InterruptStep(s: State, o: InterruptOutcomes, isWindows: bool): (r: Step)
    ensures r.state == s.(calls := r.state.calls)
    ensures Extends(s.calls, r.state.calls)
    ensures s.client.None? ==> r == Step(s, NotConnectedAny)
    ensures s.client.Some? && isWindows ==> r == Step(s, InterruptUnsupported)
    ensures s.client.Some? && !isWindows && o.protocol.Done? ==> r.report == InterruptSent
    ensures s.client.Some? && !isWindows && o.protocol.Raised? && s.process.Some? && o.alive ==>
              r.report == if o.signal.Done? then SigintSent(s.process.value.pid) else SigintFailed(o.signal.message)
    ensures s.client.Some? && !isWindows && o.protocol.Raised? && !(s.process.Some? && o.alive) ==>
              r.report == NoInterruptMethod
  {
    if s.client.None? then Step(s, NotConnectedAny)
    else if isWindows then Step(s, InterruptUnsupported)
    else
      var asked := s.(calls := s.calls + [ProtocolInterrupt(s.client.value.id)]);
      if o.protocol.Done? then Step(asked, InterruptSent)
      else if s.process.Some? && o.alive then
        var pid := s.process.value.pid;
        var signalled := asked.(calls := asked.calls + [SendSigint(pid)]);
        if o.signal.Done? then Step(signalled, SigintSent(pid)) else Step(signalled, SigintFailed(o.signal.message))
      else Step(asked, NoInterruptMethod)
  }

  /** Off Windows the protocol interrupt comes first; SIGINT follows only when it failed
      and the tracked process is alive; with neither, there is no interrupt method. */
  lemma InterruptFallbackOrder(s: State, o: InterruptOutcomes)
    requires s.client.Some?
    ensures var r := InterruptStep(s, o, false);
            var added := Added(s.calls, r.state.calls);
            |added| >= 1 && added[0] == ProtocolInterrupt(s.client.value.id) &&
            ((exists i :: 0 <= i < |added| && added[i].SendSigint?) <==> o.protocol.Raised? && s.process.Some? && o.alive) &&
            (r.report == NoInterruptMethod <==> o.protocol.Raised? && !(s.process.Some? && o.alive))
  {
    var r := InterruptStep(s, o, false);
    var id := s.client.value.id;
    if o.protocol.Raised? && s.process.Some? && o.alive {
      var added := Added(s.calls, r.state.calls);
      assert added == [ProtocolInterrupt(id), SendSigint(s.process.value.pid)];
      assert added[1].SendSigint?;
      if o.signal.Done? {
        assert r.report[0] != NoInterruptMethod[0];
      } else {
        assert r.report[2] != NoInterruptMethod[2];
      }
    } else {
      assert Added(s.calls, r.state.calls) == [ProtocolInterrupt(id)];
      if o.protocol.Done? {
        assert r.report[0] != NoInterruptMethod[0];
      }
    }
  }

  // ---------------------------------------------------------------- start_kernel

  /** What `communicate()` returns for a process that exited early, decoded, and its
      return code. */
  datatype ExitInfo = ExitInfo(code: int, stdout: string, stderr: string)

  /** `Popen` raised, or it started process `pid`; `earlyExit` is what `poll()` found
      one second later. */
  datatype LaunchOutcome = LaunchRaised(message: string) | Launched(pid: nat, earlyExit: Option<ExitInfo>)

  /** The results of the calls `start_kernel` may make (the first two on Windows only). */
  datatype StartOutcomes = StartOutcomes(
    tempDir: Result<string>, writeBatch: Outcome, launch: LaunchOutcome, connect: ConnectOutcomes)

  /** The argument list of the kernel started on Unix. */
  function UnixCommand(path: string): seq<string> {
    ["ipython", "kernel", ConnectionFileOption + path, ExtensionsOption, ExecLinesOption]
  }

  const ConnectionFileOption: string := "--ConnectionFileMixin.connection_file="
  const ExtensionsOption: string := "--InteractiveShellApp.extensions=['autoreload']"
  const ExecLinesOption: string := "--InteractiveShellApp.exec_lines=['%autoreload 2']"

  /** The command line a Unix dry run shows. */
  lemma UnixCommandText(path: string)
    ensures Join(UnixCommand(path), " ") ==
            "ipython" + " " + "kernel" + " " + (ConnectionFileOption + path) + " " + ExtensionsOption + " " + ExecLinesOption
  {
    JoinFive("ipython", "kernel", ConnectionFileOption + path, ExtensionsOption, ExecLinesOption, " ");
  }

  /** The batch file written on Windows: an echo line, then the kernel started by the
      server's own interpreter with the same three options. */
  function BatchContent(executable: string, path: string): string {
    BatchEcho + executable + BatchKernelArgs + path + BatchExtensions
  }

  const BatchEcho: string := "@echo Starting IPython MCP server...\n\""
  const BatchKernelArgs: string := "\" -m IPython kernel --ConnectionFileMixin.connection_file=\""
  const BatchExtensions: string :=
    "\" --InteractiveShellApp.extensions=\"['autoreload']\" --InteractiveShellApp.exec_lines=\"['%autoreload 2']\""

  const WouldRunBatch: string := "Would run Windows batch file with content:\n"
  const WouldRunCommand: string := "Would run command: "
  const AlreadyRunning: string :=
    WarningSign + " Kernel already running, attempting to connect to existing kernel instead\n"

  function FailedToStart(message: string): string {
    CrossMark + " Failed to start kernel: " + message
  }

  function Started(pid: nat, path: string): string {
    CheckMark + " Started IPython kernel (PID: " + NatToDecimal(pid) + ")\n" + FolderSign + " Using connection file: " + path + "\n"
  }

  /** The stderr of an early exit says the kernel's ports are already bound. */
  function AddressInUse(stderr: string): bool {
    Contains(stderr, "Address already in use") || Contains(stderr, "ZMQError")
  }

  /** The report of an early exit that is not an address clash. */
  function FailureDetails(code: int, stdout: string, stderr: string): string {
    CrossMark + " Kernel failed to start\nExit code: " + IntToDecimal(code) +
    (if stdout != "" then "\nStdout: " + stdout else "") +
    (if stderr != "" then "\nStderr: " + stderr else "")
  }

  /** The state once `Popen` has started process `pid` from `argv`. */
  function Tracked(s: State, argv: seq<string>, pid: nat): State {
    s.(calls := s.calls + [Spawn(argv)], process := Some(ProcessHandle(pid)))
  }

  /** `start_kernel` from `Popen` on, with the argument list `argv`. On Windows no pipe
      is attached, so `communicate()` yields nothing and the texts are empty. */
  function LaunchStep(s: State, argv: seq<string>, path: string, host: Host, o: StartOutcomes, isWindows: bool): (r: Step)
    ensures Consistent(s) ==> Consistent(r.state)
    ensures Extends(s.calls, r.state.calls) && |r.state.calls| > |s.calls| && r.state.calls[|s.calls|] == Spawn(argv)
    ensures r.state.process == if o.launch.Launched? then Some(ProcessHandle(o.launch.pid)) else s.process
    ensures o.launch.LaunchRaised? ==> r == Step(s.(calls := s.calls + [Spawn(argv)]), FailedToStart(o.launch.message))
    ensures o.launch.Launched? && o.launch.earlyExit.None? ==>
              var c := ConnectStep(Tracked(s, argv, o.launch.pid), ConnectionPath(Some(path), host), host.files, o.connect, isWindows);
              r == Step(c.state, Started(o.launch.pid, path) + c.report)
  {
    var spawned := s.(calls := s.calls + [Spawn(argv)]);
    match o.launch
    case LaunchRaised(e) => Step(spawned, FailedToStart(e))
    case Launched(pid, early) =>
      var tracked := spawned.(process := Some(ProcessHandle(pid)));
      // The connect that follows a start or an address clash.
      var c := ConnectStep(tracked, ConnectionPath(Some(path), host), host.files, o.connect, isWindows);
      if early.None? then Step(c.state, Started(pid, path) + c.report)
      else
        var out := if isWindows then "" else early.value.stdout;
        var err := if isWindows then "" else early.value.stderr;
        if AddressInUse(err) then Step(c.state, AlreadyRunning + c.report)
        else Step(tracked, FailureDetails(early.value.code, out, err))
  }

  /** `os.path.join(temp_dir, "start_kernel.bat")` with the Windows separator. */
  function BatchFile(dir: string): string {
    dir + "\\start_kernel.bat"
  }

  /** The Windows part of `start_kernel`: a temporary directory and a batch file that
      starts the kernel in its own console. */
  function WindowsStartStep(s: State, path: string, dryRun: bool, host: Host, o: StartOutcomes): (r: Step)
    ensures Consistent(s) ==> Consistent(r.state)
    ensures Extends(s.calls, r.state.calls)
    ensures o.tempDir.Err? ==> r == Step(s.(calls := s.calls + [MakeTempDir]), FailedToStart(o.tempDir.message))
    ensures o.tempDir.Ok? && !dryRun ==>
              var bat := BatchFile(o.tempDir.value);
              var written := s.(calls := s.calls + [MakeTempDir, WriteBatchFile(bat, BatchContent(host.executable, path))]);
              r == if o.writeBatch.Raised? then Step(written, FailedToStart(o.writeBatch.message))
                   else LaunchStep(written, [bat], path, host, o, true)
  {
    var made := s.(calls := s.calls + [MakeTempDir]);
    match o.tempDir
    case Err(e) => Step(made, FailedToStart(e))
    case Ok(dir) =>
      var content := BatchContent(host.executable, path);
      if dryRun then Step(made, WouldRunBatch + content)
      else
        var batchFile := BatchFile(dir);
        var written := made.(calls := made.calls + [WriteBatchFile(batchFile, content)]);
        assert written.calls == s.calls + [MakeTempDir, WriteBatchFile(batchFile, content)];
        if o.writeBatch.Raised? then Step(written, FailedToStart(o.writeBatch.message))
        else
          var r := LaunchStep(written, [batchFile], path, host, o, true);
          ExtendsTransitive(s.calls, made.calls, written.calls);
          ExtendsTransitive(s.calls, written.calls, r.state.calls);
          r
  }

  /** `start_kernel`. */
  function StartStep(s: State, explicit: Option<string>, dryRun: bool, host: Host, o: StartOutcomes, isWindows: bool): (r: Step)
    ensures Consistent(s) ==> Consistent(r.state)
    ensures Extends(s.calls, r.state.calls)
    ensures ConnectionPath(explicit, host) !in host.files ==> r == Step(s, NotFound(ConnectionPath(explicit, host)))
    ensures ConnectionPath(explicit, host) in host.files && isWindows ==>
              r == WindowsStartStep(s, ConnectionPath(explicit, host), dryRun, host, o)
    ensures ConnectionPath(explicit, host) in host.files && !isWindows && !dryRun ==>
              r == LaunchStep(s, UnixCommand(ConnectionPath(explicit, host)), ConnectionPath(explicit, host), host, o, false)
  {
    var path := ConnectionPath(explicit, host);
    if path !in host.files then Step(s, NotFound(path))
    else if isWindows then WindowsStartStep(s, path, dryRun, host, o)
    else if dryRun then Step(s, WouldRunCommand + Join(UnixCommand(path), " "))
    else LaunchStep(s, UnixCommand(path), path, host, o, false)
  }

  lemma ExtendsTransitive(a: seq<Call>, b: seq<Call>, c: seq<Call>)
    requires Extends(a, b) && Extends(b, c)
    ensures Extends(a, c)
  {
    assert c[..|a|] == c[..|b|][..|a|];
  }

  /** A dry run spawns nothing and leaves both slots as they were. Off Windows it changes
      nothing at all and returns the command line; on Windows the temporary directory is
      still created first. */
  lemma StartDryRunSpawnsNothing(s: State, explicit: Option<string>, host: Host, o: StartOutcomes, isWindows: bool)
    requires ConnectionPath(explicit, host) in host.files
    ensures var r := StartStep(s, explicit, true, host, o, isWindows);
            var path := ConnectionPath(explicit, host);
            r.state == s.(calls := r.state.calls) &&
            (!isWindows ==> r == Step(s, WouldRunCommand + Join(UnixCommand(path), " "))) &&
            (isWindows ==> r.state.calls == s.calls + [MakeTempDir]) &&
            (isWindows && o.tempDir.Ok? ==> r.report == WouldRunBatch + BatchContent(host.executable, path))
  {
  }

  /** A kernel that exits early on Unix is taken for one already listening exactly when
      its stderr names an address clash; then the report is the connect fallback, else
      the failure with the exit code. */
  lemma StartEarlyExitClassification(s: State, argv: seq<string>, path: string, host: Host, o: StartOutcomes)
    requires o.launch.Launched? && o.launch.earlyExit.Some?
    ensures var r := LaunchStep(s, argv, path, host, o, false);
            var exit := o.launch.earlyExit.value;
            var c := ConnectStep(Tracked(s, argv, o.launch.pid), ConnectionPath(Some(path), host), host.files, o.connect, false);
            (AddressInUse(exit.stderr) ==> r == Step(c.state, AlreadyRunning + c.report)) &&
            (!AddressInUse(exit.stderr) ==>
               r == Step(Tracked(s, argv, o.launch.pid), FailureDetails(exit.code, exit.stdout, exit.stderr))) &&
            (|AlreadyRunning| <= |r.report| && r.report[..|AlreadyRunning|] == AlreadyRunning <==> AddressInUse(exit.stderr))
  {
    var r := LaunchStep(s, argv, path, host, o, false);
    var exit := o.launch.earlyExit.value;
    if !AddressInUse(exit.stderr) {
      assert r.report[0] == CrossMark[0] != AlreadyRunning[0];
    }
  }

  /** A start whose kernel is still running after the first second connects to it: the
      new client is stored, the new process tracked, and the status then says connected.
      When every connect call succeeds, the report is the start line followed by the
      connect report. The connect resolves and expands the already expanded path again. */
  lemma StartConnectsToNewKernel(s: State, explicit: Option<string>, host: Host, o: StartOutcomes, isWindows: bool)
    requires ConnectionPath(explicit, host) in host.files
    requires o.launch.Launched? && o.launch.earlyExit.None?
    requires isWindows ==> o.tempDir.Ok? && o.writeBatch.Done?
    requires ConnectionPath(Some(ConnectionPath(explicit, host)), host) in host.files
    requires host.files[ConnectionPath(Some(ConnectionPath(explicit, host)), host)].Parsed?
    requires s.client.None? || o.connect.stopOld.Done?
    ensures var r := StartStep(s, explicit, false, host, o, isWindows);
            var path := ConnectionPath(explicit, host);
            var again := ConnectionPath(Some(path), host);
            var info := host.files[again].info;
            r.state.client == Some(ClientHandle(s.nextClientId, info)) &&
            r.state.process == Some(ProcessHandle(o.launch.pid)) &&
            StatusReport(r.state, Done) == ConnectedTo + "at " + info.ip + ":" + NatToDecimal(info.shellPort) &&
            (o.connect.startChannels.Done? && o.connect.waitForReady.Done? ==>
               r.report == Started(o.launch.pid, path) + ConnectedReport(info, again, isWindows))
  {
    var path := ConnectionPath(explicit, host);
    var again := ConnectionPath(Some(path), host);
    var launchedFrom := if isWindows then
                          var bat := BatchFile(o.tempDir.value);
                          s.(calls := s.calls + [MakeTempDir, WriteBatchFile(bat, BatchContent(host.executable, path))])
                        else s;
    var argv := if isWindows then [BatchFile(o.tempDir.value)] else UnixCommand(path);
    assert StartStep(s, explicit, false, host, o, isWindows) == LaunchStep(launchedFrom, argv, path, host, o, isWindows);
    var c := ConnectStep(Tracked(launchedFrom, argv, o.launch.pid), again, host.files, o.connect, isWindows);
    assert LaunchStep(launchedFrom, argv, path, host, o, isWindows) == Step(c.state, Started(o.launch.pid, path) + c.report);
  }

  /** On Windows no stderr is captured, so an early exit is never taken for a running
      kernel: the report is the failure with the exit code alone. */
  lemma StartEarlyExitOnWindows(s: State, argv: seq<string>, path: string, host: Host, o: StartOutcomes)
    requires o.launch.Launched? && o.launch.earlyExit.Some?
    ensures var r := LaunchStep(s, argv, path, host, o, true);
            r.report == CrossMark + " Kernel failed to start\nExit code: " + IntToDecimal(o.launch.earlyExit.value.code) &&
            r.state.client == s.client
  {
    assert !Contains("", "Address already in use") && !Contains("", "ZMQError");
  }

  // ---------------------------------------------------------------- kernel_status

  /** `kernel_status`; `introspection` is how `get_connection_info()` turns out. */
  function StatusReport(s: State, introspection: Outcome): (r: string)
    ensures s.client.None? <==> r == NotConnectedAny
    ensures s.client.Some? ==> |r| > 0 && r[0] == CheckMark[0]
    ensures s.client.Some? ==> (r == DetailsUnavailable <==> introspection.Raised?)
    ensures s.client.Some? && introspection.Done? ==>
              r == ConnectedTo + "at " + s.client.value.info.ip + ":" + NatToDecimal(s.client.value.info.shellPort)
  {
    if s.client.None? then NotConnectedAny
    else
      var r := if introspection.Done? then
                 ConnectedTo + "at " + s.client.value.info.ip + ":" + NatToDecimal(s.client.value.info.shellPort)
               else DetailsUnavailable;
      assert r[0] != NotConnectedAny[0];
      assert r[|ConnectedTo|] == if introspection.Done? then 'a' else '(';
      r
  }

  const ConnectedTo: string := CheckMark + " Connected to kernel "
  const DetailsUnavailable: string := ConnectedTo + "(connection details unavailable)"

  // ---------------------------------------------------------------- the server

  /** The server process's globals and its tools. `isWindows` is `IS_WINDOWS`. */
  class Session {
    const isWindows: bool
    var client: Option<ClientHandle>
    var process: Option<ProcessHandle>
    var nextClientId: nat
    var running: set<nat>
    var calls: seq<Call>

    function Current(): State
      reads this
    {
      State(client, process, nextClientId, running, calls)
    }

    ghost predicate Valid()
      reads this
    {
      Consistent(Current())
    }

    /** The state at import time: both slots `None`. */
    constructor (isWindows: bool)
      ensures Valid() && this.isWindows == isWindows
      ensures Current() == State(None, None, 0, {}, [])
    {
      this.isWindows := isWindows;
      client, process, nextClientId, running, calls := None, None, 0, {}, [];
    }

    method ConnectToKernel(connectionFile: Option<string>, host: Host, o: ConnectOutcomes) returns (report: string)
      requires Valid()
      modifies this
      ensures Valid()
      ensures var step := ConnectStep(old(Current()), ConnectionPath(connectionFile, host), host.files, o, isWindows);
              Current() == step.state && report == step.report
    {
      var path := ConnectionPath(connectionFile, host);
      if path !in host.files {
        return NotFound(path);
      }
      match host.files[path] {
        case Unparsable(e) =>
          return FailedToConnect(e);
        case Parsed(info) =>
          if client.Some? {
            calls := calls + [StopChannels(client.value.id)];
            if o.stopOld.Raised? {
              return FailedToConnect(o.stopOld.message);
            }
            running := running - {client.value.id};
          }
          var id := nextClientId;
          client := Some(ClientHandle(id, info));
          nextClientId := id + 1;
          calls := calls + [StartChannels(id)];
          if o.startChannels.Raised? {
            return FailedToConnect(o.startChannels.message);
          }
          running := running + {id};
          calls := calls + [WaitForReady(id)];
          if o.waitForReady.Raised? {
            return ReadyFailed(o.waitForReady.message);
          }
          report := ConnectedReport(info, path, isWindows);
      }
    }

    method DisconnectKernel(stop: Outcome) returns (report: string)
      requires Valid()
      modifies this
      ensures Valid()
      ensures var step := DisconnectStep(old(Current()), stop); Current() == step.state && report == step.report
    {
      report := Disconnected;
      if client.Some? {
        var id := client.value.id;
        calls := calls + [StopChannels(id)];
        if stop.Raised? {
          return DisconnectFailed(stop.message);
        }
        client := None;
        running := running - {id};
      }
    }

    method ShutdownKernel(o: ShutdownOutcomes) returns (report: string)
      requires Valid()
      modifies this
      ensures Valid()
      ensures var step := ShutdownStep(old(Current()), o, isWindows); Current() == step.state && report == step.report
    {
      if client.None? {
        return NotConnectedAny;
      }
      calls := calls + [ProtocolShutdown(client.value.id)];
      if o.protocol.Done? {
        var ignored := DisconnectKernel(o.stop);
        return Graceful;
      }
      if process.Some? && o.alive {
        var pid := process.value.pid;
        calls := calls + [Terminate(pid)];
        var failure: Option<string> := None;
        if o.terminate.Raised? {
          failure := Some(o.terminate.message);
        } else {
          match o.wait {
            case Exited =>
            case WaitRaised(e) =>
              failure := Some(e);
            case TimedOut =>
              calls := calls + [Kill(pid)];
              if o.kill.Raised? {
                failure := Some(o.kill.message);
              } else if o.killWait.Raised? {
                failure := Some(o.killWait.message);
              }
          }
        }
        var ignored := DisconnectKernel(o.stop);
        report := if failure.Some? then TerminationFailed(failure.value) else Forceful(isWindows);
        return;
      }
      var ignored := DisconnectKernel(o.stop);
      report := ConnectionsClosed;
    }

    method InterruptKernel(o: InterruptOutcomes) returns (report: string)
      requires Valid()
      modifies this
      ensures Valid()
      ensures var step := InterruptStep(old(Current()), o, isWindows); Current() == step.state && report == step.report
    {
      if client.None? {
        return NotConnectedAny;
      }
      if isWindows {
        return InterruptUnsupported;
      }
      calls := calls + [ProtocolInterrupt(client.value.id)];
      if o.protocol.Done? {
        return InterruptSent;
      }
      if process.Some? && o.alive {
        var pid := process.value.pid;
        calls := calls + [SendSigint(pid)];
        report := if o.signal.Done? then SigintSent(pid) else SigintFailed(o.signal.message);
        return;
      }
      report := NoInterruptMethod;
    }

    method StartKernel(connectionFile: Option<string>, dryRun: bool, host: Host, o: StartOutcomes) returns (report: string)
      requires Valid()
      modifies this
      ensures Valid()
      ensures var step := StartStep(old(Current()), connectionFile, dryRun, host, o, isWindows);
              Current() == step.state && report == step.report
    {
      var path := ConnectionPath(connectionFile, host);
      if path !in host.files {
        return NotFound(path);
      }
      if isWindows {
        calls := calls + [MakeTempDir];
        if o.tempDir.Err? {
          return FailedToStart(o.tempDir.message);
        }
        var content := BatchContent(host.executable, path);
        if dryRun {
          return WouldRunBatch + content;
        }
        var batchFile := o.tempDir.value + "\\start_kernel.bat";
        calls := calls + [WriteBatchFile(batchFile, content)];
        if o.writeBatch.Raised? {
          return FailedToStart(o.writeBatch.message);
        }
        report := Launch([batchFile], path, host, o);
      } else if dryRun {
        report := WouldRunCommand + Join(UnixCommand(path), " ");
      } else {
        report := Launch(UnixCommand(path), path, host, o);
      }
    }

    /** `start_kernel` from `Popen` on. */
    method Launch(argv: seq<string>, path: string, host: Host, o: StartOutcomes) returns (report: string)
      requires Valid()
      modifies this
      ensures Valid()
      ensures var step := LaunchStep(old(Current()), argv, path, host, o, isWindows);
              Current() == step.state && report == step.report
    {
      calls := calls + [Spawn(argv)];
      if o.launch.LaunchRaised? {
        return FailedToStart(o.launch.message);
      }
      var pid := o.launch.pid;
      process := Some(ProcessHandle(pid));
      if o.launch.earlyExit.Some? {
        var exit := o.launch.earlyExit.value;
        var out := if isWindows then "" else exit.stdout;
        var err := if isWindows then "" else exit.stderr;
        if !AddressInUse(err) {
          return FailureDetails(exit.code, out, err);
        }
        var connected := ConnectToKernel(Some(path), host, o.connect);
        return AlreadyRunning + connected;
      }
      var connected := ConnectToKernel(Some(path), host, o.connect);
      report := Started(pid, path) + connected;
    }

    /** `kernel_status`; it changes nothing. */
    method KernelStatus(introspection: Outcome) returns (report: string)
      ensures client.None? <==> report == NotConnectedAny
      ensures client.Some? ==> (report == DetailsUnavailable <==> introspection.Raised?)
      ensures report == StatusReport(Current(), introspection)
    {
      report := StatusReport(Current(), introspection);
    }

    /** `execute_code`: it changes nothing in the session. `submission` is how
        `execute(code)` turns out (the new request's `msg_id`), `reply` how
        `get_shell_msg(timeout=30)` does, and `events` what `get_iopub_msg` yields. */
    method ExecuteCode(submission: Result<string>, reply: Result<ShellReply>, events: seq<PollEvent>) returns (report: string)
      ensures client.None? ==> report == NotConnected
      ensures client.Some? && submission.Err? ==> report == ExecutionFailed(submission.message)
      ensures client.Some? && submission.Ok? && reply.Err? ==> report == ExecutionFailed(reply.message)
      ensures client.Some? && submission.Ok? && reply.Ok? ==>
                var msgId := submission.value;
                report == FinalReport(reply.value, Gathered(msgId, events[..CollectionEnd(msgId, events)]))
      ensures report != ""
    {
      if client.None? {
        return NotConnected;
      }
      if submission.Err? {
        return ExecutionFailed(submission.message);
      }
      if reply.Err? {
        return ExecutionFailed(reply.message);
      }
      var msgId := submission.value;
      var parts, stop := Collect(msgId, events);
      CollectedIsGatheredPrefix(msgId, events);
      FinalReportNonEmpty(reply.value, msgId, events);
      report := FinalReport(reply.value, parts);
    }
  }
}
