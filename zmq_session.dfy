/** The socket-level server (`ipython_mcp_server.py`): four globals — the loaded
    connection info, a ZeroMQ context, a DEALER socket on the shell port and a SUB socket
    on the IOPub port — and the tools that change them. As for the session server, each
    tool is a step function over a state value and the class's methods are proved to take
    exactly those steps. */
module ZmqSession {
  import opened Outcomes
  import opened PyText
  import opened ConnectionFile
  import opened IopubOutput
  import opened ToolReports
  import opened WireProtocol

  datatype SocketKind = Dealer | Sub

  /** The calls made into ZeroMQ, in order. Contexts and sockets are told apart by handle. */
  datatype WireCall =
    | NewContext(handle: nat)
    | NewSocket(handle: nat, kind: SocketKind)
    | ConnectSocket(handle: nat, address: string)
    | Subscribe(handle: nat)
    | CloseSocket(handle: nat)
    | TermContext(handle: nat)
    | SendMultipart(handle: nat, frames: seq<Bytes>)

  /** The globals `kernel_connection`, `context`, `shell_socket` and `iopub_socket`, the
      next free handle, the handles not yet closed or terminated, and the calls made. */
  datatype WireState = WireState(
    connection: Option<ConnectionInfo>,
    context: Option<nat>,
    shell: Option<nat>,
    iopub: Option<nat>,
    nextHandle: nat,
    open: set<nat>,
    calls: seq<WireCall>)

  datatype WireStep = WireStep(state: WireState, report: string)

  function SlotHandle(h: Option<nat>): set<nat> {
    if h.Some? then {h.value} else {}
  }

  /** The handles the three object slots hold. */
  function Slots(s: WireState): set<nat> {
    SlotHandle(s.context) + SlotHandle(s.shell) + SlotHandle(s.iopub)
  }

  /** Every open handle is held by a slot, and every held handle was handed out. */
  predicate Tidy(s: WireState) {
    s.open <= Slots(s) && forall h :: h in Slots(s) ==> h < s.nextHandle
  }

  function Address(ip: string, port: nat): string {
    "tcp://" + ip + ":" + NatToDecimal(port)
  }

  function ConnectedAt(info: ConnectionInfo): string {
    CheckMark + " Connected to IPython kernel at " + info.ip + ":" + NatToDecimal(info.shellPort)
  }

  // ---------------------------------------------------------------- connect_to_kernel

  /** The calls that release the old objects: shell socket, IOPub socket, then context. */
  function ReleaseCalls(s: WireState): seq<WireCall> {
    (if s.shell.Some? then [CloseSocket(s.shell.value)] else []) +
    (if s.iopub.Some? then [CloseSocket(s.iopub.value)] else []) +
    (if s.context.Some? then [TermContext(s.context.value)] else [])
  }

  /** Close the old sockets and terminate the old context; the slots keep the old objects. */
  function ReleaseOld(s: WireState): (r: WireState)
    ensures r == s.(open := s.open - Slots(s), calls := s.calls + ReleaseCalls(s))
  {
    var a := if s.shell.Some? then s.(open := s.open - {s.shell.value}, calls := s.calls + [CloseSocket(s.shell.value)]) else s;
    var b := if s.iopub.Some? then a.(open := a.open - {s.iopub.value}, calls := a.calls + [CloseSocket(s.iopub.value)]) else a;
    if s.context.Some? then b.(open := b.open - {s.context.value}, calls := b.calls + [TermContext(s.context.value)]) else b
  }

  /** How the two `connect` calls turn out. */
  datatype WireConnectOutcomes = WireConnectOutcomes(shellConnect: Outcome, iopubConnect: Outcome)

  /** `connect_to_kernel(connection_file)`: the path is only expanded, never resolved. The
      loaded info is stored before the old objects are released, and each new object is
      stored as soon as it is made. */
  function WireConnectStep(s: WireState, connectionFile: string, home: string, files: map<string, FileState>,
                           o: WireConnectOutcomes): (r: WireStep)
    ensures Tidy(s) ==> Tidy(r.state)
    ensures var path := ExpandUser(connectionFile, home);
            (path !in files ==> r == WireStep(s, NotFound(path))) &&
            (path in files && files[path].Unparsable? ==> r == WireStep(s, FailedToConnect(files[path].error)))
  {
    var path := ExpandUser(connectionFile, home);
    if path !in files then WireStep(s, NotFound(path))
    else match files[path]
      case Unparsable(e) => WireStep(s, FailedToConnect(e))
      case Parsed(info) => OpenNew(ReleaseOld(s.(connection := Some(info))), info, o)
  }

  /** The second half of `connect_to_kernel`: a new context, then the shell socket made
      and connected, then the IOPub socket made, connected and subscribed; a failed
      `connect` leaves what was made so far in the slots. */
  function OpenNew(s: WireState, info: ConnectionInfo, o: WireConnectOutcomes): (r: WireStep)
    ensures s.open == {} && (forall h :: h in Slots(s) ==> h < s.nextHandle) ==> Tidy(r.state)
    ensures r.state.connection == s.connection
  {
    assert s.iopub.Some? ==> s.iopub.value in Slots(s);
    var ctx := s.nextHandle;
    var withShell := s.(context := Some(ctx), shell := Some(ctx + 1), nextHandle := ctx + 2,
                        open := s.open + {ctx, ctx + 1},
                        calls := s.calls + [NewContext(ctx), NewSocket(ctx + 1, Dealer),
                                            ConnectSocket(ctx + 1, Address(info.ip, info.shellPort))]);
    if o.shellConnect.Raised? then WireStep(withShell, FailedToConnect(o.shellConnect.message))
    else
      var withIopub := withShell.(iopub := Some(ctx + 2), nextHandle := ctx + 3, open := withShell.open + {ctx + 2},
                                  calls := withShell.calls + [NewSocket(ctx + 2, Sub),
                                                              ConnectSocket(ctx + 2, Address(info.ip, info.iopubPort))]);
      if o.iopubConnect.Raised? then WireStep(withIopub, FailedToConnect(o.iopubConnect.message))
      else WireStep(withIopub.(calls := withIopub.calls + [Subscribe(ctx + 2)]), ConnectedAt(info))
  }

  /** A successful connect releases every old object before making the new ones, and
      afterwards exactly the new context and sockets are open, the shell socket connected
      to the shell port and the IOPub socket to the IOPub port, subscribed to everything. */
  lemma WireConnectReplacesEverything(s: WireState, connectionFile: string, home: string,
                                      files: map<string, FileState>, o: WireConnectOutcomes)
    requires Tidy(s)
    requires ExpandUser(connectionFile, home) in files && files[ExpandUser(connectionFile, home)].Parsed?
    requires o.shellConnect.Done? && o.iopubConnect.Done?
    ensures var info := files[ExpandUser(connectionFile, home)].info;
            var r := WireConnectStep(s, connectionFile, home, files, o);
            var n := s.nextHandle;
            r.report == ConnectedAt(info) &&
            r.state == WireState(Some(info), Some(n), Some(n + 1), Some(n + 2), n + 3, {n, n + 1, n + 2},
              s.calls + ReleaseCalls(s) +
              [NewContext(n), NewSocket(n + 1, Dealer), ConnectSocket(n + 1, Address(info.ip, info.shellPort)),
               NewSocket(n + 2, Sub), ConnectSocket(n + 2, Address(info.ip, info.iopubPort)), Subscribe(n + 2)])
  {
    assert s.open - Slots(s) == {};
  }

  /** When the shell socket cannot connect, the tool reports the failure, yet the new
      info is stored and the IOPub slot still holds the old socket, already closed; the
      status tool then reports a connection. */
  lemma WireConnectFailureLeavesClosedSocket(s: WireState, connectionFile: string, home: string,
                                             files: map<string, FileState>, o: WireConnectOutcomes)
    requires ExpandUser(connectionFile, home) in files && files[ExpandUser(connectionFile, home)].Parsed?
    requires Tidy(s) && o.shellConnect.Raised? && s.iopub.Some?
    ensures var info := files[ExpandUser(connectionFile, home)].info;
            var r := WireConnectStep(s, connectionFile, home, files, o);
            r.report == FailedToConnect(o.shellConnect.message) &&
            r.state.connection == Some(info) && r.state.iopub == s.iopub && s.iopub.value !in r.state.open &&
            WireStatusReport(r.state) == CheckMark + " Connected to kernel at " + info.ip + ":" + NatToDecimal(info.shellPort)
  {
  }

  // ---------------------------------------------------------------- disconnect_kernel

  /** `disconnect_kernel`: release whatever the slots hold and clear all four globals. */
  function WireDisconnectStep(s: WireState): (r: WireStep)
    ensures r.report == Disconnected
    ensures r.state == WireState(None, None, None, None, s.nextHandle, s.open - Slots(s), s.calls + ReleaseCalls(s))
    ensures Tidy(s) ==> Tidy(r.state) && r.state.open == {}
  {
    var released := ReleaseOld(s);
    WireStep(released.(connection := None, context := None, shell := None, iopub := None), Disconnected)
  }

  /** A second disconnect has nothing to release and changes nothing. */
  lemma WireDisconnectIdempotent(s: WireState)
    ensures var once := WireDisconnectStep(s).state;
            WireDisconnectStep(once) == WireStep(once, Disconnected)
  {
    var once := WireDisconnectStep(s).state;
    assert ReleaseCalls(once) == [];
    assert once.calls + [] == once.calls;
  }

  // ---------------------------------------------------------------- kernel_status

  /** `kernel_status`, read from the stored info alone, whatever the sockets are. */
  function WireStatusReport(s: WireState): (r: string)
    ensures s.connection.None? <==> r == NotConnectedAny
  {
    if s.connection.None? then NotConnectedAny
    else
      var r := CheckMark + " Connected to kernel at " + s.connection.value.ip + ":" + NatToDecimal(s.connection.value.shellPort);
      assert r[0] != NotConnectedAny[0];
      r
  }

  /** Two states with the same stored info get the same status, whatever their sockets. */
  lemma WireStatusReadsOnlyConnection(s: WireState, s': WireState)
    requires s.connection == s'.connection
    ensures WireStatusReport(s) == WireStatusReport(s')
  {
  }

  // ---------------------------------------------------------------- execute_code

  /** `execute_code`. `msgId`, `session` and `date` are what `uuid4` and the clock give,
      `send` how `send_multipart` turns out, and `evs` what the IOPub socket yields. */
  function WireExecuteStep(s: WireState, code: string, msgId: string, session: string, date: string,
                           dumps: Dumps, mac: Mac, send: Outcome, evs: seq<WireEvent>, decode: Decoder): (r: WireStep)
    ensures r.state == s.(calls := r.state.calls)
    ensures r.report != ""
    ensures s.connection.None? || s.shell.None? || s.iopub.None? ==> r == WireStep(s, NotConnected)
  {
    if s.connection.None? || s.shell.None? || s.iopub.None? then WireStep(s, NotConnected)
    else
      var frames := RequestFrames(RequestParts(code, msgId, session, date, dumps), s.connection.value.key, mac);
      var sent := s.(calls := s.calls + [SendMultipart(s.shell.value, frames)]);
      if send.Raised? then WireStep(sent, ExecutionFailed(send.message))
      else match Drain(evs, 0, NoGroups, decode)
        case Aborted(e) => WireStep(sent, ExecutionFailed(e))
        case Drained(g) => WireStep(sent, GroupedReport(g))
  }

  /** With all three globals set, exactly one message goes out, on the shell socket: the
      seven frames of the request for `code`, signed with the connection's key over the
      four parts that follow the signature. */
  lemma WireExecuteSendsSignedRequest(s: WireState, code: string, msgId: string, session: string, date: string,
                                      dumps: Dumps, mac: Mac, send: Outcome, evs: seq<WireEvent>, decode: Decoder)
    requires s.connection.Some? && s.shell.Some? && s.iopub.Some?
    ensures var r := WireExecuteStep(s, code, msgId, session, date, dumps, mac, send, evs, decode);
            |r.state.calls| == |s.calls| + 1 && r.state.calls[..|s.calls|] == s.calls &&
            var sent := r.state.calls[|s.calls|];
            sent.SendMultipart? && sent.handle == s.shell.value && |sent.frames| == 7 &&
            sent.frames[0] == [] && sent.frames[1] == Delimiter &&
            sent.frames[4] == EmptyDict && sent.frames[5] == EmptyDict &&
            sent.frames[2] == Signature(sent.frames[3..], s.connection.value.key, mac) &&
            sent.frames[3] == Utf8(dumps(RequestHeader(msgId, session, date))) &&
            sent.frames[6] == Utf8(dumps(RequestContent(code)))
  {
    var r := WireExecuteStep(s, code, msgId, session, date, dumps, mac, send, evs, decode);
    assert r.state.calls[..|s.calls|] == s.calls;
  }

  /** A request whose outputs were all drained reports them grouped, never mixed: the
      report starts with the first stream when there is one. */
  lemma WireExecuteGroupsStreamsFirst(s: WireState, code: string, msgId: string, session: string, date: string,
                                      dumps: Dumps, mac: Mac, evs: seq<WireEvent>, decode: Decoder)
    requires s.connection.Some? && s.shell.Some? && s.iopub.Some?
    requires Drain(evs, 0, NoGroups, decode).Drained?
    ensures var g := Drain(evs, 0, NoGroups, decode).groups;
            var r := WireExecuteStep(s, code, msgId, session, date, dumps, mac, Done, evs, decode);
            r.report == GroupedReport(g) &&
            (g.streams != [] ==> |g.streams[0]| <= |r.report| && r.report[..|g.streams[0]|] == g.streams[0])
  {
  }

  /** After a successful send, the report is built from the messages the loop reads:
      their streams, then their results, then their errors, each in arrival order; a
      rejected frame ends the tool with the execution-failed report. */
  lemma WireExecuteReportsReadMessages(s: WireState, code: string, msgId: string, session: string, date: string,
                                       dumps: Dumps, mac: Mac, evs: seq<WireEvent>, decode: Decoder)
    requires s.connection.Some? && s.shell.Some? && s.iopub.Some?
    ensures var r := WireExecuteStep(s, code, msgId, session, date, dumps, mac, Done, evs, decode);
            match ReadContents(evs, 0, decode)
            case Err(e) => r.report == ExecutionFailed(e)
            case Ok(cs) => r.report == GroupedReport(Grouped(NoGroups, cs))
  {
    DrainIsGroupedReads(evs, 0, NoGroups, decode);
  }

  // ---------------------------------------------------------------- the server

  /** The server process's globals and its tools. */
  class ZmqServer {
    var connection: Option<ConnectionInfo>
    var context: Option<nat>
    var shell: Option<nat>
    var iopub: Option<nat>
    var nextHandle: nat
    var open: set<nat>
    var calls: seq<WireCall>

    function Current(): WireState
      reads this
    {
      WireState(connection, context, shell, iopub, nextHandle, open, calls)
    }

    ghost predicate Valid()
      reads this
    {
      Tidy(Current())
    }

    /** The state at import time: all four globals `None`. */
    constructor ()
      ensures Valid() && Current() == WireState(None, None, None, None, 0, {}, [])
    {
      connection, context, shell, iopub, nextHandle, open, calls := None, None, None, None, 0, {}, [];
    }

    /** Close the old sockets and terminate the old context, keeping the slots. */
    method ReleaseObjects()
      modifies this
      ensures Current() == ReleaseOld(old(Current()))
    {
      if shell.Some? {
        calls := calls + [CloseSocket(shell.value)];
        open := open - {shell.value};
      }
      if iopub.Some? {
        calls := calls + [CloseSocket(iopub.value)];
        open := open - {iopub.value};
      }
      if context.Some? {
        calls := calls + [TermContext(context.value)];
        open := open - {context.value};
      }
    }

    method ConnectToKernel(connectionFile: string, home: string, files: map<string, FileState>, o: WireConnectOutcomes)
      returns (report: string)
      requires Valid()
      modifies this
      ensures Valid()
      ensures var step := WireConnectStep(old(Current()), connectionFile, home, files, o);
              Current() == step.state && report == step.report
    {
      var path := ExpandUser(connectionFile, home);
      if path !in files {
        return NotFound(path);
      }
      match files[path] {
        case Unparsable(e) =>
          return FailedToConnect(e);
        case Parsed(info) =>
          connection := Some(info);
          ReleaseObjects();
          report := OpenObjects(info, o);
      }
    }

    method OpenObjects(info: ConnectionInfo, o: WireConnectOutcomes) returns (report: string)
      modifies this
      ensures var step := OpenNew(old(Current()), info, o); Current() == step.state && report == step.report
    {
      var ctx := nextHandle;
      context := Some(ctx);
      shell := Some(ctx + 1);
      calls := calls + [NewContext(ctx), NewSocket(ctx + 1, Dealer), ConnectSocket(ctx + 1, Address(info.ip, info.shellPort))];
      open := open + {ctx, ctx + 1};
      nextHandle := ctx + 2;
      if o.shellConnect.Raised? {
        return FailedToConnect(o.shellConnect.message);
      }
      iopub := Some(ctx + 2);
      calls := calls + [NewSocket(ctx + 2, Sub), ConnectSocket(ctx + 2, Address(info.ip, info.iopubPort))];
      open := open + {ctx + 2};
      nextHandle := ctx + 3;
      if o.iopubConnect.Raised? {
        return FailedToConnect(o.iopubConnect.message);
      }
      calls := calls + [Subscribe(ctx + 2)];
      report := ConnectedAt(info);
    }

    method ExecuteCode(code: string, msgId: string, session: string, date: string,
                       dumps: Dumps, mac: Mac, send: Outcome, evs: seq<WireEvent>, decode: Decoder)
      returns (report: string)
      modifies this
      ensures var step := WireExecuteStep(old(Current()), code, msgId, session, date, dumps, mac, send, evs, decode);
              Current() == step.state && report == step.report
    {
      if connection.None? || shell.None? || iopub.None? {
        return NotConnected;
      }
      var parts := RequestParts(code, msgId, session, date, dumps);
      var signature := SignMessage(parts, connection.value.key, mac);
      var frames := [[], Delimiter, signature] + parts;
      calls := calls + [SendMultipart(shell.value, frames)];
      if send.Raised? {
        return ExecutionFailed(send.message);
      }
      var drained := Poll(evs, decode);
      if drained.Aborted? {
        return ExecutionFailed(drained.message);
      }
      report := FormatReport(drained.groups);
    }

    /** `kernel_status`; it changes nothing. */
    method KernelStatus() returns (report: string)
      ensures connection.None? <==> report == NotConnectedAny
      ensures report == WireStatusReport(Current())
    {
      report := WireStatusReport(Current());
    }

    method DisconnectKernel() returns (report: string)
      requires Valid()
      modifies this
      ensures Valid()
      ensures var step := WireDisconnectStep(old(Current())); Current() == step.state && report == step.report
    {
      ReleaseObjects();
      connection, context, shell, iopub := None, None, None, None;
      report := Disconnected;
    }
  }
}
