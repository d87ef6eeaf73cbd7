/** The Windows service executable: its command-line dispatch, the IPC command handler
    that drives the tunnel on behalf of the GUI, and the running flag of the service loop.
    The tunnel is represented by whether it exists, whether it is connected and its
    counters; the result of a connection attempt is given to the handler. */
module Service {

  import opened Wrappers
  import opened Text

  /** The commands the GUI sends; any other command type value falls to the default
      branch. */
  datatype CommandType =
    | ConnectCommand | DisconnectCommand | GetStatusCommand | GetStatisticsCommand
    | SetConfigCommand | GetConfigCommand | OtherCommand(code: int)

  /** The payload of an IPC message: a command with its parameters, or anything else
      (a response or an event). */
  datatype Payload = Command(kind: CommandType, parameters: map<string, string>) | NotACommand

  datatype Message = Message(requestId: int, payload: Payload)

  datatype Response = Response(requestId: int, success: bool, errorMessage: string, data: map<string, string>)

  /** A connection-state event broadcast to every client. */
  datatype Event = ConnectionStateChanged(data: map<string, string>)

  /** What the service writes to its IPC clients, in order. */
  datatype Outgoing = Broadcast(event: Event) | SentTo(clientFd: int, response: Response)

  datatype TunnelStats = TunnelStats(bytesSent: nat, bytesReceived: nat, packetsSent: nat, packetsReceived: nat)

  /** The global tunnel: not created yet (or already released), or created and connected
      or not. */
  datatype TunnelState = NoTunnel | Tunnel(connected: bool, stats: TunnelStats)

  /** What `Tunnel::connect` reports: success, or failure with the error code's message. */
  datatype ConnectResult = ConnectSucceeded | ConnectFailed(message: string)

  const DefaultHost := "127.0.0.1"
  const DefaultPort := 4433

  /** The range of a 32-bit `int`, which `std::stoi` checks. */
  const IntMin := -0x8000_0000
  const IntMax := 0x7FFF_FFFF

  /** The characters `isspace` accepts in the "C" locale. */
  predicate IsSpace(c: char)
  {
    c == ' ' || c == '\t' || c == '\n' || c == '\U{B}' || c == '\U{C}' || c == '\r'
  }

  function SkipSpace(s: string): (r: string)
    ensures r == [] || !IsSpace(r[0])
    ensures |r| <= |s| && r == s[|s| - |r|..]
    ensures forall i :: 0 <= i < |s| - |r| ==> IsSpace(s[i])
  {
    if s != [] && IsSpace(s[0]) then SkipSpace(s[1..]) else s
  }

  /** `std::stoi` in base 10: leading white space, an optional sign and at least one digit,
      read up to the first non-digit; `None` when it throws, either because there is no
      digit or because the value is not an `int`. */
  function Stoi(s: string): (r: Option<int>)
    ensures r.Some? ==> IntMin <= r.value <= IntMax
  {
    ReadSigned(SkipSpace(s))
  }

  /** When `stoi` throws and what it returns: after the white space and one optional sign,
      it fails when no digit follows or when the signed value of the digit run is not an
      `int`, and otherwise returns that value. */
  lemma StoiMeaning(s: string)
    ensures var t := SkipSpace(s);
      var signed := t != [] && (t[0] == '-' || t[0] == '+');
      var u := if signed then t[1..] else t;
      var value := (if signed && t[0] == '-' then -1 else 1) * DecimalValue(SplitDigits(u).0);
      (u == [] || !IsDigitChar(u[0]) ==> Stoi(s).None?)
      && (u != [] && IsDigitChar(u[0]) ==> (Stoi(s).Some? <==> IntMin <= value <= IntMax))
      && (Stoi(s).Some? ==> Stoi(s).value == value)
  {
  }

  /** An optional sign, then the digits. */
  function ReadSigned(t: string): (r: Option<int>)
    ensures r.Some? ==> IntMin <= r.value <= IntMax
  {
    if t != [] && (t[0] == '-' || t[0] == '+') then ReadDigits(t[0] == '-', t[1..]) else ReadDigits(false, t)
  }

  /** The longest run of digits at the start, which must not be empty, and its value with
      the sign applied, which must be an `int`. */
  function ReadDigits(negative: bool, u: string): (r: Option<int>)
    ensures r.Some? ==> IntMin <= r.value <= IntMax
  {
    var digits := SplitDigits(u).0;
    if digits == [] then None
    else
      var value: int := if negative then -(DecimalValue(digits) as int) else DecimalValue(digits);
      if IntMin <= value <= IntMax then Some(value) else None
  }

  /** A number printed in decimal is read back by `stoi`, whatever follows it. */
  lemma StoiOfDecimal(n: nat, rest: string)
    requires n <= IntMax
    requires rest == [] || !IsDigitChar(rest[0])
    ensures Stoi(NatToString(n) + rest) == Some(n)
  {
    var s := NatToString(n) + rest;
    ReadDigitsOfDecimal(n, rest);
    UnsignedStart(s);
  }

  lemma ReadDigitsOfDecimal(n: nat, rest: string)
    requires n <= IntMax
    requires rest == [] || !IsDigitChar(rest[0])
    ensures ReadDigits(false, NatToString(n) + rest) == Some(n)
  {
    SplitDigitsOf(NatToString(n), rest);
    DecimalValueOfNatToString(n);
  }

  /** A string starting with a digit has no white space or sign to skip. */
  lemma UnsignedStart(s: string)
    requires s != [] && IsDigitChar(s[0])
    ensures Stoi(s) == ReadDigits(false, s)
  {
  }

  /** `static_cast<uint16_t>` of an `int`: the value modulo 2^16. */
  function ToPort(value: int): (port: nat)
    ensures port < 0x1_0000 && (port - value) % 0x1_0000 == 0
  {
    value % 0x1_0000
  }

  /** The server the connect command aims at: the `host` and `port` parameters when given,
      else 127.0.0.1 and 4433; `None` when `stoi` throws on the port. */
  function ConnectTarget(parameters: map<string, string>): (r: Option<(string, nat)>)
    ensures r.Some? ==> r.value.1 < 0x1_0000
    ensures r.Some? ==> r.value.0 == (if "host" in parameters then parameters["host"] else DefaultHost)
    ensures r.None? <==> "port" in parameters && Stoi(parameters["port"]).None?
    ensures r.Some? ==>
      r.value.1 == (if "port" in parameters then ToPort(Stoi(parameters["port"]).value) else DefaultPort)
  {
    var host := if "host" in parameters then parameters["host"] else DefaultHost;
    if "port" !in parameters then Some((host, DefaultPort))
    else
      match Stoi(parameters["port"])
      case None => None
      case Some(value) => Some((host, ToPort(value)))
  }

  /** A port parameter in the 16-bit range is used as given; larger values wrap around. */
  lemma PortParameter(parameters: map<string, string>, port: nat)
    requires "port" in parameters && parameters["port"] == NatToString(port) && port <= IntMax
    ensures ConnectTarget(parameters).Some?
    ensures port < 0x1_0000 ==> ConnectTarget(parameters).value.1 == port
    ensures ConnectTarget(parameters).value.1 == port % 0x1_0000
  {
    StoiOfDecimal(port, []);
    assert NatToString(port) + [] == NatToString(port);
  }

  /** Ports that do not fit 16 bits are wrapped without an error: 70000 becomes 4464
      and -1 becomes 65535. */
  lemma PortWrapsAround(parameters: map<string, string>)
    requires "port" in parameters && "host" !in parameters
    ensures Stoi(parameters["port"]) == Some(70000) ==> ConnectTarget(parameters) == Some((DefaultHost, 4464))
    ensures Stoi(parameters["port"]) == Some(-1) ==> ConnectTarget(parameters) == Some((DefaultHost, 65535))
  {
  }

  /** The outcome of handling one message: the tunnel afterwards, the events broadcast and
      the response sent, if any. `raised` says that an exception left the handler (from
      `stoi`), so that nothing was sent. */
  datatype Outcome = Outcome(tunnel: TunnelState, broadcasts: seq<Event>, response: Option<Response>, raised: bool)

  /** `handle_ipc_message` as a function of the tunnel, the message and what a connection
      attempt would report. */
  function Handle(tunnel: TunnelState, msg: Message, connect: ConnectResult): Outcome
  {
    match msg.payload
    case NotACommand => Outcome(tunnel, [], None, false)
    case Command(kind, parameters) =>
      var id := msg.requestId;
      match kind
      case ConnectCommand =>
        if tunnel.Tunnel? && tunnel.connected then
          Outcome(tunnel, [], Some(Response(id, false, "Already connected", map[])), false)
        else if tunnel.NoTunnel? then
          Outcome(tunnel, [], Some(Response(id, false, "Tunnel not initialized", map[])), false)
        else
          (match ConnectTarget(parameters)
           case None => Outcome(tunnel, [], None, true)
           case Some((host, port)) =>
             (match connect
              case ConnectSucceeded =>
                Outcome(tunnel.(connected := true),
                        [ConnectionStateChanged(map["state" := "connected", "server" := host + ":" + NatToString(port)])],
                        Some(Response(id, true, "", map[])), false)
              case ConnectFailed(message) =>
                Outcome(tunnel, [], Some(Response(id, false, message, map[])), false)))
      case DisconnectCommand =>
        if tunnel.Tunnel? && tunnel.connected then
          Outcome(tunnel.(connected := false), [ConnectionStateChanged(map["state" := "disconnected"])],
                  Some(Response(id, true, "", map[])), false)
        else
          Outcome(tunnel, [], Some(Response(id, false, "Not connected", map[])), false)
      case GetStatusCommand =>
        var data :=
          if tunnel.Tunnel? then map["connected" := if tunnel.connected then "true" else "false"]
          else map["connected" := "false", "error" := "Tunnel not initialized"];
        Outcome(tunnel, [], Some(Response(id, true, "", data)), false)
      case GetStatisticsCommand =>
        var data :=
          if tunnel.Tunnel? then
            map["bytes_sent" := NatToString(tunnel.stats.bytesSent),
                "bytes_received" := NatToString(tunnel.stats.bytesReceived),
                "packets_sent" := NatToString(tunnel.stats.packetsSent),
                "packets_received" := NatToString(tunnel.stats.packetsReceived)]
          else map[];
        Outcome(tunnel, [], Some(Response(id, true, "", data)), false)
      case SetConfigCommand => Outcome(tunnel, [], Some(Response(id, true, "", map[])), false)
      case GetConfigCommand => Outcome(tunnel, [], Some(Response(id, true, "", map[])), false)
      case OtherCommand(_) =>
        Outcome(tunnel, [], Some(Response(id, false, "Unknown command", map[])), false)
  }

  /** A message that is not a command gets no answer and changes nothing; every command
      that does not raise is answered exactly once, with the request's id. */
  lemma AnsweredOnceWithRequestId(tunnel: TunnelState, msg: Message, connect: ConnectResult)
    ensures var o := Handle(tunnel, msg, connect);
      (msg.payload.NotACommand? ==> o == Outcome(tunnel, [], None, false))
      && (o.response.Some? <==> msg.payload.Command? && !o.raised)
      && (o.response.Some? ==> o.response.value.requestId == msg.requestId)
      && (o.raised ==> o.tunnel == tunnel && o.broadcasts == [])
  {
  }

  /** A connect command fails without touching the tunnel when a connection exists or
      there is no tunnel; otherwise the tunnel is connected exactly when the attempt
      succeeds, and then, and only then, "connected" is broadcast with the server. */
  lemma ConnectOutcome(tunnel: TunnelState, parameters: map<string, string>, id: int, connect: ConnectResult)
    ensures var o := Handle(tunnel, Message(id, Command(ConnectCommand, parameters)), connect);
      (tunnel.Tunnel? && tunnel.connected ==>
         o.tunnel == tunnel && o.response == Some(Response(id, false, "Already connected", map[])))
      && (tunnel.NoTunnel? ==>
         o.tunnel == tunnel && o.response == Some(Response(id, false, "Tunnel not initialized", map[])))
      && (tunnel.Tunnel? && !tunnel.connected && ConnectTarget(parameters).Some? ==>
         var (host, port) := ConnectTarget(parameters).value;
         (o.tunnel.Tunnel? && o.tunnel.connected <==> connect.ConnectSucceeded?)
         && o.response.value.success == connect.ConnectSucceeded?
         && (connect.ConnectFailed? ==> o.response.value.errorMessage == connect.message && o.broadcasts == [])
         && (connect.ConnectSucceeded? ==>
               o.broadcasts == [ConnectionStateChanged(map["state" := "connected", "server" := host + ":" + NatToString(port)])]))
  {
  }

  /** With no parameters a connection goes to 127.0.0.1:4433, and the broadcast names it
      so. */
  lemma ConnectDefaults(stats: TunnelStats, id: int)
    ensures var o := Handle(Tunnel(false, stats), Message(id, Command(ConnectCommand, map[])), ConnectSucceeded);
      o.broadcasts == [ConnectionStateChanged(map["state" := "connected", "server" := "127.0.0.1:4433"])]
  {
    assert NatToString(4433) == "4433" by {
      assert DigitChar(4) == '4' && DigitChar(3) == '3';
      assert NatToString(4) == "4";
      assert NatToString(44) == "44";
      assert NatToString(443) == "443";
    }
    assert DefaultHost + ":" + "4433" == "127.0.0.1:4433";
  }

  /** Disconnect succeeds exactly while connected, and then leaves the tunnel disconnected
      and broadcasts "disconnected"; otherwise it answers "Not connected". */
  lemma DisconnectOutcome(tunnel: TunnelState, id: int, connect: ConnectResult)
    ensures var o := Handle(tunnel, Message(id, Command(DisconnectCommand, map[])), connect);
      (o.response.value.success <==> tunnel.Tunnel? && tunnel.connected)
      && (o.response.value.success ==>
            o.tunnel == tunnel.(connected := false) && o.broadcasts == [ConnectionStateChanged(map["state" := "disconnected"])])
      && (!o.response.value.success ==>
            o.tunnel == tunnel && o.broadcasts == [] && o.response.value.errorMessage == "Not connected")
  {
  }

  /** Status always succeeds and reports whether the tunnel is connected as "true" or
      "false", with an error entry exactly when there is no tunnel. */
  lemma StatusReport(tunnel: TunnelState, id: int, parameters: map<string, string>, connect: ConnectResult)
    ensures var o := Handle(tunnel, Message(id, Command(GetStatusCommand, parameters)), connect);
      var data := o.response.value.data;
      o.response.value.success && o.tunnel == tunnel && o.broadcasts == []
      && "connected" in data
      && (data["connected"] == "true" <==> tunnel.Tunnel? && tunnel.connected)
      && (data["connected"] == "false" <==> !(tunnel.Tunnel? && tunnel.connected))
      && ("error" in data <==> tunnel.NoTunnel?)
  {
  }

  /** Statistics always succeed: with a tunnel they report its four counters as decimal
      text that reads back to the counter, without one they report nothing. */
  lemma StatisticsReport(tunnel: TunnelState, id: int, parameters: map<string, string>, connect: ConnectResult)
    ensures var o := Handle(tunnel, Message(id, Command(GetStatisticsCommand, parameters)), connect);
      var data := o.response.value.data;
      o.response.value.success && o.tunnel == tunnel && o.broadcasts == []
      && (tunnel.NoTunnel? ==> data == map[])
      && (tunnel.Tunnel? ==>
            data.Keys == {"bytes_sent", "bytes_received", "packets_sent", "packets_received"}
            && IsDigits(data["bytes_sent"]) && DecimalValue(data["bytes_sent"]) == tunnel.stats.bytesSent
            && IsDigits(data["bytes_received"]) && DecimalValue(data["bytes_received"]) == tunnel.stats.bytesReceived
            && IsDigits(data["packets_sent"]) && DecimalValue(data["packets_sent"]) == tunnel.stats.packetsSent
            && IsDigits(data["packets_received"]) && DecimalValue(data["packets_received"]) == tunnel.stats.packetsReceived)
  {
    if tunnel.Tunnel? {
      DecimalValueOfNatToString(tunnel.stats.bytesSent);
      DecimalValueOfNatToString(tunnel.stats.bytesReceived);
      DecimalValueOfNatToString(tunnel.stats.packetsSent);
      DecimalValueOfNatToString(tunnel.stats.packetsReceived);
    }
  }

  /** The configuration commands are accepted and answered with no data; they change
      nothing. */
  lemma ConfigAccepted(tunnel: TunnelState, id: int, parameters: map<string, string>, connect: ConnectResult)
    ensures Handle(tunnel, Message(id, Command(SetConfigCommand, parameters)), connect)
      == Outcome(tunnel, [], Some(Response(id, true, "", map[])), false)
    ensures Handle(tunnel, Message(id, Command(GetConfigCommand, parameters)), connect)
      == Outcome(tunnel, [], Some(Response(id, true, "", map[])), false)
  {
  }

  /** Unknown command types are refused and change nothing. */
  lemma UnknownCommandRefused(tunnel: TunnelState, id: int, code: int, parameters: map<string, string>, connect: ConnectResult)
    ensures Handle(tunnel, Message(id, Command(OtherCommand(code), parameters)), connect)
      == Outcome(tunnel, [], Some(Response(id, false, "Unknown command", map[])), false)
  {
  }

  /** What the service sends for an outcome: the broadcasts first, then the response to
      the client that asked. */
  function Deliveries(clientFd: int, o: Outcome): seq<Outgoing>
  {
    seq(|o.broadcasts|, i requires 0 <= i < |o.broadcasts| => Broadcast(o.broadcasts[i]))
    + (if o.response.Some? then [SentTo(clientFd, o.response.value)] else [])
  }

  /** The actions `main` selects from its first argument, and running under the service
      control dispatcher when there is none. */
  datatype CliAction =
    | InstallService | UninstallService | StartService | StopServiceCommand | QueryStatus
    | RunDebug | ShowHelp | UnknownArgument(arg: string) | RunAsService

  /** The if-chain of `main` on `argv[1]`. */
  function Dispatch(args: seq<string>): CliAction
  {
    if |args| <= 1 then RunAsService
    else
      var arg := args[1];
      if arg == "--install" || arg == "-i" then InstallService
      else if arg == "--uninstall" || arg == "-u" then UninstallService
      else if arg == "--start" || arg == "-s" then StartService
      else if arg == "--stop" || arg == "-t" then StopServiceCommand
      else if arg == "--status" then QueryStatus
      else if arg == "--debug" || arg == "-d" then RunDebug
      else if arg == "--help" || arg == "-h" then ShowHelp
      else UnknownArgument(arg)
  }

  /** The flags the help text lists for each action. */
  function HelpFlags(action: CliAction): set<string>
  {
    match action
    case InstallService => {"--install", "-i"}
    case UninstallService => {"--uninstall", "-u"}
    case StartService => {"--start", "-s"}
    case StopServiceCommand => {"--stop", "-t"}
    case QueryStatus => {"--status"}
    case RunDebug => {"--debug", "-d"}
    case ShowHelp => {"--help", "-h"}
    case UnknownArgument(_) => {}
    case RunAsService => {}
  }

  /** The dispatch agrees with the help text: an argument selects an action exactly when
      the help text lists it for that action, and any argument it does not list is
      reported as unknown. */
  lemma DispatchMatchesHelp(program: string, arg: string, rest: seq<string>, action: CliAction)
    requires !action.UnknownArgument? && action != RunAsService
    ensures Dispatch([program, arg] + rest) == action <==> arg in HelpFlags(action)
    ensures (forall a: CliAction :: arg !in HelpFlags(a)) ==> Dispatch([program, arg] + rest) == UnknownArgument(arg)
  {
    var args := [program, arg] + rest;
    assert args[1] == arg;
    if forall a: CliAction :: arg !in HelpFlags(a) {
      assert arg !in HelpFlags(InstallService) && arg !in HelpFlags(UninstallService);
      assert arg !in HelpFlags(StartService) && arg !in HelpFlags(StopServiceCommand);
      assert arg !in HelpFlags(QueryStatus) && arg !in HelpFlags(RunDebug) && arg !in HelpFlags(ShowHelp);
    }
  }

  /** The exit code of `main`. `succeeded` is the result of the step the action performs:
      the elevation request or the installation, the removal, the start, the stop, whether
      the service is installed, or the dispatcher start. Debug mode and help return 0;
      an unknown argument returns 1. */
  function ExitCode(action: CliAction, succeeded: bool): (code: int)
    ensures code == 0 || code == 1
    ensures action.UnknownArgument? ==> code == 1
    ensures action == RunDebug || action == ShowHelp ==> code == 0
    ensures !action.UnknownArgument? && action != RunDebug && action != ShowHelp ==> (code == 0 <==> succeeded)
  {
    match action
    case UnknownArgument(_) => 1
    case RunDebug => 0
    case ShowHelp => 0
    case _ => if succeeded then 0 else 1
  }

  /** The service's globals: the running flag, the tunnel, and what has been written to the
      IPC clients. */
  class ServiceState {
    var running: bool
    var tunnel: TunnelState
    var outbox: seq<Outgoing>

    constructor()
      ensures !running && tunnel == NoTunnel && outbox == []
    {
      running := false;
      tunnel := NoTunnel;
      outbox := [];
    }

    /** `stop_service`. */
    method StopService()
      modifies this
      ensures !running && tunnel == old(tunnel) && outbox == old(outbox)
    {
      running := false;
    }

    /** `run_service`, from the point of view of its globals: the flag is raised, a fresh
        disconnected tunnel is created, the loop polls until the flag is cleared, and the
        tunnel is released. `stopAt[i]` says whether a stop request (Ctrl+C in debug mode,
        or the service control manager) arrives during poll `i`; one must arrive. */
    method RunService(stopAt: seq<bool>) returns (polls: nat)
      requires exists i :: 0 <= i < |stopAt| && stopAt[i]
      modifies this
      ensures !running && tunnel == NoTunnel && outbox == old(outbox)
      ensures 0 < polls <= |stopAt| && stopAt[polls - 1]
      ensures forall i :: 0 <= i < polls - 1 ==> !stopAt[i]
    {
      running := true;
      tunnel := Tunnel(false, TunnelStats(0, 0, 0, 0));
      polls := 0;
      while running
        invariant polls <= |stopAt|
        invariant running ==> exists i :: polls <= i < |stopAt| && stopAt[i]
        invariant running ==> forall i :: 0 <= i < polls ==> !stopAt[i]
        invariant !running ==> 0 < polls && stopAt[polls - 1] && forall i :: 0 <= i < polls - 1 ==> !stopAt[i]
        invariant outbox == old(outbox)
        decreases |stopAt| - polls, running
      {
        if stopAt[polls] {
          StopService();
        }
        polls := polls + 1;
      }
      tunnel := NoTunnel;
    }

    /** `handle_ipc_message`: builds the response field by field, drives the tunnel,
        broadcasts connection events and sends the response to the asking client. */
    method HandleIpcMessage(msg: Message, clientFd: int, connect: ConnectResult) returns (raised: bool)
      modifies this
      ensures var o := Handle(old(tunnel), msg, connect);
        tunnel == o.tunnel && outbox == old(outbox) + Deliveries(clientFd, o) && raised == o.raised
      ensures running == old(running)
    {
      // The outcome the branches below reach, named once for the proof.
      ghost var o := Handle(tunnel, msg, connect);
      if msg.payload.NotACommand? {
        return false;
      }
      var cmd := msg.payload;
      var response := Response(msg.requestId, false, "", map[]);
      match cmd.kind {
        case ConnectCommand =>
          if tunnel.Tunnel? && tunnel.connected {
            response := response.(success := false, errorMessage := "Already connected");
          } else if tunnel.Tunnel? {
            var host := DefaultHost;
            var port := DefaultPort;
            if "host" in cmd.parameters {
              host := cmd.parameters["host"];
            }
            if "port" in cmd.parameters {
              var value := Stoi(cmd.parameters["port"]);
              if value.None? {
                return true;
              }
              port := ToPort(value.value);
            }
            if connect.ConnectSucceeded? {
              tunnel := tunnel.(connected := true);
              response := response.(success := true);
              var event := ConnectionStateChanged(map["state" := "connected", "server" := host + ":" + NatToString(port)]);
              outbox := outbox + [Broadcast(event)];
            } else {
              response := response.(success := false, errorMessage := connect.message);
            }
          } else {
            response := response.(success := false, errorMessage := "Tunnel not initialized");
          }
        case DisconnectCommand =>
          if tunnel.Tunnel? && tunnel.connected {
            tunnel := tunnel.(connected := false);
            response := response.(success := true);
            outbox := outbox + [Broadcast(ConnectionStateChanged(map["state" := "disconnected"]))];
          } else {
            response := response.(success := false, errorMessage := "Not connected");
          }
        case GetStatusCommand =>
          response := response.(success := true);
          if tunnel.Tunnel? {
            response := response.(data := response.data["connected" := if tunnel.connected then "true" else "false"]);
          } else {
            response := response.(data := response.data["connected" := "false"]);
            response := response.(data := response.data["error" := "Tunnel not initialized"]);
          }
        case GetStatisticsCommand =>
          response := response.(success := true);
          if tunnel.Tunnel? {
            var stats := tunnel.stats;
            response := response.(data := response.data["bytes_sent" := NatToString(stats.bytesSent)]);
            response := response.(data := response.data["bytes_received" := NatToString(stats.bytesReceived)]);
            response := response.(data := response.data["packets_sent" := NatToString(stats.packetsSent)]);
            response := response.(data := response.data["packets_received" := NatToString(stats.packetsReceived)]);
          }
        case SetConfigCommand =>
          response := response.(success := true);
        case GetConfigCommand =>
          response := response.(success := true);
        case OtherCommand(_) =>
          response := response.(success := false, errorMessage := "Unknown command");
      }
      outbox := outbox + [SentTo(clientFd, response)];
      return false;
    }
  }
}
