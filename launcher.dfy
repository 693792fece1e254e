/**
 * The launcher's port selection (launch_monky.py): `find_available_port`
 * probes ports upward from a start port until a socket binds, and
 * `ensure_server_port` picks the server's port from the configuration and
 * writes it back only when it had to move. Whether a host resolves and
 * whether a socket binds to a (host, port) pair are the operating system's
 * answers, given as the oracle `net`.
 */
module Launcher {
  import opened Wrappers
  import opened JsonValue
  import opened PyText
  import opened ConfigTree

  /**
   * The operating system as `bind((host, port))` sees it: whether the host
   * resolves to an address, and whether a socket binds to a resolved host
   * and a port in 0..65535. A failure of either is an `OSError`.
   */
  datatype Net = Net(resolves: string -> bool, binds: (string, int) -> bool)

  /** The exceptions that end a search or a port choice. */
  datatype Failure =
    | NoOpenPort     // RuntimeError: no candidate bound
    | PortOverflow   // OverflowError: bind on a port outside 0..65535
    | HostType       // TypeError: the host is not a string
    | ServerNotDict  // AttributeError: `server` holds something other than a dict
    | PortNotInt     // ValueError or TypeError from `int(port)`

  /** What a port search returns. */
  datatype Search = Found(port: int) | Failed(failure: Failure)

  /** What `ensure_server_port` returns: the host and port, or the exception it raises. */
  datatype Launch = Serving(host: string, port: int) | LaunchFailed(reason: Failure)

  /** The range `bind` accepts for an AF_INET port. */
  predicate InPortRange(p: int) {
    0 <= p <= 65535
  }

  /** The range of a C `int`, which the address tuple's port is parsed into before the host is resolved. */
  predicate InCIntRange(p: int) {
    -0x8000_0000 <= p <= 0x7FFF_FFFF
  }

  /** The number of candidates `ensure_server_port` lets the search probe. */
  const Attempts: nat := 20

  /** The host and port used when the configuration names none. */
  const DefaultHost: string := "127.0.0.1"
  const DefaultPort: int := 5050

  /**
   * The outcome of probing `start`, `start + 1`, … for at most `attempts`
   * candidates: each probe either binds, fails with an OS error (the search
   * moves on), or raises an exception the search does not catch. `bind`
   * checks, in order: the host's type, the port fitting a C `int`, the host
   * resolving, the port range, and the bind itself.
   */
  function FirstFit(net: Net, host: Json, start: int, attempts: int): Search
    decreases attempts
  {
    if attempts <= 0 then Failed(NoOpenPort)
    else if !host.Str? then Failed(HostType)
    else if !InCIntRange(start) then Failed(PortOverflow)
    else if !net.resolves(host.s) then FirstFit(net, host, start + 1, attempts - 1)
    else if !InPortRange(start) then Failed(PortOverflow)
    else if net.binds(host.s, start) then Found(start)
    else FirstFit(net, host, start + 1, attempts - 1)
  }

  /**
   * `find_available_port(host, start_port, attempts)`. `probed` lists the
   * candidates handed to `bind`, in order.
   */
  method FindAvailablePort(net: Net, host: Json, start: int, attempts: int)
    returns (r: Search, probed: seq<int>)
    ensures r == FirstFit(net, host, start, attempts)
    ensures |probed| <= (if attempts < 0 then 0 else attempts)
    ensures forall k :: 0 <= k < |probed| ==> probed[k] == start + k
    ensures r.Found? ==> probed != [] && probed[|probed| - 1] == r.port
    ensures r == Failed(NoOpenPort) ==> |probed| == (if attempts < 0 then 0 else attempts)
  {
    var candidate := start;
    var i := 0;
    probed := [];
    while i < attempts
      invariant 0 <= i <= (if attempts < 0 then 0 else attempts)
      invariant candidate == start + i
      invariant |probed| == i
      invariant forall k :: 0 <= k < |probed| ==> probed[k] == start + k
      invariant FirstFit(net, host, candidate, attempts - i) == FirstFit(net, host, start, attempts)
      decreases attempts - i
    {
      probed := probed + [candidate];
      if !host.Str? {
        return Failed(HostType), probed;
      }
      if !InCIntRange(candidate) {
        return Failed(PortOverflow), probed;
      }
      if net.resolves(host.s) {
        if !InPortRange(candidate) {
          return Failed(PortOverflow), probed;
        }
        if net.binds(host.s, candidate) {
          return Found(candidate), probed;
        }
      }
      candidate := candidate + 1;
      i := i + 1;
    }
    r := Failed(NoOpenPort);
  }

  /**
   * A candidate the search moves past because `bind` fails with an OS error:
   * the host does not resolve, or the port is valid and does not bind.
   */
  predicate Refused(net: Net, host: string, p: int) {
    InCIntRange(p) && (!net.resolves(host) || (InPortRange(p) && !net.binds(host, p)))
  }

  /**
   * A port the search finds lies in `start .. start + attempts - 1`, binds,
   * and every candidate before it was refused with an OS error.
   */
  lemma {:induction false} FoundIsFirstFit(net: Net, host: Json, start: int, attempts: int)
    requires FirstFit(net, host, start, attempts).Found?
    ensures var p := FirstFit(net, host, start, attempts).port;
            host.Str? && net.resolves(host.s) && start <= p < start + attempts
            && InPortRange(p) && net.binds(host.s, p)
            && forall q :: start <= q < p ==> Refused(net, host.s, q)
    decreases attempts
  {
    if !net.resolves(host.s) || !net.binds(host.s, start) {
      FoundIsFirstFit(net, host, start + 1, attempts - 1);
    }
  }

  /**
   * The search gives up with its own error exactly when it probes nothing or
   * every candidate is refused with an OS error.
   */
  lemma {:induction false} NoOpenPortIff(net: Net, host: Json, start: int, attempts: int)
    ensures FirstFit(net, host, start, attempts) == Failed(NoOpenPort) <==>
              attempts <= 0 ||
              (host.Str? && forall p :: start <= p < start + attempts ==> Refused(net, host.s, p))
    decreases attempts
  {
    if attempts > 0 && host.Str? {
      NoOpenPortIff(net, host, start + 1, attempts - 1);
      if !Refused(net, host.s, start) {
      } else if forall p :: start + 1 <= p < start + attempts ==> Refused(net, host.s, p) {
        assert forall p :: start <= p < start + attempts ==> Refused(net, host.s, p);
      }
    }
  }

  /**
   * A host that does not resolve makes every probe an OS error, so the
   * search gives up with its own error even when the ports are out of
   * range, as long as they fit a C `int`.
   */
  lemma {:induction false} UnresolvedHostExhausts(net: Net, host: Json, start: int, attempts: int)
    requires host.Str? && !net.resolves(host.s)
    requires InCIntRange(start) && InCIntRange(start + attempts - 1)
    ensures FirstFit(net, host, start, attempts) == Failed(NoOpenPort)
    decreases attempts
  {
    if attempts > 1 {
      UnresolvedHostExhausts(net, host, start + 1, attempts - 1);
    }
  }

  /** A search whose candidates are all valid ports never overflows, and a string host never raises TypeError. */
  lemma {:induction false} NoOverflowInRange(net: Net, host: Json, start: int, attempts: int)
    requires host.Str? && 0 <= start && start + attempts - 1 <= 65535
    ensures FirstFit(net, host, start, attempts) != Failed(PortOverflow)
    ensures FirstFit(net, host, start, attempts) != Failed(HostType)
    decreases attempts
  {
    if attempts > 0 && (!net.resolves(host.s) || !net.binds(host.s, start)) {
      NoOverflowInRange(net, host, start + 1, attempts - 1);
    }
  }

  /** A host that is not a string fails the first probe, when there is one. */
  lemma HostMustBeText(net: Net, host: Json, start: int, attempts: int)
    requires !host.Str?
    ensures FirstFit(net, host, start, attempts) == if attempts <= 0 then Failed(NoOpenPort) else Failed(HostType)
  {
  }

  /** Python's `int(x)` on a decoded JSON value; `None` where it raises. */
  function PyInt(v: Json): Option<int> {
    match v
    case Num(n) => Some(n)
    case Bool(b) => Some(if b then 1 else 0)
    case Str(s) => ParseInt(s)
    case _ => None
  }

  /**
   * A port stored as a number or as its decimal text is read back as that
   * port; `null`, lists and dicts make `int` raise.
   */
  lemma PortReadsBack(p: int)
    ensures PyInt(Num(p)) == Some(p)
    ensures PyInt(Str(IntToDecimal(p))) == Some(p)
    ensures PyInt(Null) == None && PyInt(Arr([])) == None && PyInt(Obj(map[])) == None
  {
    DecimalRoundTrip(p);
  }

  /** `config.setdefault("server", {})`: the section, or an empty dict when there is none. */
  function ServerSection(m: Fields): Json {
    GetOr(m, "server", Obj(map[]))
  }

  /** The port the server section asks for, when `int` accepts it. */
  function DesiredPort(section: Fields): Option<int> {
    PyInt(GetOr(section, "port", Num(DefaultPort)))
  }

  /** The result `ensure_server_port` reaches from the server section. */
  function PortChoice(section: Json, net: Net): Launch {
    if !section.Obj? then LaunchFailed(ServerNotDict)
    else
      var host := GetOr(section.fields, "host", Str(DefaultHost));
      var desired := DesiredPort(section.fields);
      if desired.None? then LaunchFailed(PortNotInt)
      else
        var found := FirstFit(net, host, desired.value, Attempts);
        if found.Failed? then LaunchFailed(found.failure) else Serving(host.s, found.port)
  }

  /**
   * `ensure_server_port(config)`: adds an empty `server` section when there
   * is none, chooses the first port from the desired one that binds, and
   * when it differs stores it as `server.port` and saves the whole
   * configuration (`saved` is what `save_config` writes).
   */
  method EnsureServerPort(config: Dict, net: Net) returns (r: Launch, saved: Option<Fields>)
    modifies config
    ensures var section := ServerSection(old(config.entries));
            r == PortChoice(section, net)
            && (saved.Some? <==> r.Serving? && Some(r.port) != DesiredPort(section.fields))
            && config.entries ==
                 (if saved.Some? then old(config.entries)["server" := Obj(section.fields["port" := Num(r.port)])]
                  else old(config.entries)["server" := section])
            && (saved.Some? ==> saved.value == config.entries)
  {
    if "server" !in config.entries {
      config.entries := config.entries["server" := Obj(map[])];
    }
    var section := config.entries["server"];
    if !section.Obj? {
      return LaunchFailed(ServerNotDict), None;
    }
    var host := GetOr(section.fields, "host", Str(DefaultHost));
    var desired := PyInt(GetOr(section.fields, "port", Num(DefaultPort)));
    if desired.None? {
      return LaunchFailed(PortNotInt), None;
    }
    var found, _ := FindAvailablePort(net, host, desired.value, Attempts);
    if found.Failed? {
      return LaunchFailed(found.failure), None;
    }
    r := Serving(host.s, found.port);
    saved := None;
    if found.port != desired.value {
      config.entries := config.entries["server" := Obj(section.fields["port" := Num(found.port)])];
      saved := Some(config.entries);
    }
  }

  /**
   * A port chosen for the server lies within the twenty candidates from
   * the desired one and binds on the configured host.
   */
  lemma ChosenPortBinds(section: Json, net: Net)
    requires PortChoice(section, net).Serving?
    ensures var r := PortChoice(section, net);
            var d := DesiredPort(section.fields).value;
            d <= r.port < d + Attempts && InPortRange(r.port) && net.resolves(r.host) && net.binds(r.host, r.port)
            && r.host == GetOr(section.fields, "host", Str(DefaultHost)).s
  {
    var host := GetOr(section.fields, "host", Str(DefaultHost));
    FoundIsFirstFit(net, host, DesiredPort(section.fields).value, Attempts);
  }

  /** The desired port is kept, and nothing is written, whenever it binds. */
  lemma FreeDesiredPortKept(section: Json, net: Net)
    requires section.Obj? && DesiredPort(section.fields).Some?
    requires var host := GetOr(section.fields, "host", Str(DefaultHost));
             var d := DesiredPort(section.fields).value;
             host.Str? && net.resolves(host.s) && InPortRange(d) && net.binds(host.s, d)
    ensures PortChoice(section, net) ==
              Serving(GetOr(section.fields, "host", Str(DefaultHost)).s, DesiredPort(section.fields).value)
  {
  }

  /** A configuration without a server section asks for 127.0.0.1:5050. */
  lemma EmptySectionDefaults(net: Net)
    requires net.resolves(DefaultHost) && net.binds(DefaultHost, DefaultPort)
    ensures PortChoice(ServerSection(map[]), net) == Serving(DefaultHost, DefaultPort)
    ensures DesiredPort(ServerSection(map[]).fields) == Some(DefaultPort)
  {
  }
}
