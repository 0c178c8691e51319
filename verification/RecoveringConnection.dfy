/** The connection object of the client, whose methods change its fields as the recovery protocol says. */
module RecoveringConnection {
  import opened Base
  import opened HostPort
  import R = Recovery
  import Laws = RecoveryLaws
  import E = RecoveryEffects
  import RecoveryCauses

  /** The first send of the request is answered, without an order to rebootstrap and without a stall. */
  ghost predicate AnsweredWell(net: R.Net, api: R.Api, floor: Option<int>, config: R.Config, world: R.World,
                               version: int, response: R.Response)
  {
    && E.FirstAnswer(net, api, floor, config, world, version, Ok(response)) && !E.Orders(api, response)
    && !E.Stalls(api, response, config, E.Since(net, world), world.clock(E.Tick(net, api) + 1))
  }

  class Connection {
    const config: R.Config
    const world: R.World
    var inner: R.Connection
    var knownAddresses: seq<string>
    var firstMetadataAttempt: Option<int>
    var log: seq<R.Event>

    ghost function State(): R.Net
      reads this
    {
      R.Net(inner, knownAddresses, firstMetadataAttempt, log)
    }

    /** There is an address to dial, and the timer is the one that the run tells. */
    ghost predicate Valid()
      reads this
    {
      Laws.Steady(config, State())
    }

    constructor (config: R.Config, world: R.World, inner: R.Connection, knownAddresses: seq<string>, log: seq<R.Event>)
      ensures this.config == config && this.world == world
      ensures State() == R.Net(inner, knownAddresses, None, log)
      ensures Laws.Steady(config, R.Net(inner, knownAddresses, None, log)) ==> Valid()
    {
      this.config, this.world := config, world;
      this.inner, this.knownAddresses, this.firstMetadataAttempt, this.log := inner, knownAddresses, None, log;
    }

    method ConnectOne(address: string) returns (r: Result<R.Connection, AdminError>)
      modifies this
      ensures R.Outcome(State(), r) == R.Dial(old(State()), address, world)
    {
      var dialled := world.dial(|log|, address);
      match dialled
      case Err(error) =>
        log, r := log + [R.Dialled(address, Some(error))], Err(error);
      case Ok(advertised) =>
        r := Ok(R.Connection(|log|, advertised));
        log := log + [R.Dialled(address, None)];
    }

    /** Collects the addresses of the nodes that can be dialled. */
    method Endpoints(nodes: seq<NodeRow>) returns (addresses: seq<string>)
      ensures addresses == R.Addresses(nodes)
    {
      addresses := [];
      for i := 0 to |nodes|
        invariant addresses == R.Addresses(nodes[..i])
      {
        assert nodes[..i + 1][..i] == nodes[..i];
        if R.Usable(nodes[i]) {
          addresses := addresses + [FormatHostPort(nodes[i].host, nodes[i].port)];
        }
      }
      assert nodes[..|nodes|] == nodes;
    }

    method DescribeControllers(bootstrap: R.Connection) returns (r: Result<R.Response, AdminError>)
      modifies this
      ensures R.Outcome(State(), r) == R.Describe(old(State()), bootstrap, config, world)
    {
      match R.NegotiatedAtLeast(config.discovery, bootstrap, Some(1))
      case Err(error) => r := Err(Transport(error));
      case Ok(version) =>
        var answer := world.answer(|log|, config.discovery, version);
        log := log + [R.Described(version, R.ErrorOf(answer))];
        r := if answer.Ok? then Ok(answer.value) else Err(Transport(answer.error));
    }

    method ConnectController(address: string) returns (r: Result<R.Connected, AdminError>)
      modifies this
      ensures R.Outcome(State(), r) == R.DialController(old(State()), address, config, world)
    {
      var bootstrap := ConnectOne(address);
      if bootstrap.Err? {
        return Err(bootstrap.error);
      }
      var response := DescribeControllers(bootstrap.value);
      if response.Err? {
        return Err(response.error);
      }
      var controller := R.ControllerAddress(response.value);
      if controller.Err? {
        return Err(controller.error);
      }
      var discovered := Endpoints(response.value.nodes);
      var connection := ConnectOne(controller.value);
      r := if connection.Err? then Err(connection.error) else Ok(R.Connected(connection.value, discovered));
    }

    method ConnectTarget(address: string) returns (r: Result<R.Connected, AdminError>)
      modifies this
      ensures R.Outcome(State(), r) == R.DialTarget(old(State()), address, config, world)
    {
      if config.target.Controllers? {
        r := ConnectController(address);
      } else {
        var connection := ConnectOne(address);
        r := if connection.Err? then Err(connection.error) else Ok(R.Connected(connection.value, []));
      }
    }

    /** Dials the addresses in order, up to the first that connects or rejects the client. */
    method ConnectFirst(addresses: seq<string>) returns (r: Result<R.Connected, AdminError>)
      modifies this
      ensures R.Outcome(State(), r) == R.DialAll(old(State()), addresses, config, world)
    {
      var last: Option<AdminError> := None;
      for i := 0 to |addresses|
        invariant R.DialEach(State(), addresses[i..], |addresses|, last, config, world) ==
                  R.DialAll(old(State()), addresses, config, world)
      {
        assert addresses[i..][0] == addresses[i] && addresses[i..][1..] == addresses[i + 1..];
        r := ConnectTarget(addresses[i]);
        if r.Ok? || IsAuthenticationFailure(r.error) {
          return;
        }
        last := Some(r.error);
      }
      r := Err(Connect(|addresses|, last));
    }

    method Rebootstrap() returns (r: Result<(), AdminError>)
      modifies this
      ensures R.Outcome(State(), r) == R.Rebootstrapped(old(State()), config, world)
      ensures old(Valid()) ==> Valid()
    {
      Laws.RebootstrappedKeeps(State(), config, world);
      log := log + [R.Rebootstrapping];
      var connected := ConnectFirst(config.bootstrap);
      match connected
      case Err(error) => r := Err(error);
      case Ok(target) =>
        inner := target.connection;
        knownAddresses := if target.discovered == [] then config.bootstrap else target.discovered;
        firstMetadataAttempt := None;
        log := log + [R.Rebooted];
        r := Ok(());
    }

    method ReconnectCurrentMetadata() returns (r: Result<(), AdminError>)
      modifies this
      ensures R.Outcome(State(), r) == R.Reconnected(old(State()), config, world)
    {
      var connected := ConnectFirst(knownAddresses);
      match connected
      case Err(error) => r := Err(error);
      case Ok(target) =>
        inner := target.connection;
        if target.discovered != [] {
          knownAddresses := target.discovered;
        }
        r := Ok(());
    }

    method BeginMetadataAttempt(api: R.Api)
      modifies this
      ensures State() == R.Begun(old(State()), api, config, world)
    {
      if api.key == R.METADATA {
        var now := world.clock(|log|);
        if config.strategy.Rebootstrap? && firstMetadataAttempt.None? {
          firstMetadataAttempt := Some(now);
        }
        log := log + [R.Attempt(now)];
      }
    }

    method SendCurrent(api: R.Api, floor: Option<int>) returns (answer: Result<R.Response, ClientError>)
      modifies this
      ensures (State(), answer) == R.SendCurrent(old(State()), api, floor, world)
    {
      match R.NegotiatedAtLeast(api, inner, floor)
      case Err(error) => answer := Err(error);
      case Ok(version) =>
        answer := world.answer(|log|, api, version);
        log := log + [R.Sent(api, version, R.ErrorOf(answer))];
    }

    /** Takes over the addresses of an answer, clears the timer if it names brokers, and returns it. */
    method Observe(api: R.Api, response: R.Response)
      modifies this
      ensures State() == R.Observed(old(State()), api, response, config)
    {
      if R.NamesNodes(api, config) {
        var endpoints := Endpoints(response.nodes);
        if endpoints != [] {
          knownAddresses := endpoints;
        }
      }
      if api.key == R.METADATA && response.nodes != [] {
        firstMetadataAttempt := None;
      }
      log := log + [R.Returned(api, response)];
    }

    predicate Refuses(api: R.Api)
      reads this
    {
      config.target.Controllers? && api.key !in inner.advertised
    }

    method SendAfterRebootstrap(api: R.Api, floor: Option<int>) returns (r: Result<R.Response, AdminError>)
      modifies this
      ensures R.Outcome(State(), r) == R.SendAfterRebootstrap(old(State()), api, floor, config, world)
    {
      var rebooted := Rebootstrap();
      if rebooted.Err? {
        return Err(rebooted.error);
      }
      if Refuses(api) {
        return Err(R.REFUSAL);
      }
      BeginMetadataAttempt(api);
      var answer := SendCurrent(api, floor);
      match answer
      case Err(error) => r := Err(Transport(error));
      case Ok(response) =>
        if R.MustRebootstrap(api, response) {
          return Err(R.REBOOTSTRAP_ERROR);
        }
        Observe(api, response);
        r := Ok(response);
    }

    predicate MetadataAttemptTimedOut(api: R.Api, response: R.Response)
      reads this
    {
      && config.strategy.Rebootstrap? && api.key == R.METADATA && response.nodes == []
      && firstMetadataAttempt.Some? && world.clock(|log|) - firstMetadataAttempt.value >= config.trigger
    }

    /** Decides on an answer: an order to rebootstrap, stalled metadata, or the result. */
    method Decide(api: R.Api, floor: Option<int>, response: R.Response) returns (r: Result<R.Response, AdminError>)
      modifies this
      ensures R.Outcome(State(), r) == R.Answered(old(State()), api, floor, response, config, world)
    {
      if R.MustRebootstrap(api, response) {
        if config.strategy.NoRecovery? {
          return Err(R.REBOOTSTRAP_ERROR);
        }
        r := SendAfterRebootstrap(api, floor);
      } else if MetadataAttemptTimedOut(api, response) {
        r := SendAfterRebootstrap(api, floor);
      } else {
        Observe(api, response);
        r := Ok(response);
      }
    }

    method SendAfterCurrentMetadata(api: R.Api, floor: Option<int>) returns (r: Result<R.Response, AdminError>)
      modifies this
      ensures R.Outcome(State(), r) == R.SendAfterReconnect(old(State()), api, floor, config, world)
    {
      var reconnected := ReconnectCurrentMetadata();
      if reconnected.Err? {
        return Err(reconnected.error);
      }
      if Refuses(api) {
        return Err(R.REFUSAL);
      }
      var answer := SendCurrent(api, floor);
      match answer
      case Err(error) => r := Err(Transport(error));
      case Ok(response) => r := Decide(api, floor, response);
    }

    /** One request, with what every request keeps: the connection stays valid; at most four sends and two rebootstraps,
        and without a strategy two and none; a rejection is the last event and the result; no Metadata answer with code
        129 is returned, and a returned one with brokers leaves the timer clear; a good first answer is returned at
        once; and a rebootstrap has a cause in the request. */
    method SendWithMinVersion(api: R.Api, floor: Option<int>) returns (r: Result<R.Response, AdminError>)
      modifies this
      ensures R.Outcome(State(), r) == R.Send(old(State()), api, floor, config, world)
      ensures old(Valid()) ==> Valid()
      ensures old(log) <= log && Laws.Fatal(old(log), log, if r.Err? then Some(r.error) else None)
      ensures Laws.Sends(log) <= Laws.Sends(old(log)) + 2 + Laws.Allowed(config, 2)
      ensures Laws.Reboots(log) <= Laws.Reboots(old(log)) + Laws.Allowed(config, 2)
      ensures r.Ok? ==> !R.MustRebootstrap(api, r.value)
      ensures r.Ok? && api.key == R.METADATA && r.value.nodes != [] ==> firstMetadataAttempt == None
      ensures forall version, response | AnsweredWell(old(State()), api, floor, config, world, version, response) ::
                && r == Ok(response) && inner == old(inner)
                && log == old(log) + E.Before(old(State()), api, world) +
                          [R.Sent(api, version, None), R.Returned(api, response)]
      ensures old(Valid()) ==> RecoveryCauses.Justified(config, world, |old(log)|, log)
    {
      ghost var before := State();
      r := SendRequest(api, floor);
      forall version, response | AnsweredWell(before, api, floor, config, world, version, response)
        ensures && r == Ok(response) && inner == before.connection
                && log == before.log + E.Before(before, api, world) +
                          [R.Sent(api, version, None), R.Returned(api, response)]
      {
        E.GoodAnswerIsReturned(before, api, floor, config, world, version, response);
      }
      if Laws.Steady(config, before) { RecoveryCauses.RebootstrapHasACause(before, api, floor, config, world); }
      Laws.SendKeeps(before, api, floor, config, world);
      Laws.SendSettles(before, api, floor, config, world);
    }

    method SendRequest(api: R.Api, floor: Option<int>) returns (r: Result<R.Response, AdminError>)
      modifies this
      ensures R.Outcome(State(), r) == R.Send(old(State()), api, floor, config, world)
    {
      if Refuses(api) {
        return Err(R.REFUSAL);
      }
      BeginMetadataAttempt(api);
      var answer := SendCurrent(api, floor);
      match answer
      case Ok(response) => r := Decide(api, floor, response);
      case Err(error) =>
        if !IsRetriableTransport(error) {
          return Err(Transport(error));
        }
        r := SendAfterCurrentMetadata(api, floor);
        if r.Ok? || IsAuthenticationFailure(r.error) {
          return;
        }
        if config.strategy.Rebootstrap? {
          r := SendAfterRebootstrap(api, floor);
        } else {
          r := Err(Transport(error));
        }
    }

    method Reconnect(address: string) returns (r: Result<(), AdminError>)
      modifies this
      ensures old(Valid()) ==> Valid()
      ensures State() == R.Stepped(old(State()), R.GoTo(address), config, world)
      ensures r.Err? <==> R.Dial(old(State()), address, world).result.Err?
    {
      Laws.DialKeeps(State(), address, config, world);
      var connection := ConnectOne(address);
      match connection
      case Err(error) => r := Err(error);
      case Ok(replacement) => inner, r := replacement, Ok(());
    }
  }

  /** The first connection of a client, which is valid. */
  method Open(config: R.Config, world: R.World) returns (r: Result<Connection, AdminError>)
    ensures r.Ok? <==> R.Opened(config, world).result.Ok?
    ensures r.Ok? ==> fresh(r.value) && r.value.Valid() && r.value.State() == R.Opened(config, world).net
    ensures r.Ok? ==> r.value.config == config && r.value.world == world
    ensures r.Err? ==> r.error == R.Opened(config, world).result.error
  {
    Laws.OpenedIsSteady(config, world);
    var start := new Connection(config, world, R.Connection(0, map[]), config.bootstrap, []);
    var connected := start.ConnectFirst(config.bootstrap);
    match connected
    case Err(error) => r := Err(R.OpeningError(config, error));
    case Ok(target) =>
      var known := if target.discovered == [] then config.bootstrap else target.discovered;
      var connection := new Connection(config, world, target.connection, known, start.log);
      r := Ok(connection);
  }
}
