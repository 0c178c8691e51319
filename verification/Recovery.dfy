/** The recovery protocol of one client connection (KIP-919 and KIP-1102): reconnecting to the known addresses,
    going back to the bootstrap addresses, and the timer that decides when brokerless metadata forces that. */
module Recovery {
  import opened Base
  import opened HostPort

  datatype Strategy = NoRecovery | Rebootstrap

  datatype Target = Brokers | Controllers

  /** One kind of request: its key and the versions that the client knows. */
  datatype Api = Api(key: int, oldest: int, latest: int)

  const METADATA := 3
  const DESCRIBE_CLUSTER := 60
  const REBOOTSTRAP_REQUIRED := 129
  const UNSUPPORTED_ENDPOINT_TYPE := 115
  const ENDPOINT_TYPE_CONTROLLERS := 2

  /** The fields of an answer that the connection looks at. */
  datatype Response = Response(code: int, nodes: seq<NodeRow>, endpointType: int, controllerId: int,
                               message: Option<string>)

  /** An open connection with the version ranges that its peer advertised. */
  datatype Connection = Connection(since: nat, advertised: map<int, (int, int)>)

  datatype Config = Config(
    bootstrap: seq<string>, strategy: Strategy, trigger: int, target: Target, discovery: Api)

  /** What a run does on the network, and where it touches the metadata timer. */
  datatype Event =
    | Dialled(address: string, refused: Option<AdminError>)
    | Described(version: int, lost: Option<ClientError>)
    | Sent(api: Api, version: int, failed: Option<ClientError>)
    | Attempt(at: int)
    | Rebootstrapping
    | Rebooted
    | Returned(kind: Api, response: Response)

  /** The environment, asked at each point of a run for the outcome of a dial, of a request, and for the time. */
  datatype World = World(
    dial: (nat, string) -> Result<map<int, (int, int)>, AdminError>,
    answer: (nat, Api, int) -> Result<Response, ClientError>,
    clock: nat -> int)

  /** The state of the connection, and the run so far. */
  datatype Net = Net(connection: Connection, known: seq<string>, timer: Option<int>, log: seq<Event>)

  datatype Outcome<+T> = Outcome(net: Net, result: Result<T, AdminError>)

  function Logged(net: Net, event: Event): Net {
    net.(log := net.log + [event])
  }

  function ErrorOf<T>(r: Result<T, ClientError>): Option<ClientError> {
    if r.Err? then Some(r.error) else None
  }

  // ----- versions -----

  function RangeOf(api: Api, connection: Connection): (int, int) {
    if api.key in connection.advertised then connection.advertised[api.key] else (0, 0)
  }

  function Chosen(api: Api, connection: Connection): int {
    if api.latest <= RangeOf(api, connection).1 then api.latest else RangeOf(api, connection).1
  }

  function Negotiated(api: Api, connection: Connection): Result<int, ClientError> {
    var chosen := Chosen(api, connection);
    if chosen < api.oldest || chosen < RangeOf(api, connection).0 then Err(IncompatibleVersion) else Ok(chosen)
  }

  /** A version that both sides know. */
  predicate Common(api: Api, connection: Connection, version: int) {
    RangeOf(api, connection).0 <= version <= RangeOf(api, connection).1 && api.oldest <= version <= api.latest
  }

  /** The highest version that both sides know, unless it is below `floor`. */
  function NegotiatedAtLeast(api: Api, connection: Connection, floor: Option<int>): (version: Result<int, ClientError>)
    ensures version.Ok? ==>
              && Common(api, connection, version.value) && (floor.Some? ==> floor.value <= version.value)
              && forall v | Common(api, connection, v) :: v <= version.value
    ensures version.Err? ==> forall v | Common(api, connection, v) :: floor.Some? && v < floor.value
  {
    if floor.None? then Negotiated(api, connection)
    else
      var clientMin := if api.oldest >= floor.value then api.oldest else floor.value;
      var chosen := Chosen(api, connection);
      if chosen < clientMin || chosen < RangeOf(api, connection).0 then Err(IncompatibleVersion)
      else Negotiated(api, connection)
  }

  // ----- dialling -----

  function Dial(net: Net, address: string, world: World): Outcome<Connection> {
    match world.dial(|net.log|, address)
    case Err(error) => Outcome(Logged(net, Dialled(address, Some(error))), Err(error))
    case Ok(advertised) => Outcome(Logged(net, Dialled(address, None)), Ok(Connection(|net.log|, advertised)))
  }

  /** The nodes that can be dialled, as addresses. */
  function Addresses(nodes: seq<NodeRow>): (q: seq<string>)
    ensures q == [] <==> forall node | node in nodes :: !Usable(node)
  {
    if nodes == [] then []
    else
      var rest, node := Addresses(nodes[..|nodes| - 1]), nodes[|nodes| - 1];
      if Usable(node) then rest + [FormatHostPort(node.host, node.port)] else rest
  }

  predicate Usable(node: NodeRow) {
    node.host != "" && node.port > 0
  }

  datatype Connected = Connected(connection: Connection, discovered: seq<string>)

  /** Asks the node behind `connection` for the controllers. */
  function Describe(net: Net, connection: Connection, config: Config, world: World): Outcome<Response> {
    match NegotiatedAtLeast(config.discovery, connection, Some(1))
    case Err(error) => Outcome(net, Err(Transport(error)))
    case Ok(version) =>
      var answer := world.answer(|net.log|, config.discovery, version);
      Outcome(Logged(net, Described(version, ErrorOf(answer))),
              if answer.Ok? then Ok(answer.value) else Err(Transport(answer.error)))
  }

  /** The address of the active controller in a DescribeCluster answer. */
  function ControllerAddress(response: Response): Result<string, AdminError> {
    if response.code != 0 then Err(Broker(response.code, response.message))
    else if response.endpointType != ENDPOINT_TYPE_CONTROLLERS then Err(Protocol)
    else
      match First((node: NodeRow) => node.nodeId == response.controllerId, response.nodes)
      case None => Err(Protocol)
      case Some(node) => if Usable(node) then Ok(FormatHostPort(node.host, node.port)) else Err(Protocol)
  }

  function DialController(net: Net, address: string, config: Config, world: World): Outcome<Connected> {
    var first := Dial(net, address, world);
    if first.result.Err? then Outcome(first.net, Err(first.result.error))
    else
      var described := Describe(first.net, first.result.value, config, world);
      if described.result.Err? then Outcome(described.net, Err(described.result.error))
      else
        var controller := ControllerAddress(described.result.value);
        if controller.Err? then Outcome(described.net, Err(controller.error))
        else
          var second := Dial(described.net, controller.value, world);
          if second.result.Err? then Outcome(second.net, Err(second.result.error))
          else Outcome(second.net, Ok(Connected(second.result.value, Addresses(described.result.value.nodes))))
  }

  function DialTarget(net: Net, address: string, config: Config, world: World): Outcome<Connected> {
    if config.target.Controllers? then DialController(net, address, config, world)
    else
      var dialled := Dial(net, address, world);
      if dialled.result.Err? then Outcome(dialled.net, Err(dialled.result.error))
      else Outcome(dialled.net, Ok(Connected(dialled.result.value, [])))
  }

  /** Tries the addresses in order, up to the first that connects or rejects the client. */
  function DialEach(net: Net, addresses: seq<string>, tried: nat, last: Option<AdminError>,
                    config: Config, world: World): Outcome<Connected>
    decreases |addresses|
  {
    if addresses == [] then Outcome(net, Err(Connect(tried, last)))
    else
      var dialled := DialTarget(net, addresses[0], config, world);
      match dialled.result
      case Ok(_) => dialled
      case Err(error) =>
        if IsAuthenticationFailure(error) then dialled
        else DialEach(dialled.net, addresses[1..], tried, Some(error), config, world)
  }

  function DialAll(net: Net, addresses: seq<string>, config: Config, world: World): Outcome<Connected> {
    DialEach(net, addresses, |addresses|, None, config, world)
  }

  function Bootstrapped(config: Config, connected: Connected): seq<string> {
    if connected.discovered == [] then config.bootstrap else connected.discovered
  }

  function Rebootstrapped(net: Net, config: Config, world: World): Outcome<()> {
    var dialled := DialAll(Logged(net, Rebootstrapping), config.bootstrap, config, world);
    match dialled.result
    case Err(error) => Outcome(dialled.net, Err(error))
    case Ok(connected) =>
      Outcome(Net(connected.connection, Bootstrapped(config, connected), None, dialled.net.log + [Rebooted]), Ok(()))
  }

  function Reconnected(net: Net, config: Config, world: World): Outcome<()> {
    var dialled := DialAll(net, net.known, config, world);
    match dialled.result
    case Err(error) => Outcome(dialled.net, Err(error))
    case Ok(connected) =>
      var known := if connected.discovered == [] then dialled.net.known else connected.discovered;
      Outcome(dialled.net.(connection := connected.connection, known := known), Ok(()))
  }

  // ----- one request -----

  predicate Refuses(net: Net, api: Api, config: Config) {
    config.target.Controllers? && api.key !in net.connection.advertised
  }

  const REFUSAL: AdminError := Broker(UNSUPPORTED_ENDPOINT_TYPE, None)

  /** A Metadata request starts the timer, unless the strategy is off or the timer runs. */
  function Begun(net: Net, api: Api, config: Config, world: World): Net {
    if api.key != METADATA then net
    else
      var now := world.clock(|net.log|);
      var timer := if config.strategy.NoRecovery? || net.timer.Some? then net.timer else Some(now);
      Logged(net.(timer := timer), Attempt(now))
  }

  function SendCurrent(net: Net, api: Api, floor: Option<int>, world: World): (Net, Result<Response, ClientError>) {
    match NegotiatedAtLeast(api, net.connection, floor)
    case Err(error) => (net, Err(error))
    case Ok(version) =>
      var answer := world.answer(|net.log|, api, version);
      (Logged(net, Sent(api, version, ErrorOf(answer))), answer)
  }

  predicate MustRebootstrap(api: Api, response: Response) {
    api.key == METADATA && response.code == REBOOTSTRAP_REQUIRED
  }

  /** The metadata has no brokers, and had none for as long as the trigger. */
  predicate TimedOut(net: Net, api: Api, response: Response, config: Config, world: World) {
    && config.strategy.Rebootstrap? && api.key == METADATA && response.nodes == []
    && net.timer.Some? && world.clock(|net.log|) - net.timer.value >= config.trigger
  }

  predicate NamesNodes(api: Api, config: Config) {
    api.key == METADATA || (config.target.Controllers? && api.key == DESCRIBE_CLUSTER)
  }

  /** What a returned answer leaves behind: the addresses it names, and a clear timer when it names brokers. */
  function Observed(net: Net, api: Api, response: Response, config: Config): Net {
    var addresses := Addresses(response.nodes);
    var known := if NamesNodes(api, config) && addresses != [] then addresses else net.known;
    var timer := if api.key == METADATA && response.nodes != [] then None else net.timer;
    Logged(net.(known := known, timer := timer), Returned(api, response))
  }

  function Given(net: Net, api: Api, response: Response, config: Config): Outcome<Response> {
    Outcome(Observed(net, api, response, config), Ok(response))
  }

  const REBOOTSTRAP_ERROR: AdminError := Transport(Server(REBOOTSTRAP_REQUIRED))

  /** A request over a connection that is taken as good. */
  function SendFresh(net: Net, api: Api, floor: Option<int>, config: Config, world: World): Outcome<Response> {
    if Refuses(net, api, config) then Outcome(net, Err(REFUSAL))
    else
      var (sent, answer) := SendCurrent(Begun(net, api, config, world), api, floor, world);
      match answer
      case Err(error) => Outcome(sent, Err(Transport(error)))
      case Ok(response) =>
        if MustRebootstrap(api, response) then Outcome(sent, Err(REBOOTSTRAP_ERROR))
        else Given(sent, api, response, config)
  }

  function SendAfterRebootstrap(net: Net, api: Api, floor: Option<int>, config: Config, world: World): Outcome<Response>
  {
    var rebooted := Rebootstrapped(net, config, world);
    if rebooted.result.Err? then Outcome(rebooted.net, Err(rebooted.result.error))
    else SendFresh(rebooted.net, api, floor, config, world)
  }

  /** What an answer sets off. */
  function Answered(sent: Net, api: Api, floor: Option<int>, response: Response, config: Config, world: World)
    : Outcome<Response>
  {
    if MustRebootstrap(api, response) && config.strategy.NoRecovery? then Outcome(sent, Err(REBOOTSTRAP_ERROR))
    else if MustRebootstrap(api, response) || TimedOut(sent, api, response, config, world) then
      SendAfterRebootstrap(sent, api, floor, config, world)
    else Given(sent, api, response, config)
  }

  /** The request again, over a connection that was opened again. */
  function Resend(net: Net, api: Api, floor: Option<int>, config: Config, world: World): Outcome<Response> {
    if Refuses(net, api, config) then Outcome(net, Err(REFUSAL))
    else
      var (sent, answer) := SendCurrent(net, api, floor, world);
      match answer
      case Err(error) => Outcome(sent, Err(Transport(error)))
      case Ok(response) => Answered(sent, api, floor, response, config, world)
  }

  function SendAfterReconnect(net: Net, api: Api, floor: Option<int>, config: Config, world: World): Outcome<Response> {
    var reconnected := Reconnected(net, config, world);
    if reconnected.result.Err? then Outcome(reconnected.net, Err(reconnected.result.error))
    else Resend(reconnected.net, api, floor, config, world)
  }

  function SendAfterFailure(net: Net, error: ClientError, api: Api, floor: Option<int>, config: Config, world: World)
    : Outcome<Response>
  {
    var again := SendAfterReconnect(net, api, floor, config, world);
    match again.result
    case Ok(_) => again
    case Err(retryError) =>
      if IsAuthenticationFailure(retryError) then again
      else if config.strategy.Rebootstrap? then SendAfterRebootstrap(again.net, api, floor, config, world)
      else Outcome(again.net, Err(Transport(error)))
  }

  /** One request, with everything that its failure sets off. */
  function Send(net: Net, api: Api, floor: Option<int>, config: Config, world: World): Outcome<Response> {
    if Refuses(net, api, config) then Outcome(net, Err(REFUSAL))
    else
      var (sent, answer) := SendCurrent(Begun(net, api, config, world), api, floor, world);
      match answer
      case Ok(response) => Answered(sent, api, floor, response, config, world)
      case Err(error) =>
        if IsRetriableTransport(error) then SendAfterFailure(sent, error, api, floor, config, world)
        else Outcome(sent, Err(Transport(error)))
  }

  // ----- whole runs -----

  /** The first connection: the bootstrap addresses in order, up to the first that connects. */
  function Opened(config: Config, world: World): Outcome<()> {
    var dialled := DialAll(Net(Connection(0, map[]), config.bootstrap, None, []), config.bootstrap, config, world);
    match dialled.result
    case Err(error) => Outcome(dialled.net, Err(OpeningError(config, error)))
    case Ok(connected) =>
      Outcome(Net(connected.connection, Bootstrapped(config, connected), None, dialled.net.log), Ok(()))
  }

  /** A controller bootstrap reports its last failure as it is. */
  function OpeningError(config: Config, error: AdminError): AdminError {
    if config.target.Controllers? && error.Connect? && error.source.Some? then error.source.value else error
  }

  /** What the client does with its connection. */
  datatype Step =
    | Request(api: Api, floor: Option<int>)
    | GoToBootstrap
    | GoTo(address: string)

  function Stepped(net: Net, step: Step, config: Config, world: World): Net {
    match step
    case Request(api, floor) => Send(net, api, floor, config, world).net
    case GoToBootstrap => Rebootstrapped(net, config, world).net
    case GoTo(address) =>
      var dialled := Dial(net, address, world);
      if dialled.result.Err? then dialled.net else dialled.net.(connection := dialled.result.value)
  }

  function Run(net: Net, steps: seq<Step>, config: Config, world: World): Net {
    if steps == [] then net
    else Stepped(Run(net, steps[..|steps| - 1], config, world), steps[|steps| - 1], config, world)
  }
}
