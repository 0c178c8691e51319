/** What each answer, each failure and each dial does to a request, from the environment alone. */
module RecoveryEffects {
  import opened Base
  import opened HostPort
  import opened Recovery
  import opened RecoveryLaws

  // ----- the first answer -----

  /** The position in the run at which the first send of a request asks its peer. */
  function Tick(net: Net, api: Api): nat {
    |net.log| + if api.key == 3 then 1 else 0
  }

  /** What a Metadata request logs before it is sent. */
  function Before(net: Net, api: Api, world: World): (q: seq<Event>)
    ensures |net.log| + |q| == Tick(net, api)
  {
    if api.key == 3 then [Attempt(world.clock(|net.log|))] else []
  }

  /** When the metadata of the run stopped having brokers, at the latest now. */
  function Since(net: Net, world: World): int {
    if net.timer.Some? then net.timer.value else world.clock(|net.log|)
  }

  /** The highest version that both sides know, at least `floor`. */
  ghost predicate Highest(api: Api, connection: Connection, floor: Option<int>, version: int) {
    && Common(api, connection, version) && (floor.Some? ==> floor.value <= version)
    && forall v | Common(api, connection, v) :: v <= version
  }

  lemma HighestIsNegotiated(api: Api, connection: Connection, floor: Option<int>, version: int)
    ensures NegotiatedAtLeast(api, connection, floor) == Ok(version) <==> Highest(api, connection, floor, version)
  {
  }

  /** The peer may be asked, and `version` is what the request goes out with. */
  ghost predicate GoesOut(connection: Connection, api: Api, floor: Option<int>, config: Config, version: int) {
    (config.target.Controllers? ==> api.key in connection.advertised) && Highest(api, connection, floor, version)
  }

  /** A Metadata answer that orders a rebootstrap. */
  predicate Orders(api: Api, response: Response) {
    api.key == 3 && response.code == 129
  }

  /** A Metadata answer without brokers, with the trigger reached. */
  predicate Stalls(api: Api, response: Response, config: Config, since: int, now: int) {
    config.strategy.Rebootstrap? && api.key == 3 && response.nodes == [] && now - since >= config.trigger
  }

  function KnownAfter(net: Net, api: Api, response: Response, config: Config): seq<string> {
    if (api.key == 3 || (config.target.Controllers? && api.key == 60)) && Addresses(response.nodes) != []
    then Addresses(response.nodes) else net.known
  }

  function TimerAfter(net: Net, api: Api, response: Response, config: Config, world: World): Option<int> {
    if api.key != 3 then net.timer
    else if response.nodes != [] then None
    else if config.strategy.Rebootstrap? then Some(Since(net, world))
    else net.timer
  }

  /** The first send of a request, with the answer that it gets. */
  ghost predicate FirstAnswer(net: Net, api: Api, floor: Option<int>, config: Config, world: World, version: int,
                              answer: Result<Response, ClientError>)
  {
    GoesOut(net.connection, api, floor, config, version) && world.answer(Tick(net, api), api, version) == answer
  }

  lemma FirstSend(net: Net, api: Api, floor: Option<int>, config: Config, world: World, version: int,
                  answer: Result<Response, ClientError>, sent: Net)
    requires FirstAnswer(net, api, floor, config, world, version, answer)
    requires sent == Net(net.connection, net.known,
                         if api.key == 3 && config.strategy.Rebootstrap? then Some(Since(net, world)) else net.timer,
                         net.log + Before(net, api, world) + [Sent(api, version, ErrorOf(answer))])
    ensures !Refuses(net, api, config)
    ensures SendCurrent(Begun(net, api, config, world), api, floor, world) == (sent, answer)
    ensures |sent.log| == Tick(net, api) + 1
  {
    HighestIsNegotiated(api, net.connection, floor, version);
    assert net.log + [] == net.log;
  }

  /** A good answer is returned as it is, over the same connection, with one send and nothing else on the network:
      neither an order to rebootstrap nor metadata that has no brokers at the trigger. */
  lemma GoodAnswerIsReturned(net: Net, api: Api, floor: Option<int>, config: Config, world: World, version: int,
                             response: Response)
    requires FirstAnswer(net, api, floor, config, world, version, Ok(response))
    requires !Orders(api, response)
    requires !Stalls(api, response, config, Since(net, world), world.clock(Tick(net, api) + 1))
    ensures Send(net, api, floor, config, world) ==
            Outcome(Net(net.connection, KnownAfter(net, api, response, config),
                        TimerAfter(net, api, response, config, world),
                        net.log + Before(net, api, world) + [Sent(api, version, None), Returned(api, response)]),
                    Ok(response))
  {
    var log := net.log + Before(net, api, world);
    var sent := Net(net.connection, net.known,
                    if api.key == 3 && config.strategy.Rebootstrap? then Some(Since(net, world)) else net.timer,
                    log + [Sent(api, version, None)]);
    FirstSend(net, api, floor, config, world, version, Ok(response), sent);
    assert log + [Sent(api, version, None), Returned(api, response)] ==
           log + [Sent(api, version, None)] + [Returned(api, response)];
  }

  /** An order to rebootstrap, or stalled metadata, makes a client with the strategy go to the bootstrap addresses. */
  lemma BadAnswerRebootstraps(net: Net, api: Api, floor: Option<int>, config: Config, world: World, version: int,
                              response: Response)
    requires FirstAnswer(net, api, floor, config, world, version, Ok(response)) && config.strategy.Rebootstrap?
    requires Orders(api, response) ||
             Stalls(api, response, config, Since(net, world), world.clock(Tick(net, api) + 1))
    ensures net.log + Before(net, api, world) + [Sent(api, version, None), Rebootstrapping] <=
            Send(net, api, floor, config, world).net.log
  {
    var log := net.log + Before(net, api, world);
    var sent := Net(net.connection, net.known, Some(Since(net, world)), log + [Sent(api, version, None)]);
    FirstSend(net, api, floor, config, world, version, Ok(response), sent);
    RebootstrapStarts(sent, api, floor, config, world);
    assert log + [Sent(api, version, None), Rebootstrapping] == log + [Sent(api, version, None)] + [Rebootstrapping];
  }

  lemma RebootstrapStarts(net: Net, api: Api, floor: Option<int>, config: Config, world: World)
    ensures net.log + [Rebootstrapping] <= SendAfterRebootstrap(net, api, floor, config, world).net.log
  {
    var started := Logged(net, Rebootstrapping);
    DialEachKeeps(started, config.bootstrap, |config.bootstrap|, None, config, world);
    SendFreshKeeps(Rebootstrapped(net, config, world).net, api, floor, config, world);
  }

  /** Without a strategy the order is the error of the request. */
  lemma OrderWithoutAStrategy(net: Net, api: Api, floor: Option<int>, config: Config, world: World, version: int,
                              response: Response)
    requires FirstAnswer(net, api, floor, config, world, version, Ok(response)) && config.strategy.NoRecovery?
    requires Orders(api, response)
    ensures Send(net, api, floor, config, world) ==
            Outcome(net.(log := net.log + Before(net, api, world) + [Sent(api, version, None)]),
                    Err(Transport(Server(129))))
  {
    FirstSend(net, api, floor, config, world, version, Ok(response),
              net.(log := net.log + Before(net, api, world) + [Sent(api, version, None)]));
  }

  /** A failure of any other kind than a timeout, a disconnect and an input or output error is final. */
  lemma OtherFailureIsFinal(net: Net, api: Api, floor: Option<int>, config: Config, world: World, version: int,
                            error: ClientError)
    requires FirstAnswer(net, api, floor, config, world, version, Err(error))
    requires !error.Timeout? && !error.Disconnected? && !error.Io?
    ensures var o := Send(net, api, floor, config, world);
            && o.result == Err(Transport(error)) && o.net.connection == net.connection && o.net.known == net.known
            && o.net.log == net.log + Before(net, api, world) + [Sent(api, version, Some(error))]
  {
    var sent := Net(net.connection, net.known,
                    if api.key == 3 && config.strategy.Rebootstrap? then Some(Since(net, world)) else net.timer,
                    net.log + Before(net, api, world) + [Sent(api, version, Some(error))]);
    FirstSend(net, api, floor, config, world, version, Err(error), sent);
  }

  /** A request that a controller does not offer does not go out, and neither does one without a common version. */
  lemma UnofferedIsNotSent(net: Net, api: Api, floor: Option<int>, config: Config, world: World)
    ensures config.target.Controllers? && api.key !in net.connection.advertised ==>
              Send(net, api, floor, config, world) == Outcome(net, Err(Broker(115, None)))
    ensures (config.target.Controllers? ==> api.key in net.connection.advertised) &&
            (forall v :: !Highest(api, net.connection, floor, v)) ==>
              && Send(net, api, floor, config, world).result == Err(Transport(IncompatibleVersion))
              && Send(net, api, floor, config, world).net.log == net.log + Before(net, api, world)
  {
    var negotiated := NegotiatedAtLeast(api, net.connection, floor);
    if negotiated.Ok? { HighestIsNegotiated(api, net.connection, floor, negotiated.value); }
    assert net.log + [] == net.log;
  }

  // ----- dialling -----

  /** The first `k` addresses do not connect, and do not reject the client, when they are dialled from `start` on. */
  ghost predicate Unreached(start: nat, addresses: seq<string>, k: nat, world: World) {
    k <= |addresses| &&
    forall i | 0 <= i < k :: FailsAt(start + i, addresses[i], world)
  }

  ghost predicate FailsAt(tick: nat, address: string, world: World) {
    world.dial(tick, address).Err? && !IsAuthenticationFailure(world.dial(tick, address).error)
  }

  ghost function FailedDials(start: nat, addresses: seq<string>, k: nat, world: World): (q: seq<Event>)
    requires Unreached(start, addresses, k, world)
    ensures |q| == k
    ensures forall i | 0 <= i < k :: q[i] == Dialled(addresses[i], Some(world.dial(start + i, addresses[i]).error))
  {
    seq(k, i requires 0 <= i < k => Dialled(addresses[i], Some(world.dial(start + i, addresses[i]).error)))
  }

  /** The last failure when the first `k` addresses have been dialled. */
  ghost function LastFailure(start: nat, addresses: seq<string>, k: nat, world: World, last: Option<AdminError>)
    : Option<AdminError>
    requires Unreached(start, addresses, k, world)
  {
    if k == 0 then last else Some(world.dial(start + (k - 1), addresses[k - 1]).error)
  }

  lemma DialFails(net: Net, addresses: seq<string>, tried: nat, last: Option<AdminError>, config: Config, world: World)
    requires addresses != [] && FailsAt(|net.log|, addresses[0], world)
    ensures var error := world.dial(|net.log|, addresses[0]).error;
            DialEach(net, addresses, tried, last, config, world) ==
            DialEach(Logged(net, Dialled(addresses[0], Some(error))), addresses[1..], tried, Some(error), config, world)
  {
  }

  lemma OneMoreFails(start: nat, addresses: seq<string>, k: nat, world: World)
    requires Unreached(start, addresses, k + 1, world)
    ensures Unreached(start, addresses, k, world) && FailsAt(start + k, addresses[k], world)
    ensures FailedDials(start, addresses, k + 1, world) ==
            FailedDials(start, addresses, k, world) +
            [Dialled(addresses[k], Some(world.dial(start + k, addresses[k]).error))]
  {
  }

  lemma DialsPastNext(net: Net, addresses: seq<string>, tried: nat, last: Option<AdminError>, config: Config,
                      world: World, k: nat)
    requires Unreached(|net.log|, addresses, k + 1, world)
    requires Unreached(|net.log|, addresses, k, world)
    ensures DialEach(net.(log := net.log + FailedDials(|net.log|, addresses, k, world)), addresses[k..], tried, last,
                     config, world) ==
            DialEach(net.(log := net.log + FailedDials(|net.log|, addresses, k + 1, world)), addresses[k + 1..], tried,
                     Some(world.dial(|net.log| + k, addresses[k]).error), config, world)
  {
    OneMoreFails(|net.log|, addresses, k, world);
    var mid := net.(log := net.log + FailedDials(|net.log|, addresses, k, world));
    DialFails(mid, addresses[k..], tried, last, config, world);
    var event := Dialled(addresses[k], Some(world.dial(|net.log| + k, addresses[k]).error));
    JoinsAssociate(net.log, FailedDials(|net.log|, addresses, k, world), [event]);
  }

  /** Dialling goes on past the addresses that do not connect, each of which is dialled once, in order. */
  lemma {:induction false} DialsPast(net: Net, addresses: seq<string>, tried: nat, last: Option<AdminError>,
                                     config: Config, world: World, k: nat)
    requires Unreached(|net.log|, addresses, k, world)
    ensures DialEach(net, addresses, tried, last, config, world) ==
            DialEach(net.(log := net.log + FailedDials(|net.log|, addresses, k, world)), addresses[k..], tried,
                     LastFailure(|net.log|, addresses, k, world, last), config, world)
  {
    if k == 0 {
      assert net.log + [] == net.log;
    } else {
      assert Unreached(|net.log|, addresses, k - 1, world);
      DialsPast(net, addresses, tried, last, config, world, k - 1);
      DialsPastNext(net, addresses, tried, LastFailure(|net.log|, addresses, k - 1, world, last), config, world, k - 1);
    }
  }

  /** The first broker that connects is the new connection; the addresses after it are not dialled. */
  lemma FirstThatConnects(net: Net, addresses: seq<string>, tried: nat, last: Option<AdminError>, config: Config,
                          world: World, k: nat)
    requires config.target.Brokers? && k < |addresses| && Unreached(|net.log|, addresses, k, world)
    requires world.dial(|net.log| + k, addresses[k]).Ok?
    ensures DialEach(net, addresses, tried, last, config, world) ==
            Outcome(net.(log := net.log + FailedDials(|net.log|, addresses, k, world) + [Dialled(addresses[k], None)]),
                    Ok(Connected(Connection(|net.log| + k, world.dial(|net.log| + k, addresses[k]).value), [])))
  {
    DialsPast(net, addresses, tried, last, config, world, k);
    assert addresses[k..][0] == addresses[k];
  }

  /** The first address that rejects the client ends the dialling with its error. */
  lemma FirstThatRejects(net: Net, addresses: seq<string>, tried: nat, last: Option<AdminError>, config: Config,
                         world: World, k: nat)
    requires k < |addresses| && Unreached(|net.log|, addresses, k, world)
    requires world.dial(|net.log| + k, addresses[k]).Err?
    requires IsAuthenticationFailure(world.dial(|net.log| + k, addresses[k]).error)
    ensures var error := world.dial(|net.log| + k, addresses[k]).error;
            DialEach(net, addresses, tried, last, config, world) ==
            Outcome(net.(log := net.log + FailedDials(|net.log|, addresses, k, world) +
                                [Dialled(addresses[k], Some(error))]),
                    Err(error))
  {
    DialsPast(net, addresses, tried, last, config, world, k);
    assert addresses[k..][0] == addresses[k];
  }

  /** When no address connects, each of them has been dialled once, in order, and the last failure is the cause. */
  lemma NoneConnects(net: Net, addresses: seq<string>, tried: nat, last: Option<AdminError>, config: Config,
                     world: World)
    requires Unreached(|net.log|, addresses, |addresses|, world)
    ensures DialEach(net, addresses, tried, last, config, world) ==
            Outcome(net.(log := net.log + FailedDials(|net.log|, addresses, |addresses|, world)),
                    Err(Connect(tried, LastFailure(|net.log|, addresses, |addresses|, world, last))))
  {
    DialsPast(net, addresses, tried, last, config, world, |addresses|);
  }

  // ----- dialling controllers -----

  /** Row `i` is the first of the node, and can be dialled. */
  ghost predicate NodeAt(nodes: seq<NodeRow>, nodeId: int, i: int) {
    && 0 <= i < |nodes| && nodes[i].nodeId == nodeId && forall j | 0 <= j < i :: nodes[j].nodeId != nodeId
  }

  lemma {:induction false} FirstNode(nodes: seq<NodeRow>, nodeId: int)
    ensures var first := First((node: NodeRow) => node.nodeId == nodeId, nodes);
            && (first.None? <==> forall i | 0 <= i < |nodes| :: nodes[i].nodeId != nodeId)
            && (forall i | NodeAt(nodes, nodeId, i) :: first == Some(nodes[i]))
            && (first.Some? ==> exists i :: NodeAt(nodes, nodeId, i))
  {
    if nodes != [] {
      if nodes[0].nodeId == nodeId {
        assert NodeAt(nodes, nodeId, 0);
      } else {
        FirstNode(nodes[1..], nodeId);
        forall i | NodeAt(nodes, nodeId, i)
          ensures First((node: NodeRow) => node.nodeId == nodeId, nodes) == Some(nodes[i])
        {
          assert NodeAt(nodes[1..], nodeId, i - 1);
        }
        if i :| NodeAt(nodes[1..], nodeId, i) {
          assert forall j | 0 < j < i + 1 :: nodes[j] == nodes[1..][j - 1];
          assert NodeAt(nodes, nodeId, i + 1);
        }
      }
    }
  }

  /** The active controller is the first row with its id in an answer about controllers, and has to be one that can be
      dialled. */
  lemma ControllerOfTheAnswer(response: Response, address: string)
    ensures ControllerAddress(response) == Ok(address) <==>
            && response.code == 0 && response.endpointType == 2
            && exists i :: && NodeAt(response.nodes, response.controllerId, i)
                           && response.nodes[i].host != "" && response.nodes[i].port > 0
                           && address == FormatHostPort(response.nodes[i].host, response.nodes[i].port)
    ensures response.code != 0 ==> ControllerAddress(response) == Err(Broker(response.code, response.message))
    ensures response.code == 0 && ControllerAddress(response).Err? ==> ControllerAddress(response) == Err(Protocol)
  {
    FirstNode(response.nodes, response.controllerId);
  }

  /** A controller is reached by way of the dialled node: over a connection to that node, the highest version of the
      discovery request asks for the controllers, and the controller of the answer is dialled. */
  lemma ControllerIsReached(net: Net, address: string, config: Config, world: World, version: int, response: Response,
                            controller: string, first: map<int, (int, int)>, second: map<int, (int, int)>)
    requires config.target.Controllers? && world.dial(|net.log|, address) == Ok(first)
    requires Highest(config.discovery, Connection(|net.log|, first), Some(1), version)
    requires world.answer(|net.log| + 1, config.discovery, version) == Ok(response)
    requires ControllerAddress(response) == Ok(controller)
    requires world.dial(|net.log| + 2, controller) == Ok(second)
    ensures DialTarget(net, address, config, world) ==
            Outcome(net.(log := net.log +
                                [Dialled(address, None), Described(version, None), Dialled(controller, None)]),
                    Ok(Connected(Connection(|net.log| + 2, second), Addresses(response.nodes))))
  {
    HighestIsNegotiated(config.discovery, Connection(|net.log|, first), Some(1), version);
    assert net.log + [Dialled(address, None)] + [Described(version, None)] + [Dialled(controller, None)] ==
           net.log + [Dialled(address, None), Described(version, None), Dialled(controller, None)];
  }

  ghost predicate HasAddress(node: NodeRow, address: string) {
    node.host != "" && node.port > 0 && address == FormatHostPort(node.host, node.port)
  }

  /** A node of the answer has the address. */
  ghost predicate SomeNode(nodes: seq<NodeRow>, address: string) {
    exists i | 0 <= i < |nodes| :: HasAddress(nodes[i], address)
  }

  lemma SomeNodeNext(nodes: seq<NodeRow>, node: NodeRow, address: string)
    ensures SomeNode(nodes + [node], address) <==> SomeNode(nodes, address) || HasAddress(node, address)
  {
    var more := nodes + [node];
    assert more[|nodes|] == node && forall i | 0 <= i < |nodes| :: more[i] == nodes[i];
  }

  /** The address of one node, if it can be dialled. */
  function AddressOf(node: NodeRow): seq<string> {
    if node.host != "" && node.port > 0 then [FormatHostPort(node.host, node.port)] else []
  }

  lemma AddressesNext(nodes: seq<NodeRow>, node: NodeRow)
    ensures Addresses(nodes + [node]) == Addresses(nodes) + AddressOf(node)
  {
    assert (nodes + [node])[..|nodes|] == nodes;
  }

  lemma AddressIsHad(node: NodeRow, address: string)
    ensures address in AddressOf(node) <==> HasAddress(node, address)
  {
  }

  /** The addresses of an answer are those of its nodes with a host and a port. */
  lemma {:induction false} AddressesOfTheNodes(nodes: seq<NodeRow>, address: string)
    ensures address in Addresses(nodes) <==> SomeNode(nodes, address)
  {
    if nodes != [] {
      var front, node := nodes[..|nodes| - 1], nodes[|nodes| - 1];
      assert front + [node] == nodes;
      AddressesOfTheNodes(front, address);
      AddressesNext(front, node);
      AddressIsHad(node, address);
      SomeNodeNext(front, node, address);
    }
  }

  lemma JoinsAssociate<T>(p: seq<T>, q: seq<T>, r: seq<T>)
    ensures p + q + r == p + (q + r)
  {
  }

  /** They are in the order of the nodes. */
  lemma {:induction false} AddressesInOrder(p: seq<NodeRow>, q: seq<NodeRow>)
    ensures Addresses(p + q) == Addresses(p) + Addresses(q)
  {
    if q == [] {
      assert p + q == p;
    } else {
      var front, node := q[..|q| - 1], q[|q| - 1];
      AddressesInOrder(p, front);
      assert front + [node] == q && p + front + [node] == p + q;
      calc {
        Addresses(p + q);
        { AddressesNext(p + front, node); }
        Addresses(p + front) + AddressOf(node);
        { JoinsAssociate(Addresses(p), Addresses(front), AddressOf(node)); }
        Addresses(p) + (Addresses(front) + AddressOf(node));
        { AddressesNext(front, node); }
        Addresses(p) + Addresses(q);
      }
    }
  }

  // ----- recovering -----

  /** A resent request with a good answer: `net` is the state after the reconnection. */
  lemma ResentIsReturned(net: Net, api: Api, floor: Option<int>, config: Config, world: World, version: int,
                         response: Response)
    requires GoesOut(net.connection, api, floor, config, version)
    requires world.answer(|net.log|, api, version) == Ok(response) && !Orders(api, response)
    requires net.timer.Some? ==> !Stalls(api, response, config, net.timer.value, world.clock(|net.log| + 1))
    ensures Resend(net, api, floor, config, world).result == Ok(response)
    ensures Resend(net, api, floor, config, world).net.connection == net.connection
    ensures Resend(net, api, floor, config, world).net.log ==
            net.log + [Sent(api, version, None), Returned(api, response)]
  {
    HighestIsNegotiated(api, net.connection, floor, version);
    assert net.log + [Sent(api, version, None), Returned(api, response)] ==
           net.log + [Sent(api, version, None)] + [Returned(api, response)];
  }

  lemma FreshIsReturned(net: Net, api: Api, floor: Option<int>, config: Config, world: World, version: int,
                        response: Response)
    requires FirstAnswer(net, api, floor, config, world, version, Ok(response)) && !Orders(api, response)
    ensures SendFresh(net, api, floor, config, world).result == Ok(response)
    ensures SendFresh(net, api, floor, config, world).net.connection == net.connection
    ensures SendFresh(net, api, floor, config, world).net.log ==
            net.log + Before(net, api, world) + [Sent(api, version, None), Returned(api, response)]
  {
    var log := net.log + Before(net, api, world);
    var sent := Net(net.connection, net.known,
                    if api.key == 3 && config.strategy.Rebootstrap? then Some(Since(net, world)) else net.timer,
                    log + [Sent(api, version, None)]);
    FirstSend(net, api, floor, config, world, version, Ok(response), sent);
    assert log + [Sent(api, version, None), Returned(api, response)] ==
           log + [Sent(api, version, None)] + [Returned(api, response)];
  }

  /** The state after the lost first send of a request. */
  function LostAt(net: Net, api: Api, config: Config, world: World, version: int, error: ClientError): Net {
    Net(net.connection, net.known,
        if api.key == 3 && config.strategy.Rebootstrap? then Some(Since(net, world)) else net.timer,
        net.log + Before(net, api, world) + [Sent(api, version, Some(error))])
  }

  /** The first send is lost: by a timeout, a disconnect, or an input or output error. */
  ghost predicate Loses(net: Net, api: Api, floor: Option<int>, config: Config, world: World, version: int,
                        error: ClientError)
  {
    && FirstAnswer(net, api, floor, config, world, version, Err(error))
    && (error.Timeout? || error.Disconnected? || error.Io?)
  }

  lemma LostGoesOn(net: Net, api: Api, floor: Option<int>, config: Config, world: World, version: int,
                   error: ClientError)
    requires Loses(net, api, floor, config, world, version, error)
    ensures Send(net, api, floor, config, world) ==
            SendAfterFailure(LostAt(net, api, config, world, version, error), error, api, floor, config, world)
  {
    FirstSend(net, api, floor, config, world, version, Err(error), LostAt(net, api, config, world, version, error));
  }

  /** The state after the reconnection to known address `k`. */
  ghost function ReconnectedAt(lost: Net, world: World, k: nat): Net
    requires k < |lost.known| && Unreached(|lost.log|, lost.known, k, world)
    requires world.dial(|lost.log| + k, lost.known[k]).Ok?
  {
    Net(Connection(|lost.log| + k, world.dial(|lost.log| + k, lost.known[k]).value), lost.known, lost.timer,
        lost.log + FailedDials(|lost.log|, lost.known, k, world) + [Dialled(lost.known[k], None)])
  }

  lemma ReconnectsAt(lost: Net, config: Config, world: World, k: nat)
    requires config.target.Brokers? && k < |lost.known| && Unreached(|lost.log|, lost.known, k, world)
    requires world.dial(|lost.log| + k, lost.known[k]).Ok?
    ensures Reconnected(lost, config, world) == Outcome(ReconnectedAt(lost, world, k), Ok(()))
  {
    FirstThatConnects(lost, lost.known, |lost.known|, None, config, world, k);
  }

  /** A lost request is answered over the first known address that connects: the addresses before it are dialled
      once each, the request is sent once more, and its good answer is the result. */
  lemma ReconnectionRecovers(net: Net, api: Api, floor: Option<int>, config: Config, world: World, version: int,
                             error: ClientError, k: nat, again: int, response: Response, lost: Net, to: Net)
    requires Loses(net, api, floor, config, world, version, error) && config.target.Brokers?
    requires lost == LostAt(net, api, config, world, version, error)
    requires k < |lost.known| && Unreached(|lost.log|, lost.known, k, world)
    requires world.dial(|lost.log| + k, lost.known[k]).Ok? && to == ReconnectedAt(lost, world, k)
    requires Highest(api, to.connection, floor, again) && world.answer(|to.log|, api, again) == Ok(response)
    requires !Orders(api, response) &&
             (to.timer.Some? ==> !Stalls(api, response, config, to.timer.value, world.clock(|to.log| + 1)))
    ensures var o := Send(net, api, floor, config, world);
            && o.result == Ok(response) && o.net.connection == to.connection
            && o.net.log == to.log + [Sent(api, again, None), Returned(api, response)]
  {
    LostGoesOn(net, api, floor, config, world, version, error);
    ReconnectsAt(lost, config, world, k);
    ResentIsReturned(to, api, floor, config, world, again, response);
  }

  /** No known address connects. */
  ghost predicate Stranded(lost: Net, world: World) {
    Unreached(|lost.log|, lost.known, |lost.known|, world)
  }

  ghost function StrandedAt(lost: Net, world: World): Net
    requires Stranded(lost, world)
  {
    lost.(log := lost.log + FailedDials(|lost.log|, lost.known, |lost.known|, world))
  }

  lemma StrandedFails(lost: Net, api: Api, floor: Option<int>, config: Config, world: World)
    requires config.target.Brokers? && Stranded(lost, world)
    ensures SendAfterReconnect(lost, api, floor, config, world) ==
            Outcome(StrandedAt(lost, world),
                    Err(Connect(|lost.known|, LastFailure(|lost.log|, lost.known, |lost.known|, world, None))))
  {
    NoneConnects(lost, lost.known, |lost.known|, None, config, world);
  }

  /** Without a strategy, a lost request whose known addresses all fail ends with the error that lost it. */
  lemma StrandedWithoutAStrategy(net: Net, api: Api, floor: Option<int>, config: Config, world: World, version: int,
                                 error: ClientError, lost: Net)
    requires Loses(net, api, floor, config, world, version, error) && config.target.Brokers?
    requires lost == LostAt(net, api, config, world, version, error) && Stranded(lost, world)
    requires config.strategy.NoRecovery?
    ensures Send(net, api, floor, config, world) == Outcome(StrandedAt(lost, world), Err(Transport(error)))
  {
    LostGoesOn(net, api, floor, config, world, version, error);
    StrandedFails(lost, api, floor, config, world);
  }

  /** The state after the rebootstrap to bootstrap address `k`. */
  ghost function RebootedAt(net: Net, config: Config, world: World, k: nat): Net
    requires k < |config.bootstrap| && Unreached(|net.log| + 1, config.bootstrap, k, world)
    requires world.dial(|net.log| + 1 + k, config.bootstrap[k]).Ok?
  {
    Net(Connection(|net.log| + 1 + k, world.dial(|net.log| + 1 + k, config.bootstrap[k]).value), config.bootstrap, None,
        net.log + [Rebootstrapping] + FailedDials(|net.log| + 1, config.bootstrap, k, world) +
        [Dialled(config.bootstrap[k], None)] + [Rebooted])
  }

  lemma RebootsAt(net: Net, config: Config, world: World, k: nat)
    requires config.target.Brokers? && k < |config.bootstrap|
    requires Unreached(|net.log| + 1, config.bootstrap, k, world)
    requires world.dial(|net.log| + 1 + k, config.bootstrap[k]).Ok?
    ensures Rebootstrapped(net, config, world) == Outcome(RebootedAt(net, config, world, k), Ok(()))
  {
    FirstThatConnects(Logged(net, Rebootstrapping), config.bootstrap, |config.bootstrap|, None, config, world, k);
  }

  lemma RebootedIsReturned(net: Net, api: Api, floor: Option<int>, config: Config, world: World, k: nat, again: int,
                           response: Response, to: Net)
    requires config.target.Brokers? && k < |config.bootstrap|
    requires Unreached(|net.log| + 1, config.bootstrap, k, world)
    requires world.dial(|net.log| + 1 + k, config.bootstrap[k]).Ok? && to == RebootedAt(net, config, world, k)
    requires FirstAnswer(to, api, floor, config, world, again, Ok(response)) && !Orders(api, response)
    ensures var o := SendAfterRebootstrap(net, api, floor, config, world);
            && o.result == Ok(response) && o.net.connection == to.connection
            && o.net.log == to.log + Before(to, api, world) + [Sent(api, again, None), Returned(api, response)]
  {
    RebootsAt(net, config, world, k);
    FreshIsReturned(to, api, floor, config, world, again, response);
  }

  lemma StrandedRebootstraps(net: Net, api: Api, floor: Option<int>, config: Config, world: World, version: int,
                             error: ClientError, lost: Net)
    requires Loses(net, api, floor, config, world, version, error) && config.target.Brokers?
    requires lost == LostAt(net, api, config, world, version, error) && Stranded(lost, world)
    requires config.strategy.Rebootstrap?
    ensures Send(net, api, floor, config, world) ==
            SendAfterRebootstrap(StrandedAt(lost, world), api, floor, config, world)
  {
    LostGoesOn(net, api, floor, config, world, version, error);
    StrandedFails(lost, api, floor, config, world);
  }

  /** With the strategy, a lost request whose known addresses all fail is answered over the first bootstrap address
      that connects. */
  lemma RebootstrapRecovers(net: Net, api: Api, floor: Option<int>, config: Config, world: World, version: int,
                            error: ClientError, k: nat, again: int, response: Response, lost: Net, end: Net,
                            to: Net)
    requires Loses(net, api, floor, config, world, version, error) && config.target.Brokers?
    requires lost == LostAt(net, api, config, world, version, error)
    requires Stranded(lost, world) && end == StrandedAt(lost, world)
    requires config.strategy.Rebootstrap? && k < |config.bootstrap|
    requires Unreached(|end.log| + 1, config.bootstrap, k, world)
    requires world.dial(|end.log| + 1 + k, config.bootstrap[k]).Ok? && to == RebootedAt(end, config, world, k)
    requires FirstAnswer(to, api, floor, config, world, again, Ok(response)) && !Orders(api, response)
    ensures var o := Send(net, api, floor, config, world);
            && o.result == Ok(response) && o.net.connection == to.connection
            && o.net.log == to.log + Before(to, api, world) + [Sent(api, again, None), Returned(api, response)]
  {
    StrandedRebootstraps(net, api, floor, config, world, version, error, lost);
    RebootedIsReturned(end, api, floor, config, world, k, again, response, to);
  }

  // ----- recovering a controller connection -----

  /** The dialled node leads to the controller. */
  ghost predicate LeadsTo(start: nat, address: string, config: Config, world: World, version: int, response: Response,
                          controller: string)
  {
    && world.dial(start, address).Ok?
    && Highest(config.discovery, Connection(start, world.dial(start, address).value), Some(1), version)
    && world.answer(start + 1, config.discovery, version) == Ok(response)
    && ControllerAddress(response) == Ok(controller) && world.dial(start + 2, controller).Ok?
  }

  function LedTo(address: string, version: int, controller: string): seq<Event> {
    [Dialled(address, None), Described(version, None), Dialled(controller, None)]
  }

  lemma ControllerDialled(net: Net, addresses: seq<string>, config: Config, world: World, version: int,
                          response: Response, controller: string)
    requires config.target.Controllers? && addresses != []
    requires LeadsTo(|net.log|, addresses[0], config, world, version, response, controller)
    ensures DialAll(net, addresses, config, world) ==
            Outcome(net.(log := net.log + LedTo(addresses[0], version, controller)),
                    Ok(Connected(Connection(|net.log| + 2, world.dial(|net.log| + 2, controller).value),
                                 Addresses(response.nodes))))
  {
    ControllerIsReached(net, addresses[0], config, world, version, response, controller,
                        world.dial(|net.log|, addresses[0]).value, world.dial(|net.log| + 2, controller).value);
  }

  /** A controller that can be reached is one of the addresses that its answer gives. */
  lemma ControllerIsListed(response: Response, controller: string)
    requires ControllerAddress(response) == Ok(controller)
    ensures controller in Addresses(response.nodes)
  {
    ControllerOfTheAnswer(response, controller);
    var i :| && NodeAt(response.nodes, response.controllerId, i)
             && response.nodes[i].host != "" && response.nodes[i].port > 0
             && controller == FormatHostPort(response.nodes[i].host, response.nodes[i].port);
    assert HasAddress(response.nodes[i], controller);
    AddressesOfTheNodes(response.nodes, controller);
  }

  /** Going to the controllers again, over the known or the bootstrap addresses, learns the controllers of the answer;
      only a rebootstrap clears the timer. */
  lemma ControllerRecovers(net: Net, config: Config, world: World, version: int, response: Response, controller: string)
    requires config.target.Controllers?
    ensures net.known != [] && LeadsTo(|net.log|, net.known[0], config, world, version, response, controller) ==>
              Reconnected(net, config, world) ==
              Outcome(Net(Connection(|net.log| + 2, world.dial(|net.log| + 2, controller).value),
                          Addresses(response.nodes), net.timer, net.log + LedTo(net.known[0], version, controller)),
                      Ok(()))
    ensures config.bootstrap != [] &&
            LeadsTo(|net.log| + 1, config.bootstrap[0], config, world, version, response, controller) ==>
              Rebootstrapped(net, config, world) ==
              Outcome(Net(Connection(|net.log| + 3, world.dial(|net.log| + 3, controller).value),
                          Addresses(response.nodes), None,
                          net.log + [Rebootstrapping] + LedTo(config.bootstrap[0], version, controller) + [Rebooted]),
                      Ok(()))
  {
    if ControllerAddress(response) == Ok(controller) { ControllerIsListed(response, controller); }
    if net.known != [] && LeadsTo(|net.log|, net.known[0], config, world, version, response, controller) {
      ControllerDialled(net, net.known, config, world, version, response, controller);
    }
    if config.bootstrap != [] &&
       LeadsTo(|net.log| + 1, config.bootstrap[0], config, world, version, response, controller) {
      ControllerDialled(Logged(net, Rebootstrapping), config.bootstrap, config, world, version, response, controller);
    }
  }

  // ----- the first connection -----

  /** A client of brokers opens over the first bootstrap address that connects. */
  lemma OpensOverTheFirst(config: Config, world: World, k: nat)
    requires config.target.Brokers? && k < |config.bootstrap| && Unreached(0, config.bootstrap, k, world)
    requires world.dial(k, config.bootstrap[k]).Ok?
    ensures Opened(config, world) ==
            Outcome(Net(Connection(k, world.dial(k, config.bootstrap[k]).value), config.bootstrap, None,
                        FailedDials(0, config.bootstrap, k, world) + [Dialled(config.bootstrap[k], None)]),
                    Ok(()))
  {
    var start := Net(Connection(0, map[]), config.bootstrap, None, []);
    FirstThatConnects(start, config.bootstrap, |config.bootstrap|, None, config, world, k);
    assert [] + FailedDials(0, config.bootstrap, k, world) == FailedDials(0, config.bootstrap, k, world);
  }

  /** It does not open when none connects. A client of brokers says how many it tried and why the last one failed, a
      client of controllers with an address to try reports that last failure as it is. */
  lemma OpensOverNone(config: Config, world: World)
    requires Unreached(0, config.bootstrap, |config.bootstrap|, world)
    ensures var last := LastFailure(0, config.bootstrap, |config.bootstrap|, world, None);
            Opened(config, world).result ==
            Err(if config.target.Controllers? && config.bootstrap != [] then last.value
                else Connect(|config.bootstrap|, last))
  {
    var start := Net(Connection(0, map[]), config.bootstrap, None, []);
    NoneConnects(start, config.bootstrap, |config.bootstrap|, None, config, world);
  }

  /** Going to one address replaces the connection exactly when that address connects, and changes nothing else. */
  lemma GoToReplaces(net: Net, address: string, config: Config, world: World)
    ensures Stepped(net, GoTo(address), config, world) ==
            match world.dial(|net.log|, address)
            case Ok(advertised) => Net(Connection(|net.log|, advertised), net.known, net.timer,
                                       net.log + [Dialled(address, None)])
            case Err(error) => net.(log := net.log + [Dialled(address, Some(error))])
  {
  }
}
