/** What the recovery protocol keeps, in each call and over whole runs. */
module RecoveryLaws {
  import opened Base
  import opened HostPort
  import opened Recovery

  function Sends(log: seq<Event>): nat {
    if log == [] then 0 else Sends(log[..|log| - 1]) + if log[|log| - 1].Sent? then 1 else 0
  }

  function Reboots(log: seq<Event>): nat {
    if log == [] then 0 else Reboots(log[..|log| - 1]) + if log[|log| - 1].Rebootstrapping? then 1 else 0
  }

  /** The error with which the peer of this event rejected the client. */
  function RejectedWith(event: Event): Option<AdminError> {
    match event
    case Dialled(_, Some(error)) => if IsAuthenticationFailure(error) then Some(error) else None
    case Described(_, Some(error)) => if error.Authentication? then Some(Transport(error)) else None
    case Sent(_, _, Some(error)) => if error.Authentication? then Some(Transport(error)) else None
    case _ => None
  }

  /** A rejection in the part of `after` that follows `before` ends it, and is its error. */
  ghost predicate Fatal(before: seq<Event>, after: seq<Event>, error: Option<AdminError>) {
    forall i | |before| <= i < |after| && RejectedWith(after[i]).Some? ::
      i == |after| - 1 && error == RejectedWith(after[i])
  }

  predicate Clears(event: Event) {
    event.Rebooted? || (event.Returned? && event.kind.key == METADATA && event.response.nodes != [])
  }

  /** The timer as the run tells it. */
  function TimerOf(strategy: Strategy, log: seq<Event>): Option<int> {
    if log == [] then None
    else
      var before, event := TimerOf(strategy, log[..|log| - 1]), log[|log| - 1];
      if Clears(event) then None
      else if event.Attempt? && strategy.Rebootstrap? && before.None? then Some(event.at)
      else before
  }

  /** There is an address to dial, and the timer is the one that the run tells. */
  ghost predicate Steady(config: Config, net: Net) {
    config.bootstrap != [] && net.known != [] && net.timer == TimerOf(config.strategy, net.log)
  }

  /** A part of a run, from `a` to `b`, that fails with `error` or goes on. */
  ghost predicate Keeps(config: Config, a: Net, b: Net, error: Option<AdminError>, sends: nat, reboots: nat) {
    && a.log <= b.log
    && (Steady(config, a) ==> Steady(config, b))
    && Sends(b.log) <= Sends(a.log) + sends
    && Reboots(b.log) <= Reboots(a.log) + reboots
    && Fatal(a.log, b.log, error)
  }

  predicate Goes(error: Option<AdminError>) {
    error.None? || !IsAuthenticationFailure(error.value)
  }

  function Failure<T>(o: Outcome<T>): Option<AdminError> {
    if o.result.Err? then Some(o.result.error) else None
  }

  lemma KeepsThen(config: Config, a: Net, b: Net, c: Net, first: Option<AdminError>, error: Option<AdminError>,
                  s1: nat, r1: nat, s2: nat, r2: nat)
    requires Keeps(config, a, b, first, s1, r1) && Goes(first) && Keeps(config, b, c, error, s2, r2)
    ensures Keeps(config, a, c, error, s1 + s2, r1 + r2)
  {
    forall i | |a.log| <= i < |c.log| && RejectedWith(c.log[i]).Some?
      ensures i == |c.log| - 1 && error == RejectedWith(c.log[i])
    {
      if i < |b.log| {
        assert b.log[i] == c.log[i];
        RejectionIsAuthentication(b.log[i]);
      }
    }
  }

  lemma RejectionIsAuthentication(event: Event)
    ensures RejectedWith(event).Some? ==> IsAuthenticationFailure(RejectedWith(event).value)
  {
  }

  lemma KeepsNothing(config: Config, a: Net, error: Option<AdminError>)
    ensures Keeps(config, a, a, error, 0, 0)
  {
  }

  /** One more event that leaves the fields alone. */
  lemma KeepsEvent(config: Config, a: Net, event: Event, error: Option<AdminError>)
    requires !Clears(event) && !event.Attempt? && (RejectedWith(event).Some? ==> error == RejectedWith(event))
    ensures Keeps(config, a, Logged(a, event), error, if event.Sent? then 1 else 0,
                  if event.Rebootstrapping? then 1 else 0)
  {
    assert (a.log + [event])[..|a.log|] == a.log;
  }

  lemma KeepsWiden(config: Config, a: Net, b: Net, error: Option<AdminError>, s: nat, r: nat, s': nat, r': nat)
    requires Keeps(config, a, b, error, s, r) && s <= s' && r <= r'
    ensures Keeps(config, a, b, error, s', r')
  {
  }

  // ----- dialling -----

  lemma DialKeeps(net: Net, address: string, config: Config, world: World)
    ensures Keeps(config, net, Dial(net, address, world).net, Failure(Dial(net, address, world)), 0, 0)
  {
    var o := Dial(net, address, world);
    KeepsEvent(config, net, Dialled(address, Failure(o)), Failure(o));
  }

  lemma DescribeKeeps(net: Net, connection: Connection, config: Config, world: World)
    ensures Keeps(config, net, Describe(net, connection, config, world).net,
                  Failure(Describe(net, connection, config, world)), 0, 0)
  {
    var o := Describe(net, connection, config, world);
    match NegotiatedAtLeast(config.discovery, connection, Some(1))
    case Err(_) => KeepsNothing(config, net, Failure(o));
    case Ok(version) =>
      KeepsEvent(config, net, Described(version, ErrorOf(world.answer(|net.log|, config.discovery, version))),
                 Failure(o));
  }

  lemma DialControllerKeeps(net: Net, address: string, config: Config, world: World)
    ensures var o := DialController(net, address, config, world);
            Keeps(config, net, o.net, Failure(o), 0, 0) && (o.result.Ok? ==> o.result.value.discovered != [])
  {
    var first := Dial(net, address, world);
    DialKeeps(net, address, config, world);
    if first.result.Ok? {
      var described := Describe(first.net, first.result.value, config, world);
      DescribeKeeps(first.net, first.result.value, config, world);
      KeepsThen(config, net, first.net, described.net, None, Failure(described), 0, 0, 0, 0);
      if described.result.Ok? {
        ControllerDials(net, described.net, described.result.value, config, world);
      }
    }
  }

  lemma ControllerDials(net: Net, described: Net, response: Response, config: Config, world: World)
    requires Keeps(config, net, described, None, 0, 0)
    ensures var controller := ControllerAddress(response);
            && (controller.Err? ==> Keeps(config, net, described, Some(controller.error), 0, 0))
            && (controller.Ok? ==>
                  var second := Dial(described, controller.value, world);
                  Keeps(config, net, second.net, Failure(second), 0, 0) && Addresses(response.nodes) != [])
  {
    var controller := ControllerAddress(response);
    if controller.Ok? {
      DialKeeps(described, controller.value, config, world);
      var second := Dial(described, controller.value, world);
      KeepsThen(config, net, described, second.net, None, Failure(second), 0, 0, 0, 0);
      FirstIsIn((node: NodeRow) => node.nodeId == response.controllerId, response.nodes);
    }
  }

  lemma {:induction false} FirstIsIn<T>(p: T -> bool, q: seq<T>)
    ensures First(p, q).Some? ==> First(p, q).value in q && p(First(p, q).value)
  {
    if q != [] { FirstIsIn(p, q[1..]); }
  }

  lemma DialTargetKeeps(net: Net, address: string, config: Config, world: World)
    ensures var o := DialTarget(net, address, config, world);
            && Keeps(config, net, o.net, Failure(o), 0, 0)
            && (o.result.Ok? ==> (config.target.Controllers? <==> o.result.value.discovered != []))
  {
    if config.target.Controllers? {
      DialControllerKeeps(net, address, config, world);
    } else {
      DialKeeps(net, address, config, world);
    }
  }

  lemma {:induction false} DialEachKeeps(net: Net, addresses: seq<string>, tried: nat, last: Option<AdminError>,
                                         config: Config, world: World)
    ensures var o := DialEach(net, addresses, tried, last, config, world);
            && Keeps(config, net, o.net, Failure(o), 0, 0)
            && (o.result.Ok? ==> (config.target.Controllers? <==> o.result.value.discovered != []))
    decreases |addresses|
  {
    if addresses == [] {
      KeepsNothing(config, net, Some(Connect(tried, last)));
    } else {
      var dialled := DialTarget(net, addresses[0], config, world);
      DialTargetKeeps(net, addresses[0], config, world);
      if dialled.result.Err? && !IsAuthenticationFailure(dialled.result.error) {
        var last' := Some(dialled.result.error);
        DialEachKeeps(dialled.net, addresses[1..], tried, last', config, world);
        var rest := DialEach(dialled.net, addresses[1..], tried, last', config, world);
        KeepsThen(config, net, dialled.net, rest.net, last', Failure(rest), 0, 0, 0, 0);
      }
    }
  }

  ghost predicate SameFields(a: Net, b: Net) {
    b.connection == a.connection && b.known == a.known && b.timer == a.timer
  }

  lemma {:induction false} DialEachKeepsFields(net: Net, addresses: seq<string>, tried: nat, last: Option<AdminError>,
                                               config: Config, world: World)
    ensures SameFields(net, DialEach(net, addresses, tried, last, config, world).net)
    decreases |addresses|
  {
    if addresses != [] {
      var dialled := DialTarget(net, addresses[0], config, world);
      if dialled.result.Err? && !IsAuthenticationFailure(dialled.result.error) {
        DialEachKeepsFields(dialled.net, addresses[1..], tried, Some(dialled.result.error), config, world);
      }
    }
  }

  /** A connected target replaces the fields, and may be a cleared point of the timer. */
  lemma RebootKeeps(config: Config, a: Net, connection: Connection, known: seq<string>)
    requires config.bootstrap != [] ==> known != []
    ensures Keeps(config, a, Net(connection, known, None, a.log + [Rebooted]), None, 0, 0)
  {
    assert (a.log + [Rebooted])[..|a.log|] == a.log;
  }

  lemma RebootstrappedKeeps(net: Net, config: Config, world: World)
    ensures var o := Rebootstrapped(net, config, world); Keeps(config, net, o.net, Failure(o), 0, 1)
  {
    var started := Logged(net, Rebootstrapping);
    KeepsEvent(config, net, Rebootstrapping, None);
    var dialled := DialAll(started, config.bootstrap, config, world);
    DialEachKeeps(started, config.bootstrap, |config.bootstrap|, None, config, world);
    KeepsThen(config, net, started, dialled.net, None, Failure(dialled), 0, 1, 0, 0);
    if dialled.result.Ok? {
      var connected := dialled.result.value;
      RebootKeeps(config, dialled.net, connected.connection, Bootstrapped(config, connected));
      var end := Net(connected.connection, Bootstrapped(config, connected), None, dialled.net.log + [Rebooted]);
      KeepsThen(config, net, dialled.net, end, None, None, 0, 1, 0, 0);
    }
  }

  lemma ReconnectedKeeps(net: Net, config: Config, world: World)
    ensures var o := Reconnected(net, config, world); Keeps(config, net, o.net, Failure(o), 0, 0)
  {
    DialEachKeeps(net, net.known, |net.known|, None, config, world);
  }

  // ----- one request -----

  lemma BegunKeeps(net: Net, api: Api, config: Config, world: World)
    ensures Keeps(config, net, Begun(net, api, config, world), None, 0, 0)
  {
    var begun := Begun(net, api, config, world);
    if api.key == METADATA {
      assert begun.log[..|net.log|] == net.log;
    }
  }

  lemma SendCurrentKeeps(net: Net, api: Api, floor: Option<int>, config: Config, world: World)
    ensures var (sent, answer) := SendCurrent(net, api, floor, world);
            Keeps(config, net, sent, if answer.Ok? then None else Some(Transport(answer.error)), 1, 0)
  {
    match NegotiatedAtLeast(api, net.connection, floor)
    case Err(error) => KeepsNothing(config, net, Some(Transport(error)));
    case Ok(version) =>
      var answer := world.answer(|net.log|, api, version);
      KeepsEvent(config, net, Sent(api, version, ErrorOf(answer)),
                 if answer.Ok? then None else Some(Transport(answer.error)));
  }

  /** The start of the timer and the send together. */
  lemma BeginAndSendKeeps(net: Net, api: Api, floor: Option<int>, config: Config, world: World)
    ensures var (sent, answer) := SendCurrent(Begun(net, api, config, world), api, floor, world);
            Keeps(config, net, sent, if answer.Ok? then None else Some(Transport(answer.error)), 1, 0)
  {
    var begun := Begun(net, api, config, world);
    BegunKeeps(net, api, config, world);
    SendCurrentKeeps(begun, api, floor, config, world);
    var (sent, answer) := SendCurrent(begun, api, floor, world);
    KeepsThen(config, net, begun, sent, None, if answer.Ok? then None else Some(Transport(answer.error)), 0, 0, 1, 0);
  }

  lemma ObservedKeeps(net: Net, api: Api, response: Response, config: Config)
    ensures Keeps(config, net, Observed(net, api, response, config), None, 0, 0)
  {
    var observed := Observed(net, api, response, config);
    assert observed.log[..|net.log|] == net.log;
  }

  lemma GivenKeeps(a: Net, net: Net, api: Api, response: Response, config: Config, sends: nat, reboots: nat)
    requires Keeps(config, a, net, None, sends, reboots)
    ensures Keeps(config, a, Given(net, api, response, config).net, None, sends, reboots)
  {
    ObservedKeeps(net, api, response, config);
    KeepsThen(config, a, net, Observed(net, api, response, config), None, None, sends, reboots, 0, 0);
  }

  /** Without a rejection, any error may follow. */
  lemma KeepsAny(config: Config, a: Net, b: Net, first: Option<AdminError>, error: Option<AdminError>, s: nat, r: nat)
    requires Keeps(config, a, b, first, s, r) && Goes(first)
    ensures Keeps(config, a, b, error, s, r)
  {
    KeepsNothing(config, b, error);
    KeepsThen(config, a, b, b, first, error, s, r, 0, 0);
  }

  lemma SendFreshKeeps(net: Net, api: Api, floor: Option<int>, config: Config, world: World)
    ensures var o := SendFresh(net, api, floor, config, world); Keeps(config, net, o.net, Failure(o), 1, 0)
  {
    if Refuses(net, api, config) {
      KeepsNothing(config, net, Some(REFUSAL));
    } else {
      BeginAndSendKeeps(net, api, floor, config, world);
      var (sent, answer) := SendCurrent(Begun(net, api, config, world), api, floor, world);
      if answer.Ok? {
        KeepsAny(config, net, sent, None, Some(REBOOTSTRAP_ERROR), 1, 0);
        GivenKeeps(net, sent, api, answer.value, config, 1, 0);
      }
    }
  }

  lemma SendAfterRebootstrapKeeps(net: Net, api: Api, floor: Option<int>, config: Config, world: World)
    ensures var o := SendAfterRebootstrap(net, api, floor, config, world); Keeps(config, net, o.net, Failure(o), 1, 1)
  {
    var rebooted := Rebootstrapped(net, config, world);
    RebootstrappedKeeps(net, config, world);
    if rebooted.result.Ok? {
      var o := SendFresh(rebooted.net, api, floor, config, world);
      SendFreshKeeps(rebooted.net, api, floor, config, world);
      KeepsThen(config, net, rebooted.net, o.net, None, Failure(o), 0, 1, 1, 0);
    } else {
      KeepsWiden(config, net, rebooted.net, Failure(rebooted), 0, 1, 1, 1);
    }
  }

  /** How many rebootstraps, each with one more send, the strategy allows to follow. */
  function Allowed(config: Config, n: nat): nat {
    if config.strategy.Rebootstrap? then n else 0
  }

  lemma AnsweredKeeps(net: Net, api: Api, floor: Option<int>, response: Response, config: Config, world: World)
    ensures var o := Answered(net, api, floor, response, config, world);
            Keeps(config, net, o.net, Failure(o), Allowed(config, 1), Allowed(config, 1))
  {
    var n := Allowed(config, 1);
    KeepsNothing(config, net, Some(REBOOTSTRAP_ERROR));
    ObservedKeeps(net, api, response, config);
    KeepsWiden(config, net, Observed(net, api, response, config), None, 0, 0, n, n);
    SendAfterRebootstrapKeeps(net, api, floor, config, world);
  }

  /** An answered request keeps what its answer keeps, after what led to it. */
  lemma ThenAnswered(a: Net, sent: Net, api: Api, floor: Option<int>, response: Response, config: Config, world: World,
                     o: Outcome<Response>)
    requires Keeps(config, a, sent, None, 1, 0) && o == Answered(sent, api, floor, response, config, world)
    ensures Keeps(config, a, o.net, Failure(o), 1 + Allowed(config, 1), Allowed(config, 1))
  {
    AnsweredKeeps(sent, api, floor, response, config, world);
    KeepsThen(config, a, sent, o.net, None, Failure(o), 1, 0, Allowed(config, 1), Allowed(config, 1));
  }

  lemma ResendKeeps(net: Net, api: Api, floor: Option<int>, config: Config, world: World)
    ensures var o := Resend(net, api, floor, config, world);
            Keeps(config, net, o.net, Failure(o), 1 + Allowed(config, 1), Allowed(config, 1))
  {
    var n := Allowed(config, 1);
    if Refuses(net, api, config) {
      KeepsNothing(config, net, Some(REFUSAL));
      KeepsWiden(config, net, net, Some(REFUSAL), 0, 0, 1 + n, n);
    } else {
      var (sent, answer) := SendCurrent(net, api, floor, world);
      SendCurrentKeeps(net, api, floor, config, world);
      if answer.Ok? {
        ThenAnswered(net, sent, api, floor, answer.value, config, world,
                     Answered(sent, api, floor, answer.value, config, world));
      } else {
        KeepsWiden(config, net, sent, Some(Transport(answer.error)), 1, 0, 1 + n, n);
      }
    }
  }

  lemma SendAfterReconnectKeeps(net: Net, api: Api, floor: Option<int>, config: Config, world: World)
    ensures var o := SendAfterReconnect(net, api, floor, config, world);
            Keeps(config, net, o.net, Failure(o), 1 + Allowed(config, 1), Allowed(config, 1))
  {
    var n := Allowed(config, 1);
    var reconnected := Reconnected(net, config, world);
    ReconnectedKeeps(net, config, world);
    if reconnected.result.Ok? {
      var o := Resend(reconnected.net, api, floor, config, world);
      ResendKeeps(reconnected.net, api, floor, config, world);
      KeepsThen(config, net, reconnected.net, o.net, None, Failure(o), 0, 0, 1 + n, n);
    } else {
      KeepsWiden(config, net, reconnected.net, Failure(reconnected), 0, 0, 1 + n, n);
    }
  }

  lemma SendAfterFailureKeeps(net: Net, error: ClientError, api: Api, floor: Option<int>, config: Config, world: World)
    ensures var o := SendAfterFailure(net, error, api, floor, config, world);
            Keeps(config, net, o.net, Failure(o), 1 + Allowed(config, 2), Allowed(config, 2))
  {
    var again := SendAfterReconnect(net, api, floor, config, world);
    SendAfterReconnectKeeps(net, api, floor, config, world);
    var n, m := Allowed(config, 1), Allowed(config, 2);
    KeepsWiden(config, net, again.net, Failure(again), 1 + n, n, 1 + m, m);
    if again.result.Err? && !IsAuthenticationFailure(again.result.error) {
      KeepsAny(config, net, again.net, Failure(again), Some(Transport(error)), 1 + m, m);
      var o := SendAfterRebootstrap(again.net, api, floor, config, world);
      SendAfterRebootstrapKeeps(again.net, api, floor, config, world);
      KeepsThen(config, net, again.net, o.net, Failure(again), Failure(o), 1 + n, n, 1, 1);
    }
  }

  /** Every request keeps an address to dial and the timer that its run tells. It makes at most four sends and two
      rebootstraps, and without a recovery strategy at most two sends and no rebootstrap. When a peer rejects the
      client, on any dial, discovery or send of the request, nothing follows and the rejection is the result. */
  lemma SendKeeps(net: Net, api: Api, floor: Option<int>, config: Config, world: World)
    ensures var o := Send(net, api, floor, config, world);
            Keeps(config, net, o.net, Failure(o), 2 + Allowed(config, 2), Allowed(config, 2))
  {
    var m := Allowed(config, 2);
    if Refuses(net, api, config) {
      KeepsNothing(config, net, Some(REFUSAL));
      KeepsWiden(config, net, net, Some(REFUSAL), 0, 0, 2 + m, m);
    } else {
      BeginAndSendKeeps(net, api, floor, config, world);
      var (sent, answer) := SendCurrent(Begun(net, api, config, world), api, floor, world);
      if answer.Ok? {
        var o := Answered(sent, api, floor, answer.value, config, world);
        ThenAnswered(net, sent, api, floor, answer.value, config, world, o);
        KeepsWiden(config, net, o.net, Failure(o), 1 + Allowed(config, 1), Allowed(config, 1), 2 + m, m);
      } else if IsRetriableTransport(answer.error) {
        var o := SendAfterFailure(sent, answer.error, api, floor, config, world);
        SendAfterFailureKeeps(sent, answer.error, api, floor, config, world);
        KeepsThen(config, net, sent, o.net, Some(Transport(answer.error)), Failure(o), 1, 0, 1 + m, m);
      } else {
        KeepsWiden(config, net, sent, Some(Transport(answer.error)), 1, 0, 2 + m, m);
      }
    }
  }

  // ----- what a returned answer leaves behind -----

  /** A returned answer is no order to rebootstrap. It leaves the addresses that it names, and the timer clear when
      it names brokers. */
  ghost predicate Settles(o: Outcome<Response>, api: Api, config: Config) {
    o.result.Ok? ==>
      var response := o.result.value;
      && !MustRebootstrap(api, response)
      && o.net.log != [] && o.net.log[|o.net.log| - 1] == Returned(api, response)
      && (api.key == METADATA && response.nodes != [] ==> o.net.timer == None)
      && (NamesNodes(api, config) && Addresses(response.nodes) != [] ==> o.net.known == Addresses(response.nodes))
  }

  lemma SendFreshSettles(net: Net, api: Api, floor: Option<int>, config: Config, world: World)
    ensures Settles(SendFresh(net, api, floor, config, world), api, config)
  {
  }

  lemma AnsweredSettles(net: Net, api: Api, floor: Option<int>, response: Response, config: Config, world: World)
    ensures Settles(Answered(net, api, floor, response, config, world), api, config)
    ensures Settles(SendAfterRebootstrap(net, api, floor, config, world), api, config)
  {
    SendFreshSettles(Rebootstrapped(net, config, world).net, api, floor, config, world);
  }

  lemma SendAfterReconnectSettles(net: Net, api: Api, floor: Option<int>, config: Config, world: World)
    ensures Settles(SendAfterReconnect(net, api, floor, config, world), api, config)
  {
    var reconnected := Reconnected(net, config, world);
    var (sent, answer) := SendCurrent(reconnected.net, api, floor, world);
    if answer.Ok? {
      AnsweredSettles(sent, api, floor, answer.value, config, world);
    }
  }

  lemma SendSettles(net: Net, api: Api, floor: Option<int>, config: Config, world: World)
    ensures Settles(Send(net, api, floor, config, world), api, config)
  {
    var (sent, answer) := SendCurrent(Begun(net, api, config, world), api, floor, world);
    if answer.Ok? {
      AnsweredSettles(sent, api, floor, answer.value, config, world);
    } else {
      SendAfterReconnectSettles(sent, api, floor, config, world);
      var again := SendAfterReconnect(sent, api, floor, config, world);
      AnsweredSettles(again.net, api, floor, Response(0, [], 0, 0, None), config, world);
    }
  }

  ghost predicate RebootedIn(a: Net, b: Net) {
    exists i | |a.log| <= i < |b.log| :: b.log[i].Rebootstrapping?
  }

  /** Metadata without brokers is returned only after a rebootstrap, or while the timer is below the trigger. */
  ghost predicate Patient(a: Net, o: Outcome<Response>, api: Api, config: Config, world: World) {
    o.result.Ok? && api.key == METADATA && o.result.value.nodes == [] && config.strategy.Rebootstrap? ==>
      RebootedIn(a, o.net) ||
      (o.net.log != [] && o.net.timer.Some? && world.clock(|o.net.log| - 1) - o.net.timer.value < config.trigger)
  }

  lemma RebootstrapIsLogged(net: Net, api: Api, floor: Option<int>, config: Config, world: World)
    ensures RebootedIn(net, SendAfterRebootstrap(net, api, floor, config, world).net)
  {
    var started := Logged(net, Rebootstrapping);
    DialEachKeeps(started, config.bootstrap, |config.bootstrap|, None, config, world);
    var rebooted := Rebootstrapped(net, config, world);
    assert started.log <= rebooted.net.log;
    SendFreshKeeps(rebooted.net, api, floor, config, world);
    var end := SendAfterRebootstrap(net, api, floor, config, world).net;
    assert started.log <= end.log;
    assert end.log[|net.log|] == Rebootstrapping;
  }

  lemma RebootedEarlier(a: Net, b: Net, c: Net)
    requires a.log <= b.log && RebootedIn(b, c)
    ensures RebootedIn(a, c)
  {
  }

  lemma AnsweredIsPatient(net: Net, api: Api, floor: Option<int>, response: Response, config: Config, world: World)
    requires api.key == METADATA && config.strategy.Rebootstrap? ==> net.timer.Some?
    ensures Patient(net, Answered(net, api, floor, response, config, world), api, config, world)
  {
    RebootstrapIsLogged(net, api, floor, config, world);
  }

  lemma ReconnectIsPatient(net: Net, api: Api, floor: Option<int>, config: Config, world: World)
    requires api.key == METADATA && config.strategy.Rebootstrap? ==> net.timer.Some?
    ensures Patient(net, SendAfterReconnect(net, api, floor, config, world), api, config, world)
  {
    var reconnected := Reconnected(net, config, world);
    DialEachKeepsFields(net, net.known, |net.known|, None, config, world);
    if reconnected.result.Ok? {
      ReconnectedKeeps(net, config, world);
      SendCurrentKeeps(reconnected.net, api, floor, config, world);
      var (sent, answer) := SendCurrent(reconnected.net, api, floor, world);
      if answer.Ok? {
        AnsweredIsPatient(sent, api, floor, answer.value, config, world);
        ResendIsPatient(net, reconnected.net, sent, answer.value, api, floor, config, world);
      }
    }
  }

  lemma ResendIsPatient(a: Net, net: Net, sent: Net, response: Response, api: Api, floor: Option<int>, config: Config,
                        world: World)
    requires a.log <= sent.log && SendCurrent(net, api, floor, world) == (sent, Ok(response))
    requires Patient(sent, Answered(sent, api, floor, response, config, world), api, config, world)
    ensures Patient(a, Resend(net, api, floor, config, world), api, config, world)
  {
    var o := Answered(sent, api, floor, response, config, world);
    if RebootedIn(sent, o.net) { RebootedEarlier(a, sent, o.net); }
  }

  /** Metadata that names no brokers for as long as the trigger forces a rebootstrap. */
  lemma StalledMetadataRebootstraps(net: Net, api: Api, floor: Option<int>, config: Config, world: World)
    ensures Patient(net, Send(net, api, floor, config, world), api, config, world)
  {
    if !Refuses(net, api, config) {
      BeginAndSendKeeps(net, api, floor, config, world);
      var (sent, answer) := SendCurrent(Begun(net, api, config, world), api, floor, world);
      var o := Send(net, api, floor, config, world);
      if answer.Ok? {
        AnsweredIsPatient(sent, api, floor, answer.value, config, world);
        if RebootedIn(sent, o.net) { RebootedEarlier(net, sent, o.net); }
      } else if IsRetriableTransport(answer.error) {
        ReconnectIsPatient(sent, api, floor, config, world);
        FailureIsPatient(net, sent, answer.error, api, floor, config, world);
      }
    }
  }

  lemma FailureIsPatient(a: Net, net: Net, error: ClientError, api: Api, floor: Option<int>, config: Config,
                         world: World)
    requires a.log <= net.log
    requires Patient(net, SendAfterReconnect(net, api, floor, config, world), api, config, world)
    ensures Patient(a, SendAfterFailure(net, error, api, floor, config, world), api, config, world)
  {
    var again := SendAfterReconnect(net, api, floor, config, world);
    var o := SendAfterFailure(net, error, api, floor, config, world);
    if again.result.Ok? {
      if RebootedIn(net, again.net) { RebootedEarlier(a, net, again.net); }
    } else if !IsAuthenticationFailure(again.result.error) && config.strategy.Rebootstrap? {
      SendAfterReconnectKeeps(net, api, floor, config, world);
      RebootstrapIsLogged(again.net, api, floor, config, world);
      RebootedEarlier(a, again.net, o.net);
    }
  }

  // ----- whole runs -----

  lemma OpenedIsSteady(config: Config, world: World)
    ensures Opened(config, world).result.Ok? ==> Steady(config, Opened(config, world).net)
    ensures Fatal([], Opened(config, world).net.log, Failure(Opened(config, world)))
  {
    var start := Net(Connection(0, map[]), config.bootstrap, None, []);
    DialEachKeeps(start, config.bootstrap, |config.bootstrap|, None, config, world);
    DialEachKeepsFields(start, config.bootstrap, |config.bootstrap|, None, config, world);
    var dialled := DialAll(start, config.bootstrap, config, world);
    if Goes(Failure(dialled)) {
      KeepsAny(config, start, dialled.net, Failure(dialled), Failure(Opened(config, world)), 0, 0);
    }
  }

  lemma SteppedIsSteady(net: Net, step: Step, config: Config, world: World)
    requires Steady(config, net)
    ensures Steady(config, Stepped(net, step, config, world))
  {
    match step
    case Request(api, floor) => SendKeeps(net, api, floor, config, world);
    case GoToBootstrap => RebootstrappedKeeps(net, config, world);
    case GoTo(address) => DialKeeps(net, address, config, world);
  }

  /** After any run of requests, reconnections and rebootstraps there is an address to dial, and the timer is the
      one that the run tells. */
  lemma {:induction false} RunIsSteady(steps: seq<Step>, config: Config, world: World)
    requires Opened(config, world).result.Ok?
    ensures Steady(config, Run(Opened(config, world).net, steps, config, world))
  {
    if steps == [] {
      OpenedIsSteady(config, world);
    } else {
      RunIsSteady(steps[..|steps| - 1], config, world);
      SteppedIsSteady(Run(Opened(config, world).net, steps[..|steps| - 1], config, world), steps[|steps| - 1], config,
                      world);
    }
  }

  /** The attempt at `i` is the first since the last cleared point, and no cleared point follows it. */
  ghost predicate FirstSince(log: seq<Event>, i: nat) {
    && i < |log| && log[i].Attempt?
    && (forall j | i < j < |log| :: !Clears(log[j]))
    && (forall j | 0 <= j < i && log[j].Attempt? :: ClearedBetween(log, j, i))
  }

  ghost predicate ClearedBetween(log: seq<Event>, i: int, j: int) {
    exists c | 0 <= c < |log| && i < c < j :: Clears(log[c])
  }

  /** What the timer of a run means: nothing without a strategy, and otherwise the time of the first Metadata
      attempt since the last cleared point, or nothing when there is none. */
  lemma {:induction false} TimerIsTheFirstAttempt(strategy: Strategy, log: seq<Event>)
    ensures strategy.NoRecovery? ==> TimerOf(strategy, log) == None
    ensures strategy.Rebootstrap? && TimerOf(strategy, log).Some? ==>
              exists i: nat :: FirstSince(log, i) && log[i] == Attempt(TimerOf(strategy, log).value)
    ensures strategy.Rebootstrap? && TimerOf(strategy, log).None? ==>
              forall i | 0 <= i < |log| && log[i].Attempt? :: ClearedBetween(log, i, |log|)
  {
    if log != [] {
      var n := |log| - 1;
      TimerIsTheFirstAttempt(strategy, log[..n]);
      if strategy.Rebootstrap? {
        TimerMoves(log, n);
      }
    }
  }

  /** One more event that clears nothing. */
  lemma StillFirst(log: seq<Event>, n: nat, i: nat)
    requires n == |log| - 1 && FirstSince(log[..n], i) && !Clears(log[n])
    ensures FirstSince(log, i)
  {
    forall j | 0 <= j < i && log[j].Attempt? ensures ClearedBetween(log, j, i) {
      assert log[..n][j].Attempt?;
      StillCleared(log, n, j, i);
    }
  }

  lemma StillCleared(log: seq<Event>, n: nat, i: int, j: int)
    requires n <= |log| && ClearedBetween(log[..n], i, j)
    ensures ClearedBetween(log, i, j)
  {
    var c :| 0 <= c < n && i < c < j && Clears(log[..n][c]);
    assert Clears(log[c]);
  }

  lemma TimerMoves(log: seq<Event>, n: nat)
    requires n == |log| - 1
    requires TimerOf(Rebootstrap, log[..n]).Some? ==>
               exists i: nat :: FirstSince(log[..n], i) && log[..n][i] == Attempt(TimerOf(Rebootstrap, log[..n]).value)
    requires TimerOf(Rebootstrap, log[..n]).None? ==>
               forall i | 0 <= i < n && log[..n][i].Attempt? :: ClearedBetween(log[..n], i, n)
    ensures TimerOf(Rebootstrap, log).Some? ==>
              exists i: nat :: FirstSince(log, i) && log[i] == Attempt(TimerOf(Rebootstrap, log).value)
    ensures TimerOf(Rebootstrap, log).None? ==>
              forall i | 0 <= i < |log| && log[i].Attempt? :: ClearedBetween(log, i, |log|)
  {
    if Clears(log[n]) {
      forall i | 0 <= i < |log| && log[i].Attempt? ensures ClearedBetween(log, i, |log|) {
        assert i < n < |log|;
      }
    } else if TimerOf(Rebootstrap, log[..n]).Some? {
      var i: nat :| FirstSince(log[..n], i) && log[..n][i] == Attempt(TimerOf(Rebootstrap, log[..n]).value);
      StillFirst(log, n, i);
    } else {
      forall i | 0 <= i < n && log[i].Attempt? ensures ClearedBetween(log, i, n) {
        assert log[..n][i].Attempt?;
        StillCleared(log, n, i, n);
      }
      if log[n].Attempt? {
        assert FirstSince(log, n);
      } else {
        forall i | 0 <= i < |log| && log[i].Attempt? ensures ClearedBetween(log, i, |log|) {
          var c :| 0 <= c < |log| && i < c < n && Clears(log[c]);
          assert i < c < |log|;
        }
      }
    }
  }

  // ----- the bound is tight -----

  const TIGHT_API := Api(METADATA, 0, 0)
  const TIGHT_CONFIG := Config(["b"], Rebootstrap, 0, Brokers, Api(DESCRIBE_CLUSTER, 0, 0))
  const TIGHT_START := Net(Connection(0, map[]), ["b"], None, [])

  /** A cluster that loses every request but the one after the reconnection, and orders a rebootstrap there. */
  function TightWorld(): World {
    World((n: nat, address: string) => Ok(map[]),
          (n: nat, api: Api, version: int) =>
            if n == 3 then Ok(Response(REBOOTSTRAP_REQUIRED, [], 0, 0, None)) else Err(Disconnected),
          (n: nat) => 0)
  }

  ghost predicate Tight(world: World) {
    && (forall n, address :: world.dial(n, address) == Ok(map[]))
    && (forall n, api, version ::
          world.answer(n, api, version) ==
          if n == 3 then Ok(Response(REBOOTSTRAP_REQUIRED, [], 0, 0, None)) else Err(Disconnected))
    && (forall n :: world.clock(n) == 0)
  }

  lemma TightDial(net: Net, world: World)
    requires Tight(world)
    ensures DialAll(net, ["b"], TIGHT_CONFIG, world) ==
            Outcome(Logged(net, Dialled("b", None)), Ok(Connected(Connection(|net.log|, map[]), [])))
  {
  }

  /** A rebootstrap there loses its request too. */
  lemma TightReboot(net: Net, world: World)
    requires |net.log| >= 4 && Tight(world)
    ensures var o := SendAfterRebootstrap(net, TIGHT_API, None, TIGHT_CONFIG, world);
            && o.result == Err(Transport(Disconnected)) && |o.net.log| >= 4
            && Sends(o.net.log) == Sends(net.log) + 1 && Reboots(o.net.log) == Reboots(net.log) + 1
  {
    var started := Logged(net, Rebootstrapping);
    TightDial(started, world);
    var o := SendAfterRebootstrap(net, TIGHT_API, None, TIGHT_CONFIG, world);
    CountsMore(net.log, Rebootstrapping);
    CountsMore(started.log, Dialled("b", None));
    CountsMore(started.log + [Dialled("b", None)], Rebooted);
    CountsMore(started.log + [Dialled("b", None)] + [Rebooted], Attempt(0));
    CountsMore(started.log + [Dialled("b", None)] + [Rebooted] + [Attempt(0)], Sent(TIGHT_API, 0, Some(Disconnected)));
  }

  lemma CountsMore(log: seq<Event>, event: Event)
    ensures Sends(log + [event]) == Sends(log) + if event.Sent? then 1 else 0
    ensures Reboots(log + [event]) == Reboots(log) + if event.Rebootstrapping? then 1 else 0
  {
    assert (log + [event])[..|log|] == log;
  }

  /** The reconnection is answered with the order to rebootstrap. */
  lemma TightReconnect(net: Net, world: World)
    requires Tight(world) && |net.log| == 2 && net.known == ["b"]
    ensures var o := SendAfterReconnect(net, TIGHT_API, None, TIGHT_CONFIG, world);
            && o.result == Err(Transport(Disconnected)) && |o.net.log| >= 4
            && Sends(o.net.log) == Sends(net.log) + 2 && Reboots(o.net.log) == Reboots(net.log) + 1
  {
    TightDial(net, world);
    var reconnected := Reconnected(net, TIGHT_CONFIG, world);
    CountsMore(net.log, Dialled("b", None));
    CountsMore(net.log + [Dialled("b", None)], Sent(TIGHT_API, 0, None));
    var (resent, answer) := SendCurrent(reconnected.net, TIGHT_API, None, world);
    TightReboot(resent, world);
  }

  /** A request that is lost, and lost again after the reconnection, goes through the bootstrap addresses. */
  lemma LostTwice(net: Net, sent: Net, error: ClientError, api: Api, floor: Option<int>, config: Config, world: World)
    requires !Refuses(net, api, config) && SendCurrent(Begun(net, api, config, world), api, floor, world) ==
             (sent, Err(error))
    requires IsRetriableTransport(error) && config.strategy.Rebootstrap?
    requires Failure(SendAfterReconnect(sent, api, floor, config, world)) == Some(Transport(Disconnected))
    ensures Send(net, api, floor, config, world) ==
            SendAfterRebootstrap(SendAfterReconnect(sent, api, floor, config, world).net, api, floor, config, world)
  {
  }

  lemma FirstIsLost(world: World)
    requires Tight(world)
    ensures var (sent, answer) := SendCurrent(Begun(TIGHT_START, TIGHT_API, TIGHT_CONFIG, world), TIGHT_API, None,
                                              world);
            && answer == Err(Disconnected) && sent.known == ["b"] && |sent.log| == 2
            && Sends(sent.log) == 1 && Reboots(sent.log) == 0
  {
    CountsMore([], Attempt(0));
    CountsMore([Attempt(0)], Sent(TIGHT_API, 0, Some(Disconnected)));
    var (sent, answer) := SendCurrent(Begun(TIGHT_START, TIGHT_API, TIGHT_CONFIG, world), TIGHT_API, None, world);
    assert sent.log == [Attempt(0)] + [Sent(TIGHT_API, 0, Some(Disconnected))];
  }

  lemma TightCounts(world: World)
    requires Tight(world)
    ensures var o := Send(TIGHT_START, TIGHT_API, None, TIGHT_CONFIG, world);
            Sends(o.net.log) == 4 && Reboots(o.net.log) == 2
  {
    FirstIsLost(world);
    var (sent, answer) := SendCurrent(Begun(TIGHT_START, TIGHT_API, TIGHT_CONFIG, world), TIGHT_API, None, world);
    TightReconnect(sent, world);
    LostTwice(TIGHT_START, sent, Disconnected, TIGHT_API, None, TIGHT_CONFIG, world);
    TightReboot(SendAfterReconnect(sent, TIGHT_API, None, TIGHT_CONFIG, world).net, world);
  }

  /** Four sends and two rebootstraps in one request do happen. */
  lemma FourSendsAndTwoReboots()
    ensures var o := Send(TIGHT_START, TIGHT_API, None, TIGHT_CONFIG, TightWorld());
            Sends(o.net.log) == 4 && Reboots(o.net.log) == 2
  {
    TightCounts(TightWorld());
  }
}
