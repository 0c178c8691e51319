/** The recovery protocol when requests share the connection: each request moves from one wait to the next, and the
    moves of the requests interleave in any order. */
module SharedConnection {
  import opened Base
  import opened Recovery
  import opened RecoveryLaws

  /** Where a request waits. `after` is the error that led to a reconnection, while the request is still inside that
      attempt, where a failure leads on to the bootstrap addresses. */
  datatype Phase =
    | Ready
    | First
    | Retrying(left: seq<string>, tried: nat, last: Option<AdminError>, first: ClientError)
    | Second(first: ClientError)
    | Rebooting(left: seq<string>, last: Option<AdminError>, after: Option<ClientError>)
    | Fresh(after: Option<ClientError>)
    | Third(after: Option<ClientError>)
    | Finished(result: Result<Response, AdminError>)

  /** The kind of a request and its lowest version, with what the requests run in. */
  datatype Ask = Ask(api: Api, floor: Option<int>)

  datatype Moved = Moved(net: Net, phase: Phase)

  function ToBootstrap(net: Net, after: Option<ClientError>, config: Config): (m: Moved)
    ensures Rank(m.phase) == if after.Some? then 6 else 3
  {
    Moved(Logged(net, Rebootstrapping), Rebooting(config.bootstrap, None, after))
  }

  /** A failure inside the attempt after a reconnection goes on to the bootstrap addresses, unless it is a rejection or
      the strategy is off. */
  function Fails(net: Net, after: Option<ClientError>, error: AdminError, config: Config): (m: Moved)
    ensures Rank(m.phase) <= if after.Some? then 3 else 0
  {
    if after.None? || IsAuthenticationFailure(error) then Moved(net, Finished(Err(error)))
    else if config.strategy.Rebootstrap? then ToBootstrap(net, None, config)
    else Moved(net, Finished(Err(Transport(after.value))))
  }

  function Decides(sent: Net, after: Option<ClientError>, response: Response, ask: Ask, config: Config, world: World)
    : (m: Moved)
    ensures Rank(m.phase) <= if after.Some? then 6 else 3
  {
    if MustRebootstrap(ask.api, response) && config.strategy.NoRecovery? then
      Fails(sent, after, REBOOTSTRAP_ERROR, config)
    else if MustRebootstrap(ask.api, response) || Recovery.TimedOut(sent, ask.api, response, config, world) then
      ToBootstrap(sent, after, config)
    else Moved(Observed(sent, ask.api, response, config), Finished(Ok(response)))
  }

  /** One move of a request: from a wait, over the answer to it, to the next wait. */
  function Move(net: Net, phase: Phase, ask: Ask, config: Config, world: World): (m: Moved)
    ensures phase.Finished? || Rank(m.phase) < Rank(phase) ||
            (Rank(m.phase) == Rank(phase) && Left(m.phase) < Left(phase))
  {
    match phase
    case Ready =>
      if Refuses(net, ask.api, config) then Moved(net, Finished(Err(REFUSAL)))
      else Moved(Begun(net, ask.api, config, world), First)
    case First => SendsFirst(net, ask, config, world)
    case Retrying(_, _, _, _) => DialsKnown(net, phase, config, world)
    case Second(first) => SendsSecond(net, first, ask, config, world)
    case Rebooting(_, _, _) => DialsBootstrap(net, phase, config, world)
    case Fresh(after) =>
      if Refuses(net, ask.api, config) then Fails(net, after, REFUSAL, config)
      else Moved(Begun(net, ask.api, config, world), Third(after))
    case Third(after) => SendsThird(net, after, ask, config, world)
    case Finished(_) => Moved(net, phase)
  }

  function DialsKnown(net: Net, phase: Phase, config: Config, world: World): (m: Moved)
    requires phase.Retrying?
    ensures Rank(m.phase) < 8 || (Rank(m.phase) == 8 && Left(m.phase) < Left(phase))
  {
    var Retrying(left, tried, last, first) := phase;
    if left == [] then Fails(net, Some(first), Connect(tried, last), config)
    else
      var dialled := DialTarget(net, left[0], config, world);
      match dialled.result
      case Ok(connected) => Moved(Learned(dialled.net, connected), Second(first))
      case Err(error) =>
        if IsAuthenticationFailure(error) then Fails(dialled.net, Some(first), error, config)
        else Moved(dialled.net, Retrying(left[1..], tried, Some(error), first))
  }

  function DialsBootstrap(net: Net, phase: Phase, config: Config, world: World): (m: Moved)
    requires phase.Rebooting?
    ensures Rank(m.phase) < Rank(phase) || (Rank(m.phase) == Rank(phase) && Left(m.phase) < Left(phase))
  {
    var Rebooting(left, last, after) := phase;
    if left == [] then Fails(net, after, Connect(|config.bootstrap|, last), config)
    else
      var dialled := DialTarget(net, left[0], config, world);
      match dialled.result
      case Ok(connected) => Moved(Restarted(dialled.net, connected, config), Fresh(after))
      case Err(error) =>
        if IsAuthenticationFailure(error) then Fails(dialled.net, after, error, config)
        else Moved(dialled.net, Rebooting(left[1..], Some(error), after))
  }

  function Learned(net: Net, connected: Connected): Net {
    var known := if connected.discovered == [] then net.known else connected.discovered;
    net.(connection := connected.connection, known := known)
  }

  function Restarted(net: Net, connected: Connected, config: Config): Net {
    Net(connected.connection, Bootstrapped(config, connected), None, net.log + [Rebooted])
  }

  function SendsFirst(net: Net, ask: Ask, config: Config, world: World): (m: Moved)
    ensures Rank(m.phase) <= 8
  {
    var (sent, answer) := SendCurrent(net, ask.api, ask.floor, world);
    match answer
    case Ok(response) => Decides(sent, None, response, ask, config, world)
    case Err(error) =>
      if IsRetriableTransport(error) then Moved(sent, Retrying(sent.known, |sent.known|, None, error))
      else Moved(sent, Finished(Err(Transport(error))))
  }

  function SendsSecond(net: Net, first: ClientError, ask: Ask, config: Config, world: World): (m: Moved)
    ensures Rank(m.phase) <= 6
  {
    if Refuses(net, ask.api, config) then Fails(net, Some(first), REFUSAL, config)
    else
      var (sent, answer) := SendCurrent(net, ask.api, ask.floor, world);
      match answer
      case Err(error) => Fails(sent, Some(first), Transport(error), config)
      case Ok(response) => Decides(sent, Some(first), response, ask, config, world)
  }

  function SendsThird(net: Net, after: Option<ClientError>, ask: Ask, config: Config, world: World): (m: Moved)
    ensures Rank(m.phase) <= if after.Some? then 3 else 0
  {
    var (sent, answer) := SendCurrent(net, ask.api, ask.floor, world);
    match answer
    case Err(error) => Fails(sent, after, Transport(error), config)
    case Ok(response) =>
      if MustRebootstrap(ask.api, response) then Fails(sent, after, REBOOTSTRAP_ERROR, config)
      else Moved(Observed(sent, ask.api, response, config), Finished(Ok(response)))
  }

  // ----- a request alone -----

  function Rank(phase: Phase): nat {
    match phase
    case Ready => 10
    case First => 9
    case Retrying(_, _, _, _) => 8
    case Second(_) => 7
    case Rebooting(_, _, after) => if after.Some? then 6 else 3
    case Fresh(after) => if after.Some? then 5 else 2
    case Third(after) => if after.Some? then 4 else 1
    case Finished(_) => 0
  }

  function Left(phase: Phase): nat {
    match phase
    case Retrying(left, _, _, _) => |left|
    case Rebooting(left, _, _) => |left|
    case _ => 0
  }

  /** A request that nothing interrupts. */
  function Alone(net: Net, phase: Phase, ask: Ask, config: Config, world: World): Outcome<Response>
    decreases Rank(phase), Left(phase)
  {
    if phase.Finished? then Outcome(net, phase.result)
    else
      var next := Move(net, phase, ask, config, world);
      Alone(next.net, next.phase, ask, config, world)
  }

  function Continue(m: Moved, ask: Ask, config: Config, world: World): Outcome<Response> {
    Alone(m.net, m.phase, ask, config, world)
  }

  /** The outcome of the part of a request that ends in `o`, inside the attempt after a reconnection or not. */
  function Then(o: Outcome<Response>, after: Option<ClientError>, ask: Ask, config: Config, world: World)
    : Outcome<Response>
  {
    if o.result.Ok? then o else Continue(Fails(o.net, after, o.result.error, config), ask, config, world)
  }

  lemma FreshAlone(net: Net, after: Option<ClientError>, ask: Ask, config: Config, world: World)
    ensures Alone(net, Fresh(after), ask, config, world) ==
            Then(SendFresh(net, ask.api, ask.floor, config, world), after, ask, config, world)
  {
    if !Refuses(net, ask.api, config) {
      var begun := Begun(net, ask.api, config, world);
      assert Alone(net, Fresh(after), ask, config, world) == Alone(begun, Third(after), ask, config, world);
      assert Alone(begun, Third(after), ask, config, world) ==
             Continue(SendsThird(begun, after, ask, config, world), ask, config, world);
    }
  }

  lemma {:induction false} RebootingAlone(net: Net, left: seq<string>, last: Option<AdminError>,
                                          after: Option<ClientError>,
                                          ask: Ask, config: Config, world: World)
    ensures var dialled := DialEach(net, left, |config.bootstrap|, last, config, world);
            Alone(net, Rebooting(left, last, after), ask, config, world) ==
            match dialled.result
            case Err(error) => Continue(Fails(dialled.net, after, error, config), ask, config, world)
            case Ok(connected) => Alone(Restarted(dialled.net, connected, config), Fresh(after), ask, config, world)
    decreases |left|
  {
    if left != [] {
      var dialled := DialTarget(net, left[0], config, world);
      if dialled.result.Err? && !IsAuthenticationFailure(dialled.result.error) {
        RebootingAlone(dialled.net, left[1..], Some(dialled.result.error), after, ask, config, world);
      }
    }
  }

  lemma BootstrapAlone(net: Net, after: Option<ClientError>, ask: Ask, config: Config, world: World)
    ensures Continue(ToBootstrap(net, after, config), ask, config, world) ==
            Then(SendAfterRebootstrap(net, ask.api, ask.floor, config, world), after, ask, config, world)
  {
    var started := Logged(net, Rebootstrapping);
    RebootingAlone(started, config.bootstrap, None, after, ask, config, world);
    var dialled := DialAll(started, config.bootstrap, config, world);
    if dialled.result.Ok? {
      FreshAlone(Restarted(dialled.net, dialled.result.value, config), after, ask, config, world);
    }
  }

  lemma SecondAlone(net: Net, first: ClientError, ask: Ask, config: Config, world: World)
    ensures Alone(net, Second(first), ask, config, world) ==
            Then(Resend(net, ask.api, ask.floor, config, world), Some(first), ask, config, world)
  {
    assert Alone(net, Second(first), ask, config, world) ==
           Continue(SendsSecond(net, first, ask, config, world), ask, config, world);
    var (sent, answer) := SendCurrent(net, ask.api, ask.floor, world);
    BootstrapAlone(sent, Some(first), ask, config, world);
  }

  lemma {:induction false} RetryingAlone(net: Net, left: seq<string>, tried: nat, last: Option<AdminError>,
                                         first: ClientError,
                                         ask: Ask, config: Config, world: World)
    ensures var dialled := DialEach(net, left, tried, last, config, world);
            Alone(net, Retrying(left, tried, last, first), ask, config, world) ==
            match dialled.result
            case Err(error) => Continue(Fails(dialled.net, Some(first), error, config), ask, config, world)
            case Ok(connected) => Alone(Learned(dialled.net, connected), Second(first), ask, config, world)
    decreases |left|
  {
    if left != [] {
      var dialled := DialTarget(net, left[0], config, world);
      if dialled.result.Err? && !IsAuthenticationFailure(dialled.result.error) {
        RetryingAlone(dialled.net, left[1..], tried, Some(dialled.result.error), first, ask, config, world);
      }
    }
  }

  /** The reconnection and what follows it. */
  lemma FailureAlone(net: Net, first: ClientError, ask: Ask, config: Config, world: World)
    ensures Alone(net, Retrying(net.known, |net.known|, None, first), ask, config, world) ==
            SendAfterFailure(net, first, ask.api, ask.floor, config, world)
  {
    RetryingAlone(net, net.known, |net.known|, None, first, ask, config, world);
    var reconnected := Reconnected(net, config, world);
    if reconnected.result.Ok? {
      SecondAlone(reconnected.net, first, ask, config, world);
    }
    var again := SendAfterReconnect(net, ask.api, ask.floor, config, world);
    EndsAfterFailure(again, first, ask, config, world);
  }

  lemma EndsAfterFailure(again: Outcome<Response>, first: ClientError, ask: Ask, config: Config, world: World)
    ensures Then(again, Some(first), ask, config, world) ==
            match again.result
            case Ok(_) => again
            case Err(error) =>
              if IsAuthenticationFailure(error) then again
              else if config.strategy.Rebootstrap? then
                SendAfterRebootstrap(again.net, ask.api, ask.floor, config, world)
              else Outcome(again.net, Err(Transport(first)))
  {
    BootstrapAlone(again.net, None, ask, config, world);
  }

  /** A request that nothing interrupts is the request of the sequential protocol. */
  lemma AloneIsSend(net: Net, ask: Ask, config: Config, world: World)
    ensures Alone(net, Ready, ask, config, world) == Send(net, ask.api, ask.floor, config, world)
  {
    if !Refuses(net, ask.api, config) {
      var begun := Begun(net, ask.api, config, world);
      assert Alone(net, Ready, ask, config, world) == Alone(begun, First, ask, config, world);
      FirstAlone(begun, ask, config, world);
    }
  }

  lemma FirstAlone(net: Net, ask: Ask, config: Config, world: World)
    ensures var (sent, answer) := SendCurrent(net, ask.api, ask.floor, world);
            Alone(net, First, ask, config, world) ==
            match answer
            case Ok(response) => Answered(sent, ask.api, ask.floor, response, config, world)
            case Err(error) =>
              if IsRetriableTransport(error) then SendAfterFailure(sent, error, ask.api, ask.floor, config, world)
              else Outcome(sent, Err(Transport(error)))
  {
    assert Alone(net, First, ask, config, world) == Continue(SendsFirst(net, ask, config, world), ask, config, world);
    var (sent, answer) := SendCurrent(net, ask.api, ask.floor, world);
    BootstrapAlone(sent, None, ask, config, world);
    if answer.Err? { FailureAlone(sent, answer.error, ask, config, world); }
  }

  // ----- what every move keeps -----

  predicate InBootstrap(phase: Phase) {
    phase.Rebooting? || phase.Fresh? || phase.Third?
  }

  /** How many sends may follow. */
  function SendsLeft(phase: Phase, config: Config): nat {
    match phase
    case Ready => 2 + Allowed(config, 2)
    case First => 2 + Allowed(config, 2)
    case Retrying(_, _, _, _) => 1 + Allowed(config, 2)
    case Second(_) => 1 + Allowed(config, 2)
    case Rebooting(_, _, after) => if after.Some? then 2 else 1
    case Fresh(after) => if after.Some? then 2 else 1
    case Third(after) => if after.Some? then 2 else 1
    case Finished(_) => 0
  }

  /** How many rebootstraps may follow. */
  function RebootsLeft(phase: Phase, config: Config): nat {
    match phase
    case Rebooting(_, _, after) => if after.Some? then 1 else 0
    case Fresh(after) => if after.Some? then 1 else 0
    case Third(after) => if after.Some? then 1 else 0
    case Finished(_) => 0
    case _ => Allowed(config, 2)
  }

  function ErrorAt(phase: Phase): Option<AdminError> {
    if phase.Finished? && phase.result.Err? then Some(phase.result.error) else None
  }

  /** What one move keeps: everything that a part of a run keeps, within what the phase leaves. */
  ghost predicate MoveKeeps(net: Net, phase: Phase, next: Moved, ask: Ask, config: Config) {
    && SendsLeft(next.phase, config) <= SendsLeft(phase, config)
    && RebootsLeft(next.phase, config) <= RebootsLeft(phase, config)
    && Keeps(config, net, next.net, ErrorAt(next.phase), SendsLeft(phase, config) - SendsLeft(next.phase, config),
             RebootsLeft(phase, config) - RebootsLeft(next.phase, config))
    && (InBootstrap(next.phase) ==> config.strategy.Rebootstrap?)
    && (next.phase.Finished? && next.phase.result.Ok? ==> !MustRebootstrap(ask.api, next.phase.result.value))
  }

  lemma FailsKeeps(a: Net, net: Net, after: Option<ClientError>, error: AdminError, config: Config, s: nat, r: nat)
    requires Keeps(config, a, net, Some(error), s, r)
    ensures var next := Fails(net, after, error, config);
            Keeps(config, a, next.net, ErrorAt(next.phase), s, if next.phase.Rebooting? then r + 1 else r)
  {
    if after.Some? && !IsAuthenticationFailure(error) {
      if config.strategy.Rebootstrap? {
        KeepsEvent(config, net, Rebootstrapping, None);
        KeepsThen(config, a, net, Logged(net, Rebootstrapping), Some(error), None, s, r, 0, 1);
      } else {
        KeepsAny(config, a, net, Some(error), Some(Transport(after.value)), s, r);
      }
    }
  }

  lemma DecidesKeeps(a: Net, sent: Net, after: Option<ClientError>, response: Response, ask: Ask, config: Config,
                     world: World)
    requires Keeps(config, a, sent, None, 1, 0)
    ensures var next := Decides(sent, after, response, ask, config, world);
            Keeps(config, a, next.net, ErrorAt(next.phase), 1, if next.phase.Rebooting? then 1 else 0)
  {
    if MustRebootstrap(ask.api, response) && config.strategy.NoRecovery? {
      KeepsAny(config, a, sent, None, Some(REBOOTSTRAP_ERROR), 1, 0);
      FailsKeeps(a, sent, after, REBOOTSTRAP_ERROR, config, 1, 0);
    } else if MustRebootstrap(ask.api, response) || Recovery.TimedOut(sent, ask.api, response, config, world) {
      KeepsEvent(config, sent, Rebootstrapping, None);
      KeepsThen(config, a, sent, Logged(sent, Rebootstrapping), None, None, 1, 0, 0, 1);
    } else {
      GivenKeeps(a, sent, ask.api, response, config, 1, 0);
    }
  }

  /** From what a move keeps to what its phase leaves. */
  lemma Widens(net: Net, phase: Phase, next: Moved, ask: Ask, config: Config, s: nat, r: nat)
    requires Keeps(config, net, next.net, ErrorAt(next.phase), s, r)
    requires s + SendsLeft(next.phase, config) <= SendsLeft(phase, config)
    requires r + RebootsLeft(next.phase, config) <= RebootsLeft(phase, config)
    requires InBootstrap(next.phase) ==> config.strategy.Rebootstrap?
    requires next.phase.Finished? && next.phase.result.Ok? ==> !MustRebootstrap(ask.api, next.phase.result.value)
    ensures MoveKeeps(net, phase, next, ask, config)
  {
    KeepsWiden(config, net, next.net, ErrorAt(next.phase), s, r,
               SendsLeft(phase, config) - SendsLeft(next.phase, config),
               RebootsLeft(phase, config) - RebootsLeft(next.phase, config));
  }

  /** A failure leaves the phase within what it has left. */
  lemma FailsWithin(net: Net, phase: Phase, sent: Net, after: Option<ClientError>, error: AdminError, ask: Ask,
                    config: Config, s: nat)
    requires Keeps(config, net, sent, Some(error), s, 0)
    requires s + (if after.Some? && config.strategy.Rebootstrap? then 1 else 0) <= SendsLeft(phase, config)
    requires after.Some? && config.strategy.Rebootstrap? ==> RebootsLeft(phase, config) >= 1
    ensures MoveKeeps(net, phase, Fails(sent, after, error, config), ask, config)
  {
    var next := Fails(sent, after, error, config);
    FailsKeeps(net, sent, after, error, config, s, 0);
    Widens(net, phase, next, ask, config, s, if next.phase.Rebooting? then 1 else 0);
  }

  lemma FirstKeeps(net: Net, ask: Ask, config: Config, world: World)
    ensures MoveKeeps(net, First, SendsFirst(net, ask, config, world), ask, config)
  {
    var next := SendsFirst(net, ask, config, world);
    SendCurrentKeeps(net, ask.api, ask.floor, config, world);
    var (sent, answer) := SendCurrent(net, ask.api, ask.floor, world);
    if answer.Ok? {
      DecidesKeeps(net, sent, None, answer.value, ask, config, world);
      Widens(net, First, next, ask, config, 1, if next.phase.Rebooting? then 1 else 0);
    } else if IsRetriableTransport(answer.error) {
      KeepsAny(config, net, sent, Some(Transport(answer.error)), None, 1, 0);
      Widens(net, First, next, ask, config, 1, 0);
    } else {
      Widens(net, First, next, ask, config, 1, 0);
    }
  }

  lemma SecondKeeps(net: Net, first: ClientError, ask: Ask, config: Config, world: World)
    ensures MoveKeeps(net, Second(first), SendsSecond(net, first, ask, config, world), ask, config)
  {
    var next := SendsSecond(net, first, ask, config, world);
    if Refuses(net, ask.api, config) {
      KeepsNothing(config, net, Some(REFUSAL));
      FailsWithin(net, Second(first), net, Some(first), REFUSAL, ask, config, 0);
    } else {
      SendCurrentKeeps(net, ask.api, ask.floor, config, world);
      var (sent, answer) := SendCurrent(net, ask.api, ask.floor, world);
      if answer.Ok? {
        DecidesKeeps(net, sent, Some(first), answer.value, ask, config, world);
        Widens(net, Second(first), next, ask, config, 1, if next.phase.Rebooting? then 1 else 0);
      } else {
        FailsWithin(net, Second(first), sent, Some(first), Transport(answer.error), ask, config, 1);
      }
    }
  }

  lemma ThirdKeeps(net: Net, after: Option<ClientError>, ask: Ask, config: Config, world: World)
    requires config.strategy.Rebootstrap?
    ensures MoveKeeps(net, Third(after), SendsThird(net, after, ask, config, world), ask, config)
  {
    var next := SendsThird(net, after, ask, config, world);
    SendCurrentKeeps(net, ask.api, ask.floor, config, world);
    var (sent, answer) := SendCurrent(net, ask.api, ask.floor, world);
    if answer.Err? {
      FailsWithin(net, Third(after), sent, after, Transport(answer.error), ask, config, 1);
    } else if MustRebootstrap(ask.api, answer.value) {
      KeepsAny(config, net, sent, None, Some(REBOOTSTRAP_ERROR), 1, 0);
      FailsWithin(net, Third(after), sent, after, REBOOTSTRAP_ERROR, ask, config, 1);
    } else {
      GivenKeeps(net, sent, ask.api, answer.value, config, 1, 0);
      Widens(net, Third(after), next, ask, config, 1, 0);
    }
  }

  lemma FreshKeeps(net: Net, after: Option<ClientError>, ask: Ask, config: Config, world: World)
    requires config.strategy.Rebootstrap?
    ensures MoveKeeps(net, Fresh(after), Move(net, Fresh(after), ask, config, world), ask, config)
  {
    var next := Move(net, Fresh(after), ask, config, world);
    if Refuses(net, ask.api, config) {
      KeepsNothing(config, net, Some(REFUSAL));
      FailsKeeps(net, net, after, REFUSAL, config, 0, 0);
    } else {
      BegunKeeps(net, ask.api, config, world);
    }
    Widens(net, Fresh(after), next, ask, config, 0, if next.phase.Rebooting? then 1 else 0);
  }

  lemma LearnedKeeps(a: Net, net: Net, connected: Connected, config: Config)
    requires Keeps(config, a, net, None, 0, 0)
    ensures Keeps(config, a, Learned(net, connected), None, 0, 0)
  {
  }

  lemma DialsKnownKeeps(net: Net, phase: Phase, ask: Ask, config: Config, world: World)
    requires phase.Retrying?
    ensures MoveKeeps(net, phase, DialsKnown(net, phase, config, world), ask, config)
  {
    var next := DialsKnown(net, phase, config, world);
    if phase.left == [] {
      KeepsNothing(config, net, Some(Connect(phase.tried, phase.last)));
      FailsWithin(net, phase, net, Some(phase.first), Connect(phase.tried, phase.last), ask, config, 0);
    } else {
      DialTargetKeeps(net, phase.left[0], config, world);
      var dialled := DialTarget(net, phase.left[0], config, world);
      if dialled.result.Ok? {
        LearnedKeeps(net, dialled.net, dialled.result.value, config);
        Widens(net, phase, next, ask, config, 0, 0);
      } else if IsAuthenticationFailure(dialled.result.error) {
        FailsWithin(net, phase, dialled.net, Some(phase.first), dialled.result.error, ask, config, 0);
      } else {
        KeepsAny(config, net, dialled.net, Some(dialled.result.error), None, 0, 0);
        Widens(net, phase, next, ask, config, 0, 0);
      }
    }
  }

  lemma DialsBootstrapKeeps(net: Net, phase: Phase, ask: Ask, config: Config, world: World)
    requires phase.Rebooting? && config.strategy.Rebootstrap?
    ensures MoveKeeps(net, phase, DialsBootstrap(net, phase, config, world), ask, config)
  {
    var next := DialsBootstrap(net, phase, config, world);
    if phase.left == [] {
      var error := Connect(|config.bootstrap|, phase.last);
      KeepsNothing(config, net, Some(error));
      FailsWithin(net, phase, net, phase.after, error, ask, config, 0);
    } else {
      DialTargetKeeps(net, phase.left[0], config, world);
      var dialled := DialTarget(net, phase.left[0], config, world);
      if dialled.result.Ok? {
        var connected := dialled.result.value;
        RebootKeeps(config, dialled.net, connected.connection, Bootstrapped(config, connected));
        KeepsThen(config, net, dialled.net, Restarted(dialled.net, connected, config), None, None, 0, 0, 0, 0);
        Widens(net, phase, next, ask, config, 0, 0);
      } else if IsAuthenticationFailure(dialled.result.error) {
        FailsWithin(net, phase, dialled.net, phase.after, dialled.result.error, ask, config, 0);
      } else {
        KeepsAny(config, net, dialled.net, Some(dialled.result.error), None, 0, 0);
        Widens(net, phase, next, ask, config, 0, 0);
      }
    }
  }

  lemma EveryMoveKeeps(net: Net, phase: Phase, ask: Ask, config: Config, world: World)
    requires !phase.Finished? && (InBootstrap(phase) ==> config.strategy.Rebootstrap?)
    ensures MoveKeeps(net, phase, Move(net, phase, ask, config, world), ask, config)
  {
    match phase
    case Ready =>
      KeepsNothing(config, net, Some(REFUSAL));
      BegunKeeps(net, ask.api, config, world);
      Widens(net, phase, Move(net, phase, ask, config, world), ask, config, 0, 0);
    case First => FirstKeeps(net, ask, config, world);
    case Retrying(_, _, _, _) => DialsKnownKeeps(net, phase, ask, config, world);
    case Second(first) => SecondKeeps(net, first, ask, config, world);
    case Rebooting(_, _, _) => DialsBootstrapKeeps(net, phase, ask, config, world);
    case Fresh(after) => FreshKeeps(net, after, ask, config, world);
    case Third(after) => ThirdKeeps(net, after, ask, config, world);
  }

  // ----- requests that share the connection -----

  /** A request on its way, with the events of its own. */
  datatype Task = Task(ask: Ask, phase: Phase, own: seq<Event>)

  datatype Shared = Shared(net: Net, tasks: map<nat, Task>)

  /** A new request comes, or one that is on its way makes a move, or the client sends its connection elsewhere. */
  datatype Turn = Comes(id: nat, ask: Ask) | Goes(id: nat) | Elsewhere(step: Step)

  function Took(s: Shared, turn: Turn, config: Config, world: World): Shared {
    match turn
    case Comes(id, ask) => if id in s.tasks then s else Shared(s.net, s.tasks[id := Task(ask, Ready, [])])
    case Elsewhere(step) => s.(net := Stepped(s.net, step, config, world))
    case Goes(id) =>
      if id !in s.tasks || s.tasks[id].phase.Finished? then s
      else
        var task := s.tasks[id];
        var next := Move(s.net, task.phase, task.ask, config, world);
        Shared(next.net, s.tasks[id := Task(task.ask, next.phase, task.own + Since(s.net.log, next.net.log))])
  }

  /** The events that follow `before` in `after`. */
  function Since(before: seq<Event>, after: seq<Event>): seq<Event> {
    if |before| <= |after| then after[|before|..] else []
  }

  function TookAll(s: Shared, turns: seq<Turn>, config: Config, world: World): Shared {
    if turns == [] then s else Took(TookAll(s, turns[..|turns| - 1], config, world), turns[|turns| - 1], config, world)
  }

  /** What holds of every request at every moment. */
  ghost predicate TaskKeeps(task: Task, config: Config) {
    && (InBootstrap(task.phase) ==> config.strategy.Rebootstrap?)
    && Sends(task.own) + SendsLeft(task.phase, config) <= 2 + Allowed(config, 2)
    && Reboots(task.own) + RebootsLeft(task.phase, config) <= Allowed(config, 2)
    && Fatal([], task.own, ErrorAt(task.phase))
    && (task.phase.Finished? && task.phase.result.Ok? ==> !MustRebootstrap(task.ask.api, task.phase.result.value))
  }

  lemma {:induction false} CountsJoin(a: seq<Event>, b: seq<Event>)
    ensures Sends(a + b) == Sends(a) + Sends(b) && Reboots(a + b) == Reboots(a) + Reboots(b)
  {
    if b == [] {
      assert a + b == a;
    } else {
      CountsJoin(a, b[..|b| - 1]);
      assert (a + b)[..|a + b| - 1] == a + b[..|b| - 1];
    }
  }

  lemma FatalJoins(own: seq<Event>, before: seq<Event>, after: seq<Event>, error: Option<AdminError>)
    requires before <= after && Fatal([], own, None) && Fatal(before, after, error)
    ensures Fatal([], own + Since(before, after), error)
  {
    var all := own + Since(before, after);
    assert forall i | 0 <= i < |own| :: all[i] == own[i] && RejectedWith(own[i]).None?;
    forall i | 0 <= i < |all| && RejectedWith(all[i]).Some? ensures i == |all| - 1 && error == RejectedWith(all[i]) {
      if i >= |own| {
        assert all[i] == after[i - |own| + |before|];
      }
    }
  }

  lemma TaskMoves(net: Net, task: Task, next: Moved, config: Config)
    requires TaskKeeps(task, config) && !task.phase.Finished? && MoveKeeps(net, task.phase, next, task.ask, config)
    ensures TaskKeeps(Task(task.ask, next.phase, task.own + Since(net.log, next.net.log)), config)
  {
    var more := Since(net.log, next.net.log);
    CountsJoin(task.own, more);
    CountsJoin(net.log, more);
    assert net.log + more == next.net.log;
    FatalJoins(task.own, net.log, next.net.log, ErrorAt(next.phase));
  }

  lemma TurnKeeps(s: Shared, turn: Turn, config: Config, world: World)
    requires Steady(config, s.net) && forall id | id in s.tasks :: TaskKeeps(s.tasks[id], config)
    ensures var t := Took(s, turn, config, world);
            Steady(config, t.net) && forall id | id in t.tasks :: TaskKeeps(t.tasks[id], config)
  {
    if turn.Goes? && turn.id in s.tasks && !s.tasks[turn.id].phase.Finished? {
      var task := s.tasks[turn.id];
      EveryMoveKeeps(s.net, task.phase, task.ask, config, world);
      TaskMoves(s.net, task, Move(s.net, task.phase, task.ask, config, world), config);
    }
    if turn.Elsewhere? { SteppedIsSteady(s.net, turn.step, config, world); }
  }

  /** However the requests interleave: there is always an address to dial and the timer is the one that the run tells;
      each request makes at most four sends and two rebootstraps, and without a strategy two and none; a rejection that
      a request meets is its last event and its result; and no request returns a Metadata answer with code 129. */
  lemma {:induction false} InterleavedRequestsAreSafe(turns: seq<Turn>, config: Config, world: World)
    requires Opened(config, world).result.Ok?
    ensures var t := TookAll(Shared(Opened(config, world).net, map[]), turns, config, world);
            Steady(config, t.net) && forall id | id in t.tasks :: TaskKeeps(t.tasks[id], config)
  {
    if turns == [] {
      OpenedIsSteady(config, world);
    } else {
      InterleavedRequestsAreSafe(turns[..|turns| - 1], config, world);
      var before := TookAll(Shared(Opened(config, world).net, map[]), turns[..|turns| - 1], config, world);
      TurnKeeps(before, turns[|turns| - 1], config, world);
    }
  }
}
