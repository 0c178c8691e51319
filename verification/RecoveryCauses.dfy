/** Why a request goes to the bootstrap addresses: every rebootstrap has its cause in the same request. */
module RecoveryCauses {
  import opened Base
  import opened HostPort
  import opened Recovery
  import opened RecoveryLaws
  import opened RecoveryEffects

  /** Event `m` is a send whose answer is no good: it failed, ordered a rebootstrap, or stalled. */
  ghost predicate Bad(config: Config, world: World, log: seq<Event>, m: int)
    requires 0 <= m < |log| && log[m].Sent?
  {
    log[m].failed.Some? || Forces(config, world, log, m)
  }

  /** Event `m` is a send whose answer orders a rebootstrap, or has no brokers with the trigger reached. */
  ghost predicate Forces(config: Config, world: World, log: seq<Event>, m: int)
    requires 0 <= m < |log| && log[m].Sent?
  {
    var answer, timer := world.answer(m, log[m].api, log[m].version), TimerOf(config.strategy, log[..m + 1]);
    && answer.Ok?
    && (Orders(log[m].api, answer.value) ||
        (timer.Some? && Stalls(log[m].api, answer.value, config, timer.value, world.clock(m + 1))))
  }

  /** Event `m` is a send that can lead to a rebootstrap: one that forces it, or one that was lost. */
  ghost predicate Causes(config: Config, world: World, log: seq<Event>, m: int)
    requires 0 <= m < |log|
  {
    log[m].Sent? &&
    (Forces(config, world, log, m) ||
     (log[m].failed.Some? &&
      (log[m].failed.value.Timeout? || log[m].failed.value.Disconnected? || log[m].failed.value.Io?)))
  }

  /** Since `from`, no send before `end` had a good answer. */
  ghost predicate NoneGood(config: Config, world: World, from: nat, log: seq<Event>, end: int)
    requires end <= |log|
  {
    forall m | from <= m < end && log[m].Sent? :: Bad(config, world, log, m)
  }

  ghost predicate SomeCause(config: Config, world: World, from: nat, log: seq<Event>, end: int)
    requires end <= |log|
  {
    exists m | from <= m < end :: Causes(config, world, log, m)
  }

  /** A rebootstrap at the end of `log` would have a cause in the request that began at `from`. */
  ghost predicate Ready(config: Config, world: World, from: nat, log: seq<Event>) {
    NoneGood(config, world, from, log, |log|) && SomeCause(config, world, from, log, |log|)
  }

  /** Every rebootstrap of the request that began at `from` has a cause in it. */
  ghost predicate Justified(config: Config, world: World, from: nat, log: seq<Event>) {
    forall i | from <= i < |log| && log[i].Rebootstrapping? ::
      && config.strategy.Rebootstrap?
      && NoneGood(config, world, from, log, i) && SomeCause(config, world, from, log, i)
  }

  lemma SameForces(config: Config, world: World, log: seq<Event>, more: seq<Event>, m: int)
    requires log <= more && 0 <= m < |log| && log[m].Sent?
    ensures Forces(config, world, log, m) <==> Forces(config, world, more, m)
  {
    assert log[..m + 1] == more[..m + 1];
  }

  lemma StillNoneGood(config: Config, world: World, from: nat, log: seq<Event>, more: seq<Event>, end: int)
    requires log <= more && end <= |log| && NoneGood(config, world, from, log, end)
    ensures NoneGood(config, world, from, more, end)
  {
    forall m | from <= m < end && more[m].Sent? ensures Bad(config, world, more, m) {
      assert Bad(config, world, log, m);
      SameForces(config, world, log, more, m);
    }
  }

  lemma StillSomeCause(config: Config, world: World, from: nat, log: seq<Event>, more: seq<Event>, end: int)
    requires log <= more && end <= |log| && SomeCause(config, world, from, log, end)
    ensures SomeCause(config, world, from, more, end)
  {
    var m :| from <= m < end && Causes(config, world, log, m);
    SameForces(config, world, log, more, m);
    assert Causes(config, world, more, m);
  }

  /** One more event. */
  lemma JustifiedNext(config: Config, world: World, from: nat, log: seq<Event>, event: Event)
    requires Justified(config, world, from, log)
    requires event.Rebootstrapping? ==> config.strategy.Rebootstrap? && Ready(config, world, from, log)
    ensures Justified(config, world, from, log + [event])
  {
    var more := log + [event];
    forall i | from <= i < |more| && more[i].Rebootstrapping?
      ensures config.strategy.Rebootstrap?
      ensures NoneGood(config, world, from, more, i) && SomeCause(config, world, from, more, i)
    {
      assert i < |log| ==> log[i].Rebootstrapping?;
      StillNoneGood(config, world, from, log, more, i);
      StillSomeCause(config, world, from, log, more, i);
    }
  }

  lemma ReadyNext(config: Config, world: World, from: nat, log: seq<Event>, event: Event)
    requires Ready(config, world, from, log)
    requires event.Sent? ==> Bad(config, world, log + [event], |log|)
    ensures Ready(config, world, from, log + [event])
  {
    var more := log + [event];
    StillNoneGood(config, world, from, log, more, |log|);
    StillSomeCause(config, world, from, log, more, |log|);
    forall m | from <= m < |more| && more[m].Sent? ensures Bad(config, world, more, m) {
      assert m < |log| || m == |log|;
    }
    var m :| from <= m < |log| && Causes(config, world, more, m);
  }

  // ----- each part of a request is justified -----

  /** A part of the request that began at `from`, from the state `net`: its rebootstraps are justified, and when it
      fails, one more would be. */
  ghost predicate Accounts<T>(config: Config, world: World, from: nat, o: Outcome<T>) {
    Justified(config, world, from, o.net.log) && (o.result.Err? ==> Ready(config, world, from, o.net.log))
  }

  /** The request may go on from `log`. */
  ghost predicate MayGoOn(config: Config, world: World, from: nat, log: seq<Event>) {
    Justified(config, world, from, log) && Ready(config, world, from, log)
  }

  lemma GoesOnNext(config: Config, world: World, from: nat, log: seq<Event>, event: Event)
    requires MayGoOn(config, world, from, log)
    requires event.Rebootstrapping? ==> config.strategy.Rebootstrap?
    requires event.Sent? ==> Bad(config, world, log + [event], |log|)
    ensures MayGoOn(config, world, from, log + [event])
  {
    JustifiedNext(config, world, from, log, event);
    ReadyNext(config, world, from, log, event);
  }

  lemma DialGoesOn(net: Net, address: string, config: Config, world: World, from: nat)
    requires MayGoOn(config, world, from, net.log)
    ensures MayGoOn(config, world, from, Dial(net, address, world).net.log)
  {
    var o := Dial(net, address, world);
    GoesOnNext(config, world, from, net.log, Dialled(address, Failure(o)));
  }

  lemma DescribeGoesOn(net: Net, connection: Connection, config: Config, world: World, from: nat)
    requires MayGoOn(config, world, from, net.log)
    ensures MayGoOn(config, world, from, Describe(net, connection, config, world).net.log)
  {
    match NegotiatedAtLeast(config.discovery, connection, Some(1))
    case Err(_) =>
    case Ok(version) =>
      GoesOnNext(config, world, from, net.log,
                 Described(version, ErrorOf(world.answer(|net.log|, config.discovery, version))));
  }

  lemma DialTargetGoesOn(net: Net, address: string, config: Config, world: World, from: nat)
    requires MayGoOn(config, world, from, net.log)
    ensures MayGoOn(config, world, from, DialTarget(net, address, config, world).net.log)
  {
    DialGoesOn(net, address, config, world, from);
    var first := Dial(net, address, world);
    if config.target.Controllers? && first.result.Ok? {
      DescribeGoesOn(first.net, first.result.value, config, world, from);
      var described := Describe(first.net, first.result.value, config, world);
      if described.result.Ok? && ControllerAddress(described.result.value).Ok? {
        DialGoesOn(described.net, ControllerAddress(described.result.value).value, config, world, from);
      }
    }
  }

  lemma {:induction false} DialEachGoesOn(net: Net, addresses: seq<string>, tried: nat, last: Option<AdminError>,
                                          config: Config, world: World, from: nat)
    requires MayGoOn(config, world, from, net.log)
    ensures MayGoOn(config, world, from, DialEach(net, addresses, tried, last, config, world).net.log)
    decreases |addresses|
  {
    if addresses != [] {
      DialTargetGoesOn(net, addresses[0], config, world, from);
      var dialled := DialTarget(net, addresses[0], config, world);
      if dialled.result.Err? && !IsAuthenticationFailure(dialled.result.error) {
        DialEachGoesOn(dialled.net, addresses[1..], tried, Some(dialled.result.error), config, world, from);
      }
    }
  }

  lemma RebootstrappedGoesOn(net: Net, config: Config, world: World, from: nat)
    requires MayGoOn(config, world, from, net.log) && config.strategy.Rebootstrap?
    ensures MayGoOn(config, world, from, Rebootstrapped(net, config, world).net.log)
  {
    var started := Logged(net, Rebootstrapping);
    GoesOnNext(config, world, from, net.log, Rebootstrapping);
    DialEachGoesOn(started, config.bootstrap, |config.bootstrap|, None, config, world, from);
    var dialled := DialAll(started, config.bootstrap, config, world);
    if dialled.result.Ok? { GoesOnNext(config, world, from, dialled.net.log, Rebooted); }
  }

  lemma BegunGoesOn(net: Net, api: Api, config: Config, world: World, from: nat)
    requires MayGoOn(config, world, from, net.log)
    ensures MayGoOn(config, world, from, Begun(net, api, config, world).log)
  {
    if api.key == 3 { GoesOnNext(config, world, from, net.log, Attempt(world.clock(|net.log|))); }
  }

  /** A returned answer, and a send before it, leave what was justified so. */
  lemma SentStaysJustified(net: Net, api: Api, floor: Option<int>, config: Config, world: World, from: nat)
    requires Justified(config, world, from, net.log)
    ensures var (sent, answer) := SendCurrent(net, api, floor, world);
            && Justified(config, world, from, sent.log)
            && (answer.Ok? ==> Justified(config, world, from, Given(sent, api, answer.value, config).net.log))
  {
    var (sent, answer) := SendCurrent(net, api, floor, world);
    match NegotiatedAtLeast(api, net.connection, floor)
    case Err(_) =>
    case Ok(version) =>
      JustifiedNext(config, world, from, net.log, Sent(api, version, ErrorOf(answer)));
      if answer.Ok? { JustifiedNext(config, world, from, sent.log, Returned(api, answer.value)); }
  }

  /** A send that fails or orders a rebootstrap lets the request go on. */
  lemma BadSendGoesOn(net: Net, api: Api, floor: Option<int>, config: Config, world: World, from: nat)
    requires MayGoOn(config, world, from, net.log)
    ensures var (sent, answer) := SendCurrent(net, api, floor, world);
            answer.Err? || Orders(api, answer.value) ||
            (sent.timer.Some? && sent.timer == TimerOf(config.strategy, sent.log) &&
             Stalls(api, answer.value, config, sent.timer.value, world.clock(|sent.log|))) ==>
              MayGoOn(config, world, from, sent.log)
  {
    var (sent, answer) := SendCurrent(net, api, floor, world);
    match NegotiatedAtLeast(api, net.connection, floor)
    case Err(_) =>
    case Ok(version) =>
      SentStaysJustified(net, api, floor, config, world, from);
      if answer.Err? || Orders(api, answer.value) ||
         (sent.timer.Some? && sent.timer == TimerOf(config.strategy, sent.log) &&
          Stalls(api, answer.value, config, sent.timer.value, world.clock(|sent.log|)))
      {
        assert sent.log[..|net.log| + 1] == sent.log;
        assert Bad(config, world, sent.log, |net.log|);
        ReadyNext(config, world, from, net.log, Sent(api, version, ErrorOf(answer)));
      }
  }

  lemma SendFreshAccounts(net: Net, api: Api, floor: Option<int>, config: Config, world: World, from: nat)
    requires MayGoOn(config, world, from, net.log)
    ensures Accounts(config, world, from, SendFresh(net, api, floor, config, world))
  {
    if !Refuses(net, api, config) {
      var begun := Begun(net, api, config, world);
      BegunGoesOn(net, api, config, world, from);
      SentStaysJustified(begun, api, floor, config, world, from);
      BadSendGoesOn(begun, api, floor, config, world, from);
    }
  }

  lemma SendAfterRebootstrapAccounts(net: Net, api: Api, floor: Option<int>, config: Config, world: World, from: nat)
    requires MayGoOn(config, world, from, net.log) && config.strategy.Rebootstrap?
    ensures Accounts(config, world, from, SendAfterRebootstrap(net, api, floor, config, world))
  {
    RebootstrappedGoesOn(net, config, world, from);
    var rebooted := Rebootstrapped(net, config, world);
    if rebooted.result.Ok? { SendFreshAccounts(rebooted.net, api, floor, config, world, from); }
  }

  lemma ResendAccounts(net: Net, api: Api, floor: Option<int>, config: Config, world: World, from: nat)
    requires MayGoOn(config, world, from, net.log) && Steady(config, net)
    ensures Accounts(config, world, from, Resend(net, api, floor, config, world))
  {
    if !Refuses(net, api, config) {
      var (sent, answer) := SendCurrent(net, api, floor, world);
      SendCurrentKeeps(net, api, floor, config, world);
      SentStaysJustified(net, api, floor, config, world, from);
      BadSendGoesOn(net, api, floor, config, world, from);
      if answer.Ok? && config.strategy.Rebootstrap? && MayGoOn(config, world, from, sent.log) {
        SendAfterRebootstrapAccounts(sent, api, floor, config, world, from);
      }
    }
  }

  lemma SendAfterReconnectAccounts(net: Net, api: Api, floor: Option<int>, config: Config, world: World, from: nat)
    requires MayGoOn(config, world, from, net.log) && Steady(config, net)
    ensures Accounts(config, world, from, SendAfterReconnect(net, api, floor, config, world))
  {
    DialEachGoesOn(net, net.known, |net.known|, None, config, world, from);
    ReconnectedKeeps(net, config, world);
    var reconnected := Reconnected(net, config, world);
    if reconnected.result.Ok? { ResendAccounts(reconnected.net, api, floor, config, world, from); }
  }

  lemma SendAfterFailureAccounts(net: Net, error: ClientError, api: Api, floor: Option<int>, config: Config,
                                 world: World, from: nat)
    requires MayGoOn(config, world, from, net.log) && Steady(config, net)
    ensures Justified(config, world, from, SendAfterFailure(net, error, api, floor, config, world).net.log)
  {
    SendAfterReconnectAccounts(net, api, floor, config, world, from);
    var again := SendAfterReconnect(net, api, floor, config, world);
    if again.result.Err? && config.strategy.Rebootstrap? {
      SendAfterRebootstrapAccounts(again.net, api, floor, config, world, from);
    }
  }

  lemma BeginsUnsent(net: Net, api: Api, config: Config, world: World)
    ensures var log := Begun(net, api, config, world).log;
            Justified(config, world, |net.log|, log) && NoneGood(config, world, |net.log|, log, |log|)
  {
  }

  lemma CauseAppended(config: Config, world: World, from: nat, log: seq<Event>, event: Event)
    requires from <= |log| && Justified(config, world, from, log) && NoneGood(config, world, from, log, |log|)
    requires event.Sent? && Causes(config, world, log + [event], |log|)
    ensures MayGoOn(config, world, from, log + [event])
  {
    JustifiedNext(config, world, from, log, event);
    StillNoneGood(config, world, from, log, log + [event], |log|);
  }

  lemma SendCauses(net: Net, sent: Net, api: Api, floor: Option<int>, config: Config, world: World,
                   answer: Result<Response, ClientError>, version: int)
    requires world.answer(|net.log|, api, version) == answer
    requires sent == Logged(net, Sent(api, version, ErrorOf(answer)))
    requires sent.timer == TimerOf(config.strategy, sent.log)
    requires answer.Err? ==> answer.error.Timeout? || answer.error.Disconnected? || answer.error.Io?
    requires answer.Ok? ==>
               Orders(api, answer.value) ||
               (sent.timer.Some? && Stalls(api, answer.value, config, sent.timer.value, world.clock(|sent.log|)))
    ensures Causes(config, world, sent.log, |net.log|)
  {
    assert sent.log[..|net.log| + 1] == sent.log;
  }

  /** The first send causes what follows it, if anything does. */
  lemma FirstSendCauses(net: Net, sent: Net, api: Api, floor: Option<int>, config: Config, world: World,
                        answer: Result<Response, ClientError>)
    requires Steady(config, net) && SendCurrent(Begun(net, api, config, world), api, floor, world) == (sent, answer)
    requires answer.Err? ==> IsRetriableTransport(answer.error)
    requires answer.Ok? ==>
               Orders(api, answer.value) ||
               (sent.timer.Some? && Stalls(api, answer.value, config, sent.timer.value, world.clock(|sent.log|)))
    ensures MayGoOn(config, world, |net.log|, sent.log) && Steady(config, sent)
  {
    var begun := Begun(net, api, config, world);
    BeginAndSendKeeps(net, api, floor, config, world);
    BeginsUnsent(net, api, config, world);
    var version := NegotiatedAtLeast(api, begun.connection, floor).value;
    SendCauses(begun, sent, api, floor, config, world, answer, version);
    CauseAppended(config, world, |net.log|, begun.log, Sent(api, version, ErrorOf(answer)));
  }

  /** Why a request goes to the bootstrap addresses: with the strategy, and only after a send of the same request that
      was lost, or whose answer ordered it, or had no brokers with the trigger reached; and after no good answer. */
  lemma RebootstrapHasACause(net: Net, api: Api, floor: Option<int>, config: Config, world: World)
    requires Steady(config, net)
    ensures Justified(config, world, |net.log|, Send(net, api, floor, config, world).net.log)
  {
    var begun, from := Begun(net, api, config, world), |net.log|;
    BeginsUnsent(net, api, config, world);
    SentStaysJustified(begun, api, floor, config, world, from);
    var (sent, answer) := SendCurrent(begun, api, floor, world);
    if Refuses(net, api, config) {
    } else if answer.Err? {
      if IsRetriableTransport(answer.error) {
        FirstSendCauses(net, sent, api, floor, config, world, answer);
        SendAfterFailureAccounts(sent, answer.error, api, floor, config, world, from);
      }
    } else if config.strategy.Rebootstrap? &&
              (Orders(api, answer.value) ||
               (sent.timer.Some? && Stalls(api, answer.value, config, sent.timer.value, world.clock(|sent.log|)))) {
      FirstSendCauses(net, sent, api, floor, config, world, answer);
      SendAfterRebootstrapAccounts(sent, api, floor, config, world, from);
    }
  }
}
