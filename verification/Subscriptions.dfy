/** The attribute observation, and what is left of it when a session is closed. */
module Subscriptions {
  import opened Wrappers
  import opened RequestPool
  import opened Lifecycle
  import opened Ownership
  import opened Sessions
  import TimeseriesText

  // No observation before the first subscription of a connection attempt; no observation and no
  // session without a token.
  predicate Fits(c: Config, s: State) {
    && (s.phase == Init || s.phase == Connecting ==> s.observation == None)
    && (s.observation.Some? || s.phase == Connected || s.phase == Suspended ==> c.dtls || s.token)
  }

  // No observation where the next connection attempt expects none.
  predicate Quiet(c: Config, s: State) {
    s.phase == Disconnected || (s.phase == Suspended && c.closeOnSuspend) ==> s.observation == None
  }

  // What holds in every run in which the source's assertion did.
  ghost predicate ObservationInv(c: Config, s: State) {
    SoleObservation(s) && Fits(c, s)
  }

  // The call closes the session, but the last callback of its observation is still to come.
  predicate Abandons(c: Config, s: State, a: Action) {
    s.observation.Some? &&
    match a
    case CallDisconnect(cancelled) => !cancelled && (s.phase == Connected || s.phase == Suspended)
    case CallSuspend(cancelled) => !cancelled && s.phase == Connected && c.closeOnSuspend
    case _ => false
  }

  // The last callback of the observation comes, on its own or within a call.
  predicate Settles(s: State, a: Action) {
    match a
    case OnNotification(_, final, _) => final
    case CallDisconnect(cancelled) => cancelled && (s.phase == Connected || s.phase == Suspended)
    case _ => false
  }

  // Whether a closed session waits for its observation's last callback after the action. pending:
  // whether one did before.
  predicate PendingAfter(c: Config, s: State, a: Action, pending: bool) {
    if Abandons(c, s, a) then true else if Settles(s, a) then false else pending
  }

  // What a step keeps.
  predicate Settled(c: Config, s: State, a: Action, r: State) {
    Fits(c, r) && (!Quiet(c, r) <==> PendingAfter(c, s, a, !Quiet(c, s)))
  }

  lemma SubscribedFits(c: Config, s: State, link: Link)
    requires c.dtls || s.token
    ensures Fits(c, Subscribed(c, s, link)) && Quiet(c, Subscribed(c, s, link))
  {
    SubscribedSession(c, s, link);
    hide Subscribed;
  }

  lemma LaunchedFits(c: Config, s: State, link: Link)
    requires s.observation == None && s.phase == Connecting
    ensures Fits(c, Launched(c, s, link)) && Quiet(c, Launched(c, s, link))
  {
    hide Subscribed;
    if c.dtls || s.token {
      SubscribedFits(c, s, link);
    } else if !c.provisioning {
      SubscribedFits(c, s.(token := true), link);
    } else if link.provision.TokenStored? {
      SubscribedFits(c, Emit(s.(token := true), ProvisionedEvent), link);
    }
  }

  lemma ConnectFits(c: Config, s: State, link: Link)
    requires Fits(c, s) && (s.phase == Disconnected && Reaches(c, s, link) ==> s.observation == None)
    ensures Fits(c, Connect(c, s, link).0) && (Quiet(c, Connect(c, s, link).0) <==> Quiet(c, s))
  {
    hide Launched;
    if s.phase == Disconnected && link.socket.Opened? {
      var fd := link.socket.fd;
      LaunchedFits(c, s.(phase := Connecting, socket := fd, open := s.open + {fd}), link);
    }
  }

  lemma InitializeFits(c: Config, s: State, configured: bool, coapStarted: bool, link: Link)
    requires Fits(c, s)
    ensures var r := Initialize(c, s, configured, coapStarted, link).0;
            Fits(c, r) && (Quiet(c, r) <==> Quiet(c, s))
  {
    hide Connect;
    if s.phase == Init {
      ConnectFits(c, s.(phase := Disconnected), link);
    }
  }

  lemma AttemptSettles(c: Config, s: State, a: Action)
    requires Fits(c, s) && AssertionHolds(c, s, a)
    requires a.CallInit? || a.CallConnect? || a.CallResume?
    ensures Settled(c, s, a, Perform(c, s, a).0)
  {
    match a
    case CallInit(configured, coapStarted, link) => InitializeFits(c, s, configured, coapStarted, link);
    case CallConnect(link) => ConnectFits(c, s, link);
    case CallResume(link) =>
  }

  lemma CloseSettles(c: Config, s: State, a: Action)
    requires Fits(c, s) && (a.CallDisconnect? || a.CallSuspend?)
    ensures Settled(c, s, a, Perform(c, s, a).0)
  {
  }

  // The steps that leave the session as it is, apart from the log and the observation's end.
  lemma SameSettles(c: Config, s: State, a: Action, r: State)
    requires Fits(c, s) && SameSession(s.(log := r.log), r)
    requires !Settles(s, a) && !Abandons(c, s, a)
    ensures Settled(c, s, a, r)
  {
  }

  lemma CallbackSettles(c: Config, s: State, a: Action)
    requires Fits(c, s) && (a.CallSend? || a.CallSendTimeseries? || a.OnNotification? || a.OnResponse?)
    ensures Settled(c, s, a, Perform(c, s, a).0)
  {
    hide Timeseries, Settled;
    match a
    case CallSend(kind, call) => SameSettles(c, s, a, Perform(c, s, a).0);
    case CallSendTimeseries(ts, hints, accept) =>
      TimeseriesSession(c, s, ts, hints, accept);
      SameSettles(c, s, a, Perform(c, s, a).0);
    case OnNotification(b, final, followUps) =>
      if final {
        NotificationSettles(c, s, b, followUps);
      } else {
        RequestsKeepSession(c, s, followUps);
        SameSettles(c, s, a, Perform(c, s, a).0);
      }
    case OnResponse(b, last, timeUpdate, followUps) =>
      var taken := if last then TakeBack(s, b) else s;
      RequestsKeepSession(c, if timeUpdate then Emit(taken, TimeUpdateEvent) else taken, followUps);
      SameSettles(c, s, a, Perform(c, s, a).0);
  }

  lemma NotificationSettles(c: Config, s: State, b: Block, followUps: seq<Submission>)
    requires Fits(c, s)
    ensures Settled(c, s, OnNotification(b, true, followUps), Perform(c, s, OnNotification(b, true, followUps)).0)
  {
  }

  lemma ProvisionedSettles(c: Config, s: State, b: Block, granted: bool, link: Link)
    requires Fits(c, s) && s.phase == Connecting
    ensures Settled(c, s, OnProvisioned(b, granted, link), Perform(c, s, OnProvisioned(b, granted, link)).0)
  {
    hide Subscribed;
    if granted {
      SubscribedFits(c, Emit(TakeBack(s, b).(token := true), ProvisionedEvent), link);
    }
  }

  // A step begins and ends the waiting for an observation's last callback exactly as its kind says.
  lemma StepSettles(c: Config, s: State, a: Action)
    requires Fits(c, s) && AssertionHolds(c, s, a)
    requires a.OnProvisioned? ==> s.phase == Connecting
    ensures Settled(c, s, a, Perform(c, s, a).0)
  {
    hide *;
    if a.CallInit? || a.CallConnect? || a.CallResume? {
      AttemptSettles(c, s, a);
    } else if a.CallDisconnect? || a.CallSuspend? {
      CloseSettles(c, s, a);
    } else if a.OnProvisioned? {
      ProvisionedSettles(c, s, a.block, a.granted, a.link);
    } else {
      CallbackSettles(c, s, a);
    }
  }

  // Without a callback pending, no connection attempt finds an observation.
  lemma QuietMeansAssertionHolds(c: Config, s: State, a: Action)
    requires Fits(c, s) && Quiet(c, s)
    requires a.OnProvisioned? ==> s.phase == Connecting
    ensures AssertionHolds(c, s, a)
  {
  }

  // With cancellations delivered at once, none is ever pending.
  lemma SynchronousStaysQuiet(c: Config, s: State, a: Action, r: State)
    requires Settled(c, s, a, r) && Quiet(c, s) && Synchronous(a)
    ensures Quiet(c, r)
  {
  }
}
