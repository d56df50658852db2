/** Sockets and event log, whatever calls and callbacks run. */
module Sessions {
  import opened Wrappers
  import opened RequestPool
  import opened Lifecycle
  import TimeseriesText

  // The socket that the phase needs is open.
  predicate SocketsOpen(c: Config, s: State) {
    && NO_SOCKET !in s.open
    && (s.phase == Connecting || s.phase == Connected ==> s.socket in s.open)
    && (s.phase == Suspended ==> if c.closeOnSuspend then s.socket == NO_SOCKET else s.socket in s.open)
    && (s.phase == Init ==> s.socket == NO_SOCKET)
  }

  // No socket is open beyond those.
  predicate SocketsExact(c: Config, s: State) {
    s.open == if s.phase == Connecting || s.phase == Connected || (s.phase == Suspended && !c.closeOnSuspend)
              then {s.socket} else {}
  }

  predicate Ignored(e: Event) {
    e == ProvisionedEvent || e == TimeUpdateEvent
  }

  // The last event about the connection; no event yet counts as DISCONNECTED.
  function LastEvent(log: seq<Event>): Event {
    if log == [] then DisconnectedEvent
    else if Ignored(log[|log| - 1]) then LastEvent(log[..|log| - 1])
    else log[|log| - 1]
  }

  // What may be logged next, given the last event about the connection.
  predicate MayFollow(last: Event, e: Event) {
    (e == ActiveEvent ==> last != ActiveEvent) && (e == SuspendedEvent ==> last == ActiveEvent)
  }

  predicate InLanguage(log: seq<Event>) {
    log == [] ||
    (InLanguage(log[..|log| - 1]) && MayFollow(LastEvent(log[..|log| - 1]), log[|log| - 1]))
  }

  // The event log follows its language, and its last event tells the phase.
  predicate LogExact(s: State) {
    && InLanguage(s.log)
    && LastEvent(s.log) ==
       if s.phase == Connected then ActiveEvent
       else if s.phase == Suspended then SuspendedEvent
       else DisconnectedEvent
  }

  predicate SessionInv(c: Config, s: State) {
    SocketsOpen(c, s) && LogExact(s)
  }

  lemma LogGrows(log: seq<Event>, e: Event)
    requires InLanguage(log) && MayFollow(LastEvent(log), e)
    ensures InLanguage(log + [e])
    ensures LastEvent(log + [e]) == if Ignored(e) then LastEvent(log) else e
  {
    assert (log + [e])[..|log|] == log;
  }

  // The events about the connection, as one sequence.
  function Relevant(log: seq<Event>): seq<Event> {
    if log == [] then []
    else Relevant(log[..|log| - 1]) + if Ignored(log[|log| - 1]) then [] else [log[|log| - 1]]
  }

  // Entry i of the trace is in order: ACTIVE does not follow ACTIVE, SUSPENDED follows ACTIVE.
  predicate InOrder(trace: seq<Event>, i: nat)
    requires i < |trace|
  {
    && (trace[i] == SuspendedEvent ==> i > 0 && trace[i - 1] == ActiveEvent)
    && (trace[i] == ActiveEvent && i > 0 ==> trace[i - 1] != ActiveEvent)
  }

  // The language, spelled out on the events about the connection.
  lemma {:induction false} LanguageMeaning(log: seq<Event>)
    requires InLanguage(log)
    ensures forall i :: 0 <= i < |Relevant(log)| ==> InOrder(Relevant(log), i)
    ensures LastEvent(log) ==
            if Relevant(log) == [] then DisconnectedEvent else Relevant(log)[|Relevant(log)| - 1]
  {
    if log != [] {
      var init, e := log[..|log| - 1], log[|log| - 1];
      LanguageMeaning(init);
      var before, trace := Relevant(init), Relevant(log);
      if Ignored(e) {
        assert trace == before;
      } else {
        assert trace == before + [e];
        forall i | 0 <= i < |trace| ensures InOrder(trace, i) {
          if i < |before| {
            assert InOrder(before, i);
          } else {
            assert i > 0 ==> trace[i - 1] == LastEvent(init);
          }
        }
      }
    }
  }

  predicate SameSession(s: State, r: State) {
    && r.phase == s.phase && r.socket == s.socket && r.open == s.open
    && r.observation == s.observation && r.token == s.token && r.log == s.log
  }

  lemma {:induction false} RequestsKeepSession(c: Config, s: State, submissions: seq<Submission>)
    ensures SameSession(s, Requests(c, s, submissions))
    decreases |submissions|
  {
    if submissions != [] {
      RequestsKeepSession(c, Submitted(c, s, submissions[0]), submissions[1..]);
    }
  }

  // Where a connection attempt with a token ends.
  predicate Attempted(s: State, r: State) {
    && r.socket == s.socket && r.token == s.token
    && (r.phase == Connected || r.phase == Disconnected)
    && r.log == s.log + [EventOf(r.phase)]
    && r.open == (if r.phase == Connected then s.open else s.open - {s.socket})
    && (r.observation.Some? <==> r.phase == Connected)
  }

  lemma SubscribedSession(c: Config, s: State, link: Link)
    ensures Attempted(s, Subscribed(c, s, link))
  {
    RequestsKeepSession(c, s, link.startup);
  }

  // What every step keeps. Provisioning may fail and leave a socket behind: failed. Once left
  // behind, a socket stays open.
  predicate Kept(c: Config, s: State, failed: bool, r: State) {
    && SessionInv(c, r)
    && (SocketsExact(c, r) <==> SocketsExact(c, s) && !failed)
  }

  lemma AttemptKept(c: Config, s: State, r: State)
    requires SessionInv(c, s) && s.phase == Connecting && Attempted(s, r)
    ensures Kept(c, s, false, r)
  {
    hide InLanguage, LastEvent;
    LogGrows(s.log, EventOf(r.phase));
  }

  // The error exit of provisioning is the one that leaves the socket open.
  predicate ProvisioningFails(c: Config, s: State, link: Link) {
    && !c.dtls && !s.token && c.provisioning
    && (link.provision.SettingsFailed? ||
        (link.provision.TokenRequested? && Granted(c, s, link.provision.call).None?))
  }

  lemma LaunchedKept(c: Config, s: State, link: Link)
    requires SessionInv(c, s) && s.phase == Connecting
    ensures Kept(c, s, ProvisioningFails(c, s, link), Launched(c, s, link))
  {
    hide InLanguage, LastEvent;
    if c.dtls || s.token {
      SubscribedSession(c, s, link);
      AttemptKept(c, s, Subscribed(c, s, link));
    } else if !c.provisioning {
      TokenKept(c, s.(token := true), link);
    } else if link.provision.TokenStored? {
      LogGrows(s.log, ProvisionedEvent);
      TokenKept(c, Emit(s.(token := true), ProvisionedEvent), link);
    } else if ProvisioningFails(c, s, link) {
      ErrorExitKept(c, s);
    } else {
      SessionMoves(c, s, Request(c, s, Provision, link.provision.call));
    }
  }

  // The error exit reports DISCONNECTED, and leaves the socket as it is.
  lemma ErrorExitKept(c: Config, s: State)
    requires SessionInv(c, s) && s.phase == Connecting
    ensures Kept(c, s, true, Enter(s, Disconnected))
  {
    hide InLanguage, LastEvent;
    LogGrows(s.log, DisconnectedEvent);
  }

  lemma TokenKept(c: Config, s: State, link: Link)
    requires SessionInv(c, s) && s.phase == Connecting
    ensures Kept(c, s, false, Subscribed(c, s, link))
  {
    hide InLanguage, LastEvent;
    SubscribedSession(c, s, link);
    AttemptKept(c, s, Subscribed(c, s, link));
  }

  // A connection attempt that leaves its socket open.
  predicate Leaks(c: Config, s: State, link: Link) {
    s.phase == Disconnected && link.socket.Opened? &&
    ProvisioningFails(c, s.(phase := Connecting, socket := link.socket.fd,
                            open := s.open + {link.socket.fd}), link)
  }

  lemma ConnectKept(c: Config, s: State, link: Link)
    requires SessionInv(c, s) && FreshSocket(s, link.socket)
    ensures Kept(c, s, Leaks(c, s, link), Connect(c, s, link).0)
  {
    hide InLanguage, LastEvent;
    if s.phase == Disconnected && link.socket.Opened? {
      var fd := link.socket.fd;
      var linked := s.(phase := Connecting, socket := fd, open := s.open + {fd});
      LaunchedKept(c, linked, link);
      assert SocketsExact(c, s) ==> linked.open == {fd};
    }
  }

  lemma UnsubscribedSession(s: State, cancelled: bool)
    ensures SameSession(s, Unsubscribed(s, cancelled).(observation := s.observation))
    ensures cancelled ==> Unsubscribed(s, cancelled).observation == None
  {
  }

  // Closing the socket of a session, whatever becomes of the observation.
  lemma ClosedKept(c: Config, s: State, r: State)
    requires SessionInv(c, s) && (s.phase == Connected || s.phase == Suspended)
    requires r.phase == Disconnected && r.socket == s.socket && r.open == s.open - {s.socket}
    requires r.log == s.log + [DisconnectedEvent]
    ensures Kept(c, s, false, r)
  {
    hide InLanguage, LastEvent;
    LogGrows(s.log, DisconnectedEvent);
  }

  lemma DisconnectKept(c: Config, s: State, cancelled: bool)
    requires SessionInv(c, s)
    ensures Kept(c, s, false, Disconnect(s, cancelled).0)
  {
    if s.phase == Connected || s.phase == Suspended {
      UnsubscribedSession(s, cancelled);
      ClosedKept(c, s, Disconnect(s, cancelled).0);
    }
  }

  lemma SuspendKept(c: Config, s: State, cancelled: bool)
    requires SessionInv(c, s)
    ensures Kept(c, s, false, Suspend(c, s, cancelled).0)
  {
    hide InLanguage, LastEvent;
    if s.phase == Connected {
      UnsubscribedSession(s, cancelled);
      LogGrows(s.log, SuspendedEvent);
    }
  }

  lemma ResumeKept(c: Config, s: State, link: Link)
    requires SessionInv(c, s) && FreshSocket(s, link.socket)
    ensures Kept(c, s, false, Resume(c, s, link).0)
  {
    hide InLanguage, LastEvent;
    if s.phase == Suspended {
      LogGrows(s.log, ActiveEvent);
    }
  }

  // The first connection attempt may be part of the initialization.
  lemma InitializeKept(c: Config, s: State, configured: bool, coapStarted: bool, link: Link)
    requires SessionInv(c, s) && FreshSocket(s, link.socket)
    ensures Kept(c, s, LeaksAtInit(c, s, configured, coapStarted, link),
                 Initialize(c, s, configured, coapStarted, link).0)
  {
    if s.phase == Init {
      ConnectKept(c, s.(phase := Disconnected), link);
    }
  }

  predicate LeaksAtInit(c: Config, s: State, configured: bool, coapStarted: bool, link: Link) {
    s.phase == Init && configured && coapStarted && c.connectOnInit &&
    Leaks(c, s.(phase := Disconnected), link)
  }

  lemma ResponseKept(c: Config, s: State, b: Block, last: bool, timeUpdate: bool, followUps: seq<Submission>)
    requires SessionInv(c, s)
    ensures Kept(c, s, false, Perform(c, s, OnResponse(b, last, timeUpdate, followUps)).0)
  {
    hide InLanguage, LastEvent;
    var taken := if last then TakeBack(s, b) else s;
    var told := if timeUpdate then Emit(taken, TimeUpdateEvent) else taken;
    RequestsKeepSession(c, told, followUps);
    if timeUpdate {
      LogGrows(s.log, TimeUpdateEvent);
      SessionMoves(c, s, Emit(s, TimeUpdateEvent));
      SessionMoves(c, Emit(s, TimeUpdateEvent), Perform(c, s, OnResponse(b, last, timeUpdate, followUps)).0);
    } else {
      SessionMoves(c, s, Perform(c, s, OnResponse(b, last, timeUpdate, followUps)).0);
    }
  }

  // The session invariants only depend on the session.
  lemma SessionMoves(c: Config, s: State, r: State)
    requires SessionInv(c, s) && SameSession(s.(log := r.log, token := r.token), r) && LogExact(r)
    ensures Kept(c, s, false, r)
  {
    hide InLanguage, LastEvent;
  }

  lemma NotificationKept(c: Config, s: State, b: Block, final: bool, followUps: seq<Submission>)
    requires SessionInv(c, s)
    ensures Kept(c, s, false, Perform(c, s, OnNotification(b, final, followUps)).0)
  {
    hide InLanguage, LastEvent;
    RequestsKeepSession(c, s, followUps);
  }

  lemma ProvisionedKept(c: Config, s: State, b: Block, granted: bool, link: Link)
    requires SessionInv(c, s) && s.phase == Connecting
    ensures Kept(c, s, false, Perform(c, s, OnProvisioned(b, granted, link)).0)
  {
    hide InLanguage, LastEvent;
    if granted {
      LogGrows(s.log, ProvisionedEvent);
      var told := Emit(TakeBack(s, b).(token := true), ProvisionedEvent);
      SessionMoves(c, s, told);
      TokenKept(c, told, link);
      hide Subscribed;
      SessionMoves(c, Subscribed(c, told, link), Release(Subscribed(c, told, link), b));
    }
  }

  lemma TimeseriesKept(c: Config, s: State, ts: seq<TimeseriesText.Record>, hints: seq<Block>, accept: seq<bool>)
    requires SessionInv(c, s)
    ensures SameSession(s, Timeseries(c, s, ts, hints, accept).0)
    ensures Kept(c, s, false, Timeseries(c, s, ts, hints, accept).0)
  {
    TimeseriesSession(c, s, ts, hints, accept);
    hide Timeseries;
    SessionMoves(c, s, Timeseries(c, s, ts, hints, accept).0);
  }

  lemma TimeseriesSession(c: Config, s: State, ts: seq<TimeseriesText.Record>, hints: seq<Block>, accept: seq<bool>)
    ensures SameSession(s, Timeseries(c, s, ts, hints, accept).0)
  {
  }

  // The steps that leave a socket open.
  predicate LeavesSocket(c: Config, s: State, a: Action) {
    match a
    case CallInit(configured, coapStarted, link) => LeaksAtInit(c, s, configured, coapStarted, link)
    case CallConnect(link) => Leaks(c, s, link)
    case _ => false
  }

  lemma StepKept(c: Config, s: State, a: Action)
    requires SessionInv(c, s) && Possible(c, s, a)
    requires a.OnProvisioned? ==> s.phase == Connecting
    ensures Kept(c, s, LeavesSocket(c, s, a), Perform(c, s, a).0)
  {
    hide InLanguage, LastEvent;
    match a
    case CallInit(configured, coapStarted, link) => InitializeKept(c, s, configured, coapStarted, link);
    case CallConnect(link) => ConnectKept(c, s, link);
    case CallDisconnect(cancelled) => DisconnectKept(c, s, cancelled);
    case CallSuspend(cancelled) => SuspendKept(c, s, cancelled);
    case CallResume(link) => ResumeKept(c, s, link);
    case CallSend(kind, call) =>
    case CallSendTimeseries(ts, hints, accept) => TimeseriesKept(c, s, ts, hints, accept);
    case OnNotification(b, final, followUps) => NotificationKept(c, s, b, final, followUps);
    case OnResponse(b, last, timeUpdate, followUps) => ResponseKept(c, s, b, last, timeUpdate, followUps);
    case OnProvisioned(b, granted, link) => ProvisionedKept(c, s, b, granted, link);
  }
}
