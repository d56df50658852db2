/**
 Where connecting, suspending, resuming and disconnecting lead, and what the callbacks do, in terms
 of phases, sockets and events.
 */
module Connections {
  import opened Wrappers
  import opened RequestPool
  import opened Lifecycle
  import opened Sessions
  import opened Outcomes

  // The observe request goes through: a block is left for it after the start-up requests.
  predicate Observes(free: set<Block>, link: Link) {
    link.observe.built && link.observe.accepted && Wanted(Connecting, link.startup) < |free|
  }

  // A connection attempt with a token has ended: with the socket open, observing and ACTIVE, or with
  // the socket closed and DISCONNECTED.
  ghost predicate Concluded(s: State, fd: int, link: Link, token: bool, events: seq<Event>, r: State) {
    && r.socket == fd && r.token == token
    && |r.free| == Minus(|s.free|, Wanted(Connecting, link.startup) + if Observes(s.free, link) then 1 else 0)
    && if Observes(s.free, link) then
         && r.phase == Connected && r.log == s.log + events + [ActiveEvent]
         && fd in r.open && r.open == s.open + {fd}
         && r.observation.Some? && r.observation.value in s.free
         && r.observation.value in r.owned && r.owned[r.observation.value] == Observe
       else
         && r.phase == Disconnected && r.log == s.log + events + [DisconnectedEvent]
         && r.open == s.open - {fd} && r.observation == None
  }

  lemma ObserveConcludes(c: Config, s: State, call: RequestCall)
    requires s.free <= AllBlocks(c.size)
    ensures var r := Observed(c, s, call);
            && r.socket == s.socket && r.token == s.token
            && if call.built && call.accepted && |s.free| > 0 then
                 && r.phase == Connected && r.log == s.log + [ActiveEvent] && r.open == s.open
                 && r.observation.Some? && r.observation.value in s.free && |r.free| == |s.free| - 1
                 && r.observation.value in r.owned && r.owned[r.observation.value] == Observe
               else
                 && r.phase == Disconnected && r.log == s.log + [DisconnectedEvent]
                 && r.open == s.open - {s.socket} && r.observation == None && r.free == s.free
  {
    if b :| b in s.free {
      assert |s.free| > 0;
    }
  }

  lemma AttemptConcludes(c: Config, s: State, t: State, link: Link, events: seq<Event>)
    requires t.phase == Connecting && t.free == s.free <= AllBlocks(c.size)
    requires t.open == s.open + {t.socket} && t.log == s.log + events
    ensures Concluded(s, t.socket, link, t.token, events, Subscribed(c, t, link))
  {
    hide Requests, Wanted, Observed;
    SubmissionsOutcome(c, t, link.startup);
    ObserveConcludes(c, Requests(c, t, link.startup), link.observe);
  }

  // No token is needed, known, configured, or stored: the attempt ends within the call.
  predicate HasToken(c: Config, s: State, link: Link) {
    c.dtls || s.token || !c.provisioning || link.provision.TokenStored?
  }

  // Only a stored token is reported.
  function TokenEvents(c: Config, s: State): seq<Event> {
    if !c.dtls && !s.token && c.provisioning then [ProvisionedEvent] else []
  }

  lemma ConnectConcludes(c: Config, s: State, link: Link)
    requires s.phase == Disconnected && link.socket.Opened? && s.free <= AllBlocks(c.size)
    requires HasToken(c, s, link)
    ensures Concluded(s, link.socket.fd, link, if c.dtls then s.token else true, TokenEvents(c, s),
                      Perform(c, s, CallConnect(link)).0)
  {
    hide Subscribed, Concluded;
    var fd := link.socket.fd;
    var t := s.(phase := Connecting, socket := fd, open := s.open + {fd});
    assert s.log + [] == s.log;
    if c.dtls || s.token {
      AttemptConcludes(c, s, t, link, []);
    } else if !c.provisioning {
      AttemptConcludes(c, s, t.(token := true), link, []);
    } else {
      AttemptConcludes(c, s, Emit(t.(token := true), ProvisionedEvent), link, [ProvisionedEvent]);
    }
  }

  // A token has to be requested: the client waits for the response, or it gives up and the socket
  // stays open.
  lemma ConnectWaits(c: Config, s: State, link: Link)
    requires s.phase == Disconnected && link.socket.Opened? && s.free <= AllBlocks(c.size)
    requires !HasToken(c, s, link)
    ensures var fd := link.socket.fd;
            var t := s.(socket := fd, open := s.open + {fd});
            var r := Perform(c, s, CallConnect(link)).0;
            if link.provision.TokenRequested? && link.provision.call.built && link.provision.call.accepted &&
               s.free != {}
            then Took(t.(phase := Connecting), Provision, r)
            else r == t.(log := s.log + [DisconnectedEvent])
  {
    if link.provision.TokenRequested? {
      var fd := link.socket.fd;
      RequestTakes(c, s.(phase := Connecting, socket := fd, open := s.open + {fd}), Provision, link.provision.call);
    }
  }

  // The result tells whether an attempt was made; if not, nothing has changed.
  lemma ConnectStatus(c: Config, s: State, link: Link)
    ensures var (r, status) := Perform(c, s, CallConnect(link));
            && (status == Ok <==> s.phase == Disconnected && link.socket.Opened?)
            && (status == Err(ENOTCONN) <==> s.phase == Disconnected && !link.socket.Opened?)
            && (status == Err(EALREADY) <==> s.phase == Connected || s.phase == Suspended)
            && (status == Err(EINVAL) <==> s.phase == Init || s.phase == Connecting)
            && (status != Ok ==> r == s)
  {
    hide Launched;
  }

  // The response to the token request: the attempt ends, or the client goes on waiting for nothing.
  lemma ResponseConcludes(c: Config, s: State, b: Block, granted: bool, link: Link)
    requires s.phase == Connecting && s.socket in s.open && s.free <= AllBlocks(c.size)
    requires b in s.owned && b !in s.free
    ensures var r := Perform(c, s, OnProvisioned(b, granted, link)).0;
            && b in r.free && b !in r.owned
            && if granted then Concluded(s, s.socket, link, true, [ProvisionedEvent], r.(free := r.free - {b}))
               else r == s.(free := s.free + {b}, owned := s.owned - {b})
  {
    if granted {
      var t := Emit(TakeBack(s, b).(token := true), ProvisionedEvent);
      assert s.open + {s.socket} == s.open;
      AttemptConcludes(c, s, t, link, [ProvisionedEvent]);
      NotTaken(c, t, link, b);
      hide Subscribed;
      var r := Subscribed(c, t, link);
      assert (r.free + {b}) - {b} == r.free;
    }
  }

  // A block that is neither free nor in flight stays so.
  lemma {:induction false} NotTakenBy(c: Config, s: State, submissions: seq<Submission>, b: Block)
    requires b !in s.free && b !in s.owned
    ensures b !in Requests(c, s, submissions).free && b !in Requests(c, s, submissions).owned
    decreases |submissions|
  {
    if submissions != [] {
      NotTakenBy(c, Submitted(c, s, submissions[0]), submissions[1..], b);
    }
  }

  lemma NotTaken(c: Config, s: State, link: Link, b: Block)
    requires b !in s.free && b !in s.owned
    ensures b !in Subscribed(c, s, link).free && b !in Subscribed(c, s, link).owned
  {
    NotTakenBy(c, s, link.startup, b);
  }

  // Initialization.
  lemma InitOutcome(c: Config, s: State, configured: bool, coapStarted: bool, link: Link)
    requires s.free <= AllBlocks(c.size)
    ensures var (r, status) := Perform(c, s, CallInit(configured, coapStarted, link));
            var initial := s.phase == Init && s.socket < 0;
            var ready := initial && configured && coapStarted;
            && (status == Err(EALREADY) <==> !initial)
            && (status == Err(EINVAL) <==> initial && !configured)
            && (status == Err(EIO) <==> initial && configured && !coapStarted)
            && (status == Err(ENOTCONN) <==> ready && c.connectOnInit && !link.socket.Opened?)
            && (status == Ok <==> ready && (c.connectOnInit ==> link.socket.Opened?))
            && (!ready ==> r == s)
            && (ready && !(c.connectOnInit && link.socket.Opened?) ==> r == s.(phase := Disconnected))
            && (ready && c.connectOnInit && link.socket.Opened? && HasToken(c, s, link) ==>
                  Concluded(s, link.socket.fd, link, if c.dtls then s.token else true, TokenEvents(c, s), r))
  {
    hide Launched, Concluded;
    var t := s.(phase := Disconnected);
    if s.phase == Init && link.socket.Opened? && HasToken(c, s, link) {
      ConnectConcludes(c, t, link);
      SameConclusion(s, t, link.socket.fd, link, if c.dtls then s.token else true, TokenEvents(c, s),
                     Connect(c, t, link).0);
    }
  }

  lemma SameConclusion(s: State, t: State, fd: int, link: Link, token: bool, events: seq<Event>, r: State)
    requires t == s.(phase := t.phase) && Concluded(t, fd, link, token, events, r)
    ensures Concluded(s, fd, link, token, events, r)
  {
  }

  // The state without its observation, whose block is free again.
  function Settled(s: State, cancelled: bool): State {
    if s.observation.Some? && cancelled then
      s.(observation := None, free := s.free + {s.observation.value}, owned := s.owned - {s.observation.value})
    else s
  }

  lemma DisconnectOutcome(c: Config, s: State, cancelled: bool)
    ensures var (r, status) := Perform(c, s, CallDisconnect(cancelled));
            var session := s.phase == Connected || s.phase == Suspended;
            && (status == Ok <==> session)
            && (status == Err(EALREADY) <==> s.phase == Disconnected)
            && (status == Err(EINVAL) <==> s.phase == Init || s.phase == Connecting)
            && r == if session then Settled(s, cancelled).(phase := Disconnected, open := s.open - {s.socket},
                                                           log := s.log + [DisconnectedEvent])
                    else s
  {
  }

  lemma SuspendOutcome(c: Config, s: State, cancelled: bool)
    ensures var (r, status) := Perform(c, s, CallSuspend(cancelled));
            && (status == Ok <==> s.phase == Connected || s.phase == Suspended)
            && (status != Ok ==> status == Err(EINVAL))
            && r == if s.phase != Connected then s
                    else if !c.closeOnSuspend then s.(phase := Suspended, log := s.log + [SuspendedEvent])
                    else Settled(s, cancelled).(phase := Suspended, log := s.log + [SuspendedEvent],
                                                open := s.open - {s.socket}, socket := -1)
  {
  }

  // A resume reports success exactly if the client is connected afterwards.
  lemma ResumeOutcome(c: Config, s: State, link: Link)
    requires s.free <= AllBlocks(c.size)
    ensures var (r, status) := Perform(c, s, CallResume(link));
            && (status == Ok <==> r.phase == Connected)
            && (status == Err(EINVAL) <==> s.phase != Connected && s.phase != Suspended)
            && (s.phase != Suspended ==> r == s)
            && (s.phase == Suspended && !c.closeOnSuspend ==>
                  r == s.(phase := Connected, log := s.log + [ActiveEvent]))
            && (s.phase == Suspended && c.closeOnSuspend ==> Reopened(s, link, r, status))
  {
  }

  // The socket was opened again and attributes are observed, or nothing was opened at all.
  ghost predicate Reopened(s: State, link: Link, r: State, status: Status) {
    if link.socket.Opened? && link.observe.built && link.observe.accepted && s.free != {} then
      && status == Ok && r.phase == Connected && r.token == s.token && r.log == s.log + [ActiveEvent]
      && r.socket == link.socket.fd && r.open == s.open + {link.socket.fd}
      && r.observation.Some? && r.observation.value in s.free
      && r.free == s.free - {r.observation.value} && r.owned == s.owned[r.observation.value := Observe]
    else
      && status == Err(EIO)
      && r == if link.socket.Opened? then s.(socket := -1, observation := None) else s
  }

  // Callbacks. Requests of the SDK's own aside, a callback changes only what its request is about.

  lemma NotificationOutcome(c: Config, s: State, b: Block, followUps: seq<Submission>)
    ensures Perform(c, s, OnNotification(b, true, followUps)).0 ==
            s.(observation := None, free := s.free + {b}, owned := s.owned - {b})
    ensures Perform(c, s, OnNotification(b, false, [])).0 == s
    ensures s.free <= AllBlocks(c.size) ==>
              |Perform(c, s, OnNotification(b, false, followUps)).0.free| == Minus(|s.free|, Wanted(s.phase, followUps))
  {
    if s.free <= AllBlocks(c.size) {
      SubmissionsOutcome(c, s, followUps);
    }
  }

  // The block is free after the last callback and in flight before it, and a time response logs
  // exactly one event.
  lemma ResponseOutcome(c: Config, s: State, b: Block, last: bool, timeUpdate: bool)
    requires b in s.owned && b !in s.free
    ensures Perform(c, s, OnResponse(b, last, timeUpdate, [])).0 ==
            s.(log := s.log + if timeUpdate then [TimeUpdateEvent] else [],
               free := if last then s.free + {b} else s.free,
               owned := if last then s.owned - {b} else s.owned)
  {
    assert s.log + [] == s.log;
  }

  lemma ResponseSends(c: Config, s: State, b: Block, last: bool, timeUpdate: bool, followUps: seq<Submission>)
    requires b in s.owned && b !in s.free && s.free <= AllBlocks(c.size)
    ensures var r := Perform(c, s, OnResponse(b, last, timeUpdate, followUps)).0;
            && r.log == s.log + (if timeUpdate then [TimeUpdateEvent] else [])
            && r.phase == s.phase && (b in r.free <==> last) && (b in r.owned <==> !last)
            && |r.free - {b}| == Minus(|s.free|, Wanted(s.phase, followUps))
  {
    var taken := if last then TakeBack(s, b) else s;
    var told := if timeUpdate then Emit(taken, TimeUpdateEvent) else taken;
    assert Perform(c, s, OnResponse(b, last, timeUpdate, followUps)).0 ==
           if last then Release(Requests(c, told, followUps), b) else Requests(c, told, followUps);
    hide Perform;
    assert told.free == s.free && told.phase == s.phase && b !in told.free && (b in told.owned <==> !last);
    assert told.log == s.log + if timeUpdate then [TimeUpdateEvent] else [] by {
      assert s.log + [] == s.log;
    }
    hide Requests, Wanted, TakeBack, Emit;
    SubmissionsOutcome(c, told, followUps);
    if last {
      NotTakenBy(c, told, followUps, b);
    } else {
      StaysOwned(c, told, followUps, b);
    }
    WithoutBlock(Requests(c, told, followUps).free, b);
  }

  lemma WithoutBlock(free: set<Block>, b: Block)
    requires b !in free
    ensures free - {b} == free && (free + {b}) - {b} == free
  {
  }

  lemma {:induction false} StaysOwned(c: Config, s: State, submissions: seq<Submission>, b: Block)
    requires b !in s.free && b in s.owned
    ensures b !in Requests(c, s, submissions).free && b in Requests(c, s, submissions).owned
    decreases |submissions|
  {
    if submissions != [] {
      StaysOwned(c, Submitted(c, s, submissions[0]), submissions[1..], b);
    }
  }
}
