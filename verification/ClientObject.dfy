/**
 The client as the source writes it: a record of fields that nested and mutually recursive
 functions update under a recursive lock. Every public function is proved to take exactly one
 step of the flat protocol.
 */
module ClientObject {
  import opened Wrappers
  import opened RequestPool
  import opened Lifecycle
  import opened Ownership
  import opened Sessions
  import opened Subscriptions
  import opened Runs
  import Batching
  import Send = SendTimeseries
  import TimeseriesText

  // How an attribute notification fares, in the order of the checks of the callback.
  datatype Notification = Cancelled | RequestFailed | NoPayload | Undecodable | NotStored | Stored

  // For state changes that start no connection attempt.
  const NO_LINK := Link(Unresolved, SettingsFailed, [], RequestCall(0, false, false))

  class Client {
    const config: Config
    const pool: Pool
    const sender: Send.Sender  // the sender of timeseries, on the same slab
    var state: Phase
    var serverSocket: int
    var attributesObservation: Option<Block>
    var accessToken: bool      // whether the client has a token
    var open: set<int>         // the descriptors that the operating system has open
    var log: seq<Event>        // the events reported to the application
    var lockDepth: nat

    ghost function View(): State
      reads this, pool
    {
      State(state, serverSocket, open, attributesObservation, accessToken, log, pool.free, pool.owned)
    }

    ghost predicate Wired() {
      && pool.size == config.size && sender.pool == pool && sender.Buffers()
      && sender.dtls == config.dtls && sender.token == config.accessToken
      && sender.cap == config.cap && sender.pathCap == config.pathCap
    }

    ghost predicate Base()
      reads this, pool
    {
      Wired() && pool.Valid() && NO_SOCKET !in open
    }

    ghost predicate Valid()
      reads this, pool
    {
      Base() && Inv(config, View())
    }

    constructor (config: Config, pool: Pool, sender: Send.Sender)
      requires pool.Valid() && pool.size == config.size
      requires pool.free == AllBlocks(config.size) && pool.owned == map[]
      requires sender.pool == pool && sender.Valid()
      requires sender.dtls == config.dtls && sender.token == config.accessToken
      requires sender.cap == config.cap && sender.pathCap == config.pathCap
      ensures this.config == config && this.pool == pool && this.sender == sender
      ensures Valid() && View() == Start(config) && ObservationInv(config, View()) && lockDepth == 0
    {
      this.config, this.pool, this.sender := config, pool, sender;
      state, serverSocket, attributesObservation := Init, NO_SOCKET, None;
      accessToken, open, log, lockDepth := false, {}, [], 0;
      new;
      StartIsGood(config);
    }

    method Lock()
      modifies this`lockDepth
      ensures lockDepth == old(lockDepth) + 1
    {
      lockDepth := lockDepth + 1;
    }

    method Unlock()
      requires lockDepth > 0
      modifies this`lockDepth
      ensures lockDepth == old(lockDepth) - 1
    {
      lockDepth := lockDepth - 1;
    }

    method ReportEvent(event: Event)
      modifies this`log
      ensures log == old(log) + [event]
    {
      log := log + [event];
    }

    // A socket is closed only while it is open, so never twice.
    method SocketClose(fd: int)
      requires fd == NO_SOCKET || fd in open
      requires NO_SOCKET !in open
      modifies this`open
      ensures open == old(open) - {fd}
    {
      if fd == NO_SOCKET {
        return;
      }
      open := open - {fd};
    }

    // The descriptor, or NO_SOCKET for an error.
    method SocketConnect(call: SocketCall) returns (fd: int)
      requires call.Opened? || call.NotBound? ==> call.fd >= 0 && call.fd !in open
      requires NO_SOCKET !in open
      modifies this`open
      ensures fd == if call.Opened? then call.fd else NO_SOCKET
      ensures open == if call.Opened? then old(open) + {call.fd} else old(open)
    {
      match call
      case Unresolved => fd := NO_SOCKET;
      case NotCreated => fd := NO_SOCKET;
      case NotBound(created) =>
        open := open + {created};
        SocketClose(created);
        fd := NO_SOCKET;
      case Opened(created) =>
        open := open + {created};
        fd := created;
    }

    // Telemetry, RPC, provisioning and firmware requests: allocate a block, build path and
    // payload, hand the request over, and free the block again if any of that fails.
    method SendRequest(kind: Kind, call: RequestCall) returns (status: Status)
      requires Base()
      modifies pool
      ensures Base() && View() == Request(config, old(View()), kind, call)
      ensures status == RequestStatus(config, old(View()), call)
    {
      var block := pool.Alloc(call.hint);
      if block.None? {
        return Err(ENOMEM);
      }
      assert old(pool.free) - {block.value} + {block.value} == old(pool.free);
      if !call.built {
        pool.Free(block.value);
        return Err(EFAULT);
      }
      pool.Submit(block.value, kind, call.accepted);
      if !call.accepted {
        pool.Free(block.value);
        return Err(EIO);
      }
      return Ok;
    }

    method SendRequestIfActive(kind: Kind, call: RequestCall) returns (status: Status)
      requires Base()
      modifies pool
      ensures Base() && (View(), status) == Perform(config, old(View()), CallSend(kind, call))
    {
      if !Active(state) {
        return Err(EAGAIN);
      }
      status := SendRequest(kind, call);
    }

    // Several requests at once, through the sender. stray: the cleanup went on to a slot without a
    // block. tripped: the assertion that no array is empty failed.
    method SendTimeseries(ts: seq<TimeseriesText.Record>, hints: seq<Block>, accept: seq<bool>)
      returns (status: Status, stray: bool, tripped: bool)
      requires Base() && Possible(config, View(), CallSendTimeseries(ts, hints, accept))
      modifies pool, sender`sent, sender.payload
      ensures Base()
      ensures (View(), status) == Perform(config, old(View()), CallSendTimeseries(ts, hints, accept))
      ensures stray <==> Active(state) && Batching.UncheckedPlan(ts, config.cap, |old(pool.free)|).NoRequest?
      ensures tripped <==> !BatchAssertionHolds(config, old(View()), CallSendTimeseries(ts, hints, accept))
    {
      var outcome;
      ghost var plan, blocks;
      outcome, stray, tripped, plan, blocks := sender.SendTimeseries(ts, Active(state), accessToken, hints, accept);
      SentIsStep(old(View()), ts, hints, accept, plan, blocks, outcome);
      match outcome
      case Delivered => status := Ok;
      case Failure(errno) => status := Err(errno);
    }

    // What the sender leaves behind is the flat step.
    lemma SentIsStep(s: State, ts: seq<TimeseriesText.Record>, hints: seq<Block>, accept: seq<bool>,
                     plan: Batching.Plan, blocks: seq<Block>, outcome: Send.Outcome)
      requires Wired() && plan == Batching.UncheckedPlan(ts, config.cap, |s.free|)
      requires !Active(s.phase) ==> outcome == Send.Failure(EAGAIN)
      requires Active(s.phase) && plan.NoRequest? ==> outcome == Send.Failure(ENOMEM)
      requires Active(s.phase) && plan.BadRecord? ==> outcome == Send.Failure(EINVAL)
      requires !(Active(s.phase) && plan.Planned?) ==> blocks == []
      requires Active(s.phase) && plan.Planned? ==>
                 && sender.Sends(plan.batches, s.token, accept, |blocks|, outcome)
                 && blocks == Choices(s.free, config.size, hints, |plan.batches|)[..|blocks|]
      ensures Timeseries(config, s, ts, hints, accept) ==
              (s.(free := s.free - SetOf(blocks), owned := HandOver(s.owned, blocks)),
               if outcome.Delivered? then Ok else Err(outcome.errno))
    {
      Batching.NeverOversize(ts, config.cap, |s.free|);
      assert blocks == [] ==> s.free - SetOf(blocks) == s.free;
    }

    // The requests that the SDK sends on its own behalf.
    method SendAll(submissions: seq<Submission>)
      requires Base()
      modifies pool
      ensures Base() && View() == Requests(config, old(View()), submissions)
    {
      var rest := submissions;
      while rest != []
        invariant Base()
        invariant Requests(config, View(), rest) == Requests(config, old(View()), submissions)
        decreases |rest|
      {
        var next := rest[0];
        if next.kind == Telemetry {
          var sent := SendRequestIfActive(next.kind, next.call);
        } else {
          var sent := SendRequest(next.kind, next.call);
        }
        rest := rest[1..];
      }
    }

    // The source asserts that there is no observation yet; without assertions, one is replaced.
    method SubscribeAttributes(call: RequestCall) returns (status: Status)
      requires Base()
      modifies this`attributesObservation, pool
      ensures Base()
      ensures status.Ok? <==> Granted(config, old(View()), call).Some?
      ensures View() == Request(config, old(View()), Observe, call).(observation := Granted(config, old(View()), call))
    {
      attributesObservation := pool.Alloc(call.hint);
      if attributesObservation == None {
        return Err(ENOMEM);
      }
      var block := attributesObservation.value;
      assert old(pool.free) - {block} + {block} == old(pool.free);
      if !call.built {
        pool.Free(block);
        attributesObservation := None;
        return Err(EFAULT);
      }
      pool.Submit(block, Observe, call.accepted);
      if !call.accepted {
        pool.Free(block);
        attributesObservation := None;
        return Err(EIO);
      }
      return Ok;
    }

    // A connection attempt may go on: the socket is open.
    ghost predicate Ready(link: Link)
      reads this, pool
    {
      Base() && state == Connecting && serverSocket in open && Plain(link.startup)
    }

    // SetState, StartClient, ProvisionDevice and ProvisionCallback call each other: the recursion
    // ends because a token, once there, stays, and because only CONNECTING starts the client.
    method SetState(newState: Phase, link: Link)
      requires Base() && newState != Init
      requires newState == Connecting && state != Connecting ==>
                 serverSocket in open && Plain(link.startup)
      modifies this, pool
      ensures Base() && lockDepth == old(lockDepth)
      ensures View() == if newState == old(state) then old(View())
                        else if newState == Connecting then
                          Launched(config, old(View()).(phase := Connecting), link)
                        else Enter(old(View()), newState)
      decreases if newState == Connecting then 6 else 0
    {
      Lock();
      if newState == state {
        Unlock();
        return;
      }
      state := newState;
      match newState {
        case Init =>
          assert false;
        case Connecting =>
          StartClient(link);
        case Connected =>
          ReportEvent(ActiveEvent);
        case Suspended =>
          ReportEvent(SuspendedEvent);
        case Disconnected =>
          ReportEvent(DisconnectedEvent);
      }
      Unlock();
    }

    method StartClient(link: Link)
      requires Ready(link)
      modifies this, pool
      ensures Base() && lockDepth == old(lockDepth)
      ensures View() == Launched(config, old(View()), link)
      decreases if config.dtls || accessToken then 2 else 5
    {
      if !config.dtls && !accessToken {
        if config.provisioning {
          var provisioned := ProvisionDevice(link);
          if provisioned.Err? {
            SetState(Disconnected, NO_LINK);
          }
          return;
        }
        accessToken := true;
      }
      SubscribeAndConnect(link);
    }

    // The second half of starting the client.
    method SubscribeAndConnect(link: Link)
      requires Ready(link)
      modifies this, pool
      ensures Base() && lockDepth == old(lockDepth)
      ensures View() == Subscribed(config, old(View()), link)
      decreases 1
    {
      RequestsKeepSession(config, View(), link.startup);
      SendAll(link.startup);
      var status := SubscribeAttributes(link.observe);
      if status.Err? {
        SocketClose(serverSocket);
        SetState(Disconnected, NO_LINK);
        return;
      }
      SetState(Connected, NO_LINK);
    }

    method ProvisionDevice(link: Link) returns (status: Status)
      requires Ready(link) && !config.dtls && !accessToken && config.provisioning
      modifies this, pool
      ensures Base() && lockDepth == old(lockDepth)
      ensures link.provision.SettingsFailed? ==> status.Err? && View() == old(View())
      ensures link.provision.TokenStored? ==> status.Ok?
      ensures link.provision.TokenStored? ==>
                View() == Subscribed(config, Emit(old(View()).(token := true), ProvisionedEvent), link)
      ensures link.provision.TokenRequested? ==>
                && View() == Request(config, old(View()), Provision, link.provision.call)
                && (status.Ok? <==> Granted(config, old(View()), link.provision.call).Some?)
      decreases 4
    {
      match link.provision
      case SettingsFailed =>
        return Err(EIO);
      case TokenRequested(call) =>
        status := SendRequest(Provision, call);
      case TokenStored =>
        ProvisionCallback(link);
        return Ok;
    }

    method ProvisionCallback(link: Link)
      requires Ready(link)
      modifies this, pool
      ensures Base() && lockDepth == old(lockDepth)
      ensures View() == Subscribed(config, Emit(old(View()).(token := true), ProvisionedEvent), link)
      decreases 3
    {
      accessToken := true;
      ReportEvent(ProvisionedEvent);
      StartClient(link);
    }

    method Connect(link: Link) returns (status: Status)
      requires Base() && FairLink(View(), link)
      modifies this, pool
      ensures Base() && lockDepth == old(lockDepth)
      ensures (View(), status) == Lifecycle.Connect(config, old(View()), link)
    {
      hide Launched;
      Lock();
      match state {
        case Connected =>
          Unlock();
          return Err(EALREADY);
        case Suspended =>
          Unlock();
          return Err(EALREADY);
        case Disconnected =>
        case _ =>
          Unlock();
          return Err(EINVAL);
      }
      var fd := SocketConnect(link.socket);
      if fd < 0 {
        SetState(Disconnected, NO_LINK);
        Unlock();
        return Err(ENOTCONN);
      }
      serverSocket := fd;
      SetState(Connecting, link);
      Unlock();
      return Ok;
    }

    // The end of the observation, in its last callback. The source asserts that it is the one that
    // ends.
    method EndObservation(b: Block)
      requires Base() && b in pool.Held()
      modifies this`attributesObservation, pool
      ensures Base() && View() == Release(old(View()).(observation := None), b)
    {
      attributesObservation := None;
      pool.Free(b);
    }

    // The callback of the observe request. Negative results are its last.
    method HandleNotification(b: Block, notification: Notification, followUps: seq<Submission>)
      requires Base() && b in pool.owned
      modifies this, pool
      ensures Base() && lockDepth == old(lockDepth)
      ensures View() == Perform(config, old(View()), NotificationAction(b, notification, followUps)).0
    {
      NotificationStep(View(), b, notification, followUps);
      hide Perform, Requests, NotificationAction;
      Lock();
      match notification {
        case NotStored =>
          Unlock();
          return;
        case Stored =>
          SendAll(followUps);
        case _ =>
      }
      if notification == Cancelled || notification == RequestFailed {
        pool.Finish(b);  // the CoAP client is done with the request
        EndObservation(b);
      }
      Unlock();
    }

    lemma NotificationStep(s: State, b: Block, notification: Notification, followUps: seq<Submission>)
      ensures Perform(config, s, NotificationAction(b, notification, followUps)).0 ==
              match notification
              case Cancelled => Release(TakeBack(s, b).(observation := None), b)
              case RequestFailed => Release(TakeBack(s, b).(observation := None), b)
              case Stored => Requests(config, s, followUps)
              case _ => s
    {
    }

    static function NotificationAction(b: Block, notification: Notification, followUps: seq<Submission>): Action {
      OnNotification(b, notification == Cancelled || notification == RequestFailed,
                     if notification == Stored then followUps else [])
    }

    // Cancelling runs the callback at once, or leaves it for later.
    method UnsubscribeAttributes(cancelled: bool) returns (status: Status)
      requires Base()
      requires attributesObservation.Some? ==> attributesObservation.value in pool.owned
      modifies this, pool
      ensures Base() && lockDepth == old(lockDepth)
      ensures View() == Unsubscribed(old(View()), cancelled)
      ensures status == if old(attributesObservation) == None then Err(EALREADY) else Ok
    {
      if attributesObservation == None {
        return Err(EALREADY);
      }
      if cancelled {
        HandleNotification(attributesObservation.value, Cancelled, []);
      }
      return Ok;
    }

    method Disconnect(cancelled: bool) returns (status: Status)
      requires Base() && (state == Connected || state == Suspended ==> serverSocket in open + {NO_SOCKET})
      requires attributesObservation.Some? ==> attributesObservation.value in pool.owned
      modifies this, pool
      ensures Base() && lockDepth == old(lockDepth)
      ensures (View(), status) == Lifecycle.Disconnect(old(View()), cancelled)
    {
      Lock();
      match state {
        case Connected =>
        case Suspended =>
        case Disconnected =>
          Unlock();
          return Err(EALREADY);
        case _ =>
          Unlock();
          return Err(EINVAL);
      }
      var unsubscribed := UnsubscribeAttributes(cancelled);
      SocketClose(serverSocket);
      SetState(Disconnected, NO_LINK);
      Unlock();
      return Ok;
    }

    method SocketSuspend(cancelled: bool)
      requires Base() && serverSocket in open
      requires attributesObservation.Some? ==> attributesObservation.value in pool.owned
      modifies this, pool
      ensures Base() && lockDepth == old(lockDepth)
      ensures View() ==
              if !config.closeOnSuspend then old(View())
              else var u := Unsubscribed(old(View()), cancelled);
                   u.(open := u.open - {u.socket}, socket := NO_SOCKET)
    {
      if config.closeOnSuspend {
        var unsubscribed := UnsubscribeAttributes(cancelled);
        SocketClose(serverSocket);
        serverSocket := NO_SOCKET;
      }
    }

    method Suspend(cancelled: bool) returns (status: Status)
      requires Base() && (state == Connected ==> serverSocket in open)
      requires attributesObservation.Some? ==> attributesObservation.value in pool.owned
      modifies this, pool
      ensures Base() && lockDepth == old(lockDepth)
      ensures (View(), status) == Lifecycle.Suspend(config, old(View()), cancelled)
    {
      Lock();
      if state == Suspended {
        Unlock();
        return Ok;
      }
      if state != Connected {
        Unlock();
        return Err(EINVAL);
      }
      SocketSuspend(cancelled);
      SetState(Suspended, NO_LINK);
      Unlock();
      return Ok;
    }

    method SocketResume(link: Link) returns (status: Status)
      requires Base() && FairLink(View(), link)
      modifies this, pool
      ensures Base() && lockDepth == old(lockDepth)
      ensures !config.closeOnSuspend ==> status.Ok? && View() == old(View())
      ensures config.closeOnSuspend && status.Err? ==>
                && !(link.socket.Opened? && Granted(config, old(View()), link.observe).Some?)
                && View() == if link.socket.Opened? then old(View()).(socket := NO_SOCKET, observation := None)
                             else old(View())
      ensures config.closeOnSuspend && status.Ok? ==>
                && link.socket.Opened? && Granted(config, old(View()), link.observe).Some?
                && View() == Request(config, old(View()), Observe, link.observe).(
                     observation := Granted(config, old(View()), link.observe),
                     socket := link.socket.fd, open := old(open) + {link.socket.fd})
    {
      if !config.closeOnSuspend {
        return Ok;
      }
      var fd := SocketConnect(link.socket);
      if fd < 0 {
        return Err(ECONNREFUSED);
      }
      serverSocket := fd;
      status := SubscribeAttributes(link.observe);
      if status.Err? {
        SocketClose(serverSocket);
        serverSocket := NO_SOCKET;
        return Err(EBADMSG);
      }
    }

    method Resume(link: Link) returns (status: Status)
      requires Base() && FairLink(View(), link)
      modifies this, pool
      ensures Base() && lockDepth == old(lockDepth)
      ensures (View(), status) == Lifecycle.Resume(config, old(View()), link)
    {
      Lock();
      if state == Connected {
        Unlock();
        return Ok;
      }
      if state != Suspended {
        Unlock();
        return Err(EINVAL);
      }
      status := SocketResume(link);
      if status.Err? {
        Unlock();
        return Err(EIO);
      }
      SetState(Connected, NO_LINK);
      Unlock();
      return Ok;
    }

    method Initialize(configured: bool, coapStarted: bool, link: Link) returns (status: Status)
      requires Base() && FairLink(View(), link)
      modifies this, pool
      ensures Base() && lockDepth == old(lockDepth)
      ensures (View(), status) == Lifecycle.Initialize(config, old(View()), configured, coapStarted, link)
    {
      if state != Init {
        return Err(EALREADY);
      }
      if serverSocket >= 0 {
        return Err(EALREADY);
      }
      if !configured {
        return Err(EINVAL);
      }
      if !coapStarted {
        return Err(EIO);
      }
      state := Disconnected;
      if config.connectOnInit {
        status := Connect(link);
        if status.Err? {
          return Err(ENOTCONN);
        }
      }
      return Ok;
    }

    // The callbacks of telemetry, RPC and firmware requests: a time response is reported, and the
    // firmware download sends telemetry, before the last callback frees the block.
    method HandleResponse(b: Block, last: bool, timeUpdate: bool, followUps: seq<Submission>)
      requires Base() && b in pool.owned
      modifies this, pool
      ensures Base() && lockDepth == old(lockDepth)
      ensures View() == Perform(config, old(View()), OnResponse(b, last, timeUpdate, followUps)).0
    {
      hide Requests, Lifecycle.Initialize, Lifecycle.Connect, Lifecycle.Resume, Subscribed, Timeseries;
      if last {
        pool.Finish(b);
      }
      if timeUpdate {
        ReportEvent(TimeUpdateEvent);
      }
      ghost var told := View();
      SendAll(followUps);
      if last {
        StillHeld(told, followUps, b);
        pool.Free(b);
      }
    }

    // No request takes a block that a callback holds.
    lemma {:induction false} StillHeld(s: State, submissions: seq<Submission>, b: Block)
      requires b !in s.free && b !in s.owned
      ensures b !in Requests(config, s, submissions).free && b !in Requests(config, s, submissions).owned
      decreases |submissions|
    {
      if submissions != [] {
        StillHeld(Submitted(config, s, submissions[0]), submissions[1..], b);
      }
    }

    lemma StillHeldAfter(s: State, link: Link, b: Block)
      requires b !in s.free && b !in s.owned
      ensures b !in Subscribed(config, s, link).free && b !in Subscribed(config, s, link).owned
    {
      StillHeld(s, link.startup, b);
    }

    method HandleProvisionResponse(b: Block, granted: bool, link: Link)
      requires Base() && b in pool.owned
      requires granted ==> Ready(link)
      modifies this, pool
      ensures Base() && lockDepth == old(lockDepth)
      ensures View() == Perform(config, old(View()), OnProvisioned(b, granted, link)).0
    {
      hide Requests, Lifecycle.Initialize, Lifecycle.Connect, Lifecycle.Resume, Subscribed, Timeseries;
      pool.Finish(b);
      if granted {
        ghost var told := Emit(View().(token := true), ProvisionedEvent);
        ProvisionCallback(link);
        StillHeldAfter(told, link, b);
      }
      pool.Free(b);
    }

    // One call or callback. Whatever it is, the object takes exactly the step of the protocol,
    // keeps its invariant, and gives the lock back, whether the source's assertions hold or not.
    method Step(a: Action) returns (status: Status)
      requires Valid() && Possible(config, View(), a)
      modifies this, pool, sender`sent, sender.payload
      ensures Valid() && lockDepth == old(lockDepth)
      ensures (View(), status) == Perform(config, old(View()), a)
      ensures old(ObservationInv(config, View())) && AssertionHolds(config, old(View()), a) ==>
                ObservationInv(config, View())
    {
      hide Inv, ObservationInv, Perform, Possible, AssertionHolds;
      StepKeepsInv(config, View(), a);
      if ObservationInv(config, View()) && AssertionHolds(config, View(), a) {
        StepKeepsObservation(config, View(), a);
      }
      StepIsDefined(config, View(), a);
      status := Dispatch(a);
    }

    // What the functions of the source rely on, for any step.
    ghost predicate Defined(a: Action)
      reads this, pool
    {
      && (attributesObservation.Some? ==> attributesObservation.value in pool.owned)
      && (state == Connected ==> serverSocket in open)
      && (state == Suspended ==> serverSocket in open + {NO_SOCKET})
      && (a.OnProvisioned? ==> state == Connecting && serverSocket in open)
    }

    lemma StepIsDefined(c: Config, s: State, a: Action)
      requires Inv(c, s) && Possible(c, s, a)
      ensures s.observation.Some? ==> s.observation.value in s.owned
      ensures s.phase == Connected ==> s.socket in s.open
      ensures s.phase == Suspended ==> s.socket in s.open + {NO_SOCKET}
      ensures a.OnProvisioned? ==> s.phase == Connecting && s.socket in s.open
    {
      if s.observation.Some? {
        assert s.observation.value in Of(s.owned, Observe);
      }
      if a.OnProvisioned? {
        ProvisioningMeansConnecting(c, s, a);
      }
    }

    method Dispatch(a: Action) returns (status: Status)
      requires Base() && Possible(config, View(), a) && Defined(a)
      modifies this, pool, sender`sent, sender.payload
      ensures Base() && lockDepth == old(lockDepth)
      ensures (View(), status) == Perform(config, old(View()), a)
    {
      status := Ok;
      match a
      case CallInit(configured, coapStarted, link) => status := Initialize(configured, coapStarted, link);
      case CallConnect(link) => status := Connect(link);
      case CallDisconnect(cancelled) => status := Disconnect(cancelled);
      case CallSuspend(cancelled) => status := Suspend(cancelled);
      case CallResume(link) => status := Resume(link);
      case CallSend(kind, call) => status := SendRequestIfActive(kind, call);
      case CallSendTimeseries(ts, hints, accept) =>
        var stray, tripped;
        status, stray, tripped := SendTimeseries(ts, hints, accept);
      case OnNotification(b, final, followUps) =>
        if final {
          HandleNotification(b, RequestFailed, []);
        } else {
          HandleNotification(b, Stored, followUps);
        }
      case OnResponse(b, last, timeUpdate, followUps) => HandleResponse(b, last, timeUpdate, followUps);
      case OnProvisioned(b, granted, link) => HandleProvisionResponse(b, granted, link);
    }
  }
}
