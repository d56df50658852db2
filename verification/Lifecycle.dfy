/**
 The client as a protocol: one flat step per API call and per CoAP callback. What the network,
 the CoAP client, the allocator and the settings storage do is part of the action.
 */
module Lifecycle {
  import opened Wrappers
  import opened RequestPool
  import Batching
  import Paths
  import TimeseriesText

  datatype Phase = Init | Connecting | Connected | Suspended | Disconnected

  datatype Event = ProvisionedEvent | ActiveEvent | SuspendedEvent | TimeUpdateEvent | DisconnectedEvent

  // Build options. closeOnSuspend: the socket is closed on suspend and reopened on resume. cap and
  // pathCap: the sizes of a payload and of a path buffer. accessToken: the token's text, which the
  // client does not know from the start.
  datatype Config = Config(size: nat, dtls: bool, provisioning: bool, closeOnSuspend: bool,
                           connectOnInit: bool, cap: nat, pathCap: nat, accessToken: string)

  datatype State = State(phase: Phase, socket: int, open: set<int>, observation: Option<Block>,
                         token: bool, log: seq<Event>, free: set<Block>, owned: map<Block, Kind>)

  const NO_SOCKET: int := -1

  // Opening a socket: name resolution, socket creation and binding may each fail.
  datatype SocketCall = Unresolved | NotCreated | NotBound(fd: int) | Opened(fd: int)

  // One request: the allocator's choice, whether path and payload can be built, and the CoAP
  // client's verdict.
  datatype RequestCall = RequestCall(hint: Block, built: bool, accepted: bool)

  datatype Submission = Submission(kind: Kind, call: RequestCall)

  datatype ProvisionCall = SettingsFailed | TokenStored | TokenRequested(call: RequestCall)

  // Everything that can happen on the way to a connection. startup: telemetry sent by FOTA.
  datatype Link = Link(socket: SocketCall, provision: ProvisionCall, startup: seq<Submission>,
                       observe: RequestCall)

  datatype Action =
    | CallInit(configured: bool, coapStarted: bool, link: Link)
    | CallConnect(link: Link)
    | CallDisconnect(cancelled: bool)
    | CallSuspend(cancelled: bool)
    | CallResume(link: Link)
    | CallSend(kind: Kind, call: RequestCall)
    | CallSendTimeseries(ts: seq<TimeseriesText.Record>, hints: seq<Block>, accept: seq<bool>)
    | OnNotification(block: Block, final: bool, followUps: seq<Submission>)
    | OnResponse(block: Block, last: bool, timeUpdate: bool, followUps: seq<Submission>)
    | OnProvisioned(block: Block, granted: bool, link: Link)

  function EventOf(phase: Phase): Event {
    match phase
    case Connected => ActiveEvent
    case Suspended => SuspendedEvent
    case _ => DisconnectedEvent
  }

  function Emit(s: State, event: Event): State {
    s.(log := s.log + [event])
  }

  function Enter(s: State, phase: Phase): State {
    Emit(s.(phase := phase), EventOf(phase))
  }

  // The block of a request that the CoAP client accepted, if it came to that.
  function Granted(c: Config, s: State, call: RequestCall): (r: Option<Block>)
    ensures r.Some? ==> r.value in s.free
  {
    if call.built && call.accepted then Choose(s.free, c.size, call.hint) else None
  }

  function RequestStatus(c: Config, s: State, call: RequestCall): Status {
    if Choose(s.free, c.size, call.hint).None? then Err(ENOMEM)
    else if !call.built then Err(EFAULT)
    else if !call.accepted then Err(EIO)
    else Ok
  }

  function Request(c: Config, s: State, kind: Kind, call: RequestCall): State {
    match Granted(c, s, call)
    case None => s
    case Some(b) => s.(free := s.free - {b}, owned := s.owned[b := kind])
  }

  predicate Active(phase: Phase) {
    phase == Connected || phase == Connecting
  }

  // The path depends on the token, even while there is none.
  predicate TelemetryFits(c: Config, s: State) {
    Paths.Fits(Paths.TelemetryPath(c.dtls, c.accessToken, s.token), c.pathCap)
  }

  // A request made by the SDK itself; telemetry is only sent while the client is active.
  function Submitted(c: Config, s: State, submission: Submission): State {
    if submission.kind == Telemetry && !Active(s.phase) then s
    else Request(c, s, submission.kind, submission.call)
  }

  function Requests(c: Config, s: State, submissions: seq<Submission>): State
    decreases |submissions|
  {
    if submissions == [] then s
    else Requests(c, Submitted(c, s, submissions[0]), submissions[1..])
  }

  // The observe request decides whether the connection attempt succeeds.
  function Observed(c: Config, s: State, call: RequestCall): State {
    match Granted(c, s, call)
    case None => Enter(s.(open := s.open - {s.socket}, observation := None), Disconnected)
    case Some(b) => Enter(Request(c, s, Observe, call).(observation := Some(b)), Connected)
  }

  // The end of a connection attempt once an access token is known.
  function Subscribed(c: Config, s: State, link: Link): State {
    Observed(c, Requests(c, s, link.startup), link.observe)
  }

  // A connection attempt from the open socket on.
  function Launched(c: Config, s: State, link: Link): State {
    if c.dtls || s.token then Subscribed(c, s, link)
    else if !c.provisioning then Subscribed(c, s.(token := true), link)
    else
      match link.provision
      case SettingsFailed => Enter(s, Disconnected)
      case TokenStored => Subscribed(c, Emit(s.(token := true), ProvisionedEvent), link)
      case TokenRequested(call) =>
        if Granted(c, s, call).None? then Enter(s, Disconnected) else Request(c, s, Provision, call)
  }

  function Connect(c: Config, s: State, link: Link): (State, Status) {
    match s.phase
    case Connected => (s, Err(EALREADY))
    case Suspended => (s, Err(EALREADY))
    case Disconnected =>
      if link.socket.Opened? then
        var fd := link.socket.fd;
        (Launched(c, s.(phase := Connecting, socket := fd, open := s.open + {fd}), link), Ok)
      else (s, Err(ENOTCONN))
    case _ => (s, Err(EINVAL))
  }

  // The cancelled observation's last callback arrives within the call, or it is still to come.
  function Unsubscribed(s: State, cancelled: bool): State {
    if s.observation.Some? && cancelled
    then s.(observation := None, free := s.free + {s.observation.value},
            owned := s.owned - {s.observation.value})
    else s
  }

  function Disconnect(s: State, cancelled: bool): (State, Status) {
    match s.phase
    case Disconnected => (s, Err(EALREADY))
    case Init => (s, Err(EINVAL))
    case Connecting => (s, Err(EINVAL))
    case _ =>
      var u := Unsubscribed(s, cancelled);
      (Enter(u.(open := u.open - {u.socket}), Disconnected), Ok)
  }

  function Suspend(c: Config, s: State, cancelled: bool): (State, Status) {
    if s.phase == Suspended then (s, Ok)
    else if s.phase != Connected then (s, Err(EINVAL))
    else if !c.closeOnSuspend then (Enter(s, Suspended), Ok)
    else
      var u := Unsubscribed(s, cancelled);
      (Enter(u.(open := u.open - {u.socket}, socket := NO_SOCKET), Suspended), Ok)
  }

  function Resume(c: Config, s: State, link: Link): (State, Status) {
    if s.phase == Connected then (s, Ok)
    else if s.phase != Suspended then (s, Err(EINVAL))
    else if !c.closeOnSuspend then (Enter(s, Connected), Ok)
    else if !link.socket.Opened? then (s, Err(EIO))
    else
      match Granted(c, s, link.observe)
      case None => (s.(socket := NO_SOCKET, observation := None), Err(EIO))
      case Some(b) =>
        var r := Request(c, s, Observe, link.observe);
        (Enter(r.(observation := Some(b), socket := link.socket.fd, open := r.open + {link.socket.fd}),
               Connected), Ok)
  }

  function Initialize(c: Config, s: State, configured: bool, coapStarted: bool, link: Link): (State, Status) {
    if s.phase != Init || s.socket >= 0 then (s, Err(EALREADY))
    else if !configured then (s, Err(EINVAL))
    else if !coapStarted then (s, Err(EIO))
    else if !c.connectOnInit then (s.(phase := Disconnected), Ok)
    else
      var r := Connect(c, s.(phase := Disconnected), link);
      (r.0, if r.1.Err? then Err(ENOTCONN) else Ok)
  }

  // One request for each of n batches, up to the first that the CoAP client rejects.
  ghost function Batches(c: Config, s: State, n: nat, hints: seq<Block>, accept: seq<bool>): (State, Status) {
    var k := Reached(TelemetryFits(c, s), accept, n);
    var blocks := Choices(s.free, c.size, hints, n)[..k];
    (s.(free := s.free - SetOf(blocks), owned := HandOver(s.owned, blocks)), if k == n then Ok else Err(EIO))
  }

  // All or nothing is prepared. Where the source's assertion that no array is empty fails, requests
  // are taken until none is left.
  ghost function Timeseries(c: Config, s: State, ts: seq<TimeseriesText.Record>, hints: seq<Block>,
                            accept: seq<bool>): (State, Status) {
    if !Active(s.phase) then (s, Err(EAGAIN))
    else
      match Batching.UncheckedPlan(ts, c.cap, |s.free|)
      case Planned(batches) => Batches(c, s, |batches|, hints, accept)
      case NoRequest => (s, Err(ENOMEM))
      case BadRecord => (s, Err(EINVAL))
      case Oversize => (s, Err(ENOMEM))
  }

  // A callback that ends its request: the block is the callback's until it frees it.
  function TakeBack(s: State, b: Block): State {
    s.(owned := s.owned - {b})
  }

  function Release(s: State, b: Block): State {
    s.(free := s.free + {b})
  }

  ghost function Perform(c: Config, s: State, a: Action): (State, Status) {
    match a
    case CallInit(configured, coapStarted, link) => Initialize(c, s, configured, coapStarted, link)
    case CallConnect(link) => Connect(c, s, link)
    case CallDisconnect(cancelled) => Disconnect(s, cancelled)
    case CallSuspend(cancelled) => Suspend(c, s, cancelled)
    case CallResume(link) => Resume(c, s, link)
    case CallSend(kind, call) =>
      if Active(s.phase) then (Request(c, s, kind, call), RequestStatus(c, s, call)) else (s, Err(EAGAIN))
    case CallSendTimeseries(ts, hints, accept) => Timeseries(c, s, ts, hints, accept)
    case OnNotification(b, final, followUps) =>
      (if final then Release(TakeBack(s, b).(observation := None), b) else Requests(c, s, followUps), Ok)
    case OnResponse(b, last, timeUpdate, followUps) =>
      var taken := if last then TakeBack(s, b) else s;
      var told := if timeUpdate then Emit(taken, TimeUpdateEvent) else taken;
      var sent := Requests(c, told, followUps);
      (if last then Release(sent, b) else sent, Ok)
    case OnProvisioned(b, granted, link) =>
      var taken := TakeBack(s, b);
      var launched :=
        if granted then Subscribed(c, Emit(taken.(token := true), ProvisionedEvent), link) else taken;
      (Release(launched, b), Ok)
  }

  predicate Plain(submissions: seq<Submission>) {
    forall i :: 0 <= i < |submissions| ==> PlainKind(submissions[i].kind)
  }

  predicate PlainKind(kind: Kind) {
    kind == Telemetry || kind == Rpc || kind == Firmware
  }

  predicate FreshSocket(s: State, call: SocketCall) {
    (call.Opened? || call.NotBound?) ==> call.fd >= 0 && call.fd !in s.open
  }

  predicate FairLink(s: State, link: Link) {
    FreshSocket(s, link.socket) && Plain(link.startup)
  }

  // What the environment may do: the operating system hands out unused descriptors, and callbacks
  // come only for requests in flight, of their own kind.
  predicate Possible(c: Config, s: State, a: Action) {
    match a
    case CallInit(_, _, link) => FairLink(s, link)
    case CallConnect(link) => FairLink(s, link)
    case CallDisconnect(_) => true
    case CallSuspend(_) => true
    case CallResume(link) => FairLink(s, link)
    case CallSend(kind, _) => PlainKind(kind)
    case CallSendTimeseries(ts, _, accept) => ts != [] && c.size <= |accept|
    case OnNotification(b, _, followUps) => b in s.owned && s.owned[b] == Observe && Plain(followUps)
    case OnResponse(b, _, timeUpdate, followUps) =>
      && b in s.owned && s.owned[b] != Observe && s.owned[b] != Provision && Plain(followUps)
      && (timeUpdate ==> s.owned[b] == Rpc)
      && (followUps != [] ==> s.owned[b] == Firmware)
    case OnProvisioned(b, _, link) => b in s.owned && s.owned[b] == Provision && Plain(link.startup)
  }

  // A connection attempt gets as far as subscribing to attributes.
  predicate Reaches(c: Config, s: State, link: Link) {
    link.socket.Opened? && (c.dtls || s.token || !c.provisioning || link.provision.TokenStored?)
  }

  // The action subscribes to attributes. The source asserts there that no observation exists.
  predicate Attempts(c: Config, s: State, a: Action) {
    match a
    case CallInit(configured, coapStarted, link) =>
      && s.phase == Init && s.socket < 0 && configured && coapStarted && c.connectOnInit
      && Reaches(c, s, link)
    case CallConnect(link) => s.phase == Disconnected && Reaches(c, s, link)
    case CallResume(link) => s.phase == Suspended && c.closeOnSuspend && link.socket.Opened?
    case OnProvisioned(_, granted, _) => granted
    case _ => false
  }

  predicate AssertionHolds(c: Config, s: State, a: Action) {
    Attempts(c, s, a) ==> s.observation.None?
  }

  // The source's other assertion: no array of a send is empty.
  ghost predicate BatchAssertionHolds(c: Config, s: State, a: Action) {
    a.CallSendTimeseries? && Active(s.phase) ==> !Batching.MakePlan(a.ts, c.cap, |s.free|).Oversize?
  }

  // Cancelling an observation delivers its last callback before the call returns.
  predicate Synchronous(a: Action) {
    match a
    case CallDisconnect(cancelled) => cancelled
    case CallSuspend(cancelled) => cancelled
    case _ => true
  }

  function Start(c: Config): State {
    State(Init, NO_SOCKET, {}, None, false, [], AllBlocks(c.size), map[])
  }
}
