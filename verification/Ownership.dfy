/** Every block of the slab is in one place, whatever calls and callbacks run. */
module Ownership {
  import opened Wrappers
  import opened RequestPool
  import opened Lifecycle
  import Batching
  import TimeseriesText

  // The blocks in flight for one kind of request.
  ghost function Of(owned: map<Block, Kind>, kind: Kind): set<Block> {
    set b | b in owned && owned[b] == kind
  }

  function Just(block: Option<Block>): set<Block> {
    if block.Some? then {block.value} else {}
  }

  // Every block is free, in flight, or held by the running call, and in one place only. observing
  // and provisioning are the observe and the provisioning requests in flight.
  ghost predicate Own(free: set<Block>, owned: map<Block, Kind>, observing: set<Block>,
                      provisioning: set<Block>, held: set<Block>, all: set<Block>) {
    && free + owned.Keys + held == all
    && free !! owned.Keys && free !! held && owned.Keys !! held
    && Of(owned, Observe) == observing && Of(owned, Provision) == provisioning
  }

  // The client's observation is one of the observe requests in flight.
  ghost predicate Owns(s: State, observing: set<Block>, provisioning: set<Block>, held: set<Block>, all: set<Block>) {
    Own(s.free, s.owned, observing, provisioning, held, all) && Just(s.observation) <= observing
  }

  // Between calls no block is held by anyone. There is at most one provisioning request in
  // flight, and only while connecting.
  ghost predicate OwnershipInv(c: Config, s: State) {
    && Owns(s, Of(s.owned, Observe), Of(s.owned, Provision), {}, AllBlocks(c.size))
    && (s.phase != Connecting ==> Of(s.owned, Provision) == {})
    && forall a, b :: a in Of(s.owned, Provision) && b in Of(s.owned, Provision) ==> a == b
  }

  // The client's observation is the only observe request in flight.
  ghost predicate SoleObservation(s: State) {
    Of(s.owned, Observe) == Just(s.observation)
  }

  // The invariant, with the requests in flight by name.
  ghost predicate Resting(s: State, observing: set<Block>, waiting: Option<Block>, all: set<Block>) {
    Owns(s, observing, Just(waiting), {}, all) && (waiting.Some? ==> s.phase == Connecting)
  }

  lemma RestingIsInv(c: Config, s: State, observing: set<Block>, waiting: Option<Block>)
    requires Resting(s, observing, waiting, AllBlocks(c.size))
    ensures OwnershipInv(c, s) && observing == Of(s.owned, Observe)
  {
  }

  lemma InvIsResting(c: Config, s: State) returns (waiting: Option<Block>)
    requires OwnershipInv(c, s)
    ensures Resting(s, Of(s.owned, Observe), waiting, AllBlocks(c.size))
  {
    if b :| b in Of(s.owned, Provision) {
      waiting := Some(b);
      assert Of(s.owned, Provision) == {b};
    } else {
      waiting := None;
      assert Of(s.owned, Provision) == {};
    }
  }

  // The elementary moves of a block.

  lemma Submit(free: set<Block>, owned: map<Block, Kind>, observing: set<Block>,
               provisioning: set<Block>, held: set<Block>, all: set<Block>, b: Block, kind: Kind)
    requires Own(free, owned, observing, provisioning, held, all) && b in free
    ensures Own(free - {b}, owned[b := kind], if kind == Observe then observing + {b} else observing,
                if kind == Provision then provisioning + {b} else provisioning, held, all)
  {
  }

  lemma TakeBackBlock(free: set<Block>, owned: map<Block, Kind>, observing: set<Block>,
                      provisioning: set<Block>, held: set<Block>, all: set<Block>, b: Block)
    requires Own(free, owned, observing, provisioning, held, all) && b in owned && held == {}
    ensures Own(free, owned - {b}, if owned[b] == Observe then observing - {b} else observing,
                if owned[b] == Provision then provisioning - {b} else provisioning, {b}, all)
  {
    assert owned[b] == Observe <==> b in Of(owned, Observe);
    assert Of(owned - {b}, Observe) == Of(owned, Observe) - {b};
    assert owned[b] == Provision <==> b in Of(owned, Provision);
    assert Of(owned - {b}, Provision) == Of(owned, Provision) - {b};
  }

  lemma ReleaseBlock(free: set<Block>, owned: map<Block, Kind>, observing: set<Block>,
                     provisioning: set<Block>, all: set<Block>, b: Block)
    requires Own(free, owned, observing, provisioning, {b}, all)
    ensures Own(free + {b}, owned, observing, provisioning, {}, all)
  {
  }

  // The requests of one send, each with its own block.
  lemma {:induction false} SubmitAll(free: set<Block>, owned: map<Block, Kind>, observing: set<Block>,
                                     provisioning: set<Block>, held: set<Block>, all: set<Block>,
                                     blocks: seq<Block>)
    requires Own(free, owned, observing, provisioning, held, all)
    requires Distinct(blocks) && SetOf(blocks) <= free
    ensures Own(free - SetOf(blocks), HandOver(owned, blocks), observing, provisioning, held, all)
  {
    if blocks == [] {
      assert free - SetOf(blocks) == free;
    } else {
      var init, last := blocks[..|blocks| - 1], blocks[|blocks| - 1];
      assert blocks == init + [last];
      SubmitAll(free, owned, observing, provisioning, held, all, init);
      Submit(free - SetOf(init), HandOver(owned, init), observing, provisioning, held, all, last, Telemetry);
      assert free - SetOf(init) - {last} == free - SetOf(blocks);
    }
  }

  lemma RequestKeeps(c: Config, s: State, kind: Kind, call: RequestCall, observing: set<Block>,
                     provisioning: set<Block>, held: set<Block>, all: set<Block>)
    requires Owns(s, observing, provisioning, held, all) && PlainKind(kind)
    ensures Owns(Request(c, s, kind, call), observing, provisioning, held, all)
  {
    if Granted(c, s, call).Some? {
      Submit(s.free, s.owned, observing, provisioning, held, all, Granted(c, s, call).value, kind);
    }
  }

  lemma {:induction false} RequestsKeep(c: Config, s: State, submissions: seq<Submission>, observing: set<Block>,
                                        provisioning: set<Block>, held: set<Block>, all: set<Block>)
    requires Owns(s, observing, provisioning, held, all) && Plain(submissions)
    ensures Owns(Requests(c, s, submissions), observing, provisioning, held, all)
    ensures Requests(c, s, submissions).phase == s.phase
    ensures Requests(c, s, submissions).observation == s.observation
    decreases |submissions|
  {
    if submissions != [] {
      RequestKeeps(c, s, submissions[0].kind, submissions[0].call, observing, provisioning, held, all);
      RequestsKeep(c, Submitted(c, s, submissions[0]), submissions[1..], observing, provisioning, held, all);
    }
  }

  lemma TimeseriesKeeps(c: Config, s: State, ts: seq<TimeseriesText.Record>, hints: seq<Block>, accept: seq<bool>,
                        observing: set<Block>, provisioning: set<Block>, all: set<Block>)
    requires Owns(s, observing, provisioning, {}, all) && all == AllBlocks(c.size)
    ensures Owns(Timeseries(c, s, ts, hints, accept).0, observing, provisioning, {}, all)
    ensures var r := Timeseries(c, s, ts, hints, accept).0; r.phase == s.phase && r.observation == s.observation
  {
    var plan := Batching.UncheckedPlan(ts, c.cap, |s.free|);
    if Active(s.phase) && plan.Planned? {
      Batching.UncheckedRunsOut(ts, c.cap, |s.free|);
      Batching.PlanIsSplit(ts, c.cap, |s.free|);
      BatchesKeep(c, s, |plan.batches|, hints, accept, observing, provisioning, all);
    }
  }

  lemma BatchesKeep(c: Config, s: State, n: nat, hints: seq<Block>, accept: seq<bool>,
                    observing: set<Block>, provisioning: set<Block>, all: set<Block>)
    requires Owns(s, observing, provisioning, {}, all) && all == AllBlocks(c.size) && n <= |s.free|
    ensures Owns(Batches(c, s, n, hints, accept).0, observing, provisioning, {}, all)
  {
    var k := Reached(TelemetryFits(c, s), accept, n);
    ChoicesAreFree(s.free, c.size, hints, n);
    var blocks := Choices(s.free, c.size, hints, n);
    assert SetOf(blocks[..k]) <= SetOf(blocks);
    SubmitAll(s.free, s.owned, observing, provisioning, {}, all, blocks[..k]);
  }

  // The observe request replaces the observation. observing': the observe requests afterwards.
  lemma ObservedKeeps(c: Config, s: State, call: RequestCall, observing: set<Block>,
                      provisioning: set<Block>, held: set<Block>, all: set<Block>)
    returns (observing': set<Block>)
    requires Owns(s, observing, provisioning, held, all)
    ensures Owns(Observed(c, s, call), observing', provisioning, held, all)
    ensures observing == {} ==> observing' == Just(Observed(c, s, call).observation)
  {
    observing' := observing;
    if Granted(c, s, call).Some? {
      observing' := observing + {Granted(c, s, call).value};
      Submit(s.free, s.owned, observing, provisioning, held, all, Granted(c, s, call).value, Observe);
    }
  }

  lemma SubscribedKeeps(c: Config, s: State, link: Link, observing: set<Block>, held: set<Block>, all: set<Block>)
    returns (observing': set<Block>)
    requires Owns(s, observing, {}, held, all) && Plain(link.startup)
    ensures Owns(Subscribed(c, s, link), observing', {}, held, all)
    ensures observing == {} ==> observing' == Just(Subscribed(c, s, link).observation)
  {
    hide Own;
    RequestsKeep(c, s, link.startup, observing, {}, held, all);
    observing' := ObservedKeeps(c, Requests(c, s, link.startup), link.observe, observing, {}, held, all);
  }

  // If the observation was the only observe request, and there was none where the source asserts
  // it, then it still is.
  ghost predicate StaysSole(s: State, observing: set<Block>, asserted: bool, r: State, observing': set<Block>) {
    observing == Just(s.observation) && (asserted ==> s.observation == None) ==> observing' == Just(r.observation)
  }

  lemma LaunchedKeeps(c: Config, s: State, link: Link, observing: set<Block>, all: set<Block>)
    returns (observing': set<Block>, waiting: Option<Block>)
    requires Owns(s, observing, {}, {}, all) && Plain(link.startup)
    requires s.phase == Connecting && link.socket.Opened?
    ensures Resting(Launched(c, s, link), observing', waiting, all)
    ensures StaysSole(s, observing, Reaches(c, s, link), Launched(c, s, link), observing')
  {
    observing', waiting := observing, None;
    if c.dtls || s.token {
      observing' := SubscribedKeeps(c, s, link, observing, {}, all);
    } else if !c.provisioning {
      observing' := SubscribedKeeps(c, s.(token := true), link, observing, {}, all);
    } else if link.provision.TokenStored? {
      observing' := SubscribedKeeps(c, Emit(s.(token := true), ProvisionedEvent), link, observing, {}, all);
    } else if link.provision.TokenRequested? {
      waiting := Granted(c, s, link.provision.call);
      if waiting.Some? {
        Submit(s.free, s.owned, observing, {}, {}, all, waiting.value, Provision);
        assert {} + {waiting.value} == {waiting.value};
      }
    }
  }

  lemma ConnectKeeps(c: Config, s: State, link: Link, observing: set<Block>, waiting: Option<Block>, all: set<Block>)
    returns (observing': set<Block>, waiting': Option<Block>)
    requires Resting(s, observing, waiting, all) && Plain(link.startup)
    ensures Resting(Connect(c, s, link).0, observing', waiting', all)
    ensures StaysSole(s, observing, Attempts(c, s, CallConnect(link)), Connect(c, s, link).0, observing')
    ensures s.phase != Disconnected ==> waiting' == waiting
  {
    hide Own;
    observing', waiting' := observing, waiting;
    if s.phase == Disconnected && link.socket.Opened? {
      var fd := link.socket.fd;
      observing', waiting' :=
        LaunchedKeeps(c, s.(phase := Connecting, socket := fd, open := s.open + {fd}), link, observing, all);
    }
  }

  lemma InitializeKeeps(c: Config, s: State, configured: bool, coapStarted: bool, link: Link,
                        observing: set<Block>, waiting: Option<Block>, all: set<Block>)
    returns (observing': set<Block>, waiting': Option<Block>)
    requires Resting(s, observing, waiting, all) && Plain(link.startup)
    ensures Resting(Initialize(c, s, configured, coapStarted, link).0, observing', waiting', all)
    ensures StaysSole(s, observing, Attempts(c, s, CallInit(configured, coapStarted, link)),
                      Initialize(c, s, configured, coapStarted, link).0, observing')
    ensures s.phase != Init ==> waiting' == waiting
  {
    hide Own;
    observing', waiting' := observing, waiting;
    if s.phase == Init && s.socket < 0 && configured && coapStarted && c.connectOnInit {
      observing', waiting' := ConnectKeeps(c, s.(phase := Disconnected), link, observing, waiting, all);
    }
  }

  lemma ResumeKeeps(c: Config, s: State, link: Link, observing: set<Block>, waiting: Option<Block>, all: set<Block>)
    returns (observing': set<Block>)
    requires Resting(s, observing, waiting, all)
    ensures Resting(Resume(c, s, link).0, observing', waiting, all)
    ensures StaysSole(s, observing, Attempts(c, s, CallResume(link)), Resume(c, s, link).0, observing')
  {
    observing' := observing;
    if s.phase == Suspended && c.closeOnSuspend && link.socket.Opened? {
      observing' := ObservedKeeps(c, s, link.observe, observing, {}, {}, all);
    }
  }

  lemma UnsubscribedKeeps(s: State, cancelled: bool, observing: set<Block>, provisioning: set<Block>, all: set<Block>)
    returns (observing': set<Block>)
    requires Owns(s, observing, provisioning, {}, all)
    ensures Owns(Unsubscribed(s, cancelled), observing', provisioning, {}, all)
    ensures Unsubscribed(s, cancelled).phase == s.phase
    ensures StaysSole(s, observing, false, Unsubscribed(s, cancelled), observing')
  {
    observing' := observing;
    if s.observation.Some? && cancelled {
      observing' := LastNotificationKeeps(s, s.observation.value, observing, provisioning, all);
    }
  }

  // The last callback of an observe request, current or not, clears the observation.
  lemma LastNotificationKeeps(s: State, b: Block, observing: set<Block>, provisioning: set<Block>, all: set<Block>)
    returns (observing': set<Block>)
    requires Owns(s, observing, provisioning, {}, all) && b in observing
    ensures Owns(Release(TakeBack(s, b).(observation := None), b), observing', provisioning, {}, all)
    ensures observing == {b} ==> observing' == {}
  {
    assert b in Of(s.owned, Observe);
    observing' := observing - {b};
    TakeBackBlock(s.free, s.owned, observing, provisioning, {}, all, b);
    ReleaseBlock(s.free, s.owned - {b}, observing', provisioning, all, b);
  }

  // The assertion at the end of the notification callback: the request is the observation.
  lemma NotifiedIsObservation(s: State, b: Block)
    requires SoleObservation(s) && b in s.owned && s.owned[b] == Observe
    ensures s.observation == Some(b)
  {
    assert b in Of(s.owned, Observe);
  }

  lemma NotificationKeeps(c: Config, s: State, b: Block, final: bool, followUps: seq<Submission>,
                          observing: set<Block>, waiting: Option<Block>, all: set<Block>)
    returns (observing': set<Block>)
    requires Resting(s, observing, waiting, all) && Possible(c, s, OnNotification(b, final, followUps))
    ensures Resting(Perform(c, s, OnNotification(b, final, followUps)).0, observing', waiting, all)
    ensures StaysSole(s, observing, false, Perform(c, s, OnNotification(b, final, followUps)).0, observing')
  {
    assert b in Of(s.owned, Observe);
    observing' := observing;
    if final {
      observing' := LastNotificationKeeps(s, b, observing, Just(waiting), all);
    } else {
      RequestsKeep(c, s, followUps, observing, Just(waiting), {}, all);
    }
  }

  lemma ResponseKeeps(c: Config, s: State, b: Block, last: bool, timeUpdate: bool, followUps: seq<Submission>,
                      observing: set<Block>, waiting: Option<Block>, all: set<Block>)
    requires Resting(s, observing, waiting, all) && Possible(c, s, OnResponse(b, last, timeUpdate, followUps))
    ensures var r := Perform(c, s, OnResponse(b, last, timeUpdate, followUps)).0;
            Resting(r, observing, waiting, all) && r.observation == s.observation
  {
    var taken := if last then TakeBack(s, b) else s;
    var told := if timeUpdate then Emit(taken, TimeUpdateEvent) else taken;
    if last {
      TakeBackBlock(s.free, s.owned, observing, Just(waiting), {}, all, b);
      RequestsKeep(c, told, followUps, observing, Just(waiting), {b}, all);
      var sent := Requests(c, told, followUps);
      ReleaseBlock(sent.free, sent.owned, observing, Just(waiting), all, b);
    } else {
      RequestsKeep(c, told, followUps, observing, Just(waiting), {}, all);
    }
  }

  lemma ProvisionedKeeps(c: Config, s: State, b: Block, granted: bool, link: Link,
                         observing: set<Block>, waiting: Option<Block>, all: set<Block>)
    returns (observing': set<Block>)
    requires Resting(s, observing, waiting, all) && Possible(c, s, OnProvisioned(b, granted, link))
    ensures Resting(Perform(c, s, OnProvisioned(b, granted, link)).0, observing', None, all)
    ensures StaysSole(s, observing, granted, Perform(c, s, OnProvisioned(b, granted, link)).0, observing')
  {
    assert b in Of(s.owned, Provision);
    TakeBackBlock(s.free, s.owned, observing, {b}, {}, all, b);
    assert {b} - {b} == {};
    observing' := observing;
    var taken := TakeBack(s, b);
    if granted {
      var told := Emit(taken.(token := true), ProvisionedEvent);
      observing' := SubscribedKeeps(c, told, link, observing, {b}, all);
      var launched := Subscribed(c, told, link);
      ReleaseBlock(launched.free, launched.owned, observing', {}, all, b);
    } else {
      ReleaseBlock(taken.free, taken.owned, observing, {}, all, b);
    }
  }

  lemma DisconnectKeeps(c: Config, s: State, cancelled: bool, observing: set<Block>, waiting: Option<Block>,
                        all: set<Block>)
    returns (observing': set<Block>)
    requires Resting(s, observing, waiting, all)
    ensures Resting(Disconnect(s, cancelled).0, observing', waiting, all)
    ensures StaysSole(s, observing, false, Disconnect(s, cancelled).0, observing')
  {
    hide Own;
    observing' := observing;
    if s.phase == Connected || s.phase == Suspended {
      observing' := UnsubscribedKeeps(s, cancelled, observing, Just(waiting), all);
    }
  }

  lemma SuspendKeeps(c: Config, s: State, cancelled: bool, observing: set<Block>, waiting: Option<Block>,
                     all: set<Block>)
    returns (observing': set<Block>)
    requires Resting(s, observing, waiting, all)
    ensures Resting(Suspend(c, s, cancelled).0, observing', waiting, all)
    ensures StaysSole(s, observing, false, Suspend(c, s, cancelled).0, observing')
  {
    hide Own;
    observing' := observing;
    if s.phase == Connected && c.closeOnSuspend {
      observing' := UnsubscribedKeeps(s, cancelled, observing, Just(waiting), all);
    }
  }

  // What a step from s to r keeps.
  ghost predicate Rests(c: Config, s: State, observing: set<Block>, asserted: bool, r: State,
                        observing': set<Block>, waiting': Option<Block>) {
    Resting(r, observing', waiting', AllBlocks(c.size)) && StaysSole(s, observing, asserted, r, observing')
  }

  lemma CallbackRests(c: Config, s: State, a: Action, observing: set<Block>, waiting: Option<Block>)
    returns (observing': set<Block>, waiting': Option<Block>)
    requires Resting(s, observing, waiting, AllBlocks(c.size)) && Possible(c, s, a)
    requires a.OnNotification? || a.OnResponse? || a.OnProvisioned?
    ensures Rests(c, s, observing, Attempts(c, s, a), Perform(c, s, a).0, observing', waiting')
    ensures !a.OnProvisioned? ==> waiting' == waiting
  {
    hide Own;
    var all := AllBlocks(c.size);
    observing', waiting' := observing, waiting;
    match a
    case OnNotification(b, final, followUps) =>
      observing' := NotificationKeeps(c, s, b, final, followUps, observing, waiting, all);
    case OnResponse(b, last, timeUpdate, followUps) =>
      ResponseKeeps(c, s, b, last, timeUpdate, followUps, observing, waiting, all);
    case OnProvisioned(b, granted, link) =>
      observing' := ProvisionedKeeps(c, s, b, granted, link, observing, waiting, all);
      waiting' := None;
    case _ =>
  }

  lemma CloseRests(c: Config, s: State, a: Action, observing: set<Block>, waiting: Option<Block>)
    returns (observing': set<Block>)
    requires Resting(s, observing, waiting, AllBlocks(c.size))
    requires a.CallDisconnect? || a.CallSuspend?
    ensures Rests(c, s, observing, false, Perform(c, s, a).0, observing', waiting)
  {
    hide Own;
    match a
    case CallDisconnect(cancelled) =>
      observing' := DisconnectKeeps(c, s, cancelled, observing, waiting, AllBlocks(c.size));
    case CallSuspend(cancelled) =>
      observing' := SuspendKeeps(c, s, cancelled, observing, waiting, AllBlocks(c.size));
  }

  lemma SendRests(c: Config, s: State, kind: Kind, call: RequestCall, observing: set<Block>, waiting: Option<Block>)
    requires Resting(s, observing, waiting, AllBlocks(c.size)) && PlainKind(kind)
    ensures Rests(c, s, observing, false, Perform(c, s, CallSend(kind, call)).0, observing, waiting)
  {
    hide Own;
    RequestKeeps(c, s, kind, call, observing, Just(waiting), {}, AllBlocks(c.size));
  }

  lemma TimeseriesRests(c: Config, s: State, ts: seq<TimeseriesText.Record>, hints: seq<Block>, accept: seq<bool>,
                        observing: set<Block>, waiting: Option<Block>)
    requires Resting(s, observing, waiting, AllBlocks(c.size))
    ensures Rests(c, s, observing, false, Perform(c, s, CallSendTimeseries(ts, hints, accept)).0, observing, waiting)
  {
    hide Own;
    TimeseriesKeeps(c, s, ts, hints, accept, observing, Just(waiting), AllBlocks(c.size));
    assert Perform(c, s, CallSendTimeseries(ts, hints, accept)) == Timeseries(c, s, ts, hints, accept);
  }

  lemma AttemptRests(c: Config, s: State, a: Action, observing: set<Block>, waiting: Option<Block>)
    returns (observing': set<Block>, waiting': Option<Block>)
    requires Resting(s, observing, waiting, AllBlocks(c.size)) && Possible(c, s, a)
    requires a.CallInit? || a.CallConnect? || a.CallResume?
    ensures Rests(c, s, observing, Attempts(c, s, a), Perform(c, s, a).0, observing', waiting')
    ensures s.phase == Connecting ==> waiting' == waiting
  {
    hide Own;
    var all := AllBlocks(c.size);
    observing', waiting' := observing, waiting;
    match a
    case CallInit(configured, coapStarted, link) =>
      observing', waiting' := InitializeKeeps(c, s, configured, coapStarted, link, observing, waiting, all);
    case CallConnect(link) => observing', waiting' := ConnectKeeps(c, s, link, observing, waiting, all);
    case CallResume(link) => observing' := ResumeKeeps(c, s, link, observing, waiting, all);
    case _ =>
  }

  // Every step keeps every block in exactly one place.
  lemma StepRests(c: Config, s: State, a: Action, observing: set<Block>, waiting: Option<Block>)
    returns (observing': set<Block>, waiting': Option<Block>)
    requires Resting(s, observing, waiting, AllBlocks(c.size)) && Possible(c, s, a)
    ensures Rests(c, s, observing, Attempts(c, s, a), Perform(c, s, a).0, observing', waiting')
    ensures s.phase == Connecting && !a.OnProvisioned? ==> waiting' == waiting
  {
    hide Perform, Resting, Own;
    observing', waiting' := observing, waiting;
    if a.OnNotification? || a.OnResponse? || a.OnProvisioned? {
      observing', waiting' := CallbackRests(c, s, a, observing, waiting);
    } else if a.CallInit? || a.CallConnect? || a.CallResume? {
      observing', waiting' := AttemptRests(c, s, a, observing, waiting);
    } else if a.CallDisconnect? || a.CallSuspend? {
      observing' := CloseRests(c, s, a, observing, waiting);
    } else if a.CallSend? {
      SendRests(c, s, a.kind, a.call, observing, waiting);
    } else {
      TimeseriesRests(c, s, a.ts, a.hints, a.accept, observing, waiting);
    }
  }

  // That holds in every run, and as long as no connection attempt subscribes while an observation
  // exists, the observation stays the only observe request.
  lemma StepKeepsOwnership(c: Config, s: State, a: Action)
    requires OwnershipInv(c, s) && Possible(c, s, a)
    ensures OwnershipInv(c, Perform(c, s, a).0)
    ensures SoleObservation(s) && AssertionHolds(c, s, a) ==> SoleObservation(Perform(c, s, a).0)
  {
    var waiting := InvIsResting(c, s);
    var observing;
    observing, waiting := StepRests(c, s, a, Of(s.owned, Observe), waiting);
    RestingIsInv(c, Perform(c, s, a).0, observing, waiting);
  }
}
