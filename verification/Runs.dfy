/** Whole runs: any sequence of API calls and CoAP callbacks that the environment allows. */
module Runs {
  import opened Wrappers
  import opened RequestPool
  import opened Lifecycle
  import opened Ownership
  import opened Sessions
  import opened Subscriptions

  ghost function Run(c: Config, s: State, actions: seq<Action>): State
    decreases |actions|
  {
    if actions == [] then s else Run(c, Perform(c, s, actions[0]).0, actions[1..])
  }

  ghost predicate Feasible(c: Config, s: State, actions: seq<Action>)
    decreases |actions|
  {
    actions == [] ||
    (Possible(c, s, actions[0]) && Feasible(c, Perform(c, s, actions[0]).0, actions[1..]))
  }

  // The source's assertion about the observation holds at every step of the run.
  ghost predicate AssertionsHold(c: Config, s: State, actions: seq<Action>)
    decreases |actions|
  {
    actions == [] ||
    (AssertionHolds(c, s, actions[0]) && AssertionsHold(c, Perform(c, s, actions[0]).0, actions[1..]))
  }

  predicate AllSynchronous(actions: seq<Action>) {
    forall i :: 0 <= i < |actions| ==> Synchronous(actions[i])
  }

  ghost predicate Inv(c: Config, s: State) {
    OwnershipInv(c, s) && SessionInv(c, s)
  }

  lemma StartIsGood(c: Config)
    ensures Inv(c, Start(c)) && ObservationInv(c, Start(c)) && Quiet(c, Start(c)) && SocketsExact(c, Start(c))
  {
    assert Of(map[], Observe) == {} && Of(map[], Provision) == {};
  }

  lemma ProvisioningMeansConnecting(c: Config, s: State, a: Action)
    requires OwnershipInv(c, s) && Possible(c, s, a) && a.OnProvisioned?
    ensures s.phase == Connecting
  {
    assert a.block in Of(s.owned, Provision);
  }

  lemma StepKeepsInv(c: Config, s: State, a: Action)
    requires Inv(c, s) && Possible(c, s, a)
    ensures Inv(c, Perform(c, s, a).0)
    ensures SocketsExact(c, Perform(c, s, a).0) <==> SocketsExact(c, s) && !LeavesSocket(c, s, a)
  {
    if a.OnProvisioned? {
      ProvisioningMeansConnecting(c, s, a);
    }
    hide OwnershipInv, SessionInv, Perform, Possible;
    StepKeepsOwnership(c, s, a);
    StepKept(c, s, a);
  }

  lemma StepKeepsObservation(c: Config, s: State, a: Action)
    requires Inv(c, s) && ObservationInv(c, s) && Possible(c, s, a) && AssertionHolds(c, s, a)
    ensures ObservationInv(c, Perform(c, s, a).0) && Settled(c, s, a, Perform(c, s, a).0)
  {
    if a.OnProvisioned? {
      ProvisioningMeansConnecting(c, s, a);
    }
    hide OwnershipInv, SoleObservation, Fits, Perform, Possible;
    StepKeepsOwnership(c, s, a);
    StepSettles(c, s, a);
  }

  // Whatever a run does, whether the source's assertions hold or are compiled out: every block is in
  // one place, the socket is open when it is needed, and the event log follows its language.
  lemma {:induction false} RunKeepsInv(c: Config, s: State, actions: seq<Action>)
    requires Inv(c, s) && Feasible(c, s, actions)
    ensures Inv(c, Run(c, s, actions))
    decreases |actions|
  {
    hide Inv, Possible, Perform;
    if actions != [] {
      StepKeepsInv(c, s, actions[0]);
      RunKeepsInv(c, Perform(c, s, actions[0]).0, actions[1..]);
    }
  }

  // In a run in which the assertion holds, the observation is the one observe request in flight.
  lemma {:induction false} RunKeepsObservation(c: Config, s: State, actions: seq<Action>)
    requires Inv(c, s) && ObservationInv(c, s) && Feasible(c, s, actions) && AssertionsHold(c, s, actions)
    ensures ObservationInv(c, Run(c, s, actions))
    decreases |actions|
  {
    hide Inv, ObservationInv, Possible, Perform, AssertionHolds;
    if actions != [] {
      StepKeepsInv(c, s, actions[0]);
      StepKeepsObservation(c, s, actions[0]);
      RunKeepsObservation(c, Perform(c, s, actions[0]).0, actions[1..]);
    }
  }

  lemma SynchronousStep(c: Config, s: State, a: Action)
    requires Inv(c, s) && ObservationInv(c, s) && Quiet(c, s) && Possible(c, s, a) && Synchronous(a)
    ensures AssertionHolds(c, s, a)
    ensures Inv(c, Perform(c, s, a).0) && ObservationInv(c, Perform(c, s, a).0) && Quiet(c, Perform(c, s, a).0)
  {
    if a.OnProvisioned? {
      ProvisioningMeansConnecting(c, s, a);
    }
    hide OwnershipInv, SessionInv, SoleObservation, Fits, Quiet;
    hide Possible, Perform, AssertionHolds, Settled, Synchronous;
    QuietMeansAssertionHolds(c, s, a);
    StepKeepsInv(c, s, a);
    StepKeepsObservation(c, s, a);
    SynchronousStaysQuiet(c, s, a, Perform(c, s, a).0);
  }

  // With cancellations delivered synchronously, the source's assertion cannot fail.
  lemma {:induction false} SynchronousRunAsserts(c: Config, s: State, actions: seq<Action>)
    requires Inv(c, s) && ObservationInv(c, s) && Quiet(c, s)
    requires Feasible(c, s, actions) && AllSynchronous(actions)
    ensures AssertionsHold(c, s, actions) && Quiet(c, Run(c, s, actions))
    decreases |actions|
  {
    hide Inv, ObservationInv, Quiet, Possible, Perform, AssertionHolds, Synchronous;
    if actions != [] {
      var a := actions[0];
      SynchronousStep(c, s, a);
      SynchronousRunAsserts(c, Perform(c, s, a).0, actions[1..]);
    }
  }

  // No step of the run is a connection attempt that fails for want of a token.
  ghost predicate NoSocketLeft(c: Config, s: State, actions: seq<Action>)
    decreases |actions|
  {
    actions == [] ||
    (!LeavesSocket(c, s, actions[0]) && NoSocketLeft(c, Perform(c, s, actions[0]).0, actions[1..]))
  }

  // The open sockets are the one in use, or none, exactly if no such attempt was made: what one
  // attempt leaves open is never closed again.
  lemma {:induction false} RunSocketsExactIff(c: Config, s: State, actions: seq<Action>)
    requires Inv(c, s) && Feasible(c, s, actions)
    ensures SocketsExact(c, Run(c, s, actions)) <==> SocketsExact(c, s) && NoSocketLeft(c, s, actions)
    decreases |actions|
  {
    hide Inv, SocketsExact, LeavesSocket, Possible, Perform;
    if actions != [] {
      StepKeepsInv(c, s, actions[0]);
      RunSocketsExactIff(c, Perform(c, s, actions[0]).0, actions[1..]);
    }
  }

  // Builds that never wait for a token: provisioning is off, or DTLS makes it unnecessary.
  lemma {:induction false} TokenBuildsLeaveNoSocket(c: Config, s: State, actions: seq<Action>)
    requires c.dtls || !c.provisioning
    ensures NoSocketLeft(c, s, actions)
    decreases |actions|
  {
    if actions != [] {
      TokenBuildsLeaveNoSocket(c, Perform(c, s, actions[0]).0, actions[1..]);
    }
  }

  // Everything about a run from power-up.
  lemma EveryRun(c: Config, actions: seq<Action>)
    requires Feasible(c, Start(c), actions)
    ensures Inv(c, Run(c, Start(c), actions))
    ensures SocketsExact(c, Run(c, Start(c), actions)) <==> NoSocketLeft(c, Start(c), actions)
    ensures c.dtls || !c.provisioning ==> SocketsExact(c, Run(c, Start(c), actions))
    ensures AllSynchronous(actions) ==> AssertionsHold(c, Start(c), actions)
    ensures AssertionsHold(c, Start(c), actions) ==> ObservationInv(c, Run(c, Start(c), actions))
  {
    hide Inv, ObservationInv, SocketsExact, Quiet, Feasible;
    StartIsGood(c);
    RunKeepsInv(c, Start(c), actions);
    RunSocketsExactIff(c, Start(c), actions);
    if c.dtls || !c.provisioning {
      TokenBuildsLeaveNoSocket(c, Start(c), actions);
    }
    if AllSynchronous(actions) {
      SynchronousRunAsserts(c, Start(c), actions);
    }
    if AssertionsHold(c, Start(c), actions) {
      RunKeepsObservation(c, Start(c), actions);
    }
  }

  const SENT := RequestCall(0, true, true)

  // Two connection attempts that fail before the token request: both sockets stay open.
  lemma FailedAttemptsLeaveSockets()
    ensures var c := Config(2, false, true, false, true, 256, 64, "token");
            var first := Link(Opened(0), SettingsFailed, [], SENT);
            var again := Link(Opened(1), SettingsFailed, [], SENT);
            var run := [CallInit(true, true, first), CallConnect(again)];
            && Feasible(c, Start(c), run)
            && Run(c, Start(c), run).phase == Disconnected && Run(c, Start(c), run).open == {0, 1}
  {
    var c := Config(2, false, true, false, true, 256, 64, "token");
    var first := Link(Opened(0), SettingsFailed, [], SENT);
    var again := Link(Opened(1), SettingsFailed, [], SENT);
    var run := [CallInit(true, true, first), CallConnect(again)];
    var s1 := Perform(c, Start(c), run[0]).0;
    assert s1.phase == Disconnected && s1.open == {0};
    assert run[1..][1..] == [];
    assert Feasible(c, s1, run[1..]);
    assert Run(c, s1, run[1..]) == Perform(c, s1, run[1]).0;
  }

  // The application's view of any run: its last event about the connection tells the phase, unless
  // the client is connecting.
  lemma RunLogTellsPhase(c: Config, actions: seq<Action>)
    requires Feasible(c, Start(c), actions)
    ensures var r := Run(c, Start(c), actions);
            var trace := Relevant(r.log);
            && (forall i :: 0 <= i < |trace| ==> InOrder(trace, i))
            && (r.phase != Connecting && r.phase != Init ==>
                  EventOf(r.phase) == if trace == [] then DisconnectedEvent else trace[|trace| - 1])
  {
    hide Run, Feasible, OwnershipInv, SocketsOpen;
    EveryRun(c, actions);
    LanguageMeaning(Run(c, Start(c), actions).log);
  }

  // Between calls, the free blocks and those in flight make up the slab.
  lemma BlocksAddUp(c: Config, s: State)
    requires OwnershipInv(c, s)
    ensures |s.free| + |s.owned| == c.size
    ensures SoleObservation(s) ==> |Of(s.owned, Observe)| == if s.observation.Some? then 1 else 0
  {
    assert s.free + s.owned.Keys + {} == AllBlocks(c.size);
    assert s.free + s.owned.Keys == AllBlocks(c.size);
    assert |s.free + s.owned.Keys| == |s.free| + |s.owned.Keys|;
    assert |s.owned.Keys| == |s.owned|;
  }

  // Whether a closed session waits for its observation's last callback after the run.
  ghost predicate Pending(c: Config, s: State, actions: seq<Action>, pending: bool)
    decreases |actions|
  {
    if actions == [] then pending
    else Pending(c, Perform(c, s, actions[0]).0, actions[1..], PendingAfter(c, s, actions[0], pending))
  }

  lemma {:induction false} PendingMeansNotQuiet(c: Config, s: State, actions: seq<Action>)
    requires Inv(c, s) && ObservationInv(c, s) && Feasible(c, s, actions) && AssertionsHold(c, s, actions)
    ensures !Quiet(c, Run(c, s, actions)) <==> Pending(c, s, actions, !Quiet(c, s))
    decreases |actions|
  {
    hide Inv, ObservationInv, Quiet, Fits, Possible, Perform, AssertionHolds, PendingAfter;
    if actions != [] {
      StepKeepsInv(c, s, actions[0]);
      StepKeepsObservation(c, s, actions[0]);
      PendingMeansNotQuiet(c, Perform(c, s, actions[0]).0, actions[1..]);
    }
  }

  // The source's assertion, after any run in which it held so far: it fails exactly for a connection
  // attempt that subscribes while a closed session still waits for its observation's last callback.
  lemma AssertionFailsIff(c: Config, actions: seq<Action>, a: Action)
    requires Feasible(c, Start(c), actions) && AssertionsHold(c, Start(c), actions)
    requires Possible(c, Run(c, Start(c), actions), a)
    ensures !AssertionHolds(c, Run(c, Start(c), actions), a) <==>
            Attempts(c, Run(c, Start(c), actions), a) && Pending(c, Start(c), actions, false)
  {
    hide Run, Feasible, AssertionsHold, Pending, OwnershipInv, SessionInv, SoleObservation;
    EveryRun(c, actions);
    StartIsGood(c);
    PendingMeansNotQuiet(c, Start(c), actions);
    if a.OnProvisioned? {
      ProvisioningMeansConnecting(c, Run(c, Start(c), actions), a);
    }
  }

  // With a late cancellation the assertion does fail: connect, disconnect, connect.
  lemma LateCancellationTripsAssertion()
    ensures var c := Config(2, true, false, false, true, 256, 64, "token");
            var first := Link(Opened(0), SettingsFailed, [], SENT);
            var again := Link(Opened(1), SettingsFailed, [], SENT);
            var run := [CallInit(true, true, first), CallDisconnect(false), CallConnect(again)];
            Feasible(c, Start(c), run) && !AssertionsHold(c, Start(c), run)
  {
    var c := Config(2, true, false, false, true, 256, 64, "token");
    var first := Link(Opened(0), SettingsFailed, [], SENT);
    var again := Link(Opened(1), SettingsFailed, [], SENT);
    var run := [CallInit(true, true, first), CallDisconnect(false), CallConnect(again)];
    var s1 := Perform(c, Start(c), run[0]).0;
    assert s1.phase == Connected && s1.observation == Some(0) && s1.open == {0};
    var s2 := Perform(c, s1, run[1]).0;
    assert s2.phase == Disconnected && s2.observation == Some(0) && s2.open == {};
    assert !AssertionHolds(c, s2, run[2]);
    assert run[1..][1..] == run[2..] && run[2..][1..] == [];
    hide Perform;
    assert Feasible(c, s2, run[2..]);
    assert Feasible(c, s1, run[1..]) && !AssertionsHold(c, s1, run[1..]);
  }

  // While connecting, every lifecycle call is refused and changes nothing.
  lemma ConnectingRefusesCalls(c: Config, s: State, a: Action)
    requires s.phase == Connecting
    requires a.CallInit? || a.CallConnect? || a.CallDisconnect? || a.CallSuspend? || a.CallResume?
    ensures Perform(c, s, a).0 == s && Perform(c, s, a).1.Err?
  {
  }

  // Whatever is called and whatever arrives, the client is still connecting.
  ghost predicate Stranded(c: Config, s: State) {
    forall actions :: Feasible(c, s, actions) ==> Run(c, s, actions).phase == Connecting
  }

  // A connecting client is stranded exactly if no provisioning request is in flight.
  lemma StrandedIff(c: Config, s: State)
    requires Inv(c, s) && s.phase == Connecting
    ensures Stranded(c, s) <==> Of(s.owned, Provision) == {}
  {
    hide Inv, Run, Feasible;
    if Of(s.owned, Provision) == {} {
      forall actions | Feasible(c, s, actions) ensures Run(c, s, actions).phase == Connecting {
        NoProvisioningStrands(c, s, actions);
      }
    } else {
      var b :| b in Of(s.owned, Provision);
      TokenArrives(c, s, b);
    }
  }

  lemma TokenArrives(c: Config, s: State, b: Block)
    requires b in s.owned && s.owned[b] == Provision
    ensures exists actions :: Feasible(c, s, actions) && Run(c, s, actions).phase != Connecting
  {
    var link := Link(Unresolved, SettingsFailed, [], SENT);
    var actions := [OnProvisioned(b, true, link)];
    var told := Emit(TakeBack(s, b).(token := true), ProvisionedEvent);
    assert Subscribed(c, told, link) == Observed(c, told, SENT);
    assert actions[1..] == [];
    assert Feasible(c, s, actions);
    assert Run(c, s, actions) == Perform(c, s, actions[0]).0;
  }

  lemma {:induction false} NoProvisioningStrands(c: Config, s: State, actions: seq<Action>)
    requires s.phase == Connecting && Of(s.owned, Provision) == {}
    requires Inv(c, s) && Feasible(c, s, actions)
    ensures Run(c, s, actions).phase == Connecting
    decreases |actions|
  {
    hide Inv, Perform, Possible;
    if actions != [] {
      StillConnecting(c, s, actions[0]);
      StepKeepsInv(c, s, actions[0]);
      NoProvisioningStrands(c, Perform(c, s, actions[0]).0, actions[1..]);
    }
  }

  lemma StillConnecting(c: Config, s: State, a: Action)
    requires s.phase == Connecting && Of(s.owned, Provision) == {} && Inv(c, s) && Possible(c, s, a)
    ensures Perform(c, s, a).0.phase == Connecting && Of(Perform(c, s, a).0.owned, Provision) == {}
  {
    if a.OnProvisioned? {
      NotProvisioned(s.owned, a);
    }
    KeepsConnecting(c, s, a);
    hide SessionInv, Perform, Possible;
    var observing, waiting := StepRests(c, s, a, Of(s.owned, Observe), None);
  }

  lemma NotProvisioned(owned: map<Block, Kind>, a: Action)
    requires Of(owned, Provision) == {} && a.OnProvisioned?
    ensures !(a.block in owned && owned[a.block] == Provision)
  {
    assert a.block !in Of(owned, Provision);
  }

  lemma KeepsConnecting(c: Config, s: State, a: Action)
    requires s.phase == Connecting && !a.OnProvisioned?
    ensures Perform(c, s, a).0.phase == Connecting
  {
    match a
    case CallSendTimeseries(ts, hints, accept) => TimeseriesSession(c, s, ts, hints, accept);
    case OnNotification(_, _, followUps) => RequestsKeepSession(c, s, followUps);
    case OnResponse(b, last, timeUpdate, followUps) =>
      var taken := if last then TakeBack(s, b) else s;
      RequestsKeepSession(c, if timeUpdate then Emit(taken, TimeUpdateEvent) else taken, followUps);
    case _ =>
  }

  const TOKEN_LINK := Link(Opened(0), TokenRequested(SENT), [], SENT)
  const REFUSED: seq<Action> := [CallInit(true, true, TOKEN_LINK), OnProvisioned(0, false, TOKEN_LINK)]

  lemma RefusedRun(c: Config)
    requires c == Config(2, false, true, false, true, 256, 64, "token")
    ensures Feasible(c, Start(c), REFUSED)
    ensures Run(c, Start(c), REFUSED).phase == Connecting && Run(c, Start(c), REFUSED).owned == map[]
  {
    var s1 := Perform(c, Start(c), REFUSED[0]).0;
    assert s1.phase == Connecting && s1.owned == map[0 := Provision];
    var s2 := Perform(c, s1, REFUSED[1]).0;
    assert s2.phase == Connecting && s2.owned == map[];
    assert REFUSED[1..][1..] == [];
    hide Perform;
    assert Feasible(c, s1, REFUSED[1..]) && Run(c, s1, REFUSED[1..]) == s2;
  }

  // An error response to the provisioning request strands the client.
  lemma FailedProvisioningStrands()
    ensures var c := Config(2, false, true, false, true, 256, 64, "token");
            Feasible(c, Start(c), REFUSED) && Stranded(c, Run(c, Start(c), REFUSED))
  {
    hide Run, Feasible, Stranded;
    var c := Config(2, false, true, false, true, 256, 64, "token");
    RefusedRun(c);
    EveryRun(c, REFUSED);
    hide Inv;
    assert Of(map[], Provision) == {};
    StrandedIff(c, Run(c, Start(c), REFUSED));
  }
}
