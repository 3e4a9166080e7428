/** Runs from module load to states the conditions of `GatewayCutover` and `GatewayRegister` tell apart. */
module GatewayWitnesses {
  import opened Wrappers
  import opened GatewayMachine
  import opened GatewayRuns
  import opened GatewayCutover
  import opened GatewayRegister

  /** Module load with host 7 selected. */
  const LOADED := State(Fleet(0, None, [], map[], 0), Connection(false, false, false), Eager(0, 0, false),
                        Auth(false, false, false, false), Some(7))

  /** A connect waiting for its token. */
  function Connecting(): State
    ensures StepsTo(LOADED, Connect(true), Connecting())
  {
    LOADED.(fleet := Fleet(1, None, [], map[0 := ConnectToken(1)], 1), conn := Connection(false, true, false))
  }

  /** Its client registered and its hello awaited. */
  function Registered(): State
    ensures StepsTo(Connecting(), ConnectTokenReply(0, true), Registered())
  {
    assert map[0 := ConnectToken(1)] - {0} == map[];
    Connecting().(fleet := Fleet(1, Some(0), [Client(false, 1)], map[1 := ConnectHello(1, 0)], 2))
  }

  /** The connection up. */
  function Up(): State
    ensures StepsTo(Registered(), ConnectHelloReply(1, true), Up())
  {
    assert map[1 := ConnectHello(1, 0)] - {1} == map[];
    Registered().(fleet := Fleet(1, Some(0), [Client(false, 1)], map[], 2), conn := Connection(true, false, false))
  }

  /** A second connect: the first client is closed and dropped, and `connected` still set. */
  function Reconnecting(): State
    ensures StepsTo(Up(), Connect(true), Reconnecting())
  {
    Up().(fleet := Fleet(2, None, [Client(true, 1)], map[2 := ConnectToken(2)], 3),
          conn := Connection(true, true, false))
  }

  /** The second client registered, its hello awaited, and `connected` set from the first. */
  function Reregistered(): State
    ensures StepsTo(Reconnecting(), ConnectTokenReply(2, true), Reregistered())
  {
    assert map[2 := ConnectToken(2)] - {2} == map[];
    Reconnecting().(fleet := Fleet(2, Some(1), [Client(true, 1), Client(false, 3)], map[3 := ConnectHello(2, 1)], 4))
  }

  lemma StatesAreReachable()
    ensures Reachable(Registered()) && Reachable(Up()) && Reachable(Reregistered())
  {
    hide Next, Enabled, StepsTo, IsPath;
    var states := [LOADED, Connecting(), Registered(), Up(), Reconnecting(), Reregistered()];
    var steps := [Connect(true), ConnectTokenReply(0, true), ConnectHelloReply(1, true), Connect(true),
                  ConnectTokenReply(2, true)];
    StepByStep(states, steps);
    StepByStep(states[..4], steps[..3]);
    StepByStep(states[..3], steps[..2]);
    assert IsRun(states, steps) && IsRun(states[..4], steps[..3]) && IsRun(states[..3], steps[..2]);
  }

  /** A reachable state where make before break holds, and one where it does not. */
  lemma CutoversMayBreak()
    ensures Reachable(Up()) && Up().conn.connected && !CanBreak(Up())
    ensures Reachable(Reregistered()) && Reregistered().conn.connected && CanBreak(Reregistered())
  {
    StatesAreReachable();
    MakeBeforeBreakExactly(Up());
    MakeBeforeBreakExactly(Reregistered());
    assert Reregistered().fleet.pending[3] == ConnectHello(2, 1);
  }

  /** From a reachable state with an open client registered, one connect without a url puts it at risk. */
  lemma RegisterMayBeAtRisk()
    ensures Reachable(Registered()) && !AtRisk(Registered())
    ensures AtRisk(Next(Registered(), Connect(false)))
    ensures !AtRisk(Next(Up(), Connect(false)))
  {
    StatesAreReachable();
    ReachableKeepsInv(Registered());
    ReachableKeepsInv(Up());
    AtRiskUnlessOpen(Registered());
    AtRiskUnlessOpen(Up());
    assert Registered().fleet.pending[1].client == 0;
    AtRiskExactly(Registered(), Connect(false));
    AtRiskExactly(Up(), Connect(false));
  }
}
