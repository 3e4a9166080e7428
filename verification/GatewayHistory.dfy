/** The lifecycle's flags over whole runs, told from the steps taken; and the one retry after the gateway
    refuses the device. */
module GatewayHistory {
  import opened Wrappers
  import opened GatewayMachine
  import opened GatewayRuns
  import opened GatewayFields

  type Happening = (State, Step) -> bool

  /** The step taken at i was of one kind, and none from then to n of the other. */
  ghost predicate SetAndKept(states: seq<State>, steps: seq<Step>, sets: Happening, clears: Happening, i: nat, n: nat)
    requires n <= |steps| < |states|
  {
    i < n && sets(states[i], steps[i]) && forall j :: i < j < n ==> !clears(states[j], steps[j])
  }

  /** A step of one kind was taken before n, and none of the other since. */
  ghost predicate Since(states: seq<State>, steps: seq<Step>, sets: Happening, clears: Happening, n: nat)
    requires n <= |steps| < |states|
  {
    exists i: nat :: SetAndKept(states, steps, sets, clears, i, n)
  }

  lemma SinceOneMore(states: seq<State>, steps: seq<Step>, sets: Happening, clears: Happening, n: nat)
    requires n < |steps| < |states|
    ensures Since(states, steps, sets, clears, n + 1) <==>
      sets(states[n], steps[n]) || (Since(states, steps, sets, clears, n) && !clears(states[n], steps[n]))
  {
    if sets(states[n], steps[n]) {
      assert SetAndKept(states, steps, sets, clears, n, n + 1);
    }
    var m := n + 1;
    if i: nat :| SetAndKept(states, steps, sets, clears, i, m) {
      assert i < n ==> SetAndKept(states, steps, sets, clears, i, n);
    }
    if !clears(states[n], steps[n]) && Since(states, steps, sets, clears, n) {
      var i: nat :| SetAndKept(states, steps, sets, clears, i, n);
      assert SetAndKept(states, steps, sets, clears, i, n + 1);
    }
  }

  predicate Ends(s: State, step: Step) { Closes(s, step) || step.Disconnect? }

  predicate Reopens(s: State, step: Step) { Begins(s, step) == Some(true) || Swaps(s, step) }

  predicate Settles(s: State, step: Step) {
    Begins(s, step) == Some(true) || Closes(s, step) || TokenFails(s, step) || GoesUp(s, step) || step.Disconnect?
  }

  predicate Cancels(s: State, step: Step) {
    Begins(s, step) == Some(true) || step.EagerTimer? || GoesUp(s, step) || step.Disconnect?
  }

  predicate IsDisconnect(s: State, step: Step) { step.Disconnect? }

  predicate IsJwtTimer(s: State, step: Step) { step.JwtTimer? }

  predicate EndsCooldown(s: State, step: Step) { step.JwtTimer? || step.Disconnect? }

  ghost predicate FlagsAt(states: seq<State>, steps: seq<Step>, n: nat)
    requires n <= |steps| < |states|
  {
    var s := states[n];
    && s.conn.connected == Since(states, steps, GoesUp, Ends, n)
    && s.conn.connecting == Since(states, steps, Dials, Settles, n)
    && s.conn.closed == Since(states, steps, IsDisconnect, Reopens, n)
    && s.eager.scheduled == Since(states, steps, Schedules, Cancels, n)
    && s.auth.jwtDisabled == Since(states, steps, JwtRefused, IsJwtTimer, n)
    && s.auth.retryTimer == Since(states, steps, JwtRefused, EndsCooldown, n)
    && s.auth.refetchAttempted == Since(states, steps, DeviceRefused, GoesUp, n)
  }

  /** At every point of a run each flag stands exactly when the latest step that wrote it set it. */
  lemma {:induction false} FlagsExactly(states: seq<State>, steps: seq<Step>, n: nat)
    requires IsRun(states, steps) && n < |states|
    ensures FlagsAt(states, steps, n)
  {
    if n > 0 {
      hide Next, Enabled, FleetAs, Since;
      var i := n - 1;
      FlagsExactly(states, steps, i);
      assert StepAt(states, steps, i);
      FieldsExactly(states[i], steps[i]);
      SinceOneMore(states, steps, GoesUp, Ends, i);
      SinceOneMore(states, steps, Dials, Settles, i);
      SinceOneMore(states, steps, IsDisconnect, Reopens, i);
      SinceOneMore(states, steps, Schedules, Cancels, i);
      SinceOneMore(states, steps, JwtRefused, IsJwtTimer, i);
      SinceOneMore(states, steps, JwtRefused, EndsCooldown, i);
      SinceOneMore(states, steps, DeviceRefused, GoesUp, i);
    }
  }

  // ---- The window of eager reconnects ----

  /** When the window was last armed, if nothing has closed it since. */
  function LastArmed(states: seq<State>, steps: seq<Step>, n: nat): Option<int>
    requires n <= |steps| < |states|
  {
    if n == 0 then None
    else if Announces(states[n - 1], steps[n - 1]) then Some(states[n - 1].eager.now)
    else if GoesUp(states[n - 1], steps[n - 1]) then None
    else LastArmed(states, steps, n - 1)
  }

  /** The window is open for three minutes from the latest announcement, or until the connection is up. */
  lemma {:induction false} WindowExactly(states: seq<State>, steps: seq<Step>, n: nat)
    requires IsRun(states, steps) && n < |states|
    ensures states[n].eager.armedUntil ==
      match LastArmed(states, steps, n)
      case Some(t) => t + 3 * 60 * 1000
      case None => 0
  {
    if n > 0 {
      hide Next, Enabled, FleetAs, Announces, GoesUp;
      WindowExactly(states, steps, n - 1);
      assert StepAt(states, steps, n - 1);
      FieldsExactly(states[n - 1], steps[n - 1]);
    }
  }

  // ---- One retry ----

  /** The device is refused: the registered client closes with 1008 and a reason that says so, and it is not
      the JWT that is refused. */
  predicate RefusedAt(states: seq<State>, steps: seq<Step>, i: nat)
    requires i < |steps| < |states|
  {
    DeviceRefused(states[i], steps[i])
  }

  /** Of two refusals without the connection up in between, the later one halts: nothing is registered, no
      connect begun and no token awaited. */
  lemma SecondRefusalHalts(states: seq<State>, steps: seq<Step>, i: nat, j: nat)
    requires IsRun(states, steps) && i < j < |steps| && RefusedAt(states, steps, i) && RefusedAt(states, steps, j)
    requires forall m :: i < m < j ==> !GoesUp(states[m], steps[m])
    ensures var s, t := states[j].fleet, states[j + 1].fleet;
      && t.register == None && t.generation == s.generation
      && t.pending == s.pending && t.nextOp == s.nextOp
  {
    hide Next, Enabled, FlagsAs, AllAs, ClientsAs;
    FlagsExactly(states, steps, j);
    assert SetAndKept(states, steps, DeviceRefused, GoesUp, i, j);
    assert StepAt(states, steps, j);
    FieldsExactly(states[j], steps[j]);
    assert FleetAs(states[j], steps[j], states[j + 1].fleet) by { AllHas(states[j], steps[j], states[j + 1]); }
  }

  lemma AllHas(s: State, step: Step, t: State)
    requires AllAs(s, step, t)
    ensures FleetAs(s, step, t.fleet)
  {
  }

  /** The first refusal retries: with a url it drops the client, takes a fresh generation and awaits exactly
      one token, its own. */
  lemma FirstRefusalRetries(states: seq<State>, steps: seq<Step>, j: nat)
    requires IsRun(states, steps) && j < |steps| && RefusedAt(states, steps, j) && steps[j].hasUrl
    requires forall i :: 0 <= i < j && RefusedAt(states, steps, i) ==>
      exists m :: i < m < j && GoesUp(states[m], steps[m])
    ensures var s, t := states[j].fleet, states[j + 1].fleet;
      && t.register == None && t.generation == s.generation + 1
      && t.pending == s.pending[s.nextOp := ConnectToken(t.generation)]
  {
    hide Next, Enabled, FlagsAs, AllAs, ClientsAs;
    FlagsExactly(states, steps, j);
    forall i: nat ensures !SetAndKept(states, steps, DeviceRefused, GoesUp, i, j) {
      assert i < j ==> RefusedAt(states, steps, i) == DeviceRefused(states[i], steps[i]);
    }
    assert StepAt(states, steps, j);
    FieldsExactly(states[j], steps[j]);
    assert FleetAs(states[j], steps[j], states[j + 1].fleet) by { AllHas(states[j], steps[j], states[j + 1]); }
  }
}
