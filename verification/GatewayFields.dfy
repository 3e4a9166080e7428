/** The lifecycle told field by field: which steps write a field, and what, from the state before alone. */
module GatewayFields {
  import opened Wrappers
  import opened GatewayMachine
  import opened GatewayRuns

  // ---- What a step is ----

  /** The registered client reports that its socket closed. */
  predicate Closes(s: State, step: Step) { step.Closed? && s.fleet.register == Some(step.client) }

  /** The gateway refuses the JWT it was offered. */
  predicate JwtRefused(s: State, step: Step) {
    Closes(s, step) && step.info.code == 1008 && step.info.mentionsJwt && s.auth.configured && !s.auth.jwtDisabled
  }

  /** The gateway refuses the device, with a host selected. */
  predicate DeviceRefused(s: State, step: Step) {
    Closes(s, step) && step.info.code == 1008 && step.info.mentionsPairing && !JwtRefused(s, step) &&
    s.activeHost.Some?
  }

  /** A close of any other kind. */
  predicate JustCloses(s: State, step: Step) {
    Closes(s, step) && !JwtRefused(s, step) && !(step.info.code == 1008 && step.info.mentionsPairing)
  }

  /** A restart or migration is announced, or a cutover for one failed. */
  predicate Announces(s: State, step: Step) {
    || (Closes(s, step) && step.info.code == 1012)
    || (step.Received? && s.fleet.register == Some(step.client) && !step.event.Plain?)
    || step.CutoverFallback?
  }

  predicate InWindow(s: State, step: Step) { s.eager.now < s.eager.armedUntil || Announces(s, step) }

  /** The continuation a reply resumes is of the current generation. */
  predicate StillCurrent(s: State, id: nat) {
    id in s.fleet.pending && s.fleet.pending[id].generation == s.fleet.generation
  }

  predicate TokenFails(s: State, step: Step) {
    step.ConnectTokenReply? && StillCurrent(s, step.id) && !step.gotToken
  }

  predicate Installs(s: State, step: Step) {
    step.ConnectTokenReply? && StillCurrent(s, step.id) && step.gotToken
  }

  /** The reply to the hello of the registered client, under the current generation. */
  predicate HelloCounts(s: State, step: Step) {
    step.ConnectHelloReply? && StillCurrent(s, step.id) && s.fleet.pending[step.id].ConnectHello? &&
    s.fleet.register == Some(s.fleet.pending[step.id].client)
  }

  /** A cutover whose source still stands. */
  predicate SourceStands(s: State, id: nat) {
    StillCurrent(s, id) && s.fleet.pending[id].IsCutover() && s.fleet.register == s.fleet.pending[id].source
  }

  predicate Swaps(s: State, step: Step) {
    step.CutoverHelloReply? && step.ok && SourceStands(s, step.id) && s.fleet.pending[step.id].CutoverHello? &&
    s.conn.connected
  }

  /** The connection comes up. */
  predicate GoesUp(s: State, step: Step) { (HelloCounts(s, step) && step.ok) || Swaps(s, step) }

  /** A connect is begun; the result says whether the active host has a url. */
  function Begins(s: State, step: Step): Option<bool> {
    if step.Connect? || step.EagerTimer? || step.JwtTimer? || JwtRefused(s, step) then Some(step.hasUrl)
    else if step.RevalidationReply? && step.moved && StillCurrent(s, step.id) then Some(step.hasUrl)
    else if DeviceRefused(s, step) && !s.auth.refetchAttempted then Some(step.hasUrl)
    else None
  }

  /** It goes on to fetch a token. */
  predicate Dials(s: State, step: Step) { Begins(s, step) == Some(true) && s.activeHost.Some? }

  /** The registered client is closed and dropped, with no other in its place. */
  predicate Drops(s: State, step: Step) {
    || Begins(s, step) == Some(true) || step.JwtTimer? || step.Disconnect?
    || JwtRefused(s, step) || DeviceRefused(s, step) || (JustCloses(s, step) && InWindow(s, step))
  }

  // ---- Who writes what ----

  predicate ConnectionAs(s: State, step: Step, t: Connection) {
    && t.connected == (GoesUp(s, step) || (s.conn.connected && !Closes(s, step) && !step.Disconnect?))
    && t.closed == (step.Disconnect? ||
                    (s.conn.closed && Begins(s, step) != Some(true) && !Swaps(s, step)))
    && t.connecting == (Dials(s, step) ||
                        (s.conn.connecting && Begins(s, step) != Some(true) && !Closes(s, step) &&
                         !TokenFails(s, step) && !GoesUp(s, step) && !step.Disconnect?))
  }

  /** An eager attempt is scheduled when something fails inside the window. */
  predicate Schedules(s: State, step: Step) {
    InWindow(s, step) && (JustCloses(s, step) || TokenFails(s, step) || (HelloCounts(s, step) && !step.ok))
  }

  predicate WindowAs(s: State, step: Step, t: Eager) {
    && t.now == (if step.Tick? then s.eager.now + step.ms else s.eager.now)
    && t.armedUntil == (if Announces(s, step) then s.eager.now + 180_000
                        else if GoesUp(s, step) then 0
                        else s.eager.armedUntil)
    && t.scheduled == (Schedules(s, step) ||
                       (s.eager.scheduled && Begins(s, step) != Some(true) && !step.EagerTimer? &&
                        !GoesUp(s, step) && !step.Disconnect?))
  }

  predicate AuthAs(s: State, step: Step, t: Auth) {
    && t.configured == s.auth.configured
    && t.jwtDisabled == (JwtRefused(s, step) || (s.auth.jwtDisabled && !step.JwtTimer?))
    && t.retryTimer == (JwtRefused(s, step) || (s.auth.retryTimer && !step.JwtTimer? && !step.Disconnect?))
    && t.refetchAttempted == (DeviceRefused(s, step) || (s.auth.refetchAttempted && !GoesUp(s, step)))
  }

  predicate HostAs(s: State, step: Step, t: Option<nat>) {
    t == if step.SelectHost? then step.host
         else if Swaps(s, step) then Some(s.fleet.pending[step.id].target)
         else s.activeHost
  }

  predicate RegisterAs(s: State, step: Step, t: Fleet) {
    && t.generation == s.fleet.generation +
         (if Begins(s, step).Some? || step.Disconnect? || Swaps(s, step) then 1 else 0)
    && t.register == (if Installs(s, step) then Some(|s.fleet.clients|)
                      else if Swaps(s, step) then Some(s.fleet.pending[step.id].client)
                      else if Drops(s, step) then None
                      else s.fleet.register)
  }

  /** The client a step closes: the one it drops or swaps out, its own when a hello comes too late, or the
      backup of a cutover that failed. */
  predicate ClosesClient(s: State, step: Step, k: ClientId) {
    || (s.fleet.register == Some(k) && (Drops(s, step) || Swaps(s, step)))
    || (step.ConnectHelloReply? && step.ok && step.id in s.fleet.pending && s.fleet.pending[step.id].AwaitsHello() &&
        s.fleet.pending[step.id].client == k && !HelloCounts(s, step))
    || (step.CutoverHelloReply? && step.id in s.fleet.pending && s.fleet.pending[step.id].AwaitsHello() &&
        s.fleet.pending[step.id].client == k && !Swaps(s, step))
  }

  /** A client is built: to be registered, or as the backup of a cutover whose source still stands. */
  predicate Builds(s: State, step: Step) {
    Installs(s, step) || (step.CutoverTokenReply? && step.gotToken && SourceStands(s, step.id))
  }

  ghost predicate ClientsAs(s: State, step: Step, t: seq<Client>) {
    var c := s.fleet.clients;
    && |t| == |c| + (if Builds(s, step) then 1 else 0)
    && (forall k: nat :: k < |c| ==> t[k] == Client(c[k].closed || ClosesClient(s, step, k), c[k].hello))
    && (Builds(s, step) ==> t[|c|] == Client(false, s.fleet.nextOp))
  }

  /** What a step suspends on. */
  function Suspends(s: State, step: Step): Option<Pending> {
    var f := s.fleet;
    if Dials(s, step) then Some(ConnectToken(f.generation + 1))
    else if Installs(s, step) then Some(ConnectHello(f.generation, |f.clients|))
    else if HelloCounts(s, step) && !step.ok && !InWindow(s, step) then Some(Revalidation(f.generation))
    else if step.Cutover? then Some(CutoverToken(f.generation, f.register, step.target))
    else if step.Received? && f.register == Some(step.client) && step.event.Migrating? && step.event.target.Some? &&
            s.conn.connected then
      Some(CutoverToken(f.generation, f.register, step.event.target.value))
    else if Builds(s, step) then
      Some(CutoverHello(f.generation, f.register, f.pending[step.id].target, |f.clients|))
    else None
  }

  predicate PendingAs(s: State, step: Step, t: Fleet) {
    var left := if Resumed(step).Some? then s.fleet.pending - {Resumed(step).value} else s.fleet.pending;
    match Suspends(s, step)
    case None => t.pending == left && t.nextOp == s.fleet.nextOp
    case Some(p) => t.pending == left[s.fleet.nextOp := p] && t.nextOp == s.fleet.nextOp + 1
  }

  ghost predicate FleetAs(s: State, step: Step, t: Fleet) {
    RegisterAs(s, step, t) && ClientsAs(s, step, t.clients) && PendingAs(s, step, t)
  }

  /** Everything but the fleet. */
  predicate FlagsAs(s: State, step: Step, t: State) {
    ConnectionAs(s, step, t.conn) && WindowAs(s, step, t.eager) && AuthAs(s, step, t.auth) &&
    HostAs(s, step, t.activeHost)
  }

  /** Field by field, the whole state after a step. */
  ghost predicate AllAs(s: State, step: Step, t: State) { FlagsAs(s, step, t) && FleetAs(s, step, t.fleet) }

  lemma ConnectsFlags(s: State, step: Step)
    requires step.Connect? || (Enabled(s, step) && (step.JwtTimer? || step.EagerTimer? || step.RevalidationReply?))
    ensures FlagsAs(s, step, Next(s, step))
  {
    hide CloseAt, ConnectFleet;
  }

  lemma ConnectFleetAs(s: State, step: Step)
    requires Enabled(s, step) && (step.Connect? || step.EagerTimer?)
    ensures FleetAs(s, step, Next(s, step).fleet)
  {
  }

  lemma JwtTimerFleet(s: State, step: Step)
    requires Enabled(s, step) && step.JwtTimer?
    ensures FleetAs(s, step, Next(s, step).fleet)
  {
  }

  lemma RevalidationFleet(s: State, step: Step)
    requires Enabled(s, step) && step.RevalidationReply?
    ensures FleetAs(s, step, Next(s, step).fleet)
  {
  }

  lemma ConnectsFleet(s: State, step: Step)
    requires Enabled(s, step) && (step.Connect? || step.JwtTimer? || step.EagerTimer? || step.RevalidationReply?)
    ensures FleetAs(s, step, Next(s, step).fleet)
  {
    hide FleetAs, Next;
    match step
    case JwtTimer(_) => JwtTimerFleet(s, step);
    case RevalidationReply(_, _, _) => RevalidationFleet(s, step);
    case _ => ConnectFleetAs(s, step);
  }

  lemma ConnectRepliesFlags(s: State, step: Step)
    requires Enabled(s, step) && (step.ConnectTokenReply? || step.ConnectHelloReply?)
    ensures FlagsAs(s, step, Next(s, step))
  {
    hide CloseAt, ConnectFleet;
  }

  lemma ConnectRepliesFleet(s: State, step: Step)
    requires Enabled(s, step) && (step.ConnectTokenReply? || step.ConnectHelloReply?)
    ensures FleetAs(s, step, Next(s, step).fleet)
  {
  }

  lemma CutoverRepliesFlags(s: State, step: Step)
    requires Enabled(s, step) && (step.CutoverTokenReply? || step.CutoverHelloReply?)
    ensures FlagsAs(s, step, Next(s, step))
  {
    hide CloseAt, ConnectFleet;
  }

  lemma CutoverRepliesFleet(s: State, step: Step)
    requires Enabled(s, step) && (step.CutoverTokenReply? || step.CutoverHelloReply?)
    ensures FleetAs(s, step, Next(s, step).fleet)
  {
  }

  lemma ClosedFlags(s: State, step: Step)
    requires Enabled(s, step) && step.Closed?
    ensures FlagsAs(s, step, Next(s, step))
  {
    hide CloseAt, ConnectFleet;
  }

  lemma ClosedFleet(s: State, step: Step)
    requires Enabled(s, step) && step.Closed?
    ensures FleetAs(s, step, Next(s, step).fleet)
  {
  }

  lemma OthersFlags(s: State, step: Step)
    requires step.Cutover? || step.Disconnect? || step.Received?
          || step.CutoverFallback? || step.Tick? || step.SelectHost?
    requires Enabled(s, step)
    ensures FlagsAs(s, step, Next(s, step))
  {
  }

  lemma OthersFleet(s: State, step: Step)
    requires step.Cutover? || step.Disconnect? || step.Received?
          || step.CutoverFallback? || step.Tick? || step.SelectHost?
    requires Enabled(s, step)
    ensures FleetAs(s, step, Next(s, step).fleet)
  {
  }

  /** A step writes each field as stated, and all of them so. */
  lemma FieldsExactly(s: State, step: Step)
    requires Enabled(s, step)
    ensures AllAs(s, step, Next(s, step))
    ensures forall t :: AllAs(s, step, t) ==> t == Next(s, step)
  {
    hide Next, FlagsAs, FleetAs;
    if step.ConnectTokenReply? || step.ConnectHelloReply? {
      ConnectRepliesFlags(s, step);
      ConnectRepliesFleet(s, step);
    } else if step.CutoverTokenReply? || step.CutoverHelloReply? {
      CutoverRepliesFlags(s, step);
      CutoverRepliesFleet(s, step);
    } else if step.Closed? {
      ClosedFlags(s, step);
      ClosedFleet(s, step);
    } else if step.Connect? || step.JwtTimer? || step.EagerTimer? || step.RevalidationReply? {
      ConnectsFlags(s, step);
      ConnectsFleet(s, step);
    } else {
      OthersFlags(s, step);
      OthersFleet(s, step);
    }
    hide AllAs;
    forall t | AllAs(s, step, t) ensures t == Next(s, step) {
      OnlyOne(s, step, t, Next(s, step));
    }
  }

  /** The fields determine the state. */
  lemma OnlyOne(s: State, step: Step, t: State, u: State)
    requires AllAs(s, step, t) && AllAs(s, step, u)
    ensures t == u
  {
    hide Begins, Drops, Dials, GoesUp, Swaps, Closes, JwtRefused, DeviceRefused, Builds, ClosesClient, Suspends,
      Schedules, Announces, Installs, TokenFails;
    assert t.fleet.clients == u.fleet.clients;
  }
}
