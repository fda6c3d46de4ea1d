/** The automatic connector of src/autoconnect.rs: one turn of its loop, and what every run of turns keeps
    about the distance between connection attempts. */
module Connector {
  import opened Wrappers

  const U32_MAX: nat := 0xFFFF_FFFF
  const PROBE_MILLIS: nat := 15_000
  const STABLE_MILLIS: nat := 60_000
  const CONNECT_MILLIS: nat := 45_000

  datatype Config = Config(host: string, vpnDomain: string, enabled: bool)

  datatype Session = Session(started: nat, connected: Option<nat>)

  /** One connection attempt: when (seconds of wall-clock time), at which failure count, and after how many
      probes. */
  datatype Attempt = Attempt(at: nat, failures: nat, probes: nat)

  /** The variables of the loop. `attempts` and `probes` are its history; `disturbed` says that since the last
      attempt the configuration failed or named another destination. */
  datatype Machine = Machine(
    running: bool,
    retryAt: nat,
    failures: nat,
    session: Option<Session>,
    readySamples: nat,
    probeAt: nat,
    vpn: bool,
    previous: Option<(string, string)>,
    attempts: seq<Attempt>,
    probes: seq<bool>,
    disturbed: bool)

  /** What one turn observes: the readings of the two clocks in the order they are taken, the configuration,
      the result of a probe, the session's process, and whether starting one works. */
  datatype Input = Input(
    millis: nat,
    clampNow: nat,
    failNow: nat,
    startNow: nat,
    retryNow: nat,
    settings: Result<Config>,
    vpnReady: bool,
    connectedMessage: bool,
    exited: bool,
    starts: bool,
    jitter: nat)

  function Min(a: nat, b: nat): nat {
    if a < b then a else b
  }

  function Bump(failures: nat): nat {
    Min(failures + 1, U32_MAX)
  }

  function Pow2(n: nat): nat {
    if n == 0 then 1 else 2 * Pow2(n - 1)
  }

  /** The cooldown after so many failures, without jitter. */
  function Cooldown(failures: nat): (seconds: nat)
    ensures 60 <= seconds <= 900
  {
    ghost var n := Min(if failures == 0 then 0 else failures - 1, 4);
    assert Pow2(n) >= 1;
    Min(60 * Pow2(Min(if failures == 0 then 0 else failures - 1, 4)), 900)
  }

  function Delay(failures: nat, jitter: nat): nat {
    Cooldown(failures) + jitter % 16
  }

  lemma CooldownValues(failures: nat, jitter: nat)
    ensures 60 <= Cooldown(failures) <= 900
    ensures Cooldown(failures) == if failures <= 1 then 60 else if failures == 2 then 120
                                  else if failures == 3 then 240 else if failures == 4 then 480 else 900
    ensures Cooldown(failures) <= Delay(failures, jitter) <= Cooldown(failures) + 15
  {
    assert Pow2(1) == 2 && Pow2(2) == 4 && Pow2(3) == 8 && Pow2(4) == 16;
  }

  /** The configuration cannot be read: the session is dropped and the cooldown with it. */
  function ConfigError(m: Machine): Machine {
    m.(session := None, readySamples := 0, previous := None, retryAt := 0, disturbed := true)
  }

  /** A new destination drops the session and asks for fresh probes. */
  function Retarget(m: Machine, settings: Config, millis: nat): Machine {
    var identity := (settings.host, settings.vpnDomain);
    if m.previous == Some(identity) then m
    else m.(session := None, readySamples := 0, probeAt := millis, previous := Some(identity), disturbed := true)
  }

  function Probe(m: Machine, input: Input): Machine {
    if input.millis >= m.probeAt then
      m.(vpn := input.vpnReady, readySamples := if input.vpnReady then Bump(m.readySamples) else 0,
      probeAt := input.millis + PROBE_MILLIS, probes := m.probes + [input.vpnReady])
    else m
  }

  function Listen(m: Machine, input: Input): Machine {
    if m.session.Some? && input.connectedMessage then
      m.(session := Some(m.session.value.(connected := Some(input.millis))))
    else m
  }

  predicate Broken(m: Machine, input: Input) {
    m.session.Some?
    && (!m.vpn || input.exited || (m.session.value.connected.None? && input.millis > m.session.value.started + CONNECT_MILLIS))
  }

  predicate Stable(m: Machine, input: Input) {
    m.session.Some? && m.session.value.connected.Some? && input.millis >= m.session.value.connected.value + STABLE_MILLIS
  }

  /** The fate of the current session: it ends and starts a cooldown, or has been stable and clears it. */
  function Watch(m: Machine, input: Input): Machine {
    if Broken(m, input) then
      m.(session := None, failures := Bump(m.failures), retryAt := input.failNow + Delay(Bump(m.failures), input.jitter))
    else if Stable(m, input) then m.(failures := 0, retryAt := 0)
    else m
  }

  predicate MayStart(m: Machine, input: Input) {
    m.session.None? && m.readySamples >= 2 && input.startNow >= m.retryAt
  }

  function Start(m: Machine, input: Input): Machine {
    if !MayStart(m, input) then m else
    var tried := m.(attempts := m.attempts + [Attempt(input.startNow, m.failures, |m.probes|)], disturbed := false);
    if input.starts then tried.(session := Some(Session(input.millis, None)))
    else tried.(failures := Bump(m.failures), retryAt := input.retryNow + Delay(Bump(m.failures), input.jitter))
  }

  /** One turn of the loop. */
  function Turn(m: Machine, input: Input): Machine {
    if !m.running then m else
    var clamped := Clamp(m, input.clampNow);
    match input.settings
    case Failure(_) => ConfigError(clamped)
    case Success(settings) =>
      if !settings.enabled then clamped.(running := false, session := None)
      else Attend(clamped, settings, input)
  }

  /** A cooldown never reaches further than the longest one from now, even when the clock was set back. */
  function Clamp(m: Machine, now: nat): Machine {
    m.(retryAt := Min(m.retryAt, now + 915))
  }

  /** The rest of a turn, with a usable configuration. */
  function Attend(m: Machine, settings: Config, input: Input): Machine {
    Start(Watch(Observe(m, settings, input), input), input)
  }

  /** The part of a turn before the fate of the session is decided. */
  function Observe(m: Machine, settings: Config, input: Input): Machine {
    Listen(Probe(Retarget(m, settings, input.millis), input), input)
  }

  /** The loop as the program runs it. The history fields are kept for the proofs only. */
  class Loop {
    var running: bool
    var retryAt: nat
    var failures: nat
    var session: Option<Session>
    var readySamples: nat
    var probeAt: nat
    var vpn: bool
    var previous: Option<(string, string)>
    ghost var attempts: seq<Attempt>
    ghost var probes: seq<bool>
    ghost var disturbed: bool

    ghost function State(): Machine
      reads this
    {
      Machine(running, retryAt, failures, session, readySamples, probeAt, vpn, previous, attempts, probes, disturbed)
    }

    constructor (retryAt: nat, failures: nat, millis: nat)
      ensures State() == Initial(retryAt, failures, millis)
    {
      running, this.retryAt, this.failures := true, retryAt, failures;
      session, readySamples, probeAt, vpn, previous := None, 0, millis, false, None;
      attempts, probes, disturbed := [], [], true;
    }

    method Aim(settings: Config, millis: nat)
      modifies this
      ensures State() == Retarget(old(State()), settings, millis)
    {
      var identity := (settings.host, settings.vpnDomain);
      if previous != Some(identity) {
        session, readySamples, probeAt, previous := None, 0, millis, Some(identity);
        disturbed := true;
      }
    }

    method ProbeNetwork(input: Input)
      modifies this
      ensures State() == Probe(old(State()), input)
    {
      if input.millis >= probeAt {
        vpn := input.vpnReady;
        readySamples := if vpn then Bump(readySamples) else 0;
        probeAt := input.millis + PROBE_MILLIS;
        probes := probes + [vpn];
      }
    }

    method WatchSession(input: Input)
      modifies this
      ensures State() == Watch(Listen(old(State()), input), input)
    {
      var failed := false;
      if session.Some? {
        if input.connectedMessage {
          session := Some(session.value.(connected := Some(input.millis)));
        }
        var active := session.value;
        if !vpn || input.exited || (active.connected.None? && input.millis > active.started + CONNECT_MILLIS) {
          failed := true;
        } else if active.connected.Some? && input.millis >= active.connected.value + STABLE_MILLIS {
          failures, retryAt := 0, 0;
        }
      }
      if failed {
        session, failures := None, Bump(failures);
        retryAt := input.failNow + Delay(failures, input.jitter);
      }
    }

    method TryStart(input: Input)
      modifies this
      ensures State() == Start(old(State()), input)
    {
      if session.None? && readySamples >= 2 && input.startNow >= retryAt {
        attempts := attempts + [Attempt(input.startNow, failures, |probes|)];
        disturbed := false;
        if input.starts {
          session := Some(Session(input.millis, None));
        } else {
          failures := Bump(failures);
          retryAt := input.retryNow + Delay(failures, input.jitter);
        }
      }
    }

    method AttendTo(settings: Config, input: Input)
      modifies this
      ensures State() == Attend(old(State()), settings, input)
    {
      Aim(settings, input.millis);
      ProbeNetwork(input);
      WatchSession(input);
      TryStart(input);
    }

    method Once(input: Input)
      requires running
      modifies this
      ensures State() == Turn(old(State()), input)
    {
      retryAt := Min(retryAt, input.clampNow + 915);
      if input.settings.Failure? {
        session, readySamples, previous, retryAt := None, 0, None, 0;
        disturbed := true;
        return;
      }
      var settings := input.settings.value;
      if !settings.enabled {
        running, session := false, None;
        return;
      }
      AttendTo(settings, input);
    }
  }

  function Initial(retryAt: nat, failures: nat, millis: nat): Machine {
    Machine(true, retryAt, failures, None, 0, millis, false, None, [], [], true)
  }

  // ---- runs

  function Run(m: Machine, inputs: seq<Input>): Machine
    decreases |inputs|
  {
    if inputs == [] then m else Turn(Run(m, inputs[..|inputs| - 1]), inputs[|inputs| - 1])
  }

  predicate Ordered(input: Input) {
    input.clampNow <= input.failNow <= input.startNow <= input.retryNow
  }

  /** The wall clock never goes back, within a turn or from one turn to the next. */
  predicate ClockMoves(inputs: seq<Input>) {
    && (forall i :: 0 <= i < |inputs| ==> Ordered(inputs[i]))
    && forall i, j :: 0 <= i < j < |inputs| ==> inputs[i].retryNow <= inputs[j].clampNow
  }

  function ClockAt(inputs: seq<Input>): nat {
    if inputs == [] then 0 else inputs[|inputs| - 1].retryNow
  }

  /** The last probes were positive, as many as are counted. */
  predicate Backed(m: Machine) {
    m.readySamples <= |m.probes| && forall i :: |m.probes| - m.readySamples <= i < |m.probes| ==> m.probes[i]
  }

  /** An undisturbed machine either still runs its last attempt or waits out its cooldown. */
  predicate Cooling(m: Machine, clock: nat) {
    m.attempts != [] && !m.disturbed ==>
      var last := m.attempts[|m.attempts| - 1];
      && last.at <= clock
      && (m.session.None? && m.running ==>
            && m.failures >= 1
            && last.at + Cooldown(m.failures) <= m.retryAt <= clock + 915)
  }

  /** Two consecutive attempts, the later one not made on a disturbed machine. */
  predicate Spaced(earlier: Attempt, later: Attempt) {
    earlier.at + 60 <= later.at && later.failures >= 1 && earlier.at + Cooldown(later.failures) <= later.at
  }

  predicate Probed(m: Machine, a: Attempt) {
    2 <= a.probes <= |m.probes| && m.probes[a.probes - 1] && m.probes[a.probes - 2]
  }

  ghost predicate Fine(m: Machine, clock: nat) {
    Cooling(m, clock) && Backed(m)
  }

  lemma ClampKeeps(m: Machine, clock: nat, now: nat)
    requires Fine(m, clock) && clock <= now
    ensures Fine(Clamp(m, now), now)
  {
  }

  lemma RetargetKeeps(m: Machine, settings: Config, millis: nat, clock: nat)
    requires Fine(m, clock)
    ensures Fine(Retarget(m, settings, millis), clock)
  {
  }

  lemma ProbeKeeps(m: Machine, input: Input, clock: nat)
    requires Fine(m, clock)
    ensures Fine(Probe(m, input), clock)
    ensures m.probes <= Probe(m, input).probes
  {
  }

  /** The stages of a turn up to the watch keep the history and what is known about the cooldown. */
  lemma ObserveKeeps(m: Machine, settings: Config, input: Input, clock: nat)
    requires Fine(m, clock)
    ensures var heard := Observe(m, settings, input);
            && Fine(heard, clock) && heard.running == m.running && heard.attempts == m.attempts
            && m.probes <= heard.probes
            && heard.disturbed == (m.disturbed || m.previous != Some((settings.host, settings.vpnDomain)))
            && heard.previous == Some((settings.host, settings.vpnDomain))
  {
    RetargetKeeps(m, settings, input.millis, clock);
    ProbeKeeps(Retarget(m, settings, input.millis), input, clock);
  }

  lemma WatchKeeps(m: Machine, input: Input, clock: nat)
    requires Fine(m, clock) && clock <= input.failNow
    ensures Fine(Watch(m, input), input.failNow)
    ensures var watched := Watch(m, input);
            && watched.running == m.running && watched.probes == m.probes && watched.attempts == m.attempts
            && watched.disturbed == m.disturbed
  {
  }

  lemma StartKeeps(m: Machine, input: Input, clock: nat)
    requires Fine(m, clock) && m.running && clock <= input.startNow <= input.retryNow
    ensures Fine(Start(m, input), input.retryNow)
    ensures var after := Start(m, input);
            && after.running && after.probes == m.probes && m.attempts <= after.attempts
            && |after.attempts| <= |m.attempts| + 1
            && (|after.attempts| > |m.attempts| ==>
                  && Probed(after, after.attempts[|m.attempts|])
                  && !after.disturbed
                  && (m.attempts != [] && !m.disturbed ==> Spaced(m.attempts[|m.attempts| - 1], after.attempts[|m.attempts|])))
            && (|after.attempts| == |m.attempts| ==> after.disturbed == m.disturbed)
  {
  }

  /** A whole turn that goes on: what it keeps, and how its attempt is spaced. */
  ghost predicate TurnFine(m: Machine, after: Machine, identity: (string, string), clock: nat) {
    && Fine(after, clock)
    && m.probes <= after.probes && m.attempts <= after.attempts && |after.attempts| <= |m.attempts| + 1
    && (|after.attempts| > |m.attempts| ==>
          && Probed(after, after.attempts[|m.attempts|]) && !after.disturbed
          && (m.attempts != [] && !m.disturbed && m.previous == Some(identity) ==>
                Spaced(m.attempts[|m.attempts| - 1], after.attempts[|m.attempts|])))
    && (|after.attempts| == |m.attempts| && m.previous == Some(identity) ==> after.disturbed == m.disturbed)
    && after.running && after.previous == Some(identity)
  }

  lemma ActiveTurn(m: Machine, settings: Config, input: Input, clock: nat)
    requires Fine(m, clock) && m.running && Ordered(input) && clock <= input.clampNow
    ensures TurnFine(m, Attend(m, settings, input), (settings.host, settings.vpnDomain), input.retryNow)
  {
    ObserveKeeps(m, settings, input, clock);
    var heard := Observe(m, settings, input);
    WatchKeeps(heard, input, clock);
    var watched := Watch(heard, input);
    StartKeeps(watched, input, input.failNow);
  }

  lemma ClampedTurn(m: Machine, now: nat, after: Machine, identity: (string, string), clock: nat)
    requires TurnFine(Clamp(m, now), after, identity, clock)
    ensures TurnFine(m, after, identity, clock)
  {
  }

  lemma ActiveIs(m: Machine, input: Input)
    requires m.running && input.settings.Success? && input.settings.value.enabled
    ensures Turn(m, input) == Attend(Clamp(m, input.clampNow), input.settings.value, input)
  {
  }

  /** The attempt of a turn that goes on with the same destination. */
  lemma TurnSpaces(m: Machine, input: Input, clock: nat)
    requires Fine(m, clock) && Ordered(input) && clock <= input.clampNow && m.running
    requires input.settings.Success? && input.settings.value.enabled
    ensures TurnFine(m, Turn(m, input), (input.settings.value.host, input.settings.value.vpnDomain), input.retryNow)
  {
    var settings := input.settings.value;
    ClampKeeps(m, clock, input.clampNow);
    ActiveTurn(Clamp(m, input.clampNow), settings, input, input.clampNow);
    ClampedTurn(m, input.clampNow, Attend(Clamp(m, input.clampNow), settings, input), (settings.host, settings.vpnDomain),
                input.retryNow);
    ActiveIs(m, input);
  }

  /** A turn without a usable configuration makes no attempt. */
  lemma IdleTurn(m: Machine, input: Input, clock: nat)
    requires Fine(m, clock) && Ordered(input) && clock <= input.clampNow
    requires !(m.running && input.settings.Success? && input.settings.value.enabled)
    ensures Fine(Turn(m, input), input.retryNow)
    ensures Turn(m, input).probes == m.probes && Turn(m, input).attempts == m.attempts
  {
  }

  ghost predicate HistoryFine(m: Machine) {
    forall a <- m.attempts :: Probed(m, a)
  }

  lemma MoreHistory(m: Machine, after: Machine)
    requires HistoryFine(m) && m.probes <= after.probes && m.attempts <= after.attempts && |after.attempts| <= |m.attempts| + 1
    requires |after.attempts| > |m.attempts| ==> Probed(after, after.attempts[|m.attempts|])
    ensures HistoryFine(after)
  {
    forall a <- after.attempts ensures Probed(after, a) {
      if a in m.attempts {
        assert Probed(m, a);
      }
    }
  }

  lemma TurnKeeps(m: Machine, input: Input, clock: nat)
    requires Fine(m, clock) && Ordered(input) && clock <= input.clampNow
    ensures Fine(Turn(m, input), input.retryNow)
  {
    if m.running && input.settings.Success? && input.settings.value.enabled {
      TurnSpaces(m, input, clock);
    } else {
      IdleTurn(m, input, clock);
    }
  }

  lemma {:induction false} RunKeeps(m: Machine, inputs: seq<Input>)
    requires m.attempts == [] && m.probes == [] && m.readySamples == 0
    requires ClockMoves(inputs)
    ensures Fine(Run(m, inputs), ClockAt(inputs))
    decreases |inputs|
  {
    if inputs != [] {
      var init, last := inputs[..|inputs| - 1], inputs[|inputs| - 1];
      RunKeeps(m, init);
      assert ClockAt(init) <= last.clampNow;
      TurnKeeps(Run(m, init), last, ClockAt(init));
    }
  }

  lemma ObserveBacks(m: Machine, settings: Config, input: Input)
    requires Backed(m)
    ensures var heard := Observe(m, settings, input);
            Backed(heard) && m.probes <= heard.probes && heard.attempts == m.attempts
  {
    assert Backed(Retarget(m, settings, input.millis));
    assert Backed(Probe(Retarget(m, settings, input.millis), input));
  }

  lemma StartBacks(m: Machine, input: Input)
    requires Backed(m)
    ensures var after := Start(m, input);
            && Backed(after) && after.probes == m.probes && m.attempts <= after.attempts
            && |after.attempts| <= |m.attempts| + 1
            && (|after.attempts| > |m.attempts| ==> Probed(after, after.attempts[|m.attempts|]))
  {
  }

  lemma ActiveBacks(m: Machine, settings: Config, input: Input)
    requires Backed(m) && HistoryFine(m)
    ensures Backed(Attend(m, settings, input)) && HistoryFine(Attend(m, settings, input))
  {
    ObserveBacks(m, settings, input);
    var watched := Watch(Observe(m, settings, input), input);
    assert Backed(watched) && m.probes <= watched.probes && watched.attempts == m.attempts;
    StartBacks(watched, input);
    MoreHistory(m, Start(watched, input));
  }

  /** A turn makes its attempt only behind two positive probes, whatever the clocks read. */
  lemma TurnBacks(m: Machine, input: Input)
    requires Backed(m) && HistoryFine(m)
    ensures Backed(Turn(m, input)) && HistoryFine(Turn(m, input))
  {
    var clamped := Clamp(m, input.clampNow);
    MoreHistory(m, clamped);
    if m.running && input.settings.Success? && input.settings.value.enabled {
      ActiveBacks(clamped, input.settings.value, input);
    } else {
      MoreHistory(m, Turn(m, input));
    }
  }

  lemma {:induction false} RunBacks(m: Machine, inputs: seq<Input>)
    requires m.attempts == [] && m.probes == [] && m.readySamples == 0
    ensures Backed(Run(m, inputs)) && HistoryFine(Run(m, inputs))
    decreases |inputs|
  {
    if inputs != [] {
      RunBacks(m, inputs[..|inputs| - 1]);
      TurnBacks(Run(m, inputs[..|inputs| - 1]), inputs[|inputs| - 1]);
    }
  }

  /** Every attempt of a run follows two consecutive positive probes. */
  lemma StartsFollowTwoProbes(retryAt: nat, failures: nat, millis: nat, inputs: seq<Input>, n: nat)
    requires n < |Run(Initial(retryAt, failures, millis), inputs).attempts|
    ensures var m := Run(Initial(retryAt, failures, millis), inputs);
            Probed(m, m.attempts[n])
  {
    RunBacks(Initial(retryAt, failures, millis), inputs);
    var m := Run(Initial(retryAt, failures, millis), inputs);
    assert m.attempts[n] in m.attempts;
  }

  /** The loop always has a fixed destination: it is given one on its command line. */
  predicate Fixed(inputs: seq<Input>, settings: Config) {
    settings.enabled && forall i :: 0 <= i < |inputs| ==> inputs[i].settings == Success(settings)
  }

  predicate AllSpaced(attempts: seq<Attempt>) {
    forall n :: 0 < n < |attempts| ==> Spaced(attempts[n - 1], attempts[n])
  }

  lemma {:induction false} FixedRunIsSpaced(m: Machine, settings: Config, inputs: seq<Input>)
    requires m.attempts == [] && m.probes == [] && m.readySamples == 0 && m.running && m.previous.None?
    requires ClockMoves(inputs) && Fixed(inputs, settings)
    ensures AllSpaced(Run(m, inputs).attempts)
    ensures Run(m, inputs).running
    ensures inputs != [] ==> Run(m, inputs).previous == Some((settings.host, settings.vpnDomain))
    ensures Run(m, inputs).attempts != [] ==> !Run(m, inputs).disturbed
    ensures inputs == [] ==> Run(m, inputs) == m
    decreases |inputs|
  {
    if inputs != [] {
      var init, last := inputs[..|inputs| - 1], inputs[|inputs| - 1];
      FixedRunIsSpaced(m, settings, init);
      RunKeeps(m, init);
      var before := Run(m, init);
      assert ClockAt(init) <= last.clampNow;
      TurnSpaces(before, last, ClockAt(init));
    }
  }

  /** Whatever the network does, in every run consecutive connection attempts are at least a minute apart,
      and at least the cooldown of the failure count at the later one. */
  lemma AttemptsAreSpaced(retryAt: nat, failures: nat, millis: nat, settings: Config, inputs: seq<Input>, n: nat)
    requires ClockMoves(inputs) && Fixed(inputs, settings)
    requires 0 < n < |Run(Initial(retryAt, failures, millis), inputs).attempts|
    ensures var attempts := Run(Initial(retryAt, failures, millis), inputs).attempts;
            && attempts[n - 1].at + 60 <= attempts[n].at
            && attempts[n].failures >= 1
            && attempts[n - 1].at + Cooldown(attempts[n].failures) <= attempts[n].at
  {
    FixedRunIsSpaced(Initial(retryAt, failures, millis), settings, inputs);
  }

  /** Only a connection that has been up for a minute lowers the failure count, and it lowers it to zero. */
  lemma OnlyStableConnectionsForgive(m: Machine, input: Input)
    requires m.failures <= U32_MAX && Turn(m, input).failures < m.failures
    ensures m.session.Some? && input.settings.Success?
    ensures m.session.value.connected.Some? && !input.connectedMessage
    ensures input.millis >= m.session.value.connected.value + STABLE_MILLIS && !input.exited
    ensures Turn(m, input).failures == 0
  {
  }
}
