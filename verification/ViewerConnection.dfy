/** The reconnecting viewer controller of connection.js: an event-driven machine with two timers, one owned
    client, stale events and exponential backoff. Each handler is one atomic step. The environment is explicit:
    pending timers, created clients, a clock, and events in any order. */
module ViewerConnection {
  import opened Text

  datatype Phase = Stopped | Offline | Connecting | Connected | Reconnecting

  /** What a pending timer runs: `connect`, or the handshake deadline of one candidate. */
  datatype Callback = Connect | Deadline(candidate: nat)

  datatype Timer = Timer(callback: Callback, due: nat)

  /** Choices the environment makes during a step: the random part of a delay, and whether the client's constructor
      throws. */
  datatype Choice = Choice(jitter: nat, throws: bool)

  predicate Possible(ch: Choice) {
    ch.jitter < 250
  }

  datatype Event =
    | Start
    | Stop
    | Reconnect
    | SetOnline(value: bool)
    | Fire(timer: nat)
    | ClientConnected(client: nat)
    | ClientDisconnected(client: nat)
    | Elapse(ms: nat)

  // ---------------------------------------------------------------- backoff

  function Pow2(n: nat): (p: nat)
    ensures p >= 1
  {
    if n == 0 then 1 else 2 * Pow2(n - 1)
  }

  function Min(a: nat, b: nat): nat {
    if a < b then a else b
  }

  /** The delay of the retry that follows `attempt` earlier ones, without its random part. */
  function Backoff(attempt: nat): nat {
    Min(1000 * Pow2(Min(attempt, 4)), 10000)
  }

  function Sum(delays: seq<nat>): nat {
    if delays == [] then 0 else Sum(delays[..|delays| - 1]) + delays[|delays| - 1]
  }

  /** Total backoff of the first `n` retries in closed form. */
  function TotalBackoff(n: nat): nat {
    if n <= 4 then 1000 * (Pow2(n) - 1) else 15000 + 10000 * (n - 4)
  }

  predicate BackoffDelays(delays: seq<nat>) {
    forall i :: 0 <= i < |delays| ==> Backoff(i) <= delays[i] <= Backoff(i) + 249
  }

  lemma {:induction false} TotalDelay(delays: seq<nat>)
    requires BackoffDelays(delays)
    ensures TotalBackoff(|delays|) <= Sum(delays) <= TotalBackoff(|delays|) + 249 * |delays|
  {
    if delays != [] {
      var n := |delays| - 1;
      TotalDelay(delays[..n]);
      assert Pow2(0) == 1 && Pow2(1) == 2 && Pow2(2) == 4 && Pow2(3) == 8 && Pow2(4) == 16;
      assert Backoff(n) <= delays[n] <= Backoff(n) + 249;
      assert TotalBackoff(n + 1) == TotalBackoff(n) + Backoff(n);
    }
  }

  // ---------------------------------------------------------------- the controller and its environment

  /** The controller's variables; then the environment's: pending timers and the next timer id, created and live
      clients, constructor calls so far, the clock; and the delays scheduled since the backoff was last reset. */
  datatype Viewer = Viewer(
    client: Option<nat>, retryTimer: Option<nat>, deadline: Option<nat>,
    attempt: nat, stopped: bool, online: bool, state: Phase,
    pending: map<nat, Timer>, timers: nat, live: set<nat>, made: nat, tried: nat, now: nat, delays: seq<nat>)
  {
    function Clear(): Viewer {
      var cleared :=
        (if retryTimer.Some? then {retryTimer.value} else {}) + (if deadline.Some? then {deadline.value} else {});
      this.(pending := pending - cleared, retryTimer := None, deadline := None)
    }

    /** Disconnects the owned client, if there is one. */
    function Drop(): Viewer {
      if client.None? then this else this.(client := None, live := live - {client.value})
    }

    function Retry(ch: Choice): Viewer {
      if stopped then this
      else if !online then this.(state := Offline)
      else
        var delay := Backoff(attempt) + ch.jitter;
        this.(attempt := attempt + 1, state := Reconnecting, retryTimer := Some(timers),
              pending := pending[timers := Timer(Connect, now + delay)], timers := timers + 1,
              delays := delays + [delay])
    }

    function Attach(timeoutMs: nat): Viewer {
      this.(client := Some(made), live := live + {made}, made := made + 1, deadline := Some(timers),
            pending := pending[timers := Timer(Deadline(made), now + timeoutMs)], timers := timers + 1)
    }

    function TryConnect(ch: Choice, timeoutMs: nat): Viewer {
      var s := Clear().Drop();
      if stopped then s
      else if !online then s.(state := Offline)
      else
        var t := s.(state := Connecting, tried := tried + 1);
        if ch.throws then t.Drop().Retry(ch)
        else t.Attach(timeoutMs)
    }

    /** Events that can occur: timers fire once they are due, clients emit events once they exist. */
    predicate Enabled(e: Event) {
      match e
      case Fire(id) => id in pending && pending[id].due <= now
      case ClientConnected(c) => c < made
      case ClientDisconnected(c) => c < made
      case _ => true
    }

    function Step(e: Event, ch: Choice, timeoutMs: nat): Viewer
      requires Enabled(e)
    {
      match e
      case Start => this.(stopped := false).TryConnect(ch, timeoutMs)
      case Stop => this.(stopped := true).Clear().Drop().(state := Stopped)
      case Reconnect => this.(stopped := false, attempt := 0, delays := []).TryConnect(ch, timeoutMs)
      case SetOnline(value) =>
        var s := this.(online := value);
        if !value then (if stopped then s.Clear().Drop() else s.Clear().Drop().(state := Offline))
        else if !stopped && state != Connected then s.TryConnect(ch, timeoutMs)
        else s
      case Fire(id) =>
        var s := this.(pending := pending - {id});
        if pending[id].callback == Connect then s.TryConnect(ch, timeoutMs)
        else if client != Some(pending[id].callback.candidate) then s
        else s.Drop().Retry(ch)
      case ClientConnected(c) =>
        if client != Some(c) || stopped then this
        else Clear().(attempt := 0, delays := [], state := Connected)
      case ClientDisconnected(c) =>
        var s := this.(live := live - {c});
        if client != Some(c) || stopped then s
        else s.(client := None).Clear().Retry(ch)
      case Elapse(ms) => this.(now := now + ms)
    }

    // -------------------------------------------------------------- the five modes

    predicate IsStopped() {
      stopped && client == None && pending == map[]
    }

    predicate IsOffline() {
      !stopped && !online && client == None && pending == map[]
    }

    predicate IsConnecting() {
      && !stopped && online && client.Some? && deadline.Some?
      && pending.Keys == {deadline.value} && pending[deadline.value].callback == Deadline(client.value)
    }

    predicate IsConnected() {
      !stopped && online && client.Some? && pending == map[]
    }

    predicate IsReconnecting() {
      && !stopped && online && client == None && retryTimer.Some?
      && pending.Keys == {retryTimer.value} && pending[retryTimer.value].callback == Connect
    }

    /** The mode the controller publishes is the mode it is in. */
    predicate InPublishedMode() {
      match state
      case Stopped => IsStopped()
      case Offline => IsOffline()
      case Connecting => IsConnecting()
      case Connected => IsConnected()
      case Reconnecting => IsReconnecting()
    }

    predicate Inv(timeoutMs: nat) {
      && InPublishedMode()
      // the owned client is the only live one
      && live == (if client.Some? then {client.value} else {})
      && (client.Some? ==> client.value < made)
      // timer ids are never reused
      && (forall id :: id in pending ==> id < timers)
      && (retryTimer.Some? ==> retryTimer.value < timers) && (deadline.Some? ==> deadline.value < timers)
      // the backoff counter counts the delays scheduled since it was reset
      && attempt == |delays| && BackoffDelays(delays)
      // nothing is scheduled further ahead than it should be
      && (forall id :: id in pending ==>
            pending[id].due <= now + if pending[id].callback == Connect then 10249 else timeoutMs)
    }

    /** The published mode is the only one that holds. */
    lemma ExactlyOneMode(timeoutMs: nat)
      requires Inv(timeoutMs)
      ensures IsStopped() <==> state == Stopped
      ensures IsOffline() <==> state == Offline
      ensures IsConnecting() <==> state == Connecting
      ensures IsConnected() <==> state == Connected
      ensures IsReconnecting() <==> state == Reconnecting
    {
      if IsConnecting() { assert deadline.value in pending; }
      if IsReconnecting() { assert retryTimer.value in pending; }
      if state == Connecting { assert deadline.value in pending; }
      if state == Reconnecting { assert retryTimer.value in pending; }
    }

    lemma BackoffRange(n: nat)
      ensures 1000 <= Backoff(n) <= 10000
    {
      var k := Min(n, 4);
      assert Pow2(0) == 1 && Pow2(1) == 2 && Pow2(2) == 4 && Pow2(3) == 8 && Pow2(4) == 16;
      assert k == 0 || k == 1 || k == 2 || k == 3 || k == 4;
    }

    /** Clearing leaves no timer pending, because every pending timer is tracked. */
    lemma ClearEmpties(timeoutMs: nat)
      requires Inv(timeoutMs)
      ensures Clear().pending == map[]
    {
      assert Clear().pending.Keys == {};
    }

    lemma RetryInv(ch: Choice, timeoutMs: nat)
      requires Possible(ch) && !stopped && online && client == None && pending == map[] && live == {}
      requires attempt == |delays| && BackoffDelays(delays) && (deadline.Some? ==> deadline.value < timers)
      ensures Retry(ch).Inv(timeoutMs) && Retry(ch).state == Reconnecting
    {
      BackoffRange(attempt);
      var t := Retry(ch);
      assert t.pending.Keys == {timers};
      assert BackoffDelays(t.delays);
    }

    /** Connecting from any state whose timers are all tracked and whose only live client is its own. */
    lemma TryConnectInv(ch: Choice, timeoutMs: nat)
      requires Possible(ch) && !stopped && Clear().pending == map[]
      requires live == (if client.Some? then {client.value} else {})
      requires attempt == |delays| && BackoffDelays(delays)
      ensures TryConnect(ch, timeoutMs).Inv(timeoutMs)
    {
      var s := Clear().Drop();
      assert s.live == {} && s.pending == map[];
      if online {
        var t := s.(state := Connecting, tried := tried + 1);
        if ch.throws {
          assert t.Drop() == t;
          t.RetryInv(ch, timeoutMs);
        } else {
          var u := TryConnect(ch, timeoutMs);
          assert u.pending.Keys == {timers};
          assert u.live == {made};
        }
      }
    }

    lemma FireInv(id: nat, ch: Choice, timeoutMs: nat)
      requires Inv(timeoutMs) && Enabled(Fire(id)) && Possible(ch)
      ensures Step(Fire(id), ch, timeoutMs).Inv(timeoutMs)
    {
      var s := this.(pending := pending - {id});
      assert id in pending.Keys;
      assert s.pending == map[] && s.Clear().pending == map[];
      if pending[id].callback == Connect {
        s.TryConnectInv(ch, timeoutMs);
      } else {
        s.Drop().RetryInv(ch, timeoutMs);
      }
    }

    lemma DisconnectedInv(c: nat, ch: Choice, timeoutMs: nat)
      requires Inv(timeoutMs) && c < made && Possible(ch)
      ensures Step(ClientDisconnected(c), ch, timeoutMs).Inv(timeoutMs)
    {
      ClearEmpties(timeoutMs);
      if client == Some(c) && !stopped {
        var s := this.(live := live - {c}, client := None).Clear();
        assert s.live == {};
        s.RetryInv(ch, timeoutMs);
      } else {
        assert live - {c} == live;
      }
    }

    /** Every step from a good state ends in a good state. */
    lemma StepInv(e: Event, ch: Choice, timeoutMs: nat)
      requires Inv(timeoutMs) && Enabled(e) && Possible(ch)
      ensures Step(e, ch, timeoutMs).Inv(timeoutMs)
    {
      ClearEmpties(timeoutMs);
      match e
      case Start => this.(stopped := false).TryConnectInv(ch, timeoutMs);
      case Stop =>
      case Reconnect => this.(stopped := false, attempt := 0, delays := []).TryConnectInv(ch, timeoutMs);
      case SetOnline(value) =>
        if value && !stopped && state != Connected {
          this.(online := value).TryConnectInv(ch, timeoutMs);
        }
      case Fire(id) => FireInv(id, ch, timeoutMs);
      case ClientConnected(c) =>
      case ClientDisconnected(c) => DisconnectedInv(c, ch, timeoutMs);
      case Elapse(_) =>
    }
  }

  const INITIAL := Viewer(None, None, None, 0, true, true, Stopped, map[], 0, {}, 0, 0, 0, [])

  // ---------------------------------------------------------------- what each event does

  /** Milliseconds before a retry, without the random part. */
  const DELAYS := [1000, 2000, 4000, 8000, 10000]

  lemma BackoffTable(n: nat)
    ensures Backoff(n) == DELAYS[if n < 4 then n else 4]
  {
    assert Pow2(0) == 1 && Pow2(1) == 2 && Pow2(2) == 4 && Pow2(3) == 8 && Pow2(4) == 16;
    assert n == 0 || n == 1 || n == 2 || n == 3 || Min(n, 4) == 4;
  }

  /** A retry is on its way, and nothing else, after `counter` retries since the backoff was reset. */
  predicate Waiting(s: Viewer, t: Viewer, counter: nat, ch: Choice) {
    && t.state == Reconnecting && !t.stopped && t.online && t.client == None && t.live == {} && t.attempt == counter + 1
    && t.pending == map[s.timers := Timer(Connect, s.now + DELAYS[if counter < 4 then counter else 4] + ch.jitter)]
  }

  /** No client and no timer. */
  predicate Idle(s: Viewer) {
    s.client == None && s.live == {} && s.pending == map[]
  }

  /** An attempt was made when online: it has a new client and its deadline, or, if the constructor threw, a retry on
      its way. Offline nothing goes on. */
  predicate Attempted(s: Viewer, t: Viewer, counter: nat, ch: Choice, timeoutMs: nat) {
    && !t.stopped && t.now == s.now
    && (if !t.online then
          t.state == Offline && Idle(t) && t.tried == s.tried && t.made == s.made && t.attempt == counter
        else
          && t.tried == s.tried + 1
          && (if ch.throws then t.made == s.made && Waiting(s, t, counter, ch)
              else
                && t.state == Connecting && t.client == Some(s.made) && t.made == s.made + 1 && t.live == {s.made}
                && t.attempt == counter
                && t.pending == map[s.timers := Timer(Deadline(s.made), s.now + timeoutMs)]))
  }

  /** Nothing was attempted and no time passed. */
  predicate NoAttempt(s: Viewer, t: Viewer) {
    t.tried == s.tried && t.made == s.made && t.now == s.now
  }

  lemma TryAttempts(s: Viewer, ch: Choice, timeoutMs: nat)
    requires !s.stopped && s.Clear().pending == map[]
    requires s.live == (if s.client.Some? then {s.client.value} else {})
    ensures Attempted(s, s.TryConnect(ch, timeoutMs), s.attempt, ch, timeoutMs)
    ensures s.TryConnect(ch, timeoutMs).online == s.online
  {
    BackoffTable(s.attempt);
    var u := s.Clear().Drop();
    assert Idle(u);
  }

  /** `start` leaves the backoff counter alone and tries to connect, whatever the controller was doing. */
  lemma StartConnects(s: Viewer, ch: Choice, timeoutMs: nat)
    requires s.Inv(timeoutMs) && Possible(ch)
    ensures
      var t := s.Step(Start, ch, timeoutMs);
      t.online == s.online && Attempted(s, t, s.attempt, ch, timeoutMs)
  {
    s.ClearEmpties(timeoutMs);
    TryAttempts(s.(stopped := false), ch, timeoutMs);
  }

  /** `reconnect` starts the backoff over. */
  lemma ReconnectConnects(s: Viewer, ch: Choice, timeoutMs: nat)
    requires s.Inv(timeoutMs) && Possible(ch)
    ensures
      var t := s.Step(Reconnect, ch, timeoutMs);
      t.online == s.online && Attempted(s, t, 0, ch, timeoutMs)
  {
    s.ClearEmpties(timeoutMs);
    TryAttempts(s.(stopped := false, attempt := 0, delays := []), ch, timeoutMs);
  }

  lemma StopStops(s: Viewer, ch: Choice, timeoutMs: nat)
    requires s.Inv(timeoutMs)
    ensures
      var t := s.Step(Stop, ch, timeoutMs);
      t.stopped && t.state == Stopped && Idle(t) && t.online == s.online && t.attempt == s.attempt && NoAttempt(s, t)
  {
    s.ClearEmpties(timeoutMs);
  }

  /** When the network returns, a controller that is neither stopped nor connected tries to connect. */
  lemma OnlineConnects(s: Viewer, ch: Choice, timeoutMs: nat)
    requires s.Inv(timeoutMs) && Possible(ch)
    ensures
      var t := s.Step(SetOnline(true), ch, timeoutMs);
      && t.online
      && (if s.stopped || s.state == Connected then t == s.(online := true)
          else Attempted(s, t, s.attempt, ch, timeoutMs))
  {
    s.ClearEmpties(timeoutMs);
    if !s.stopped && s.state != Connected {
      TryAttempts(s.(online := true), ch, timeoutMs);
    }
  }

  /** When the network goes away, everything is given up. */
  lemma OfflineGivesUp(s: Viewer, ch: Choice, timeoutMs: nat)
    requires s.Inv(timeoutMs)
    ensures
      var t := s.Step(SetOnline(false), ch, timeoutMs);
      && !t.online && Idle(t) && t.stopped == s.stopped && t.attempt == s.attempt && NoAttempt(s, t)
      && t.state == if s.stopped then Stopped else Offline
  {
    s.ClearEmpties(timeoutMs);
  }

  /** The retry timer makes the next attempt; a deadline drops the silent client and schedules a retry. */
  lemma TimersAct(s: Viewer, id: nat, ch: Choice, timeoutMs: nat)
    requires s.Inv(timeoutMs) && s.Enabled(Fire(id)) && Possible(ch)
    ensures
      var t := s.Step(Fire(id), ch, timeoutMs);
      t.online &&
      if s.state == Reconnecting then Attempted(s, t, s.attempt, ch, timeoutMs)
      else s.state == Connecting && Waiting(s, t, s.attempt, ch) && NoAttempt(s, t)
  {
    assert id in s.pending.Keys;
    var u := s.(pending := s.pending - {id});
    assert u.pending == map[] && u.Clear().pending == map[];
    BackoffTable(s.attempt);
    if s.state == Reconnecting { TryAttempts(u, ch, timeoutMs); }
  }

  /** A handshake that succeeds settles the connection and the backoff. */
  lemma ConnectedSettles(s: Viewer, ch: Choice, timeoutMs: nat)
    requires s.Inv(timeoutMs) && s.client.Some?
    ensures s.Enabled(ClientConnected(s.client.value))
    ensures
      var t := s.Step(ClientConnected(s.client.value), ch, timeoutMs);
      && t.state == Connected && t.client == s.client && t.live == s.live && t.pending == map[] && t.attempt == 0
      && !t.stopped && t.online && NoAttempt(s, t)
  {
    s.ClearEmpties(timeoutMs);
  }

  /** A client that is lost is forgotten and a retry scheduled. */
  lemma DisconnectedRetries(s: Viewer, ch: Choice, timeoutMs: nat)
    requires s.Inv(timeoutMs) && s.client.Some? && Possible(ch)
    ensures s.Enabled(ClientDisconnected(s.client.value))
    ensures
      var t := s.Step(ClientDisconnected(s.client.value), ch, timeoutMs);
      Waiting(s, t, s.attempt, ch) && NoAttempt(s, t)
  {
    s.ClearEmpties(timeoutMs);
    BackoffTable(s.attempt);
    var u := s.(live := s.live - {s.client.value}, client := None).Clear();
    assert Idle(u);
  }

  // ---------------------------------------------------------------- runs

  datatype Action = Action(event: Event, choice: Choice)

  /** Every action of the run can happen when its turn comes. */
  predicate Runs(s: Viewer, run: seq<Action>, timeoutMs: nat)
    decreases |run|
  {
    run == [] ||
    (s.Enabled(run[0].event) && Possible(run[0].choice) &&
     Runs(s.Step(run[0].event, run[0].choice, timeoutMs), run[1..], timeoutMs))
  }

  function End(s: Viewer, run: seq<Action>, timeoutMs: nat): Viewer
    requires Runs(s, run, timeoutMs)
    decreases |run|
  {
    if run == [] then s else End(s.Step(run[0].event, run[0].choice, timeoutMs), run[1..], timeoutMs)
  }

  lemma {:induction false} RunInv(s: Viewer, run: seq<Action>, timeoutMs: nat)
    requires s.Inv(timeoutMs) && Runs(s, run, timeoutMs)
    ensures End(s, run, timeoutMs).Inv(timeoutMs)
    decreases |run|
  {
    if run != [] {
      s.StepInv(run[0].event, run[0].choice, timeoutMs);
      RunInv(s.Step(run[0].event, run[0].choice, timeoutMs), run[1..], timeoutMs);
    }
  }

  /** After any run: exactly one mode, the published one; no timer pending that the controller does not track; an
      online controller that is not stopped has a client or a retry on its way; at most one live client, its own. */
  lemma ReachableStates(run: seq<Action>, timeoutMs: nat)
    requires Runs(INITIAL, run, timeoutMs)
    ensures
      var s := End(INITIAL, run, timeoutMs);
      && s.InPublishedMode()
      && (s.IsStopped() <==> s.state == Stopped) && (s.IsOffline() <==> s.state == Offline)
      && (s.IsConnecting() <==> s.state == Connecting) && (s.IsConnected() <==> s.state == Connected)
      && (s.IsReconnecting() <==> s.state == Reconnecting)
      && (forall id :: id in s.pending ==> s.retryTimer == Some(id) || s.deadline == Some(id))
      && (s.online && !s.stopped ==> s.client.Some? || (s.retryTimer.Some? && s.retryTimer.value in s.pending))
      && (forall c :: c in s.live <==> s.client == Some(c))
  {
    assert INITIAL.Inv(timeoutMs);
    RunInv(INITIAL, run, timeoutMs);
    var s := End(INITIAL, run, timeoutMs);
    s.ExactlyOneMode(timeoutMs);
    if s.state == Reconnecting {
      assert s.retryTimer.value in s.pending.Keys;
    }
  }

  /** Nothing that belongs to a replaced candidate has any effect, and no deadline of one is ever pending. */
  lemma StaleEventsAreIgnored(run: seq<Action>, c: nat, ch: Choice, timeoutMs: nat)
    requires Runs(INITIAL, run, timeoutMs)
    requires c < End(INITIAL, run, timeoutMs).made && End(INITIAL, run, timeoutMs).client != Some(c)
    ensures
      var s := End(INITIAL, run, timeoutMs);
      && s.Step(ClientConnected(c), ch, timeoutMs) == s
      && s.Step(ClientDisconnected(c), ch, timeoutMs) == s
      && (forall id :: id in s.pending ==> s.pending[id].callback != Deadline(c))
  {
    assert INITIAL.Inv(timeoutMs);
    RunInv(INITIAL, run, timeoutMs);
    var s := End(INITIAL, run, timeoutMs);
    assert s.live - {c} == s.live;
  }

  /** The backoff counter is the number of retries since the last connection or manual reconnect, and their total
      delay lies between the closed form and 249 ms per retry above it. */
  lemma BackoffOfAnyRun(run: seq<Action>, timeoutMs: nat)
    requires Runs(INITIAL, run, timeoutMs)
    ensures
      var s := End(INITIAL, run, timeoutMs);
      && s.attempt == |s.delays|
      && TotalBackoff(s.attempt) <= Sum(s.delays) <= TotalBackoff(s.attempt) + 249 * s.attempt
  {
    assert INITIAL.Inv(timeoutMs);
    RunInv(INITIAL, run, timeoutMs);
    TotalDelay(End(INITIAL, run, timeoutMs).delays);
  }

  // ---------------------------------------------------------------- time

  /** Only time passing and timers firing, with no timer left waiting past its due time. */
  predicate Silent(s: Viewer, run: seq<Action>, timeoutMs: nat)
    requires Runs(s, run, timeoutMs)
    decreases |run|
  {
    run == [] ||
    ((match run[0].event
      case Elapse(ms) => forall id :: id in s.pending ==> s.now + ms <= s.pending[id].due
      case Fire(_) => true
      case _ => false) &&
     Silent(s.Step(run[0].event, run[0].choice, timeoutMs), run[1..], timeoutMs))
  }

  /** The latest time by which the next connection attempt is due. */
  function Horizon(s: Viewer, timeoutMs: nat): nat
    requires s.Inv(timeoutMs) && (s.state == Connecting || s.state == Reconnecting)
  {
    if s.state == Connecting then s.pending[s.deadline.value].due + 10249 else s.pending[s.retryTimer.value].due
  }

  lemma SilentStep(s: Viewer, a: Action, timeoutMs: nat)
    requires s.Inv(timeoutMs) && (s.state == Connecting || s.state == Reconnecting)
    requires forall id :: id in s.pending ==> s.now <= s.pending[id].due
    requires Runs(s, [a], timeoutMs) && Silent(s, [a], timeoutMs)
    ensures
      var t := s.Step(a.event, a.choice, timeoutMs);
      && t.Inv(timeoutMs) && s.tried <= t.tried
      && (t.tried == s.tried ==>
            && (t.state == Connecting || t.state == Reconnecting)
            && (forall id :: id in t.pending ==> t.now <= t.pending[id].due)
            && Horizon(t, timeoutMs) <= Horizon(s, timeoutMs))
  {
    s.StepInv(a.event, a.choice, timeoutMs);
    s.BackoffRange(s.attempt);
    if a.event.Fire? {
      assert a.event.timer in s.pending.Keys;
    }
  }

  lemma StepTries(s: Viewer, e: Event, ch: Choice, timeoutMs: nat)
    requires s.Enabled(e)
    ensures s.tried <= s.Step(e, ch, timeoutMs).tried
  {
  }

  lemma {:induction false} TriedNeverFalls(s: Viewer, run: seq<Action>, timeoutMs: nat)
    requires Runs(s, run, timeoutMs)
    ensures s.tried <= End(s, run, timeoutMs).tried
    decreases |run|
  {
    if run != [] {
      StepTries(s, run[0].event, run[0].choice, timeoutMs);
      TriedNeverFalls(s.Step(run[0].event, run[0].choice, timeoutMs), run[1..], timeoutMs);
    }
  }

  lemma {:induction false} AttemptBeforeHorizon(s: Viewer, run: seq<Action>, timeoutMs: nat)
    requires s.Inv(timeoutMs) && (s.state == Connecting || s.state == Reconnecting)
    requires forall id :: id in s.pending ==> s.now <= s.pending[id].due
    requires Runs(s, run, timeoutMs) && Silent(s, run, timeoutMs)
    ensures End(s, run, timeoutMs).now > Horizon(s, timeoutMs) ==> End(s, run, timeoutMs).tried > s.tried
    decreases |run|
  {
    if run != [] {
      assert [run[0]][1..] == [];
      SilentStep(s, run[0], timeoutMs);
      var t := s.Step(run[0].event, run[0].choice, timeoutMs);
      if t.tried == s.tried {
        AttemptBeforeHorizon(t, run[1..], timeoutMs);
      } else {
        TriedNeverFalls(t, run[1..], timeoutMs);
      }
    }
  }

  /** A controller that is trying to connect and hears nothing makes a new attempt within the handshake timeout
      plus the longest delay, whatever the environment chooses. */
  lemma SilentControllerTriesAgain(s: Viewer, run: seq<Action>, timeoutMs: nat)
    requires s.Inv(timeoutMs) && (s.state == Connecting || s.state == Reconnecting)
    requires forall id :: id in s.pending ==> s.now <= s.pending[id].due
    requires Runs(s, run, timeoutMs) && Silent(s, run, timeoutMs)
    requires End(s, run, timeoutMs).now > s.now + timeoutMs + 10249
    ensures End(s, run, timeoutMs).tried > s.tried
  {
    AttemptBeforeHorizon(s, run, timeoutMs);
    assert Awaited(s, timeoutMs) in s.pending;
  }

  /** The timer that a controller trying to connect waits for. */
  function Awaited(s: Viewer, timeoutMs: nat): nat
    requires s.Inv(timeoutMs) && (s.state == Connecting || s.state == Reconnecting)
    ensures Awaited(s, timeoutMs) in s.pending && s.pending.Keys == {Awaited(s, timeoutMs)}
  {
    if s.state == Connecting then s.deadline.value else s.retryTimer.value
  }

  /** Firings that can follow one another without time passing. */
  function Rank(s: Viewer, timeoutMs: nat): nat
    requires s.Inv(timeoutMs) && (s.state == Connecting || s.state == Reconnecting)
  {
    if s.now < s.pending[Awaited(s, timeoutMs)].due then 0 else if s.state == Connecting then 1 else 2
  }

  /** A due timer that fires starts the next attempt or schedules it. */
  lemma FireRank(s: Viewer, ch: Choice, timeoutMs: nat)
    requires s.Inv(timeoutMs) && (s.state == Connecting || s.state == Reconnecting) && Possible(ch)
    requires s.pending[Awaited(s, timeoutMs)].due == s.now
    ensures
      var t := s.Step(Fire(Awaited(s, timeoutMs)), ch, timeoutMs);
      && t.Inv(timeoutMs) && (t.state == Connecting || t.state == Reconnecting) && t.now == s.now
      && t.now <= t.pending[Awaited(t, timeoutMs)].due && Rank(t, timeoutMs) < Rank(s, timeoutMs)
  {
    s.StepInv(Fire(Awaited(s, timeoutMs)), ch, timeoutMs);
    s.BackoffRange(s.attempt);
  }

  lemma Prepend(s: Viewer, a: Action, run: seq<Action>, timeoutMs: nat) returns (longer: seq<Action>)
    requires s.Enabled(a.event) && Possible(a.choice)
    requires Runs(s.Step(a.event, a.choice, timeoutMs), run, timeoutMs)
    requires Silent(s.Step(a.event, a.choice, timeoutMs), run, timeoutMs)
    requires
      a.event.Fire? || (a.event.Elapse? && forall id :: id in s.pending ==> s.now + a.event.ms <= s.pending[id].due)
    ensures Runs(s, longer, timeoutMs) && Silent(s, longer, timeoutMs)
    ensures End(s, longer, timeoutMs) == End(s.Step(a.event, a.choice, timeoutMs), run, timeoutMs)
  {
    longer := [a] + run;
    assert longer[1..] == run;
  }

  /** Silence never stops time: whatever the environment chooses, some silent run takes the controller to any later
      moment. */
  lemma {:induction false} SilentRunsGoOn(s: Viewer, ms: nat, ch: Choice, timeoutMs: nat) returns (run: seq<Action>)
    requires s.Inv(timeoutMs) && (s.state == Connecting || s.state == Reconnecting) && Possible(ch)
    requires s.now <= s.pending[Awaited(s, timeoutMs)].due
    ensures Runs(s, run, timeoutMs) && Silent(s, run, timeoutMs) && End(s, run, timeoutMs).now == s.now + ms
    decreases ms, Rank(s, timeoutMs)
  {
    var wait := s.pending[Awaited(s, timeoutMs)].due - s.now;
    if ms == 0 {
      run := [];
    } else if wait == 0 {
      var a := Action(Fire(Awaited(s, timeoutMs)), ch);
      FireRank(s, ch, timeoutMs);
      run := SilentRunsGoOn(s.Step(a.event, ch, timeoutMs), ms, ch, timeoutMs);
      run := Prepend(s, a, run, timeoutMs);
    } else {
      var a := Action(Elapse(if wait < ms then wait else ms), ch);
      s.StepInv(a.event, ch, timeoutMs);
      run := SilentRunsGoOn(s.Step(a.event, ch, timeoutMs), ms - a.event.ms, ch, timeoutMs);
      run := Prepend(s, a, run, timeoutMs);
    }
  }

  // ---------------------------------------------------------------- when nothing may happen

  /** A stopped controller stays silent until `start` or `reconnect`: no attempt, no timer, no client. */
  lemma {:induction false} StoppedStaysSilent(s: Viewer, run: seq<Action>, timeoutMs: nat)
    requires s.Inv(timeoutMs) && s.state == Stopped && Runs(s, run, timeoutMs)
    requires forall a :: a in run ==> !a.event.Start? && !a.event.Reconnect?
    ensures
      var t := End(s, run, timeoutMs);
      t.state == Stopped && t.tried == s.tried && t.made == s.made && t.pending == map[] && t.live == {}
    decreases |run|
  {
    if run != [] {
      assert run[0] in run;
      s.StepInv(run[0].event, run[0].choice, timeoutMs);
      StoppedStaysSilent(s.Step(run[0].event, run[0].choice, timeoutMs), run[1..], timeoutMs);
    }
  }

  lemma OfflineStep(s: Viewer, e: Event, ch: Choice, timeoutMs: nat)
    requires s.Inv(timeoutMs) && !s.online && s.Enabled(e) && Possible(ch) && e != SetOnline(true)
    ensures
      var t := s.Step(e, ch, timeoutMs);
      t.Inv(timeoutMs) && t.tried == s.tried && !t.online
  {
    s.StepInv(e, ch, timeoutMs);
    assert s.pending == map[] && s.client == None;
    var t := s.Clear().Drop();
    assert t.tried == s.tried && !t.online;
    match e
    case Start => assert s.(stopped := false).TryConnect(ch, timeoutMs).tried == s.tried;
    case Reconnect =>
      assert s.(stopped := false, attempt := 0, delays := []).TryConnect(ch, timeoutMs).tried == s.tried;
    case _ =>
  }

  lemma BackOnline(s: Viewer, ch: Choice, timeoutMs: nat)
    requires s.Inv(timeoutMs) && !s.online && Possible(ch)
    ensures s.Step(SetOnline(true), ch, timeoutMs).tried == s.tried + (if s.stopped then 0 else 1)
  {
  }

  /** An offline controller makes no attempt while the network stays away, and one at once when it returns, unless it
      has been stopped. */
  lemma {:induction false} OfflineWaits(s: Viewer, run: seq<Action>, ch: Choice, timeoutMs: nat)
    requires s.Inv(timeoutMs) && !s.online && Runs(s, run, timeoutMs) && Possible(ch)
    requires forall a :: a in run ==> a.event != SetOnline(true)
    ensures
      var t := End(s, run, timeoutMs);
      && t.tried == s.tried && t.pending == map[] && t.live == {} && !t.online
      && t.Step(SetOnline(true), ch, timeoutMs).tried == t.tried + (if t.stopped then 0 else 1)
    decreases |run|
  {
    if run == [] {
      BackOnline(s, ch, timeoutMs);
    } else {
      assert run[0] in run;
      OfflineStep(s, run[0].event, run[0].choice, timeoutMs);
      OfflineWaits(s.Step(run[0].event, run[0].choice, timeoutMs), run[1..], ch, timeoutMs);
    }
  }

  // ---------------------------------------------------------------- the controller as written

  /** The closure returned by `createBrowserConnection`, with the environment it is given. */
  class BrowserConnection {
    var client: Option<nat>
    var retryTimer: Option<nat>
    var deadline: Option<nat>
    var attempt: nat
    var stopped: bool
    var online: bool
    var state: Phase
    const timeoutMs: nat

    var pending: map<nat, Timer>
    var timers: nat
    var live: set<nat>
    var made: nat
    var tried: nat
    var now: nat
    ghost var delays: seq<nat>

    ghost function Abs(): Viewer
      reads this
    {
      Viewer(client, retryTimer, deadline, attempt, stopped, online, state,
             pending, timers, live, made, tried, now, delays)
    }

    ghost predicate Valid()
      reads this
    {
      Abs().Inv(timeoutMs)
    }

    constructor (timeoutMs: nat)
      ensures Valid() && Abs() == INITIAL && this.timeoutMs == timeoutMs
    {
      client, retryTimer, deadline, attempt := None, None, None, 0;
      stopped, online, state := true, true, Stopped;
      this.timeoutMs := timeoutMs;
      pending, timers, live, made, tried, now, delays := map[], 0, {}, 0, 0, 0, [];
    }

    method SetTimer(callback: Callback, delay: nat) returns (id: nat)
      modifies this`pending, this`timers
      ensures id == old(timers) && timers == old(timers) + 1
      ensures pending == old(pending)[id := Timer(callback, now + delay)]
    {
      id := timers;
      pending := pending[id := Timer(callback, now + delay)];
      timers := timers + 1;
    }

    method ClearTimer(id: Option<nat>)
      modifies this`pending
      ensures pending == old(pending) - (if id.Some? then {id.value} else {})
    {
      if id.Some? { pending := pending - {id.value}; }
    }

    method Clear()
      modifies this
      ensures Abs() == old(Abs()).Clear()
    {
      ClearTimer(retryTimer);
      ClearTimer(deadline);
      retryTimer, deadline := None, None;
    }

    method Drop()
      modifies this
      ensures Abs() == old(Abs()).Drop()
    {
      var old' := client;
      client := None;
      if old'.Some? { live := live - {old'.value}; }
    }

    method Retry(ch: Choice)
      modifies this
      ensures Abs() == old(Abs()).Retry(ch)
    {
      if stopped { return; }
      if !online {
        state := Offline;
        return;
      }
      var delay := Min(1000 * Pow2(Min(attempt, 4)), 10000) + ch.jitter;
      attempt := attempt + 1;
      state := Reconnecting;
      delays := delays + [delay];
      var id := SetTimer(Connect, delay);
      retryTimer := Some(id);
    }

    method Attach()
      modifies this
      ensures Abs() == old(Abs()).Attach(timeoutMs)
    {
      var candidate := made;
      made := made + 1;
      live := live + {candidate};
      client := Some(candidate);
      var id := SetTimer(Deadline(candidate), timeoutMs);
      deadline := Some(id);
    }

    method TryConnect(ch: Choice)
      modifies this
      ensures Abs() == old(Abs()).TryConnect(ch, timeoutMs)
    {
      Clear();
      Drop();
      if stopped { return; }
      if !online {
        state := Offline;
        return;
      }
      state := Connecting;
      tried := tried + 1;
      if ch.throws {
        Drop();
        Retry(ch);
      } else {
        Attach();
      }
    }

    // The interface, and the callbacks of timers and clients. Each ensures the whole new state.

    method Start(ch: Choice)
      requires Valid() && Possible(ch)
      modifies this
      ensures Valid() && Abs() == old(Abs()).Step(Event.Start, ch, timeoutMs)
    {
      Abs().StepInv(Event.Start, ch, timeoutMs);
      stopped := false;
      TryConnect(ch);
    }

    method Stop(ghost ch: Choice)
      requires Valid() && Possible(ch)
      modifies this
      ensures Valid() && Abs() == old(Abs()).Step(Event.Stop, ch, timeoutMs)
    {
      Abs().StepInv(Event.Stop, ch, timeoutMs);
      stopped := true;
      Clear();
      Drop();
      state := Stopped;
    }

    method Reconnect(ch: Choice)
      requires Valid() && Possible(ch)
      modifies this
      ensures Valid() && Abs() == old(Abs()).Step(Event.Reconnect, ch, timeoutMs)
    {
      Abs().StepInv(Event.Reconnect, ch, timeoutMs);
      stopped, attempt := false, 0;
      delays := [];
      TryConnect(ch);
    }

    method SetOnline(value: bool, ch: Choice)
      requires Valid() && Possible(ch)
      modifies this
      ensures Valid() && Abs() == old(Abs()).Step(Event.SetOnline(value), ch, timeoutMs)
    {
      Abs().StepInv(Event.SetOnline(value), ch, timeoutMs);
      online := value;
      if !value {
        Clear();
        Drop();
        if !stopped { state := Offline; }
      } else if !stopped && state != Connected {
        TryConnect(ch);
      }
    }

    method OnTimer(id: nat, ch: Choice)
      requires Valid() && Possible(ch) && Abs().Enabled(Fire(id))
      modifies this
      ensures Valid() && Abs() == old(Abs()).Step(Fire(id), ch, timeoutMs)
    {
      Abs().StepInv(Fire(id), ch, timeoutMs);
      var callback := pending[id].callback;
      pending := pending - {id};
      match callback
      case Connect => TryConnect(ch);
      case Deadline(candidate) =>
        if client != Some(candidate) { return; }
        Drop();
        Retry(ch);
    }

    method OnClientConnected(candidate: nat, ghost ch: Choice)
      requires Valid() && Possible(ch) && candidate < made
      modifies this
      ensures Valid() && Abs() == old(Abs()).Step(ClientConnected(candidate), ch, timeoutMs)
    {
      Abs().StepInv(ClientConnected(candidate), ch, timeoutMs);
      if client != Some(candidate) || stopped { return; }
      Clear();
      attempt := 0;
      delays := [];
      state := Connected;
    }

    method OnClientDisconnected(candidate: nat, ch: Choice)
      requires Valid() && Possible(ch) && candidate < made
      modifies this
      ensures Valid() && Abs() == old(Abs()).Step(ClientDisconnected(candidate), ch, timeoutMs)
    {
      Abs().StepInv(ClientDisconnected(candidate), ch, timeoutMs);
      live := live - {candidate};
      if client != Some(candidate) || stopped { return; }
      client := None;
      Clear();
      Retry(ch);
    }
  }
}
