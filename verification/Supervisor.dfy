/** The simulator supervisor of supervisor.py: a polling loop that keeps native processes attached to the active
    Core and starts a new generation of them when the target, a process or the data session is lost. */
module Supervisor {
  import opened Text

  datatype Target = Target(core: string, node: string)

  /** A process that was started; its number is its position. */
  datatype Process = Process(generation: nat, alive: bool)

  datatype CoreStatus = Unreachable | Status(target: Target, ready: bool, clustered: bool, leader: bool)

  /** Listing the session addresses can fail. */
  datatype Addresses = Unreadable | Count(n: nat)

  /** What one poll finds: the Core; the addresses before the decision; how many of the commands started and whether
      one raised; the processes that exit before the end of the poll; and the addresses at its end. */
  datatype Poll = Poll(
    core: CoreStatus, before: Addresses, started: nat, raised: bool, exits: set<nat>, after: Addresses)

  /** What happens to the loop; `Shutdown` is leaving it after a signal, with the final stop. */
  datatype Event = Polled(poll: Poll) | Exited(pid: nat) | Slept(seconds: nat) | Shutdown

  /** A launch: its target, how many commands were started, and whether it raised. */
  datatype Launched = Launched(target: Target, started: nat, raised: bool)

  /** Number of commands a generation consists of, and of addresses it must obtain. */
  datatype Settings = Settings(commands: nat, expected: nat)

  predicate Possible(p: Poll, cfg: Settings) {
    p.started <= cfg.commands && (!p.raised ==> p.started == cfg.commands)
  }

  /** The loop's variables, every process ever started, the clock, and the last launch. */
  datatype Loop = Loop(
    current: Option<Target>, startedAt: nat, misses: nat, children: seq<nat>, generation: nat, ready: bool,
    stopping: bool, processes: seq<Process>, now: nat, lastLaunch: Option<Launched>)
  {
    predicate Alive(pid: nat) {
      pid < |processes| && processes[pid].alive
    }

    predicate AllAlive() {
      forall pid :: pid in children ==> Alive(pid)
    }

    function Exit(pids: set<nat>): Loop {
      this.(processes := seq(|processes|, i requires 0 <= i < |processes| =>
        if i in pids then processes[i].(alive := false) else processes[i]))
    }

    /** Signals the children, waits for each of them, kills those that do not leave. */
    function Stop(): Loop {
      Exit(set pid | pid in children).(ready := false, children := [])
    }

    function Miss(): Loop {
      var s := this.(ready := false, misses := misses + 1);
      if s.misses >= 3 && children != [] then s.Stop().(current := None) else s
    }

    function Spawn(n: nat): Loop {
      this.(processes := processes + seq(n, i => Process(generation, true)),
            children := children + seq(n, i => |processes| + i))
    }

    /** The Core counts as active when it is ready and, in a cluster, leads it. */
    predicate Active(c: CoreStatus) {
      c.Status? && c.ready && (!c.clustered || c.leader)
    }

    /** Whether a poll that found the Core active starts a new generation; None when the addresses were needed for the
        decision and could not be read. */
    function MustLaunch(p: Poll): Option<bool>
      requires p.core.Status?
    {
      if current != Some(p.core.target) || !AllAlive() then Some(true)
      else if children == [] then Some(false)
      else if p.before.Unreadable? then None
      else Some(p.before.n == 0 && now - startedAt > 120)
    }

    /** Stops what runs and starts a new generation against the poll's target. */
    function Launch(p: Poll): Loop
      requires p.core.Status?
    {
      Stop().(current := Some(p.core.target), startedAt := now, generation := generation + 1,
              lastLaunch := Some(Launched(p.core.target, p.started, p.raised)))
        .Spawn(p.started)
    }

    function Finish(p: Poll, cfg: Settings): Loop {
      var s := Exit(p.exits);
      if p.after.Unreadable? then s.Miss() else s.(ready := p.after.n >= cfg.expected && s.AllAlive())
    }

    function Polling(p: Poll, cfg: Settings): Loop {
      if !Active(p.core) then Exit(p.exits).Miss()
      else
        var s := this.(misses := 0);
        match s.MustLaunch(p)
        case None => s.Exit(p.exits).Miss()
        case Some(launch) =>
          if !launch then s.Finish(p, cfg)
          else if p.raised then s.Launch(p).Exit(p.exits).Miss()
          else s.Launch(p).Finish(p, cfg)
    }

    /** Once the loop has been left, it polls no more. */
    function Step(e: Event, cfg: Settings): Loop {
      match e
      case Polled(p) => if stopping then this else Polling(p, cfg)
      case Exited(pid) => Exit({pid})
      case Slept(seconds) => this.(now := now + seconds)
      case Shutdown => Stop().(stopping := true)
    }

    // -------------------------------------------------------------- what always holds

    /** Only children live, all of them of the current generation. */
    predicate Tracked() {
      && (forall pid :: pid in children ==> pid < |processes| && processes[pid].generation == generation)
      && (forall pid :: 0 <= pid < |processes| && processes[pid].alive ==> pid in children)
    }

    /** While a target is recorded, the children are what the last launch, against that target, started: every command
        unless it raised. A launch that started nothing stays on record. */
    predicate Recorded(cfg: Settings) {
      && (lastLaunch.Some? && !lastLaunch.value.raised ==> lastLaunch.value.started == cfg.commands)
      && (lastLaunch.Some? && lastLaunch.value.started == 0 ==> current == Some(lastLaunch.value.target))
      && (current.Some? && !stopping ==>
            lastLaunch.Some? && lastLaunch.value.target == current.value && |children| == lastLaunch.value.started)
      && (current.None? || stopping ==> children == [] && !ready)
    }

    predicate Inv(cfg: Settings) {
      Tracked() && Recorded(cfg)
    }

    lemma StopTracks()
      requires Tracked()
      ensures Stop().Tracked()
      ensures forall pid :: 0 <= pid < |Stop().processes| ==> !Stop().processes[pid].alive
    {
    }

    lemma ExitInv(pids: set<nat>, cfg: Settings)
      requires Inv(cfg)
      ensures Exit(pids).Inv(cfg)
    {
    }

    lemma MissInv(cfg: Settings)
      requires Inv(cfg)
      ensures Miss().Inv(cfg) && !Miss().ready && Miss().generation == generation && Miss().lastLaunch == lastLaunch
    {
      this.(ready := false, misses := misses + 1).StopTracks();
    }

    lemma LaunchInv(p: Poll, cfg: Settings)
      requires Inv(cfg) && !stopping && p.core.Status? && Possible(p, cfg)
      ensures Launch(p).Inv(cfg) && Launch(p).generation == generation + 1
      ensures |Launch(p).children| == p.started && !Launch(p).ready
    {
      StopTracks();
      var s, t := Stop(), Launch(p);
      assert t.children == seq(p.started, i => |s.processes| + i);
      forall pid | 0 <= pid < |t.processes| && t.processes[pid].alive ensures pid in t.children {
        assert pid >= |s.processes|;
        assert t.children[pid - |s.processes|] == pid;
      }
    }

    lemma FinishInv(p: Poll, cfg: Settings)
      requires Inv(cfg) && !stopping && current.Some?
      ensures Finish(p, cfg).Inv(cfg) && Finish(p, cfg).generation == generation
      ensures Finish(p, cfg).lastLaunch == lastLaunch
      ensures Finish(p, cfg).ready <==> p.after.Count? && p.after.n >= cfg.expected && Exit(p.exits).AllAlive()
      ensures Finish(p, cfg).ready ==> Finish(p, cfg).children == children && Finish(p, cfg).AllAlive()
    {
      ExitInv(p.exits, cfg);
      Exit(p.exits).MissInv(cfg);
    }

    /** The four ways in which a poll fails: the Core is not active; the addresses cannot be read for the decision; the
        launch raises; the addresses cannot be read at the end. */
    predicate Fails(p: Poll) {
      || !Active(p.core)
      || MustLaunch(p).None?
      || (MustLaunch(p) == Some(true) && p.raised)
      || p.after.Unreadable?
    }

    /** A poll raises the generation by one exactly when it launches, and otherwise leaves it alone. When it leaves the
        simulator ready, the Core it saw was active, the addresses sufficed, every child was alive and, unless the last
        launch raised, every command has its child. A poll that fails never leaves it ready. */
    lemma PollInv(p: Poll, cfg: Settings)
      requires Inv(cfg) && !stopping && Possible(p, cfg)
      ensures
        var t := Polling(p, cfg);
        && t.Inv(cfg) && !t.stopping
        && t.generation == generation + (if Active(p.core) && MustLaunch(p) == Some(true) then 1 else 0)
        && (Fails(p) ==> !t.ready)
        && (t.ready ==> Active(p.core) && p.after.Count? && p.after.n >= cfg.expected && t.AllAlive())
        && (t.ready ==> t.current == Some(p.core.target) && t.lastLaunch.Some?)
        && (t.ready && !t.lastLaunch.value.raised ==> |t.children| == cfg.commands)
    {
      var s := this.(misses := 0);
      if !Active(p.core) {
        ExitInv(p.exits, cfg);
        Exit(p.exits).MissInv(cfg);
      } else {
        assert s.Inv(cfg) && s.MustLaunch(p) == MustLaunch(p);
        s.ActivePollInv(p, cfg);
      }
    }

    lemma ActivePollInv(p: Poll, cfg: Settings)
      requires Inv(cfg) && !stopping && Possible(p, cfg) && Active(p.core) && misses == 0
      ensures
        var t := Polling(p, cfg);
        && t.Inv(cfg) && !t.stopping
        && t.generation == generation + (if MustLaunch(p) == Some(true) then 1 else 0)
        && (Fails(p) ==> !t.ready)
        && (t.ready ==> p.after.Count? && p.after.n >= cfg.expected && t.AllAlive())
        && (t.ready ==> t.current == Some(p.core.target))
    {
      assert this.(misses := 0) == this;
      match MustLaunch(p)
      case None =>
        ExitInv(p.exits, cfg);
        Exit(p.exits).MissInv(cfg);
      case Some(launch) =>
        if launch {
          LaunchInv(p, cfg);
          LaunchedPollInv(Launch(p), p, cfg);
        } else {
          FinishInv(p, cfg);
        }
    }

    static lemma LaunchedPollInv(s: Loop, p: Poll, cfg: Settings)
      requires s.Inv(cfg) && !s.stopping && s.current.Some?
      ensures s.Exit(p.exits).Miss().Inv(cfg) && !s.Exit(p.exits).Miss().ready
      ensures s.Exit(p.exits).Miss().generation == s.generation
      ensures s.Finish(p, cfg).Inv(cfg) && s.Finish(p, cfg).generation == s.generation
      ensures s.Finish(p, cfg).ready ==> p.after.Count? && p.after.n >= cfg.expected && s.Finish(p, cfg).AllAlive()
    {
      s.ExitInv(p.exits, cfg);
      s.Exit(p.exits).MissInv(cfg);
      s.FinishInv(p, cfg);
    }

    lemma StepInv(e: Event, cfg: Settings)
      requires Inv(cfg) && (e.Polled? ==> Possible(e.poll, cfg))
      ensures Step(e, cfg).Inv(cfg) && generation <= Step(e, cfg).generation <= generation + 1
    {
      match e
      case Polled(p) => if !stopping { PollInv(p, cfg); }
      case Exited(pid) => ExitInv({pid}, cfg);
      case Slept(_) =>
      case Shutdown => StopTracks();
    }
  }

  const INITIAL := Loop(None, 0, 0, [], 0, false, false, [], 0, None)

  // ---------------------------------------------------------------- what makes a poll launch, and what that does

  /** A poll starts a new generation exactly when the Core is ready and, in a cluster, leads it, and it is another than
      the one recorded, or a child is not alive, or there are children, the addresses could be read, there is none, and
      the last launch is more than two minutes past. */
  lemma LaunchesExactly(s: Loop, p: Poll, cfg: Settings)
    ensures s.Polling(p, cfg).generation ==
            if p.core.Status? && p.core.ready && (!p.core.clustered || p.core.leader) &&
               (s.current != Some(p.core.target) ||
                (exists pid :: pid in s.children && !(pid < |s.processes| && s.processes[pid].alive)) ||
                (s.children != [] && p.before == Count(0) && s.now - s.startedAt > 120))
            then s.generation + 1 else s.generation
  {
  }

  /** With the same Core and all children alive, the session alone decides: exactly when its addresses are read and
      missing for more than two minutes is it restored. */
  lemma LostSessionRelaunches(s: Loop, p: Poll, cfg: Settings)
    requires p.core.Status? && p.core.ready && (!p.core.clustered || p.core.leader)
    requires s.current == Some(p.core.target) && s.children != [] && s.AllAlive()
    ensures s.Polling(p, cfg).generation == s.generation + 1 <==> p.before == Count(0) && s.now - s.startedAt > 120
  {
    LaunchesExactly(s, p, cfg);
  }

  lemma LaunchStarts(s: Loop, p: Poll)
    requires s.Tracked() && p.core.Status?
    ensures
      var t := s.Launch(p);
      && t.current == Some(p.core.target) && t.startedAt == s.now && t.now == s.now && t.misses == s.misses
      && |t.processes| == |s.processes| + p.started && |t.children| == p.started
      && (forall i :: 0 <= i < p.started ==> t.children[i] == |s.processes| + i)
      && (forall pid :: 0 <= pid < |s.processes| ==> !t.processes[pid].alive)
      && (forall pid :: |s.processes| <= pid < |t.processes| ==> t.processes[pid] == Process(t.generation, true))
  {
    s.StopTracks();
    assert s.Launch(p).children == seq(p.started, i => |s.processes| + i);
  }

  /** A launch ends every process there was, starts as many as it gets to, all new, and records target and time.
      Later in the same poll processes may only exit. */
  lemma LaunchReplaces(s: Loop, p: Poll, cfg: Settings)
    requires s.Inv(cfg) && !s.stopping && Possible(p, cfg) && s.Polling(p, cfg).generation == s.generation + 1
    ensures
      var t := s.Polling(p, cfg);
      && p.core.Status? && t.current == Some(p.core.target) && t.startedAt == s.now && t.now == s.now
      && |t.processes| == |s.processes| + p.started && |t.children| == p.started
      && (forall i :: 0 <= i < p.started ==> t.children[i] == |s.processes| + i)
      && (forall pid :: 0 <= pid < |s.processes| ==> !t.processes[pid].alive)
      && (forall pid :: |s.processes| <= pid < |t.processes| ==>
            t.processes[pid].generation == t.generation && (t.processes[pid].alive <==> pid !in p.exits))
  {
    s.PollInv(p, cfg);
    var u := s.(misses := 0);
    assert u.Inv(cfg) && u.MustLaunch(p) == Some(true);
    LaunchStarts(u, p);
  }

  /** A poll that launches nothing leaves the children, the target and the launch time alone, unless it is the third or
      a later failure in a row. */
  lemma QuietPollKeeps(s: Loop, p: Poll, cfg: Settings)
    requires s.Polling(p, cfg).generation == s.generation
    ensures
      var t := s.Polling(p, cfg);
      && t.startedAt == s.startedAt && |t.processes| == |s.processes|
      && ((t.children == s.children && t.current == s.current) ||
          (s.misses >= 2 && t.children == [] && t.current == None))
  {
  }

  /** A poll leaves the simulator ready exactly when the Core was ready and in the lead, neither reading the addresses
      for the decision nor the launch failed, enough addresses were read at the end, and every child was alive. */
  lemma ReadyExactly(s: Loop, p: Poll, cfg: Settings)
    requires s.Inv(cfg) && !s.stopping && Possible(p, cfg)
    ensures
      var t := s.Polling(p, cfg);
      t.ready <==>
        && p.core.Status? && p.core.ready && (!p.core.clustered || p.core.leader)
        && !(s.current == Some(p.core.target) && s.AllAlive() && s.children != [] && p.before.Unreadable?)
        && !(t.generation > s.generation && p.raised)
        && p.after.Count? && p.after.n >= cfg.expected && t.AllAlive()
  {
    s.PollInv(p, cfg);
    var u := s.(misses := 0);
    if s.Active(p.core) && s.MustLaunch(p) == Some(false) {
      assert u.Inv(cfg);
      u.FinishInv(p, cfg);
    } else if s.Active(p.core) && s.MustLaunch(p) == Some(true) {
      u.LaunchInv(p, cfg);
      u.Launch(p).FinishInv(p, cfg);
    }
  }

  // ---------------------------------------------------------------- runs

  predicate Runs(run: seq<Event>, cfg: Settings) {
    forall e :: e in run && e.Polled? ==> Possible(e.poll, cfg)
  }

  function End(s: Loop, run: seq<Event>, cfg: Settings): Loop
    decreases |run|
  {
    if run == [] then s else End(s.Step(run[0], cfg), run[1..], cfg)
  }

  lemma {:induction false} RunInv(s: Loop, run: seq<Event>, cfg: Settings)
    requires s.Inv(cfg) && Runs(run, cfg)
    ensures End(s, run, cfg).Inv(cfg)
    decreases |run|
  {
    if run != [] {
      assert run[0] in run;
      s.StepInv(run[0], cfg);
      RunInv(s.Step(run[0], cfg), run[1..], cfg);
    }
  }

  /** In any run no two generations are ever alive together. */
  lemma OneGenerationAlive(run: seq<Event>, cfg: Settings, a: nat, b: nat)
    requires Runs(run, cfg)
    ensures
      var s := End(INITIAL, run, cfg);
      s.Alive(a) && s.Alive(b) ==> s.processes[a].generation == s.processes[b].generation == s.generation
  {
    RunInv(INITIAL, run, cfg);
  }

  // ---------------------------------------------------------------- what survives and what does not

  /** A poll that gives no reason to restart `target`: the Core is not active, or it is the same target and, once two
      minutes have passed, the session addresses are there (or cannot be read). */
  predicate Quiet(s: Loop, p: Poll, target: Target) {
    p.exits == {} &&
    (s.Active(p.core) ==> p.core.target == target && (p.before == Count(0) ==> s.now - s.startedAt <= 120))
  }

  /** Misses after a quiet poll. */
  function MissesAfter(s: Loop, p: Poll): nat {
    if !s.Active(p.core) then s.misses + 1 else if p.before.Unreadable? || p.after.Unreadable? then 1 else 0
  }

  /** Quiet polls and passing time in which no three failures come in a row. */
  predicate Calm(s: Loop, run: seq<Event>, target: Target, cfg: Settings)
    decreases |run|
  {
    run == [] ||
    ((run[0].Slept? || (run[0].Polled? && Quiet(s, run[0].poll, target) && MissesAfter(s, run[0].poll) <= 2)) &&
     Calm(s.Step(run[0], cfg), run[1..], target, cfg))
  }

  lemma QuietPoll(s: Loop, p: Poll, target: Target, cfg: Settings)
    requires s.current == Some(target) && s.children != [] && s.AllAlive()
    requires Quiet(s, p, target) && MissesAfter(s, p) <= 2
    ensures
      var t := s.Polling(p, cfg);
      && t.generation == s.generation && t.children == s.children && t.processes == s.processes
      && t.current == s.current && t.AllAlive()
  {
    assert s.Exit({}).processes == s.processes;
    assert s.(misses := 0).Exit({}).processes == s.processes;
  }

  /** Live children survive any calm run, with their generation. */
  lemma {:induction false} ChildrenSurvive(s: Loop, run: seq<Event>, target: Target, cfg: Settings)
    requires s.current == Some(target) && s.children != [] && s.AllAlive() && Calm(s, run, target, cfg)
    ensures
      var t := End(s, run, cfg);
      t.generation == s.generation && t.children == s.children && t.AllAlive() && t.current == Some(target)
    decreases |run|
  {
    if run != [] {
      if run[0].Polled? { QuietPoll(s, run[0].poll, target, cfg); }
      ChildrenSurvive(s.Step(run[0], cfg), run[1..], target, cfg);
    }
  }

  lemma AfterMiss(s: Loop, p: Poll, cfg: Settings)
    requires s.Inv(cfg) && !s.Active(p.core)
    ensures
      var t := s.Polling(p, cfg);
      && t.Inv(cfg) && t.stopping == s.stopping && !t.ready && t.misses == s.misses + 1
      && (if s.children != [] && t.misses >= 3 then t.current == None && t.children == []
          else t.current == s.current && t.children == s.children)
  {
    s.ExitInv(p.exits, cfg);
    s.Exit(p.exits).MissInv(cfg);
  }

  /** Polls that do not find the Core active, while time passes and processes exit. */
  predicate Failing(s: Loop, run: seq<Event>) {
    forall e :: e in run ==> e.Slept? || e.Exited? || (e.Polled? && !s.Active(e.poll.core))
  }

  function Polls(run: seq<Event>): nat {
    if run == [] then 0 else (if run[0].Polled? then 1 else 0) + Polls(run[1..])
  }

  lemma FailingStep(s: Loop, e: Event, cfg: Settings)
    requires s.Inv(cfg) && !s.stopping && Failing(s, [e])
    ensures
      var t := s.Step(e, cfg);
      && t.Inv(cfg) && !t.stopping && t.misses == s.misses + (if e.Polled? then 1 else 0)
      && (if e.Polled? && s.children != [] && t.misses >= 3 then t.current == None && t.children == []
          else t.current == s.current && t.children == s.children)
      && (e.Polled? || !s.ready ==> !t.ready)
  {
    assert e in [e];
    match e
    case Polled(p) => AfterMiss(s, p, cfg);
    case Exited(pid) => s.ExitInv({pid}, cfg);
    case Slept(_) =>
  }

  lemma {:induction false} StoppedStaysStopped(s: Loop, run: seq<Event>, cfg: Settings)
    requires s.Inv(cfg) && !s.stopping && Failing(s, run) && s.children == [] && s.current == None && !s.ready
    ensures
      var t := End(s, run, cfg);
      t.Inv(cfg) && t.children == [] && t.current == None && !t.ready
    decreases |run|
  {
    if run != [] {
      FailingStep(s, run[0], cfg);
      StoppedStaysStopped(s.Step(run[0], cfg), run[1..], cfg);
    }
  }

  /** Three polls in a row that do not find the Core active, whatever else happens between them, stop all children and
      forget the target; and so it stays until the Core is active again. */
  lemma {:induction false} ThreeFailuresStop(s: Loop, run: seq<Event>, cfg: Settings)
    requires s.Inv(cfg) && Failing(s, run) && s.children != [] && s.misses + Polls(run) >= 3 && Polls(run) > 0
    ensures
      var t := End(s, run, cfg);
      && t.current == None && t.children == [] && !t.ready
      && forall pid :: 0 <= pid < |t.processes| ==> !t.processes[pid].alive
    decreases |run|
  {
    var t := s.Step(run[0], cfg);
    FailingStep(s, run[0], cfg);
    if t.children == [] {
      StoppedStaysStopped(t, run[1..], cfg);
    } else {
      ThreeFailuresStop(t, run[1..], cfg);
    }
  }

  /** A poll that finds the Core active launches when the target differs from the one last launched against (which is
      always so after three failures), or a child has exited. */
  lemma LossRelaunches(s: Loop, p: Poll, cfg: Settings)
    requires s.Inv(cfg) && !s.stopping && Possible(p, cfg) && s.Active(p.core)
    requires s.current != Some(p.core.target) || !s.AllAlive()
    ensures s.Polling(p, cfg).generation == s.generation + 1
    ensures s.Polling(p, cfg).current == Some(p.core.target)
  {
    s.PollInv(p, cfg);
  }

  // ---------------------------------------------------------------- the gap

  /** Without children, a poll launches exactly when it finds an active Core that is not the recorded target: neither
      failures nor time nor missing addresses matter. */
  lemma IdleLaunchesExactly(s: Loop, p: Poll, cfg: Settings)
    requires s.Inv(cfg) && !s.stopping && s.children == [] && Possible(p, cfg)
    ensures s.Polling(p, cfg).generation == s.generation + 1 <==> s.Active(p.core) && s.current != Some(p.core.target)
  {
    s.PollInv(p, cfg);
  }

  lemma IdlePoll(s: Loop, p: Poll, target: Target, cfg: Settings)
    requires s.current == Some(target) && s.children == [] && (s.Active(p.core) ==> p.core.target == target)
    ensures s.Polling(p, cfg).current == Some(target) && s.Polling(p, cfg).children == []
    ensures s.Polling(p, cfg).generation == s.generation
  {
  }

  /** Every active Core seen during the run is the given one. */
  predicate SameCore(s: Loop, run: seq<Event>, target: Target) {
    forall e :: e in run && e.Polled? && s.Active(e.poll.core) ==> e.poll.core.target == target
  }

  lemma {:induction false} StrandedStays(s: Loop, run: seq<Event>, target: Target, cfg: Settings)
    requires s.current == Some(target) && s.children == [] && SameCore(s, run, target)
    ensures End(s, run, cfg).generation == s.generation && End(s, run, cfg).children == []
    ensures End(s, run, cfg).current == Some(target)
    decreases |run|
  {
    if run != [] {
      assert run[0] in run;
      if run[0].Polled? { IdlePoll(s, run[0].poll, target, cfg); }
      var t := s.Step(run[0], cfg);
      forall e | e in run[1..] && e.Polled? && t.Active(e.poll.core) ensures e.poll.core.target == target {
        assert e in run && s.Active(e.poll.core);
      }
      StrandedStays(t, run[1..], target, cfg);
    }
  }

  /** A launch that raises before any process started records its target and leaves no child. */
  lemma RaisedLaunch(s: Loop, p: Poll, cfg: Settings)
    requires s.Inv(cfg) && !s.stopping && s.Active(p.core) && s.MustLaunch(p) == Some(true)
    requires p.raised && p.started == 0
    ensures
      var t := s.Polling(p, cfg);
      && t.current == Some(p.core.target) && t.children == [] && !t.ready
      && t.lastLaunch == Some(Launched(p.core.target, 0, true)) && t.generation == s.generation + 1
  {
  }

  /** When a launch raises before any process started, that target is never launched again: as long as every active
      Core seen is the same one, there is no process and no new generation, however long the run. */
  lemma FailedLaunchIsFinal(s: Loop, p: Poll, run: seq<Event>, cfg: Settings)
    requires s.Inv(cfg) && !s.stopping && s.Active(p.core) && s.MustLaunch(p) == Some(true)
    requires p.raised && p.started == 0
    requires SameCore(s, run, p.core.target)
    ensures
      var t := End(s.Polling(p, cfg), run, cfg);
      t.generation == s.generation + 1 && t.children == [] && t.current == Some(p.core.target)
  {
    RaisedLaunch(s, p, cfg);
    var t := s.Polling(p, cfg);
    forall e | e in run && e.Polled? && t.Active(e.poll.core) ensures e.poll.core.target == p.core.target {
      assert s.Active(e.poll.core);
    }
    StrandedStays(t, run, p.core.target, cfg);
  }

  /** After any run, a poll leaves the simulator ready with fewer processes than commands exactly when it has no reason
      to launch, enough session addresses are configured, no child has exited, and the last launch, against the same
      Core, raised having started that few. */
  lemma ReadyLacksProcessesExactly(run: seq<Event>, p: Poll, cfg: Settings)
    requires Runs(run, cfg) && !End(INITIAL, run, cfg).stopping && Possible(p, cfg)
    ensures
      var s := End(INITIAL, run, cfg);
      var t := s.Polling(p, cfg);
      t.ready && |t.children| < cfg.commands <==>
        && s.Active(p.core) && s.MustLaunch(p) == Some(false)
        && p.after.Count? && p.after.n >= cfg.expected && s.Exit(p.exits).AllAlive()
        && s.lastLaunch.Some? && s.lastLaunch.value.target == p.core.target
        && s.lastLaunch.value.raised && s.lastLaunch.value.started < cfg.commands
  {
    RunInv(INITIAL, run, cfg);
    var s := End(INITIAL, run, cfg);
    s.PollInv(p, cfg);
    if s.Active(p.core) && s.MustLaunch(p) == Some(false) {
      var u := s.(misses := 0);
      assert u.Inv(cfg) && u.Exit(p.exits).processes == s.Exit(p.exits).processes;
      u.FinishInv(p, cfg);
    } else if s.Active(p.core) && s.MustLaunch(p) == Some(true) && !p.raised {
      LaunchedWhole(s, p, cfg);
    }
  }

  lemma LaunchedWhole(s: Loop, p: Poll, cfg: Settings)
    requires s.Inv(cfg) && !s.stopping && Possible(p, cfg)
    requires s.Active(p.core) && s.MustLaunch(p) == Some(true) && !p.raised
    ensures s.Polling(p, cfg).lastLaunch == Some(Launched(p.core.target, cfg.commands, false))
    ensures s.Polling(p, cfg).ready ==> |s.Polling(p, cfg).children| == cfg.commands
  {
    s.PollInv(p, cfg);
  }

  /** After any run, a poll leaves the simulator ready without a single process exactly when the last launch, against
      the active Core it sees, raised before starting anything, and enough session addresses are configured. */
  lemma ReadyWithoutProcessesExactly(run: seq<Event>, p: Poll, cfg: Settings)
    requires Runs(run, cfg) && !End(INITIAL, run, cfg).stopping && Possible(p, cfg) && cfg.commands > 0
    ensures
      var s := End(INITIAL, run, cfg);
      var t := s.Polling(p, cfg);
      t.ready && t.children == [] <==>
        && s.Active(p.core) && s.lastLaunch == Some(Launched(p.core.target, 0, true))
        && p.after.Count? && p.after.n >= cfg.expected
  {
    RunInv(INITIAL, run, cfg);
    ReadyLacksProcessesExactly(run, p, cfg);
    var s := End(INITIAL, run, cfg);
    s.PollInv(p, cfg);
  }

  lemma EndOfTwo(s: Loop, a: Event, b: Event, cfg: Settings)
    ensures End(s, [a, b], cfg) == s.Step(a, cfg).Step(b, cfg)
  {
    var t := s.Step(a, cfg);
    assert [a, b][1..] == [b] && [b][1..] == [];
    assert End(t, [b], cfg) == End(t.Step(b, cfg), [], cfg);
  }

  /** Two polls of an active Core, in the first of which the launch raises at once, lead there. */
  lemma ReadyWithoutProcesses(target: Target, cfg: Settings) returns (run: seq<Event>)
    requires cfg.commands > 0
    ensures Runs(run, cfg)
    ensures End(INITIAL, run, cfg).ready && End(INITIAL, run, cfg).children == []
    ensures End(INITIAL, run, cfg).generation == 1
  {
    var core := Status(target, true, false, false);
    var first := Poll(core, Count(0), 0, true, {}, Count(0));
    var second := Poll(core, Count(0), cfg.commands, false, {}, Count(cfg.expected));
    run := [Polled(first), Polled(second)];
    RaisedLaunch(INITIAL, first, cfg);
    INITIAL.PollInv(first, cfg);
    var s := INITIAL.Polling(first, cfg);
    assert End(INITIAL, [Polled(first)], cfg) == s by { assert [Polled(first)][1..] == []; }
    ReadyWithoutProcessesExactly([Polled(first)], second, cfg);
    IdlePoll(s, second, target, cfg);
    EndOfTwo(INITIAL, run[0], run[1], cfg);
  }

  // ---------------------------------------------------------------- the loop as written

  class SupervisorLoop {
    var current: Option<Target>
    var startedAt: nat
    var misses: nat
    var children: seq<nat>
    var generation: nat
    var ready: bool
    var stopping: bool
    var processes: seq<Process>
    var now: nat
    var lastLaunch: Option<Launched>
    const cfg: Settings

    function Abs(): Loop
      reads this
    {
      Loop(current, startedAt, misses, children, generation, ready, stopping, processes, now, lastLaunch)
    }

    constructor (cfg: Settings)
      ensures Abs() == INITIAL && this.cfg == cfg
    {
      current, startedAt, misses, children := None, 0, 0, [];
      generation, ready, stopping, processes, now, lastLaunch := 0, false, false, [], 0, None;
      this.cfg := cfg;
    }

    /** What the environment does to processes while the loop is busy. */
    method LetExit(pids: set<nat>)
      modifies this`processes
      ensures Abs() == old(Abs()).Exit(pids)
    {
      processes := Abs().Exit(pids).processes;
    }

    method StopChildren()
      modifies this
      ensures Abs() == old(Abs()).Stop()
    {
      ready := false;
      ghost var before := processes;
      for i := 0 to |children|
        invariant children == old(children) && |processes| == |before|
        invariant Abs() == old(Abs()).(ready := false, processes := processes)
        invariant forall j :: 0 <= j < |processes| ==>
          processes[j] == if j in children[..i] then before[j].(alive := false) else before[j]
      {
        if children[i] < |processes| {
          processes := processes[children[i] := processes[children[i]].(alive := false)];
        }
      }
      assert children[..|children|] == children;
      assert processes == old(Abs()).Stop().processes;
      children := [];
    }

    method Missed()
      modifies this
      ensures Abs() == old(Abs()).Miss()
    {
      ready := false;
      misses := misses + 1;
      if misses >= 3 && children != [] {
        StopChildren();
        current := None;
      }
    }

    /** Starts the commands one after the other until one raises. */
    method Spawn(n: nat)
      modifies this
      ensures Abs() == old(Abs()).Spawn(n)
    {
      var first, g := |processes|, generation;
      for i := 0 to n
        invariant Abs() == old(Abs()).(processes := processes, children := children)
        invariant processes == old(processes) + seq(i, k => Process(g, true))
        invariant children == old(children) + seq(i, k => first + k)
      {
        assert seq(i + 1, k => first + k) == seq(i, k => first + k) + [first + i];
        assert seq(i + 1, k => Process(g, true)) == seq(i, k => Process(g, true)) + [Process(g, true)];
        children := children + [|processes|];
        processes := processes + [Process(generation, true)];
      }
      assert seq(n, k => first + k) == seq(n, i => |old(processes)| + i);
      assert seq(n, k => Process(g, true)) == seq(n, i => Process(old(generation), true));
    }

    method Relaunch(p: Poll)
      requires p.core.Status?
      modifies this
      ensures Abs() == old(Abs()).Launch(p)
    {
      StopChildren();
      current, startedAt := Some(p.core.target), now;
      generation, ready := generation + 1, false;
      lastLaunch := Some(Launched(p.core.target, p.started, p.raised));
      Spawn(p.started);
    }

    method Conclude(p: Poll)
      modifies this
      ensures Abs() == old(Abs()).Finish(p, cfg)
    {
      LetExit(p.exits);
      if p.after.Unreadable? {
        Missed();
      } else {
        ready := p.after.n >= cfg.expected && forall pid :: pid in children ==> Abs().Alive(pid);
      }
    }

    method Decide(p: Poll) returns (launch: Option<bool>)
      requires p.core.Status?
      ensures launch == Abs().MustLaunch(p)
    {
      if current != Some(p.core.target) || exists pid :: pid in children && !Abs().Alive(pid) { return Some(true); }
      if children == [] { return Some(false); }
      if p.before.Unreadable? { return None; }
      launch := Some(p.before.n == 0 && now - startedAt > 120);
    }

    /** The end of the loop after a signal. */
    method Leave()
      modifies this
      ensures Abs() == old(Abs()).Step(Shutdown, cfg)
    {
      StopChildren();
      stopping := true;
    }

    /** One iteration, which is only entered while no signal has come. */
    method PollOnce(p: Poll)
      requires Possible(p, cfg) && !stopping
      modifies this
      ensures Abs() == old(Abs()).Step(Polled(p), cfg)
    {
      if !Abs().Active(p.core) {
        LetExit(p.exits);
        Missed();
        return;
      }
      misses := 0;
      var launch := Decide(p);
      if launch.None? {
        LetExit(p.exits);
        Missed();
        return;
      }
      if launch.value {
        Relaunch(p);
        if p.raised {
          LetExit(p.exits);
          Missed();
          return;
        }
      }
      Conclude(p);
    }
  }
}
