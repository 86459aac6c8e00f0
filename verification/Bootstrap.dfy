/** The cluster bootstrap of bootstrap.py: a script that initialises a Core, joins its followers and provisions the
    services by GET, POST and PUT requests, and that may be stopped and started again at any point. */
module Bootstrap {
  import opened Text

  datatype Row<V> = Row(id: nat, value: V)

  /** A server table listed in order of its ids; new rows take ever larger ones. */
  datatype Table<V> = Table(rows: seq<Row<V>>, next: nat) {
    ghost predicate Valid() {
      && (forall i, j :: 0 <= i < j < |rows| ==> rows[i].id < rows[j].id)
      && (forall i :: 0 <= i < |rows| ==> rows[i].id < next)
    }

    function Post(v: V): Table<V> {
      Table(rows + [Row(next, v)], next + 1)
    }

    /** The PUT request addressed to the row with the given id. */
    function Put(id: nat, v: V): Table<V> {
      Table(seq(|rows|, i requires 0 <= i < |rows| => if rows[i].id == id then Row(id, v) else rows[i]), next)
    }

    /** Makes the i-th row hold `v`, or adds a row when there is no i-th one. */
    function Describe(i: nat, v: V): Table<V> {
      if i < |rows| then Table(rows[i := Row(rows[i].id, v)], next) else Post(v)
    }

    /** The first rows hold `values`, in order; rows are added when there are too few and none is lost. */
    function Overwritten(values: seq<V>): Table<V> {
      var added := if |values| < |rows| then 0 else |values| - |rows|;
      Table(seq(|rows| + added, i requires 0 <= i < |rows| + added =>
        Row(if i < |rows| then rows[i].id else next + (i - |rows|),
            if i < |values| then values[i] else rows[i].value)), next + added)
    }

    lemma PutDescribes(i: nat, v: V)
      requires Valid() && i < |rows|
      ensures Put(rows[i].id, v) == Describe(i, v)
    {
      assert Put(rows[i].id, v).rows == Describe(i, v).rows;
    }

    lemma DescribeValid(i: nat, v: V)
      requires Valid()
      ensures Describe(i, v).Valid()
    {
    }

    lemma OverwrittenValid(values: seq<V>)
      requires Valid()
      ensures Overwritten(values).Valid()
    {
    }

    lemma OverwrittenRow(values: seq<V>, i: nat)
      requires i < |Overwritten(values).rows|
      ensures |values| <= |Overwritten(values).rows|
      ensures var row := Overwritten(values).rows[i];
        && (i < |values| ==> row.value == values[i])
        && (i < |rows| ==> row.id == rows[i].id)
        && (|values| <= i ==> i < |rows| && row == rows[i])
    {
    }

    /** What a row held before is forgotten, whatever was written to it in between. */
    lemma DescribeThenOverwrite(i: nat, v: V, values: seq<V>)
      requires i < |values|
      ensures Describe(i, v).Overwritten(values) == Overwritten(values)
    {
      assert Describe(i, v).Overwritten(values).rows == Overwritten(values).rows;
    }

    lemma AlreadyOverwritten(values: seq<V>)
      requires |values| <= |rows| && forall i :: 0 <= i < |values| ==> rows[i].value == values[i]
      ensures Overwritten(values) == this
    {
      assert Overwritten(values).rows == rows;
    }
  }

  /** A cluster node, with the id and display name its status reports; id 0 stands for none. */
  datatype Member = Member(initialized: bool, nodeId: nat, displayName: string)

  datatype Network = Network(pool: string, dns: string, mtu: nat, ipv6: string, sessions: nat)

  /** The body of a request on a data network; absent fields are left empty by the server. */
  datatype NetworkBody = NetworkBody(pool: string, dns: string, mtu: nat, ipv6: Option<string>)

  datatype DiameterPeer = DiameterPeer(address: string, priority: nat)

  /** The remaining resources the script writes, each identified by its path. */
  datatype Key = OperatorId | Tracking | Profile | Slice | Policy(network: string) | Sms | ImsAddress | ImsOperator
               | SmscOperator | Delivery | RouteCx | RouteRx | RxPolicy | OtherResource(path: string)

  /** Everything the script can change in the cluster, the IMS and the SMS centre. */
  datatype Config = Config(
    members: seq<Member>, natOn: bool, settings: map<Key, string>, networks: map<string, Network>,
    smsc: Table<string>, diameter: Table<DiameterPeer>, subscribers: map<string, string>)

  /** What a Core holds right after `init`. */
  datatype Defaults = Defaults(natOn: bool, settings: map<Key, string>, networks: map<string, Network>)

  datatype Post = PostInit | PostLogin | PostToken | PostJoin | PostResource(key: Key) | PostNetwork(name: string)
                | PostSmscPeer | PostDiameterPeer | PostSubscriber(imsi: string)

  /** Result of part of a run: the configuration reached, the POST requests made, and whether an error stopped it. */
  datatype Effect = Effect(config: Config, posts: seq<Post>, raised: bool) {
    /** The same, preceded by requests made earlier. */
    function Following(earlier: seq<Post>): Effect {
      this.(posts := earlier + posts)
    }
  }

  datatype Step = Enter | Join(index: nat) | Rename(index: nat) | DisableNat | Put(key: Key) | Ensure(key: Key)
                | Provide(network: string) | Smsc | Peer(index: nat) | Enrol(imsi: string)

  /** The script's environment variables and constants. */
  datatype Plan = Plan(
    count: nat, clustered: bool, naming: bool, displayNames: seq<string>, gateway: bool, provision: bool,
    services: bool, reconcile: bool, networks: seq<string>, pools: map<string, string>, addresses: seq<string>,
    smsc: string, body: Key -> string, identities: seq<string>, numbers: map<string, string>, defaults: Defaults)
  {
    ghost predicate Valid() {
      && 0 < count == |displayNames| == |addresses|
      && (forall i :: 0 <= i < |networks| ==> networks[i] in pools)
      && (forall n :: n in pools ==> n in networks)
      && (forall i :: 0 <= i < |identities| ==> identities[i] in numbers)
      && (forall imsi :: imsi in numbers ==> imsi in identities)
    }

    predicate Usable(name: string) {
      Size(name) <= 63 && '{' !in name && '}' !in name
    }

    /** Resources written by every run. */
    predicate Rewrites(key: Key) {
      match key
      case OperatorId => true
      case Tracking => true
      case Slice => true
      case Profile => false
      case Policy(_) => false
      case OtherResource(_) => false
      case _ => services
    }

    /** Resources created when they are missing. */
    predicate Creates(key: Key) {
      match key
      case Profile => true
      case Slice => true
      case Policy(n) => n in pools
      case _ => false
    }

    function Keys(): set<Key> {
      {OperatorId, Tracking, Profile, Slice} +
      (if services then {Sms, ImsAddress, ImsOperator, SmscOperator, Delivery, RouteCx, RouteRx, RxPolicy} else {}) +
      (set n | n in pools :: Policy(n))
    }

    /** The steps of a complete run belong to exactly these. */
    predicate Plans(s: Step) {
      match s
      case Enter => true
      case Join(i) => clustered && i < count
      case Rename(i) => clustered && naming && i < count
      case DisableNat => gateway
      case Put(k) => provision && Rewrites(k)
      case Ensure(k) => provision && Creates(k)
      case Provide(n) => provision && n in pools
      case Smsc => provision && services
      case Peer(i) => provision && services && i < count
      case Enrol(imsi) => provision && imsi in numbers
    }

    function Provisions(ns: seq<string>): seq<Step> {
      if ns == [] then [] else [Provide(ns[0]), Ensure(Policy(ns[0]))] + Provisions(ns[1..])
    }

    lemma {:induction false} ProvisionsThen(a: seq<string>, b: seq<string>)
      ensures Provisions(a + b) == Provisions(a) + Provisions(b)
    {
      if a == [] {
        assert a + b == b;
      } else {
        assert (a + b)[0] == a[0] && (a + b)[1..] == a[1..] + b;
        ProvisionsThen(a[1..], b);
      }
    }

    lemma ProvisionsSplit(ns: seq<string>, i: nat, before: seq<Step>, was: seq<Step>, done: seq<Step>, ok: bool)
      requires i < |ns| && was == before + Provisions(ns[..i])
      requires done == was + [Provide(ns[i])] + if ok then [Ensure(Policy(ns[i]))] else []
      ensures ok ==> done == before + Provisions(ns[..i + 1])
      ensures done <= before + Provisions(ns)
    {
      ProvisionsThen(ns[..i], [ns[i]]);
      ProvisionsThen(ns[..i + 1], ns[i + 1..]);
      assert ns[..i + 1] == ns[..i] + [ns[i]] && ns[..i + 1] + ns[i + 1..] == ns;
      assert Provisions([ns[i]]) == [Provide(ns[i]), Ensure(Policy(ns[i]))] by { assert [ns[i]][1..] == []; }
    }

    function Services(): seq<Step> {
      [Put(Sms), Put(ImsAddress), Smsc, Put(ImsOperator), Put(SmscOperator), Put(Delivery)] +
      PeerSteps(count) + [Put(RouteCx), Put(RouteRx), Put(RxPolicy)]
    }

    function Basics(): seq<Step> {
      [Put(OperatorId), Put(Tracking), Ensure(Profile), Ensure(Slice), Put(Slice)]
    }

    function Enrolments(): seq<Step> {
      seq(|identities|, i requires 0 <= i < |identities| => Enrol(identities[i]))
    }

    lemma ServicesParts(before: seq<Step>)
      ensures before + Services() ==
              before + [Put(Sms), Put(ImsAddress), Smsc] + [Put(ImsOperator), Put(SmscOperator), Put(Delivery)] +
              (PeerSteps(count) + [Put(RouteCx), Put(RouteRx), Put(RxPolicy)])
    {
    }

    lemma EnrolmentsGrow(i: nat, before: seq<Step>)
      requires i < |identities|
      ensures before + Enrolments()[..i + 1] == before + Enrolments()[..i] + [Enrol(identities[i])]
      ensures Names(identities[..i + 1]) == Names(identities[..i]) + {identities[i]}
      ensures Names(identities[..i + 1]) <= Names(identities) && identities[i] in Names(identities)
    {
      assert identities[..i + 1] == identities[..i] + [identities[i]];
    }

    function Provisioning(): seq<Step> {
      Basics() + Provisions(networks) + (if services then Services() else []) + Enrolments()
    }

    lemma ProvisioningParts(before: seq<Step>, first: seq<Step>, second: seq<Step>)
      requires first == Basics() + Provisions(networks) && second == if services then Services() else []
      ensures before + Provisioning() == before + first + second + Enrolments()
      ensures before + first <= before + Provisioning()
    {
      Associate(before, first, second);
      Associate(before, first + second, Enrolments());
    }

    function Clustering(): seq<Step> {
      if clustered then Joins(count) + (if naming then Renames(count) else []) else []
    }

    function Configuring(): seq<Step> {
      (if gateway then [DisableNat] else []) + (if provision then Provisioning() else [])
    }

    /** What follows signing in, one step for each loop iteration or request that may change something. */
    function Rest(): seq<Step> {
      Clustering() + Configuring()
    }

    function Script(): seq<Step> {
      [Enter] + Rest()
    }
  }

  /** One run of the script: its environment, the node it talks to, and whether it may change existing networks, which
      is so when that node was not initialised at the start or reconciliation was asked for. */
  datatype Pass = Pass(plan: Plan, core: nat, settle: bool) {
    ghost predicate Valid() {
      plan.Valid() && core < plan.count
    }

    ghost predicate Fits(c: Config) {
      |c.members| == plan.count && c.smsc.Valid() && c.diameter.Valid()
    }

    ghost predicate Planned(steps: seq<Step>) {
      forall s :: s in steps ==> plan.Plans(s)
    }

    function PeerOf(i: nat): DiameterPeer
      requires i < |plan.addresses|
    {
      DiameterPeer(plan.addresses[i], if i == core then 10 else 20)
    }

    function Peers(): seq<DiameterPeer> {
      seq(|plan.addresses|, i requires 0 <= i < |plan.addresses| => PeerOf(i))
    }

    function Desired(n: string): NetworkBody
      requires n in plan.pools
    {
      NetworkBody(plan.pools[n], "8.8.8.8", 1500, None)
    }

    predicate Differs(n: string, current: Network)
      requires n in plan.pools
    {
      current.pool != Desired(n).pool || current.dns != Desired(n).dns || current.mtu != Desired(n).mtu
    }

    function Stored(body: NetworkBody, sessions: nat): Network {
      Network(body.pool, body.dns, body.mtu, if body.ipv6.None? then "" else body.ipv6.value, sessions)
    }

    /** The request body for a network that exists: its IPv6 pool is sent back. */
    function Amended(n: string, current: Network): NetworkBody
      requires n in plan.pools
    {
      if current.ipv6 != "" then Desired(n).(ipv6 := Some(current.ipv6)) else Desired(n)
    }

    /** Whether the step stops the run with an error. */
    predicate Blocks(s: Step, c: Config)
      requires |c.members| == plan.count == |plan.displayNames| && plan.Plans(s)
    {
      match s
      case Rename(i) => c.members[i].nodeId == 0 || !plan.Usable(plan.displayNames[i])
      case Provide(n) => n in c.networks && settle && c.networks[n].pool != plan.pools[n] && c.networks[n].sessions > 0
      case _ => false
    }

    function Seeded(c: Config): Config
      requires core < |c.members|
    {
      c.(members := c.members[core := c.members[core].(initialized := true)], natOn := plan.defaults.natOn,
         settings := c.settings + plan.defaults.settings, networks := c.networks + plan.defaults.networks)
    }

    function Entered(c: Config): Config
      requires core < |c.members|
    {
      if c.members[core].initialized then c else Seeded(c)
    }

    function ActProvide(n: string, c: Config): Effect
      requires n in plan.pools
    {
      if n !in c.networks then Effect(c.(networks := c.networks[n := Stored(Desired(n), 0)]), [PostNetwork(n)], false)
      else if settle && Differs(n, c.networks[n]) then
        if c.networks[n].pool != plan.pools[n] && c.networks[n].sessions > 0 then Effect(c, [], true)
        else
          var stored := Stored(Amended(n, c.networks[n]), c.networks[n].sessions);
          Effect(c.(networks := c.networks[n := stored]), [], false)
      else Effect(c, [], false)
    }

    /** What one step does; the services answer every request and readiness is always reached. */
    function Act(s: Step, c: Config): Effect
      requires |c.members| == plan.count == |plan.displayNames| == |plan.addresses|
      requires core < plan.count && plan.Plans(s)
    {
      match s
      case Enter => Effect(Entered(c), [if c.members[core].initialized then PostLogin else PostInit], false)
      case Join(i) =>
        if i == core || c.members[i].initialized then Effect(c, [], false)
        else Effect(c.(members := c.members[i := c.members[i].(initialized := true)]), [PostToken, PostJoin], false)
      case Rename(i) =>
        if c.members[i].nodeId == 0 || !plan.Usable(plan.displayNames[i]) then Effect(c, [], true)
        else Effect(c.(members := c.members[i := c.members[i].(displayName := plan.displayNames[i])]), [], false)
      case DisableNat => Effect(c.(natOn := false), [], false)
      case Put(k) => Effect(c.(settings := c.settings[k := plan.body(k)]), [], false)
      case Ensure(k) =>
        if k in c.settings then Effect(c, [], false)
        else Effect(c.(settings := c.settings[k := plan.body(k)]), [PostResource(k)], false)
      case Provide(n) => ActProvide(n, c)
      case Smsc =>
        var posts := if c.smsc.rows == [] then [PostSmscPeer] else [];
        Effect(c.(smsc := c.smsc.Describe(0, plan.smsc)), posts, false)
      case Peer(i) =>
        var posts := if i < |c.diameter.rows| then [] else [PostDiameterPeer];
        Effect(c.(diameter := c.diameter.Describe(i, PeerOf(i))), posts, false)
      case Enrol(imsi) =>
        if imsi in c.subscribers then Effect(c, [], false)
        else Effect(c.(subscribers := c.subscribers[imsi := plan.numbers[imsi]]), [PostSubscriber(imsi)], false)
    }

    lemma ActFits(s: Step, c: Config)
      requires Valid() && Fits(c) && plan.Plans(s)
      ensures Fits(Act(s, c).config)
    {
      if s.Smsc? { c.smsc.DescribeValid(0, plan.smsc); }
      if s.Peer? { c.diameter.DescribeValid(s.index, PeerOf(s.index)); }
    }

    /** Running steps one after the other until one fails. */
    ghost function Run(steps: seq<Step>, c: Config): Effect
      requires Valid() && Fits(c) && Planned(steps)
    {
      if steps == [] then Effect(c, [], false)
      else
        ActFits(steps[0], c);
        var e := Act(steps[0], c);
        if e.raised then e else Run(steps[1..], e.config).Following(e.posts)
    }

    lemma {:induction false} RunFits(steps: seq<Step>, c: Config)
      requires Valid() && Fits(c) && Planned(steps)
      ensures Fits(Run(steps, c).config)
    {
      if steps != [] {
        ActFits(steps[0], c);
        if !Act(steps[0], c).raised { RunFits(steps[1..], Act(steps[0], c).config); }
      }
    }

    lemma {:induction false} RunThen(a: seq<Step>, b: seq<Step>, c: Config)
      requires Valid() && Fits(c) && Planned(a) && Planned(b)
      ensures Planned(a + b) && Fits(Run(a, c).config)
      ensures Run(a + b, c) ==
              if Run(a, c).raised then Run(a, c) else Run(b, Run(a, c).config).Following(Run(a, c).posts)
    {
      RunFits(a, c);
      if a == [] {
        assert a + b == b;
      } else {
        assert (a + b)[0] == a[0] && (a + b)[1..] == a[1..] + b;
        ActFits(a[0], c);
        var e := Act(a[0], c);
        if !e.raised {
          RunThen(a[1..], b, e.config);
          var r := Run(a[1..], e.config);
          if !r.raised { Associate(e.posts, r.posts, Run(b, r.config).posts); }
        }
      }
    }

    /** A step that failed is one that blocks. */
    lemma RaisesWhenBlocked(s: Step, c: Config)
      requires Valid() && Fits(c) && plan.Plans(s)
      ensures Act(s, c).raised == Blocks(s, c)
    {
    }

    /** The step has nothing left to do. */
    ghost predicate Done(s: Step, c: Config)
      requires Valid() && Fits(c) && plan.Plans(s)
    {
      match s
      case Enter => c.members[core].initialized
      case Join(i) => i == core || c.members[i].initialized
      case Rename(i) => c.members[i].displayName == plan.displayNames[i]
      case DisableNat => !c.natOn
      case Put(k) => k in c.settings && c.settings[k] == plan.body(k)
      case Ensure(k) => k in c.settings
      case Provide(n) => n in c.networks && (settle ==> !Differs(n, c.networks[n]))
      case Smsc => c.smsc.rows != [] && c.smsc.rows[0].value == plan.smsc
      case Peer(i) => i < |c.diameter.rows| && c.diameter.rows[i].value == PeerOf(i)
      case Enrol(imsi) => imsi in c.subscribers
    }

    /** A Diameter peer is described after those of the lower ordinals. */
    predicate Ready(s: Step, c: Config) {
      s.Peer? ==> s.index <= |c.diameter.rows|
    }

    lemma ActDone(s: Step, c: Config)
      requires Valid() && Fits(c) && plan.Plans(s) && Ready(s, c) && !Act(s, c).raised
      ensures Fits(Act(s, c).config) && Done(s, Act(s, c).config)
    {
      ActFits(s, c);
    }

    lemma MembersStayDone(s: Step, t: Step, c: Config)
      requires Valid() && Fits(c) && plan.Plans(s) && plan.Plans(t) && c.members[core].initialized && Done(t, c)
      requires t.Enter? || t.Join? || t.Rename? || t.DisableNat?
      ensures Fits(Act(s, c).config) && Done(t, Act(s, c).config)
    {
      ActFits(s, c);
    }

    lemma TablesStayDone(s: Step, t: Step, c: Config)
      requires Valid() && Fits(c) && plan.Plans(s) && plan.Plans(t) && c.members[core].initialized && Done(t, c)
      requires t.Smsc? || t.Peer? || t.Enrol?
      ensures Fits(Act(s, c).config) && Done(t, Act(s, c).config)
    {
      ActFits(s, c);
    }

    lemma ResourcesStayDone(s: Step, t: Step, c: Config)
      requires Valid() && Fits(c) && plan.Plans(s) && plan.Plans(t) && c.members[core].initialized && Done(t, c)
      requires t.Put? || t.Ensure? || t.Provide?
      ensures Fits(Act(s, c).config) && Done(t, Act(s, c).config)
    {
      ActFits(s, c);
    }

    /** No step undoes what another one did. */
    lemma DoneStays(s: Step, t: Step, c: Config)
      requires Valid() && Fits(c) && plan.Plans(s) && plan.Plans(t) && c.members[core].initialized && Done(t, c)
      ensures Fits(Act(s, c).config) && Done(t, Act(s, c).config)
    {
      if t.Put? || t.Ensure? || t.Provide? {
        ResourcesStayDone(s, t, c);
      } else if t.Smsc? || t.Peer? || t.Enrol? {
        TablesStayDone(s, t, c);
      } else {
        MembersStayDone(s, t, c);
      }
    }

    /** A step with nothing left to do changes nothing; only signing in still takes a POST request. */
    lemma DoneIsIdle(s: Step, c: Config)
      requires Valid() && Fits(c) && plan.Plans(s) && Done(s, c) && !Blocks(s, c)
      ensures Act(s, c) == Effect(c, if s.Enter? then [PostLogin] else [], false)
    {
      match s
      case Rename(i) => assert Act(s, c).config.members == c.members;
      case Put(k) => assert Act(s, c).config.settings == c.settings;
      case Smsc => assert Act(s, c).config.smsc.rows == c.smsc.rows;
      case Peer(i) => assert Act(s, c).config.diameter.rows == c.diameter.rows;
      case _ =>
    }

    lemma BlocksStays(s: Step, t: Step, c: Config)
      requires Valid() && Fits(c) && plan.Plans(s) && plan.Plans(t) && c.members[core].initialized && !Act(s, c).raised
      ensures Fits(Act(s, c).config) && Blocks(t, Act(s, c).config) == Blocks(t, c)
    {
      ActFits(s, c);
    }

    // ---- The configuration a complete run is meant to reach, one component at a time ----

    function GoalMembers(members: seq<Member>): seq<Member>
      requires |members| == |plan.displayNames|
    {
      seq(|members|, i requires 0 <= i < |members| =>
        Member(members[i].initialized || plan.clustered, members[i].nodeId,
               if plan.clustered && plan.naming then plan.displayNames[i] else members[i].displayName))
    }

    function GoalSettings(settings: map<Key, string>): map<Key, string> {
      map k | k in settings.Keys + plan.Keys() ::
        if k !in settings || plan.Rewrites(k) then plan.body(k) else settings[k]
    }

    function GoalNetwork(n: string, networks: map<string, Network>): Network
      requires n in plan.pools
    {
      if n !in networks then Network(plan.pools[n], "8.8.8.8", 1500, "", 0)
      else if settle then networks[n].(pool := plan.pools[n], dns := "8.8.8.8", mtu := 1500)
      else networks[n]
    }

    function GoalNetworks(networks: map<string, Network>): map<string, Network> {
      map n | n in networks.Keys + plan.pools.Keys :: if n in plan.pools then GoalNetwork(n, networks) else networks[n]
    }

    /** For a Core that has been initialised: the configuration a complete run leaves behind. */
    function Goal(c: Config): Config
      requires |c.members| == |plan.displayNames|
    {
      Config(
        GoalMembers(c.members),
        c.natOn && !plan.gateway,
        if plan.provision then GoalSettings(c.settings) else c.settings,
        if plan.provision then GoalNetworks(c.networks) else c.networks,
        if plan.provision && plan.services then c.smsc.Overwritten([plan.smsc]) else c.smsc,
        if plan.provision && plan.services then c.diameter.Overwritten(Peers()) else c.diameter,
        if plan.provision then plan.numbers + c.subscribers else c.subscribers)
    }

    lemma PutKeepsGoal(k: Key, settings: map<Key, string>)
      requires plan.Rewrites(k) || (plan.Creates(k) && k !in settings)
      ensures GoalSettings(settings[k := plan.body(k)]) == GoalSettings(settings)
    {
      assert k in plan.Keys();
    }

    lemma ProvideKeepsGoal(n: string, c: Config)
      requires n in plan.pools
      ensures GoalNetworks(ActProvide(n, c).config.networks) == GoalNetworks(c.networks)
    {
    }

    lemma MembersKeepGoal(other: Pass, s: Step, c: Config)
      requires Valid() && Fits(c) && plan.Plans(s) && c.members[core].initialized && other == this.(core := other.core)
      ensures other.GoalMembers(Act(s, c).config.members) == other.GoalMembers(c.members)
      ensures (Act(s, c).config.natOn && !plan.gateway) == (c.natOn && !plan.gateway)
    {
    }

    lemma SettingsKeepGoal(other: Pass, s: Step, c: Config)
      requires Valid() && Fits(c) && plan.Plans(s) && c.members[core].initialized && other == this.(core := other.core)
      ensures other.GoalSettings(Act(s, c).config.settings) == other.GoalSettings(c.settings)
    {
      if s.Put? || (s.Ensure? && s.key !in c.settings) { other.PutKeepsGoal(s.key, c.settings); }
    }

    lemma NetworksKeepGoal(other: Pass, s: Step, c: Config)
      requires Valid() && Fits(c) && plan.Plans(s) && c.members[core].initialized && other == this.(core := other.core)
      ensures other.GoalNetworks(Act(s, c).config.networks) == other.GoalNetworks(c.networks)
    {
      if s.Provide? { other.ProvideKeepsGoal(s.network, c); }
    }

    lemma SubscribersKeepGoal(s: Step, c: Config)
      requires Valid() && Fits(c) && plan.Plans(s) && c.members[core].initialized
      ensures plan.numbers + Act(s, c).config.subscribers == plan.numbers + c.subscribers
    {
      if s.Enrol? && s.imsi !in c.subscribers {
        assert plan.numbers + c.subscribers[s.imsi := plan.numbers[s.imsi]] == plan.numbers + c.subscribers;
      }
    }

    lemma TablesKeepGoal(other: Pass, s: Step, c: Config)
      requires Valid() && Fits(c) && plan.Plans(s) && other == this.(core := other.core)
      ensures Act(s, c).config.smsc.Overwritten([plan.smsc]) == c.smsc.Overwritten([plan.smsc])
      ensures Act(s, c).config.diameter.Overwritten(other.Peers()) == c.diameter.Overwritten(other.Peers())
    {
      if s.Smsc? { c.smsc.DescribeThenOverwrite(0, plan.smsc, [plan.smsc]); }
      if s.Peer? { c.diameter.DescribeThenOverwrite(s.index, PeerOf(s.index), other.Peers()); }
    }

    /** Components that are not part of the plan are never touched. */
    lemma UnplannedStays(s: Step, c: Config)
      requires Valid() && Fits(c) && plan.Plans(s) && c.members[core].initialized
      ensures Fits(Act(s, c).config)
      ensures !plan.provision ==> c.settings == Act(s, c).config.settings && c.networks == Act(s, c).config.networks
      ensures !plan.provision ==> c.subscribers == Act(s, c).config.subscribers
      ensures !(plan.provision && plan.services) ==>
                c.smsc == Act(s, c).config.smsc && c.diameter == Act(s, c).config.diameter
    {
      ActFits(s, c);
    }

    lemma SameGoal(c: Config, d: Config)
      requires |c.members| == |d.members| == |plan.displayNames|
      requires GoalMembers(d.members) == GoalMembers(c.members)
      requires (d.natOn && !plan.gateway) == (c.natOn && !plan.gateway)
      requires if plan.provision then GoalSettings(d.settings) == GoalSettings(c.settings) else d.settings == c.settings
      requires if plan.provision then GoalNetworks(d.networks) == GoalNetworks(c.networks) else d.networks == c.networks
      requires if plan.provision then plan.numbers + d.subscribers == plan.numbers + c.subscribers
               else d.subscribers == c.subscribers
      requires if plan.provision && plan.services then
                 d.smsc.Overwritten([plan.smsc]) == c.smsc.Overwritten([plan.smsc]) &&
                 d.diameter.Overwritten(Peers()) == c.diameter.Overwritten(Peers())
               else d.smsc == c.smsc && d.diameter == c.diameter
      ensures Goal(d) == Goal(c)
    {
    }

    /** Every request of a run keeps the configuration a complete run would reach, even one led by another node. */
    lemma ActKeepsGoal(other: Pass, s: Step, c: Config)
      requires Valid() && Fits(c) && plan.Plans(s) && c.members[core].initialized && other == this.(core := other.core)
      ensures Fits(Act(s, c).config) && other.Goal(Act(s, c).config) == other.Goal(c)
    {
      UnplannedStays(s, c);
      MembersKeepGoal(other, s, c);
      SettingsKeepGoal(other, s, c);
      NetworksKeepGoal(other, s, c);
      SubscribersKeepGoal(s, c);
      TablesKeepGoal(other, s, c);
      other.SameGoal(c, Act(s, c).config);
    }

    // ---- Whole runs ----

    lemma {:induction false} RunKeepsGoal(other: Pass, steps: seq<Step>, c: Config)
      requires Valid() && Fits(c) && Planned(steps) && c.members[core].initialized && other == this.(core := other.core)
      ensures Fits(Run(steps, c).config) && Run(steps, c).config.members[core].initialized
      ensures other.Goal(Run(steps, c).config) == other.Goal(c)
    {
      if steps != [] {
        ActKeepsGoal(other, steps[0], c);
        DoneStays(steps[0], Enter, c);
        if !Act(steps[0], c).raised { RunKeepsGoal(other, steps[1..], Act(steps[0], c).config); }
      }
    }

    lemma {:induction false} RunKeepsDone(steps: seq<Step>, t: Step, c: Config)
      requires Valid() && Fits(c) && Planned(steps) && c.members[core].initialized && plan.Plans(t) && Done(t, c)
      ensures Fits(Run(steps, c).config) && Done(t, Run(steps, c).config)
    {
      if steps != [] {
        DoneStays(steps[0], t, c);
        DoneStays(steps[0], Enter, c);
        if !Act(steps[0], c).raised { RunKeepsDone(steps[1..], t, Act(steps[0], c).config); }
      }
    }

    lemma ActAddsRows(s: Step, n: nat, c: Config)
      requires Valid() && Fits(c) && plan.Plans(s) && Ready(s, c) && n <= |c.diameter.rows|
      ensures After(s, n) <= |Act(s, c).config.diameter.rows|
    {
    }

    /** Every step of a run that did not fail has been carried out at its end. */
    lemma {:induction false} RunDoes(steps: seq<Step>, n: nat, t: Step, c: Config)
      requires Valid() && Fits(c) && Planned(steps) && c.members[core].initialized && !Run(steps, c).raised
      requires n <= |c.diameter.rows| && InOrder(steps, n) && t in steps
      ensures Fits(Run(steps, c).config) && Done(t, Run(steps, c).config)
    {
      var d := Act(steps[0], c).config;
      ActDone(steps[0], c);
      DoneStays(steps[0], Enter, c);
      if t == steps[0] {
        RunKeepsDone(steps[1..], t, d);
      } else {
        ActAddsRows(steps[0], n, c);
        RunDoes(steps[1..], After(steps[0], n), t, d);
      }
    }

    /** A run fails exactly when one of its steps was blocked before it began. */
    lemma {:induction false} RunRaisesExactly(steps: seq<Step>, c: Config)
      requires Valid() && Fits(c) && Planned(steps) && c.members[core].initialized
      ensures Run(steps, c).raised <==> exists s :: s in steps && Blocks(s, c)
    {
      if steps != [] {
        RaisesWhenBlocked(steps[0], c);
        if !Act(steps[0], c).raised {
          var d := Act(steps[0], c).config;
          DoneStays(steps[0], Enter, c);
          RunRaisesExactly(steps[1..], d);
          forall s | s in steps ensures Blocks(s, d) == Blocks(s, c) { BlocksStays(steps[0], s, c); }
          assert forall s :: s in steps <==> s == steps[0] || s in steps[1..];
        }
      }
    }

    /** Once every step is carried out, a run finds nothing to do. */
    lemma {:induction false} RunIdles(steps: seq<Step>, c: Config)
      requires Valid() && Fits(c) && Planned(steps) && !Run(steps, c).raised && Enter !in steps
      requires forall s :: s in steps ==> Done(s, c)
      ensures Run(steps, c) == Effect(c, [], false)
    {
      if steps != [] {
        RaisesWhenBlocked(steps[0], c);
        DoneIsIdle(steps[0], c);
        RunIdles(steps[1..], c);
      }
    }

    // ---- Nothing left to do is the configuration aimed at ----

    lemma DoneMembers(c: Config)
      requires Valid() && Fits(c) && c.members[core].initialized
      requires forall s :: plan.Plans(s) ==> Done(s, c)
      ensures GoalMembers(c.members) == c.members && (c.natOn && !plan.gateway) == c.natOn
    {
      forall i | 0 <= i < plan.count ensures GoalMembers(c.members)[i] == c.members[i] {
        if plan.clustered { assert plan.Plans(Join(i)) && Done(Join(i), c); }
        if plan.clustered && plan.naming { assert plan.Plans(Rename(i)) && Done(Rename(i), c); }
      }
      if plan.gateway { assert plan.Plans(DisableNat) && Done(DisableNat, c); }
    }

    lemma KeysArePlanned(k: Key)
      ensures k in plan.Keys() <==> plan.Rewrites(k) || plan.Creates(k)
    {
    }

    lemma DoneSettings(c: Config)
      requires Valid() && Fits(c) && plan.provision
      requires forall s :: plan.Plans(s) ==> Done(s, c)
      ensures GoalSettings(c.settings) == c.settings
    {
      forall k | k in plan.Keys() ensures k in c.settings && (plan.Rewrites(k) ==> c.settings[k] == plan.body(k)) {
        KeysArePlanned(k);
        if plan.Rewrites(k) { assert plan.Plans(Put(k)) && Done(Put(k), c); }
        else { assert plan.Plans(Ensure(k)) && Done(Ensure(k), c); }
      }
      forall k | k in c.settings.Keys ensures GoalSettings(c.settings)[k] == c.settings[k] {
        if plan.Rewrites(k) { KeysArePlanned(k); }
      }
    }

    lemma DoneNetworks(c: Config)
      requires Valid() && Fits(c) && plan.provision
      requires forall s :: plan.Plans(s) ==> Done(s, c)
      ensures GoalNetworks(c.networks) == c.networks && plan.numbers + c.subscribers == c.subscribers
    {
      forall n | n in plan.pools ensures n in c.networks && GoalNetwork(n, c.networks) == c.networks[n] {
        assert plan.Plans(Provide(n)) && Done(Provide(n), c);
      }
      forall imsi | imsi in plan.numbers ensures imsi in c.subscribers {
        assert plan.Plans(Enrol(imsi)) && Done(Enrol(imsi), c);
      }
    }

    lemma DoneTables(c: Config)
      requires Valid() && Fits(c) && plan.provision && plan.services
      requires forall s :: plan.Plans(s) ==> Done(s, c)
      ensures c.smsc.Overwritten([plan.smsc]) == c.smsc && c.diameter.Overwritten(Peers()) == c.diameter
    {
      assert plan.Plans(Smsc) && Done(Smsc, c);
      c.smsc.AlreadyOverwritten([plan.smsc]);
      forall i | 0 <= i < plan.count ensures i < |c.diameter.rows| && c.diameter.rows[i].value == Peers()[i] {
        assert plan.Plans(Peer(i)) && Done(Peer(i), c);
      }
      var last := plan.count - 1;
      assert plan.Plans(Peer(last)) && Done(Peer(last), c);
      c.diameter.AlreadyOverwritten(Peers());
    }

    lemma DoneIsGoal(c: Config)
      requires Valid() && Fits(c) && c.members[core].initialized
      requires forall s :: plan.Plans(s) ==> Done(s, c)
      ensures Goal(c) == c
    {
      DoneMembers(c);
      if plan.provision {
        DoneSettings(c);
        DoneNetworks(c);
        if plan.services { DoneTables(c); }
      }
    }

    // ---- The complete script ----

    lemma {:induction false} ProvisionsHas(ns: seq<string>, s: Step)
      ensures s in plan.Provisions(ns) <==>
              (s.Provide? && s.network in ns) || (s.Ensure? && s.key.Policy? && s.key.network in ns)
    {
      if ns != [] { ProvisionsHas(ns[1..], s); }
    }

    lemma ProvisioningHas(s: Step)
      requires Valid() && plan.provision && plan.Plans(s)
      requires s.Put? || s.Ensure? || s.Provide? || s.Smsc? || s.Peer? || s.Enrol?
      ensures s in plan.Provisioning()
    {
      ProvisionsHas(plan.networks, s);
      if s.Peer? {
        assert PeerSteps(plan.count)[s.index] == s;
      }
      if s.Enrol? {
        var i :| 0 <= i < |plan.identities| && plan.identities[i] == s.imsi;
        assert plan.Enrolments()[i] == s;
      }
    }

    lemma RestHas(s: Step)
      requires Valid() && plan.Plans(s) && !s.Enter?
      ensures s in plan.Rest()
    {
      if s.Join? {
        assert Joins(plan.count)[s.index] == s;
      } else if s.Rename? {
        assert Renames(plan.count)[s.index] == s;
      } else if !s.DisableNat? {
        ProvisioningHas(s);
      }
    }

    lemma ServicesArePlanned(s: Step)
      requires Valid() && plan.provision && plan.services && s in plan.Services()
      ensures plan.Plans(s) && !s.Enter?
    {
    }

    lemma ProvisioningIsPlanned(s: Step)
      requires Valid() && plan.provision && s in plan.Provisioning()
      ensures plan.Plans(s) && !s.Enter?
    {
      if s in plan.Provisions(plan.networks) {
        ProvisionsHas(plan.networks, s);
      } else if plan.services && s in plan.Services() {
        ServicesArePlanned(s);
      } else if s in plan.Enrolments() {
        assert s.Enrol?;
      } else {
        assert s in plan.Basics();
      }
    }

    lemma RestIsPlanned(s: Step)
      requires Valid() && s in plan.Rest()
      ensures plan.Plans(s) && !s.Enter?
    {
      if plan.provision && s in plan.Provisioning() { ProvisioningIsPlanned(s); }
    }

    lemma ServicesInOrder()
      requires Valid()
      ensures InOrder(plan.Services(), 0)
    {
      var a := [Put(Sms), Put(ImsAddress), Smsc, Put(ImsOperator), Put(SmscOperator), Put(Delivery)];
      var peers := PeerSteps(plan.count);
      var b := [Put(RouteCx), Put(RouteRx), Put(RxPolicy)];
      InOrderWithoutPeers(a, 0);
      InOrderPeers(peers, 0);
      InOrderWithoutPeers(b, 0);
      InOrderThen(a, peers, 0);
      InOrderThen(a + peers, b, 0);
    }

    lemma RestInOrder()
      requires Valid()
      ensures InOrder(plan.Rest(), 0)
    {
      var a := if plan.gateway then [DisableNat] else [];
      InOrderWithoutPeers(a, 0);
      InOrderWithoutPeers(plan.Clustering(), 0);
      if plan.provision {
        var b := plan.Basics() + plan.Provisions(plan.networks);
        forall s | s in b ensures !s.Peer? { ProvisionsHas(plan.networks, s); }
        var d := plan.Enrolments();
        InOrderWithoutPeers(b, 0);
        InOrderWithoutPeers(d, 0);
        if plan.services {
          ServicesInOrder();
          InOrderThen(b, plan.Services(), 0);
          InOrderThen(b + plan.Services(), d, 0);
        } else {
          assert b + [] == b;
          InOrderThen(b, d, 0);
        }
        InOrderThen(a, plan.Provisioning(), 0);
      } else {
        assert a + [] == a;
      }
      InOrderThen(plan.Clustering(), plan.Configuring(), 0);
    }

    ghost function Whole(c: Config): Effect
      requires Valid() && Fits(c)
    {
      ScriptIsPlanned();
      Run(plan.Script(), c)
    }

    lemma ScriptIsPlanned()
      requires Valid()
      ensures Planned(plan.Script()) && Planned(plan.Rest())
    {
      forall s | s in plan.Rest() ensures plan.Plans(s) { RestIsPlanned(s); }
    }

    /** The network would need another IP pool while sessions use its present one. */
    predicate Attached(n: string, current: Network)
      requires n in plan.pools
    {
      current.pool != plan.pools[n] && current.sessions > 0
    }

    /** Conditions under which a run cannot complete: a node without an id or a display name the Core would not take,
        or an IP pool that has to change while sessions use it. */
    predicate Obstructed(c: Config)
      requires |c.members| == plan.count == |plan.displayNames|
    {
      || (plan.clustered && plan.naming &&
          exists i :: 0 <= i < plan.count &&
            (var name := plan.displayNames[i];
             c.members[i].nodeId == 0 || Size(name) > 63 || '{' in name || '}' in name))
      || (plan.provision && settle &&
          exists n :: n in plan.pools && n in c.networks && Attached(n, c.networks[n]))
    }

    lemma ObstructedExactly(c: Config)
      requires Valid() && Fits(c) && Planned(plan.Rest())
      ensures Obstructed(c) <==> exists s :: s in plan.Rest() && Blocks(s, c)
    {
      if i :| plan.clustered && plan.naming && 0 <= i < plan.count &&
              (c.members[i].nodeId == 0 || !plan.Usable(plan.displayNames[i])) {
        RestHas(Rename(i));
        assert Blocks(Rename(i), c);
      }
      if n :| plan.provision && settle && n in plan.pools && n in c.networks && Attached(n, c.networks[n]) {
        RestHas(Provide(n));
        assert Blocks(Provide(n), c);
      }
    }

    lemma WholeAfterEntering(c: Config)
      requires Valid() && Fits(c)
      ensures Fits(Entered(c)) && Planned(plan.Rest()) && Entered(c).members[core].initialized
      ensures Whole(c) == Run(plan.Rest(), Entered(c)).Following(Act(Enter, c).posts)
    {
      ScriptIsPlanned();
      ActFits(Enter, c);
      assert plan.Script()[1..] == plan.Rest();
    }

    /** A run fails exactly when it is obstructed; otherwise it reaches the configuration aimed at. */
    lemma RunMeetsGoal(c: Config)
      requires Valid() && Fits(c)
      ensures Fits(Entered(c)) && Whole(c).raised == Obstructed(Entered(c))
      ensures !Whole(c).raised ==> Whole(c).config == Goal(Entered(c))
    {
      var e := Entered(c);
      WholeAfterEntering(c);
      RunRaisesExactly(plan.Rest(), e);
      ObstructedExactly(e);
      if !Whole(c).raised {
        WholeIsDone(c);
        RunKeepsGoal(this, plan.Rest(), e);
        DoneIsGoal(Whole(c).config);
      }
    }

    lemma WholeIsDone(c: Config)
      requires Valid() && Fits(c) && !Whole(c).raised
      ensures Fits(Whole(c).config)
      ensures forall s :: plan.Plans(s) ==> Done(s, Whole(c).config)
    {
      var e := Entered(c);
      WholeAfterEntering(c);
      RunFits(plan.Rest(), e);
      RunKeepsGoal(this, plan.Rest(), e);
      RestInOrder();
      forall s | plan.Plans(s) ensures Done(s, Whole(c).config) {
        if s.Enter? {
          RunKeepsDone(plan.Rest(), s, e);
        } else {
          RestHas(s);
          RunDoes(plan.Rest(), 0, s, e);
        }
      }
    }

    /** What a run has left behind when it is stopped after the first `k` steps. */
    ghost function StoppedAfter(k: nat, c: Config): Config
      requires Valid() && Fits(c) && 1 <= k <= |plan.Script()|
    {
      ScriptIsPlanned();
      Run(plan.Script()[..k], c).config
    }

    lemma StoppedAfterEntering(k: nat, c: Config)
      requires Valid() && Fits(c) && 1 <= k <= |plan.Script()|
      ensures Fits(Entered(c)) && Planned(plan.Rest()[..k - 1]) && Entered(c).members[core].initialized
      ensures StoppedAfter(k, c) == Run(plan.Rest()[..k - 1], Entered(c)).config
    {
      ScriptIsPlanned();
      ActFits(Enter, c);
      assert plan.Script()[..k][1..] == plan.Rest()[..k - 1];
      assert plan.Script()[..k][0] == Enter;
    }

    /** A run that fails or is stopped keeps what blocks. */
    lemma {:induction false} RunKeepsBlocks(steps: seq<Step>, t: Step, c: Config)
      requires Valid() && Fits(c) && Planned(steps) && c.members[core].initialized && plan.Plans(t)
      ensures Fits(Run(steps, c).config) && Blocks(t, Run(steps, c).config) == Blocks(t, c)
    {
      if steps != [] {
        DoneStays(steps[0], Enter, c);
        if !Act(steps[0], c).raised {
          BlocksStays(steps[0], t, c);
          RunKeepsBlocks(steps[1..], t, Act(steps[0], c).config);
        }
      }
    }

    lemma StoppedKeepsObstacles(k: nat, c: Config)
      requires Valid() && Fits(c) && 1 <= k <= |plan.Script()|
      ensures Fits(Entered(c)) && Fits(StoppedAfter(k, c)) && StoppedAfter(k, c).members[core].initialized
      ensures Obstructed(StoppedAfter(k, c)) == Obstructed(Entered(c))
    {
      var steps := plan.Rest()[..k - 1];
      ScriptIsPlanned();
      StoppedAfterEntering(k, c);
      RunKeepsGoal(this, steps, Entered(c));
      ObstructedExactly(StoppedAfter(k, c));
      ObstructedExactly(Entered(c));
      forall s | s in plan.Rest() ensures Blocks(s, StoppedAfter(k, c)) == Blocks(s, Entered(c)) {
        RunKeepsBlocks(steps, s, Entered(c));
      }
    }

    lemma SameObstacles(other: Pass, c: Config)
      requires |c.members| == plan.count == |plan.displayNames| && other == this.(core := other.core)
      ensures other.Obstructed(c) == Obstructed(c)
    {
    }

    /** Stopping a run after any request and starting again, whichever initialised node leads the cluster then, fails
        exactly when the uninterrupted run does, and otherwise ends in the configuration aimed at from the beginning
        under that leader. */
    lemma RestartMeetsGoal(k: nat, c: Config, other: Pass)
      requires Valid() && Fits(c) && 1 <= k <= |plan.Script()|
      requires other.Valid() && other == this.(core := other.core)
      requires Fits(StoppedAfter(k, c)) && StoppedAfter(k, c).members[other.core].initialized
      ensures Fits(Entered(c)) && other.Whole(StoppedAfter(k, c)).raised == Whole(c).raised
      ensures !Whole(c).raised ==> other.Whole(StoppedAfter(k, c)).config == other.Goal(Entered(c))
    {
      StoppedAfterEntering(k, c);
      StoppedKeepsObstacles(k, c);
      RunKeepsGoal(other, plan.Rest()[..k - 1], Entered(c));
      SameObstacles(other, StoppedAfter(k, c));
      RunMeetsGoal(c);
      other.RunMeetsGoal(StoppedAfter(k, c));
    }

    lemma {:induction false} FailsAt(steps: seq<Step>, c: Config) returns (i: nat)
      requires Valid() && Fits(c) && Planned(steps) && c.members[core].initialized && Run(steps, c).raised
      ensures i < |steps| && Planned(steps[..i]) && !Run(steps[..i], c).raised
      ensures Run(steps[..i], c).config == Run(steps, c).config && Fits(Run(steps, c).config)
      ensures Act(steps[i], Run(steps, c).config).raised
    {
      RunFits(steps, c);
      if Act(steps[0], c).raised {
        i := 0;
      } else {
        DoneStays(steps[0], Enter, c);
        var j := FailsAt(steps[1..], Act(steps[0], c).config);
        i := j + 1;
        assert steps[..i][0] == steps[0] && steps[..i][1..] == steps[1..][..j];
      }
    }

    /** Steps that were carried out find nothing to do when they are repeated. */
    lemma RunTwice(steps: seq<Step>, c: Config)
      requires Valid() && Fits(c) && Planned(steps) && c.members[core].initialized && !Run(steps, c).raised
      requires InOrder(steps, 0) && Enter !in steps
      ensures Fits(Run(steps, c).config)
      ensures Run(steps, Run(steps, c).config) == Effect(Run(steps, c).config, [], false)
    {
      var d := Run(steps, c).config;
      RunKeepsGoal(this, steps, c);
      RunRaisesExactly(steps, c);
      RunRaisesExactly(steps, d);
      forall s | s in steps ensures Done(s, d) && Blocks(s, d) == Blocks(s, c) {
        RunDoes(steps, 0, s, c);
        RunKeepsBlocks(steps, s, c);
      }
      RunIdles(steps, d);
    }

    lemma RerunAfterSuccess(a: seq<Step>, b: seq<Step>, c: Config)
      requires Valid() && Fits(c) && Planned(a) && Planned(b) && c.members[core].initialized && !Run(a, c).raised
      requires InOrder(a, 0) && Enter !in a
      ensures Fits(Run(a, c).config) && Planned(a + b)
      ensures var d := Run(a, c).config;
        Run(a + b, d) == Run(b, d) && Run(a + b, c) == Run(b, d).Following(Run(a, c).posts)
    {
      RunTwice(a, c);
      RunThen(a, b, c);
      RunThen(a, b, Run(a, c).config);
    }

    lemma RerunAfterFailure(done: seq<Step>, s: Step, tail: seq<Step>, c: Config)
      requires Valid() && Fits(c) && Planned(done) && Planned([s] + tail) && c.members[core].initialized
      requires !Run(done, c).raised && InOrder(done, 0) && Enter !in done
      requires plan.Plans(s) && Fits(Run(done, c).config) && Act(s, Run(done, c).config).raised
      ensures Planned(done + ([s] + tail))
      ensures var steps, d := done + ([s] + tail), Run(done, c).config;
        Run(steps, c).raised && Run(steps, c).config == d && Run(steps, d).raised && Run(steps, d).config == d
    {
      RerunAfterSuccess(done, [s] + tail, c);
      assert ([s] + tail)[0] == s;
    }

    lemma SplitAt(a: seq<Step>, b: seq<Step>, i: nat)
      requires i < |a| && Planned(a) && Planned(b)
      ensures a[..i] + ([a[i]] + (a[i + 1..] + b)) == a + b
      ensures Planned(a[..i]) && plan.Plans(a[i]) && Planned([a[i]] + (a[i + 1..] + b))
      ensures Enter !in a ==> Enter !in a[..i]
    {
    }

    /** Running `a` and starting over with `a` and `b` comes to the same as running both at once, failing or not. */
    lemma Rerun(a: seq<Step>, b: seq<Step>, c: Config)
      requires Valid() && Fits(c) && Planned(a) && Planned(b) && c.members[core].initialized
      requires InOrder(a, 0) && Enter !in a
      ensures Fits(Run(a, c).config) && Planned(a + b)
      ensures var again := Run(a + b, Run(a, c).config);
        again.raised == Run(a + b, c).raised && again.config == Run(a + b, c).config
    {
      if Run(a, c).raised {
        var i := FailsAt(a, c);
        InOrderPrefix(a, i, 0);
        SplitAt(a, b, i);
        RerunAfterFailure(a[..i], a[i], a[i + 1..] + b, c);
      } else {
        RerunAfterSuccess(a, b, c);
      }
    }

    /** With the same leader and existing networks reconciled, stopping after any request and starting again makes no
        difference to the outcome of the run, whether it fails or not. */
    lemma RestartConverges(k: nat, c: Config)
      requires Valid() && Fits(c) && 1 <= k <= |plan.Script()|
      ensures Fits(StoppedAfter(k, c)) && StoppedAfter(k, c).members[core].initialized
      ensures Whole(StoppedAfter(k, c)).raised == Whole(c).raised
      ensures Whole(StoppedAfter(k, c)).config == Whole(c).config
    {
      StoppedKeepsObstacles(k, c);
      StoppedAfterEntering(k, c);
      WholeAfterEntering(c);
      WholeAfterEntering(StoppedAfter(k, c));
      RestParts(k - 1);
      Rerun(plan.Rest()[..k - 1], plan.Rest()[k - 1..], Entered(c));
    }

    lemma RestParts(n: nat)
      requires Valid() && n <= |plan.Rest()|
      ensures plan.Rest() == plan.Rest()[..n] + plan.Rest()[n..]
      ensures Planned(plan.Rest()[..n]) && Planned(plan.Rest()[n..])
      ensures InOrder(plan.Rest()[..n], 0) && Enter !in plan.Rest()[..n]
    {
      ScriptIsPlanned();
      RestInOrder();
      InOrderPrefix(plan.Rest(), n, 0);
      forall s | s in plan.Rest()[..n] ensures s != Enter { RestIsPlanned(s); }
    }

    /** A run may change existing networks when its node was not initialised or reconciliation was asked for. */
    predicate Observes(c: Config)
      requires core < |c.members|
    {
      settle == (!c.members[core].initialized || plan.reconcile)
    }

    /** Unless a fresh Core is bootstrapped without reconciliation, stopping after any request and starting again, led
        by the same node, fails exactly when the uninterrupted run does and leaves the same configuration. */
    lemma RestartMakesNoDifference(k: nat, c: Config)
      requires Valid() && Fits(c) && 1 <= k <= |plan.Script()|
      requires Observes(c) && (plan.reconcile || c.members[core].initialized)
      ensures Fits(StoppedAfter(k, c)) && Observes(StoppedAfter(k, c))
      ensures Whole(StoppedAfter(k, c)).raised == Whole(c).raised
      ensures Whole(StoppedAfter(k, c)).config == Whole(c).config
    {
      RestartConverges(k, c);
    }

    /** Repeating a complete run makes no POST request but the login, and changes nothing. */
    lemma RepeatPostsOnlyLogin(c: Config, again: Pass)
      requires Valid() && Fits(c) && !Whole(c).raised
      requires again == this.(settle := again.settle) && (again.settle ==> settle)
      ensures Fits(Whole(c).config) && again.Whole(Whole(c).config) == Effect(Whole(c).config, [PostLogin], false)
    {
      var d := Whole(c).config;
      WholeIsDone(c);
      RunMeetsGoal(c);
      WholeAfterEntering(c);
      RunRaisesExactly(plan.Rest(), Entered(c));
      forall s | s in plan.Rest() ensures again.Done(s, d) && !again.Blocks(s, d) && s != Enter {
        RestIsPlanned(s);
        assert Done(s, d);
        RunKeepsBlocks(plan.Rest(), s, Entered(c));
      }
      assert Done(Enter, d);
      again.WholeAfterEntering(d);
      again.RunRaisesExactly(plan.Rest(), d);
      again.RunIdles(plan.Rest(), d);
    }

    // ---- Data networks ----

    /** A network with sessions keeps its IP pool, its sessions and its IPv6 pool, whether or not the step fails. */
    lemma AttachedPoolKept(s: Step, c: Config, n: string)
      requires Valid() && Fits(c) && plan.Plans(s) && c.members[core].initialized
      requires n in c.networks && c.networks[n].sessions > 0
      ensures n in Act(s, c).config.networks
      ensures var m := Act(s, c).config.networks[n];
        m.pool == c.networks[n].pool && m.sessions == c.networks[n].sessions && m.ipv6 == c.networks[n].ipv6
    {
    }

    lemma {:induction false} RunKeepsAttachedPool(steps: seq<Step>, c: Config, n: string)
      requires Valid() && Fits(c) && Planned(steps) && c.members[core].initialized
      requires n in c.networks && c.networks[n].sessions > 0
      ensures n in Run(steps, c).config.networks
      ensures var m := Run(steps, c).config.networks[n];
        m.pool == c.networks[n].pool && m.sessions == c.networks[n].sessions && m.ipv6 == c.networks[n].ipv6
    {
      if steps != [] {
        AttachedPoolKept(steps[0], c, n);
        DoneStays(steps[0], Enter, c);
        ActFits(steps[0], c);
        if !Act(steps[0], c).raised { RunKeepsAttachedPool(steps[1..], Act(steps[0], c).config, n); }
      }
    }

    lemma ActLeavesNetwork(s: Step, c: Config, n: string)
      requires Valid() && Fits(c) && plan.Plans(s) && c.members[core].initialized && s != Provide(n)
      ensures n in Act(s, c).config.networks <==> n in c.networks
      ensures n in c.networks ==> Act(s, c).config.networks[n] == c.networks[n]
    {
    }

    /** The run has not come to the network yet. */
    lemma {:induction false} RunLeavesNetwork(steps: seq<Step>, c: Config, n: string)
      requires Valid() && Fits(c) && Planned(steps) && c.members[core].initialized && Provide(n) !in steps
      ensures n in Run(steps, c).config.networks <==> n in c.networks
      ensures n in c.networks ==> Run(steps, c).config.networks[n] == c.networks[n]
    {
      if steps != [] {
        DoneStays(steps[0], Enter, c);
        ActLeavesNetwork(steps[0], c, n);
        if !Act(steps[0], c).raised { RunLeavesNetwork(steps[1..], Act(steps[0], c).config, n); }
      }
    }

    /** The network was installed by `init`, differs from the plan, and the run was stopped before it came to it. */
    predicate Missed(n: string, k: nat, c: Config)
      requires core < |c.members| && k <= |plan.Script()|
    {
      && plan.provision && n in plan.pools && n in Entered(c).networks && Differs(n, Entered(c).networks[n])
      && Provide(n) !in plan.Script()[..k]
    }

    lemma GoalWithoutSettling(c: Config, again: Pass)
      requires Valid() && Fits(c) && settle && again == this.(settle := false)
      ensures again.Goal(c) == Goal(c).(networks := again.Goal(c).networks)
    {
    }

    /** The first steps of a run that did not fail have been carried out when it is stopped after them. */
    lemma PrefixDoes(steps: seq<Step>, later: seq<Step>, s: Step, c: Config)
      requires Valid() && Fits(c) && Planned(steps) && Planned(later) && c.members[core].initialized
      requires Planned(steps + later) && !Run(steps + later, c).raised && InOrder(steps, 0) && s in steps
      ensures Fits(Run(steps, c).config) && Done(s, Run(steps, c).config)
    {
      RunThen(steps, later, c);
      RunDoes(steps, 0, s, c);
    }

    lemma StoppedIsDone(s: Step, k: nat, c: Config)
      requires Valid() && Fits(c) && 1 <= k <= |plan.Script()| && !Whole(c).raised && s in plan.Rest()[..k - 1]
      ensures plan.Plans(s) && Fits(StoppedAfter(k, c)) && Done(s, StoppedAfter(k, c))
    {
      StoppedAfterEntering(k, c);
      WholeAfterEntering(c);
      RestParts(k - 1);
      PrefixDoes(plan.Rest()[..k - 1], plan.Rest()[k - 1..], s, Entered(c));
    }

    lemma StoppedNetwork(n: string, k: nat, c: Config)
      requires Valid() && Fits(c) && 1 <= k <= |plan.Script()| && settle && plan.provision && n in plan.pools
      requires !Whole(c).raised
      ensures Fits(Entered(c))
      ensures var d := StoppedAfter(k, c).networks;
        if n in d && Differs(n, d[n]) then Missed(n, k, c) && d[n] == Entered(c).networks[n] else !Missed(n, k, c)
    {
      var steps := plan.Rest()[..k - 1];
      StoppedAfterEntering(k, c);
      ScriptIsPlanned();
      assert plan.Script()[..k] == [Enter] + steps;
      if Provide(n) in steps {
        StoppedIsDone(Provide(n), k, c);
      } else {
        RunLeavesNetwork(steps, Entered(c), n);
      }
    }

    /** A run on a fresh Core that was stopped after `init` and started again without reconciliation: the outcome is
        that of the uninterrupted run, except that missed networks stay as `init` installed them. */
    lemma LostFreshOnlyAffectsNetworks(k: nat, c: Config, again: Pass)
      requires Valid() && Fits(c) && 1 <= k <= |plan.Script()| && settle && again == this.(settle := false)
      requires !Whole(c).raised
      ensures Fits(StoppedAfter(k, c)) && !again.Whole(StoppedAfter(k, c)).raised
      ensures var d := again.Whole(StoppedAfter(k, c)).config;
        && d == Whole(c).config.(networks := d.networks)
        && d.networks.Keys == Whole(c).config.networks.Keys
        && forall n :: n in d.networks ==>
             d.networks[n] == if Missed(n, k, c) then Entered(c).networks[n] else Whole(c).config.networks[n]
    {
      var steps := plan.Rest()[..k - 1];
      var stopped := StoppedAfter(k, c);
      StoppedAfterEntering(k, c);
      RunKeepsGoal(this, steps, Entered(c));
      RestartConverges(k, c);
      RunMeetsGoal(c);
      again.RunMeetsGoal(stopped);
      RunMeetsGoal(stopped);
      GoalWithoutSettling(stopped, again);
      if plan.provision {
        forall n | n in plan.pools
          ensures again.GoalNetwork(n, stopped.networks) ==
                  if Missed(n, k, c) then Entered(c).networks[n] else GoalNetwork(n, stopped.networks)
        {
          StoppedNetwork(n, k, c);
        }
      }
    }

    lemma MissedDiffers(n: string, k: nat, c: Config)
      requires Valid() && Fits(c) && k <= |plan.Script()| && settle && !Whole(c).raised && Missed(n, k, c)
      ensures n in Whole(c).config.networks && Whole(c).config.networks[n] != Entered(c).networks[n]
    {
      RunMeetsGoal(c);
      assert Whole(c).config.networks[n] == GoalNetwork(n, Entered(c).networks);
    }

    /** Such a restart reaches the outcome of the uninterrupted run exactly when no network was missed. */
    lemma LostFreshExactly(k: nat, c: Config, again: Pass)
      requires Valid() && Fits(c) && 1 <= k <= |plan.Script()| && settle && again == this.(settle := false)
      requires !Whole(c).raised
      ensures Fits(StoppedAfter(k, c))
      ensures again.Whole(StoppedAfter(k, c)).config == Whole(c).config <==>
              forall n :: n in plan.pools ==> !Missed(n, k, c)
    {
      LostFreshOnlyAffectsNetworks(k, c, again);
      var d, e := again.Whole(StoppedAfter(k, c)).config, Whole(c).config;
      if n :| n in plan.pools && Missed(n, k, c) {
        MissedDiffers(n, k, c);
        assert d.networks[n] != e.networks[n];
      } else {
        assert d.networks == e.networks;
      }
    }

    lemma DiameterIsOverwritten(c: Config)
      requires Valid() && Fits(c) && plan.provision && plan.services && !Whole(c).raised
      ensures Whole(c).config.diameter == c.diameter.Overwritten(Peers())
    {
      RunMeetsGoal(c);
    }

    /** After a complete run the first Diameter peers describe the Cores in order, exactly one of them, the node the
        script talked to, has priority 10, and later peers are as before. */
    lemma DiameterPeersDescribeCores(c: Config, i: nat)
      requires Valid() && Fits(c) && plan.provision && plan.services && !Whole(c).raised
      requires i < |Whole(c).config.diameter.rows|
      ensures Whole(c).config.diameter.Valid() && plan.count <= |Whole(c).config.diameter.rows|
      ensures var p := Whole(c).config.diameter.rows[i];
        && (i < plan.count ==> p.value.address == plan.addresses[i] && (p.value.priority == 10 <==> i == core))
        && (i < |c.diameter.rows| ==> p.id == c.diameter.rows[i].id)
        && (plan.count <= i ==> i < |c.diameter.rows| && p == c.diameter.rows[i])
    {
      DiameterIsOverwritten(c);
      c.diameter.OverwrittenValid(Peers());
      c.diameter.OverwrittenRow(Peers(), i);
    }

    /** One more step after a run. */
    lemma Further(steps: seq<Step>, s: Step, c: Config, d: Config, posts: seq<Post>)
      requires Valid() && Fits(c) && Planned(steps) && plan.Plans(s) && Run(steps, c) == Effect(d, posts, false)
      ensures Fits(d) && Fits(Act(s, d).config) && Planned(steps + [s])
      ensures Run(steps + [s], c) == Act(s, d).Following(posts)
    {
      RunThen(steps, [s], c);
      ActFits(s, d);
      assert Run([s], d) == Act(s, d) by { assert [s][1..] == []; }
    }

    /** A failed run of the first steps is the whole run. */
    lemma PrefixDecides(steps: seq<Step>, c: Config)
      requires Valid() && Fits(c) && steps <= plan.Script() && Planned(steps)
      requires steps == plan.Script() || Run(steps, c).raised
      ensures Whole(c) == Run(steps, c)
    {
      ScriptIsPlanned();
      assert plan.Script() == steps + plan.Script()[|steps|..];
      RunThen(steps, plan.Script()[|steps|..], c);
    }
  }

  /** One Core whose `init` installs the internet network with another pool, and a run stopped right after `init`. */
  lemma SeededNetworkIsMissed(body: Key -> string)
    returns (pass: Pass, c: Config)
    ensures pass.Valid() && pass.Fits(c) && pass.settle && !pass.plan.reconcile && !pass.Whole(c).raised
    ensures pass.Missed("internet", 1, c)
    ensures pass.Fits(pass.StoppedAfter(1, c))
    ensures pass.(settle := false).Whole(pass.StoppedAfter(1, c)).config != pass.Whole(c).config
  {
    var seeded := Network("10.46.0.0/16", "8.8.8.8", 1500, "", 0);
    var plan := Plan(1, false, false, [""], false, true, false, false, ["internet"], map["internet" := "10.45.0.0/16"],
      [""], "", body, [], map[], Defaults(true, map[], map["internet" := seeded]));
    pass := Pass(plan, 0, true);
    c := Config([Member(false, 0, "")], true, map[], map[], Table([], 1), Table([], 1), map[]);
    assert pass.Entered(c).networks["internet"] == seeded;
    assert plan.Script()[..1] == [Enter];
    pass.RunMeetsGoal(c);
    pass.LostFreshExactly(1, c, pass.(settle := false));
  }

  /** The identities `taken` have been enrolled beside those that existed, and all of them were known or missing. */
  predicate Listed(
    keys: set<string>, page: set<string>, taken: set<string>, present: set<string>, existing: set<string>)
  {
    present == keys + taken && existing == page + taken && page <= keys && taken * keys <= page
  }

  lemma ListedGrows(keys: set<string>, page: set<string>, taken: set<string>, present: set<string>,
                    existing: set<string>, imsi: string)
    requires Listed(keys, page, taken, present, existing)
    ensures existing <= present
    ensures if imsi in present && imsi !in existing then imsi in keys && imsi !in page
            else Listed(keys, page, taken + {imsi}, present + {imsi}, existing + {imsi})
  {
  }

  function Names(names: seq<string>): set<string> {
    set name | name in names
  }

  function Joins(n: nat): seq<Step> {
    seq(n, (i: nat) => Join(i))
  }

  function Renames(n: nat): seq<Step> {
    seq(n, (i: nat) => Rename(i))
  }

  lemma RenamesGrow(i: nat, n: nat, before: seq<Step>)
    requires i < n
    ensures before + Renames(i + 1) == before + Renames(i) + [Rename(i)]
    ensures before + Renames(i + 1) <= before + Renames(n)
  {
  }

  function PeerSteps(n: nat): seq<Step> {
    seq(n, (i: nat) => Peer(i))
  }

  /** How many Diameter peers exist at least, after a step. */
  function After(s: Step, n: nat): nat {
    if s.Peer? && n <= s.index then s.index + 1 else n
  }

  /** Starting from `n` peers, none is described before those of lower ordinals exist. */
  predicate InOrder(steps: seq<Step>, n: nat) {
    steps == [] || ((steps[0].Peer? ==> steps[0].index <= n) && InOrder(steps[1..], After(steps[0], n)))
  }

  lemma {:induction false} InOrderMore(steps: seq<Step>, n: nat, m: nat)
    requires InOrder(steps, n) && n <= m
    ensures InOrder(steps, m)
  {
    if steps != [] { InOrderMore(steps[1..], After(steps[0], n), After(steps[0], m)); }
  }

  lemma {:induction false} InOrderThen(a: seq<Step>, b: seq<Step>, n: nat)
    requires InOrder(a, n) && InOrder(b, n)
    ensures InOrder(a + b, n)
  {
    if a == [] {
      assert a + b == b;
    } else {
      assert (a + b)[0] == a[0] && (a + b)[1..] == a[1..] + b;
      InOrderMore(b, n, After(a[0], n));
      InOrderThen(a[1..], b, After(a[0], n));
    }
  }

  lemma {:induction false} InOrderPrefix(steps: seq<Step>, k: nat, n: nat)
    requires InOrder(steps, n) && k <= |steps|
    ensures InOrder(steps[..k], n)
  {
    if k > 0 {
      assert steps[..k][0] == steps[0] && steps[..k][1..] == steps[1..][..k - 1];
      InOrderPrefix(steps[1..], k - 1, After(steps[0], n));
    }
  }

  lemma {:induction false} InOrderWithoutPeers(steps: seq<Step>, n: nat)
    requires forall s :: s in steps ==> !s.Peer?
    ensures InOrder(steps, n)
  {
    if steps != [] { InOrderWithoutPeers(steps[1..], n); }
  }

  lemma {:induction false} InOrderPeers(steps: seq<Step>, n: nat)
    requires forall i :: 0 <= i < |steps| ==> steps[i] == Peer(n + i)
    ensures InOrder(steps, n)
  {
    if steps != [] {
      assert forall i :: 0 <= i < |steps[1..]| ==> steps[1..][i] == steps[i + 1];
      InOrderPeers(steps[1..], n + 1);
    }
  }

  /** The script's variables and the servers it talks to, with the steps carried out so far. */
  class Session {
    const plan: Plan
    ghost const start: Config
    ghost var done: seq<Step>
    var config: Config
    var posts: seq<Post>
    var core: nat
    var settle: bool

    constructor (plan: Plan, config: Config)
      ensures this.plan == plan && this.config == config && start == config && done == [] && posts == []
    {
      this.plan, this.config, start, done, posts, core, settle := plan, config, config, [], [], 0, false;
    }

    ghost function Current(): Pass
      reads this
    {
      Pass(plan, core, settle)
    }

    /** The configuration and the requests made are those of a run of the steps done, which failed if not `ok`. */
    ghost predicate OnTrack(ok: bool)
      reads this
    {
      && Current().Valid() && Current().Fits(config) && Current().Fits(start) && Current().Planned(done)
      && Current().Run(done, start) == Effect(config, posts, !ok)
    }

    /** Chooses the node to talk to: node 0, or the first node of a cluster already initialised that claims to lead. */
    method DiscoverLeader(leads: seq<bool>)
      requires plan.Valid() && |config.members| == plan.count == |leads|
      modifies `core, `settle
      ensures core < plan.count
      ensures plan.clustered && config.members[0].initialized && true in leads ==> leads[core] && true !in leads[..core]
      ensures !(plan.clustered && config.members[0].initialized && true in leads) ==> core == 0
      ensures settle == (!config.members[core].initialized || plan.reconcile)
    {
      core := 0;
      var status := config.members[0];
      if plan.clustered && status.initialized {
        var i := 0;
        while i < plan.count
          invariant i <= plan.count && core == 0 && status == config.members[0]
          invariant true !in leads[..i]
        {
          assert leads[..i + 1] == leads[..i] + [leads[i]];
          if leads[i] {
            core, status := i, config.members[i];
            break;
          }
          i := i + 1;
        }
        assert leads[..plan.count] == leads;
      }
      var isFresh := !status.initialized;
      settle := isFresh || plan.reconcile;
    }

    /** Initialises a fresh node, or logs in. */
    method SignIn()
      requires OnTrack(true)
      modifies `config, `posts, `done
      ensures OnTrack(true) && done == old(done) + [Enter]
      ensures config == Current().Entered(old(config))
    {
      Current().Further(done, Enter, start, config, posts);
      if !config.members[core].initialized {
        posts := posts + [PostInit];
        config := Pass(plan, core, settle).Seeded(config);
      } else {
        posts := posts + [PostLogin];
      }
      done := done + [Enter];
    }

    /** Joins one node to the cluster, unless it is the one talked to or has joined. */
    method JoinFollower(i: nat)
      requires OnTrack(true) && plan.Plans(Join(i))
      modifies `config, `posts, `done
      ensures OnTrack(true) && done == old(done) + [Join(i)] && config.subscribers == old(config).subscribers
    {
      Current().Further(done, Join(i), start, config, posts);
      if i != core && !config.members[i].initialized {
        posts := posts + [PostToken, PostJoin];
        config := config.(members := config.members[i := config.members[i].(initialized := true)]);
      }
      done := done + [Join(i)];
    }

    /** Joins the nodes in order. */
    method JoinFollowers()
      requires OnTrack(true) && plan.clustered
      modifies `config, `posts, `done
      ensures OnTrack(true) && done == old(done) + Joins(plan.count) && config.subscribers == old(config).subscribers
    {
      var i := 0;
      while i < plan.count
        invariant i <= plan.count && OnTrack(true) && done == old(done) + Joins(i)
        invariant config.subscribers == old(config).subscribers
      {
        assert Joins(i + 1) == Joins(i) + [Join(i)];
        JoinFollower(i);
        i := i + 1;
      }
    }

    /** Names one node, which must report an id and be given a name the Core takes. */
    method NameMember(i: nat) returns (ok: bool)
      requires OnTrack(true) && plan.Plans(Rename(i))
      modifies `config, `done
      ensures OnTrack(ok) && done == old(done) + [Rename(i)] && config.subscribers == old(config).subscribers
    {
      Current().Further(done, Rename(i), start, config, posts);
      done := done + [Rename(i)];
      var member, name := config.members[i], plan.displayNames[i];
      if member.nodeId == 0 || Size(name) > 63 || '{' in name || '}' in name { return false; }
      if member.displayName != name {
        config := config.(members := config.members[i := member.(displayName := name)]);
      }
      assert config.members == old(config).members[i := member.(displayName := name)];
      ok := true;
    }

    /** Names the nodes in order, up to the first that cannot be named. */
    method NameMembers() returns (ok: bool)
      requires OnTrack(true) && plan.clustered && plan.naming
      modifies `config, `done
      ensures OnTrack(ok) && config.subscribers == old(config).subscribers
      ensures done <= old(done) + Renames(plan.count) && (ok ==> done == old(done) + Renames(plan.count))
    {
      var i := 0;
      while i < plan.count
        invariant i <= plan.count && OnTrack(true) && done == old(done) + Renames(i)
        invariant config.subscribers == old(config).subscribers
      {
        RenamesGrow(i, plan.count, old(done));
        ok := NameMember(i);
        if !ok { return; }
        i := i + 1;
      }
      ok := true;
    }

    /** Turns translation off when a gateway does it. */
    method TurnOffNat()
      requires OnTrack(true)
      modifies `config, `done
      ensures OnTrack(true) && config.subscribers == old(config).subscribers
      ensures done == old(done) + if plan.gateway then [DisableNat] else []
    {
      if plan.gateway {
        Current().Further(done, DisableNat, start, config, posts);
        if config.natOn { config := config.(natOn := false); }
        done := done + [DisableNat];
      }
    }

    /** A PUT request on a resource; the operator's identity is only sent when it differs. */
    method Rewrite(k: Key)
      requires OnTrack(true) && plan.Plans(Put(k))
      modifies `config, `done
      ensures OnTrack(true) && done == old(done) + [Put(k)] && config.subscribers == old(config).subscribers
    {
      Current().Further(done, Put(k), start, config, posts);
      if k != OperatorId || k !in config.settings || config.settings[k] != plan.body(k) {
        config := config.(settings := config.settings[k := plan.body(k)]);
      } else {
        assert config.settings[k := plan.body(k)] == config.settings;
      }
      done := done + [Put(k)];
    }

    /** A POST request for a resource that is not there yet. */
    method EnsureResource(k: Key)
      requires OnTrack(true) && plan.Plans(Ensure(k))
      modifies `config, `posts, `done
      ensures OnTrack(true) && done == old(done) + [Ensure(k)] && config.subscribers == old(config).subscribers
    {
      Current().Further(done, Ensure(k), start, config, posts);
      if k !in config.settings {
        posts := posts + [PostResource(k)];
        config := config.(settings := config.settings[k := plan.body(k)]);
      }
      done := done + [Ensure(k)];
    }

    /** Creates a data network, or amends it if this run may and no session is in the way. */
    method ProvideNetwork(n: string) returns (ok: bool)
      requires OnTrack(true) && plan.Plans(Provide(n))
      modifies `config, `posts, `done
      ensures OnTrack(ok) && done == old(done) + [Provide(n)] && config.subscribers == old(config).subscribers
    {
      Current().Further(done, Provide(n), start, config, posts);
      done := done + [Provide(n)];
      var pass := Pass(plan, core, settle);
      var networks := config.networks;
      var desired := pass.Desired(n);
      if n !in networks {
        posts := posts + [PostNetwork(n)];
        config := config.(networks := networks[n := pass.Stored(desired, 0)]);
      } else if settle && pass.Differs(n, networks[n]) {
        var current := networks[n];
        if current.pool != plan.pools[n] && current.sessions > 0 { return false; }
        if current.ipv6 != "" { desired := desired.(ipv6 := Some(current.ipv6)); }
        config := config.(networks := networks[n := pass.Stored(desired, current.sessions)]);
      }
      ok := true;
    }

    /** A data network and the policy for it. */
    method ProvideWithPolicy(n: string) returns (ok: bool)
      requires OnTrack(true) && plan.provision && n in plan.pools
      modifies `config, `posts, `done
      ensures OnTrack(ok) && config.subscribers == old(config).subscribers
      ensures done == old(done) + [Provide(n)] + if ok then [Ensure(Policy(n))] else []
    {
      ok := ProvideNetwork(n);
      if ok { EnsureResource(Policy(n)); }
    }

    /** The data networks in order, up to the first that fails. */
    method ProvideNetworks() returns (ok: bool)
      requires OnTrack(true) && plan.provision
      modifies `config, `posts, `done
      ensures OnTrack(ok) && config.subscribers == old(config).subscribers
      ensures done <= old(done) + plan.Provisions(plan.networks)
      ensures ok ==> done == old(done) + plan.Provisions(plan.networks)
    {
      var i := 0;
      while i < |plan.networks|
        invariant i <= |plan.networks| && OnTrack(true) && done == old(done) + plan.Provisions(plan.networks[..i])
        invariant config.subscribers == old(config).subscribers
      {
        ghost var was := done;
        ok := ProvideWithPolicy(plan.networks[i]);
        plan.ProvisionsSplit(plan.networks, i, old(done), was, done, ok);
        if !ok { return; }
        i := i + 1;
      }
      assert plan.networks[..i] == plan.networks;
      ok := true;
    }

    /** The first SMSC peer listed is rewritten, or one is added. */
    method DescribeSmsc()
      requires OnTrack(true) && plan.Plans(Smsc)
      modifies `config, `posts, `done
      ensures OnTrack(true) && done == old(done) + [Smsc] && config.subscribers == old(config).subscribers
    {
      Current().Further(done, Smsc, start, config, posts);
      var items := config.smsc.rows;
      if items != [] {
        config.smsc.PutDescribes(0, plan.smsc);
        config := config.(smsc := config.smsc.Put(items[0].id, plan.smsc));
      } else {
        posts := posts + [PostSmscPeer];
        config := config.(smsc := config.smsc.Post(plan.smsc));
      }
      done := done + [Smsc];
    }

    /** The Diameter peer for one Core, with the peers as listed before the loop. */
    method DescribePeer(i: nat, peers: seq<Row<DiameterPeer>>)
      requires OnTrack(true) && plan.Plans(Peer(i))
      requires |config.diameter.rows| == if i < |peers| then |peers| else i
      requires forall j :: 0 <= j < |peers| ==> config.diameter.rows[j].id == peers[j].id
      modifies `config, `posts, `done
      ensures OnTrack(true) && done == old(done) + [Peer(i)] && config.subscribers == old(config).subscribers
      ensures |config.diameter.rows| == if i < |peers| then |peers| else i + 1
      ensures forall j :: 0 <= j < |peers| ==> config.diameter.rows[j].id == peers[j].id
    {
      Current().Further(done, Peer(i), start, config, posts);
      var value := DiameterPeer(plan.addresses[i], if i == core then 10 else 20);
      if i < |peers| {
        config.diameter.PutDescribes(i, value);
        config := config.(diameter := config.diameter.Put(peers[i].id, value));
      } else {
        posts := posts + [PostDiameterPeer];
        config := config.(diameter := config.diameter.Post(value));
      }
      done := done + [Peer(i)];
    }

    /** The Diameter peers for all Cores; they are listed once, before the loop. */
    method DescribePeers()
      requires OnTrack(true) && plan.provision && plan.services
      modifies `config, `posts, `done
      ensures OnTrack(true) && done == old(done) + PeerSteps(plan.count)
      ensures config.subscribers == old(config).subscribers
    {
      var peers := config.diameter.rows;
      var i := 0;
      while i < plan.count
        invariant i <= plan.count && OnTrack(true) && done == old(done) + PeerSteps(i)
        invariant |config.diameter.rows| == if i < |peers| then |peers| else i
        invariant forall j :: 0 <= j < |peers| ==> config.diameter.rows[j].id == peers[j].id
        invariant config.subscribers == old(config).subscribers
      {
        assert PeerSteps(i + 1) == PeerSteps(i) + [Peer(i)];
        DescribePeer(i, peers);
        i := i + 1;
      }
    }

    /** Enrols one subscriber unless it is known; a Core refuses a second subscriber with the same identity. */
    method EnrolOne(imsi: string, existing: set<string>) returns (ok: bool)
      requires OnTrack(true) && plan.Plans(Step.Enrol(imsi)) && existing <= config.subscribers.Keys
      modifies `config, `posts, `done
      ensures ok <==> imsi in old(config).subscribers ==> imsi in existing
      ensures ok ==> OnTrack(true) && done == old(done) + [Step.Enrol(imsi)]
      ensures ok ==> config.subscribers.Keys == old(config).subscribers.Keys + {imsi}
    {
      Current().Further(done, Step.Enrol(imsi), start, config, posts);
      if imsi !in existing {
        posts := posts + [PostSubscriber(imsi)];
        if imsi in config.subscribers { return false; }
        config := config.(subscribers := config.subscribers[imsi := plan.numbers[imsi]]);
      }
      done := done + [Step.Enrol(imsi)];
      ok := true;
    }

    /** One turn of the enrolment loop. */
    method EnrolNext(
      i: nat, existing: set<string>, ghost before: seq<Step>, ghost keys: set<string>, ghost page: set<string>)
      returns (ok: bool, known: set<string>)
      requires OnTrack(true) && plan.provision && i < |plan.identities| && done == before + plan.Enrolments()[..i]
      requires Listed(keys, page, Names(plan.identities[..i]), config.subscribers.Keys, existing)
      modifies `config, `posts, `done
      ensures !ok ==> !(Names(plan.identities) * keys <= page)
      ensures ok ==> OnTrack(true) && done == before + plan.Enrolments()[..i + 1]
      ensures ok ==> Listed(keys, page, Names(plan.identities[..i + 1]), config.subscribers.Keys, known)
    {
      var imsi := plan.identities[i];
      plan.EnrolmentsGrow(i, before);
      ListedGrows(keys, page, Names(plan.identities[..i]), config.subscribers.Keys, existing, imsi);
      ok := EnrolOne(imsi, existing);
      known := existing + {imsi};
    }

    /** Enrols the subscribers missing from the one page of at most a hundred that is listed: the script fails
        exactly when a wanted one is on a later page. */
    method Enrol(page: set<string>) returns (ok: bool)
      requires OnTrack(true) && plan.provision && page <= config.subscribers.Keys
      modifies `config, `posts, `done
      ensures ok <==> Names(plan.identities) * old(config).subscribers.Keys <= page
      ensures ok ==> OnTrack(true) && done == old(done) + plan.Enrolments()
    {
      ghost var keys := config.subscribers.Keys;
      var existing := page;
      var i := 0;
      while i < |plan.identities|
        invariant i <= |plan.identities| && OnTrack(true) && done == old(done) + plan.Enrolments()[..i]
        invariant Listed(keys, page, Names(plan.identities[..i]), config.subscribers.Keys, existing)
      {
        ok, existing := EnrolNext(i, existing, old(done), keys, page);
        if !ok { return; }
        i := i + 1;
      }
      assert plan.Enrolments()[..i] == plan.Enrolments() && plan.identities[..i] == plan.identities;
      ok := true;
    }

    /** The operator's identity and tracking areas. */
    method WriteOperator()
      requires OnTrack(true) && plan.provision
      modifies `config, `done
      ensures OnTrack(true) && done == old(done) + [Put(OperatorId), Put(Tracking)]
      ensures config.subscribers == old(config).subscribers
    {
      Rewrite(OperatorId);
      Rewrite(Tracking);
    }

    /** The profile and the slice. */
    method WriteSlice()
      requires OnTrack(true) && plan.provision
      modifies `config, `posts, `done
      ensures OnTrack(true) && done == old(done) + [Ensure(Profile), Ensure(Slice), Put(Slice)]
      ensures config.subscribers == old(config).subscribers
    {
      EnsureResource(Profile);
      EnsureResource(Slice);
      Rewrite(Slice);
    }

    /** The operator, the profile and the slice. */
    method WriteBasics()
      requires OnTrack(true) && plan.provision
      modifies `config, `posts, `done
      ensures OnTrack(true) && done == old(done) + plan.Basics() && config.subscribers == old(config).subscribers
    {
      WriteOperator();
      WriteSlice();
    }

    /** The Core's settings for short messages and for the IMS. */
    method WriteSms()
      requires OnTrack(true) && plan.provision && plan.services
      modifies `config, `posts, `done
      ensures OnTrack(true) && done == old(done) + [Put(Sms), Put(ImsAddress), Smsc]
      ensures config.subscribers == old(config).subscribers
    {
      Rewrite(Sms);
      Rewrite(ImsAddress);
      DescribeSmsc();
    }

    /** The operator settings of the IMS and the SMS centre. */
    method WriteOperators()
      requires OnTrack(true) && plan.provision && plan.services
      modifies `config, `done
      ensures OnTrack(true) && done == old(done) + [Put(ImsOperator), Put(SmscOperator), Put(Delivery)]
      ensures config.subscribers == old(config).subscribers
    {
      Rewrite(ImsOperator);
      Rewrite(SmscOperator);
      Rewrite(Delivery);
    }

    /** The Diameter routes and the policy interface. */
    method WriteRoutes()
      requires OnTrack(true) && plan.provision && plan.services
      modifies `config, `done
      ensures OnTrack(true) && done == old(done) + [Put(RouteCx), Put(RouteRx), Put(RxPolicy)]
      ensures config.subscribers == old(config).subscribers
    {
      Rewrite(RouteCx);
      Rewrite(RouteRx);
      Rewrite(RxPolicy);
    }

    /** The Diameter peers and routes. */
    method WriteDiameter()
      requires OnTrack(true) && plan.provision && plan.services
      modifies `config, `posts, `done
      ensures OnTrack(true) && done == old(done) + (PeerSteps(plan.count) + [Put(RouteCx), Put(RouteRx), Put(RxPolicy)])
      ensures config.subscribers == old(config).subscribers
    {
      DescribePeers();
      WriteRoutes();
    }

    /** The services, when they are wanted. */
    method WriteServices()
      requires OnTrack(true) && plan.provision
      modifies `config, `posts, `done
      ensures OnTrack(true) && config.subscribers == old(config).subscribers
      ensures done == old(done) + if plan.services then plan.Services() else []
    {
      if plan.services {
        plan.ServicesParts(done);
        WriteSms();
        WriteOperators();
        WriteDiameter();
      }
    }

    /** What every provisioned Core gets. */
    method WriteCore() returns (ok: bool)
      requires OnTrack(true) && plan.provision
      modifies `config, `posts, `done
      ensures OnTrack(ok) && config.subscribers == old(config).subscribers
      ensures done <= old(done) + (plan.Basics() + plan.Provisions(plan.networks))
      ensures ok ==> done == old(done) + (plan.Basics() + plan.Provisions(plan.networks))
    {
      ghost var basics := plan.Basics();
      WriteBasics();
      Associate(old(done), basics, plan.Provisions(plan.networks));
      ok := ProvideNetworks();
    }

    /** The services and the subscribers. No more than a hundred subscribers exist, so the page lists them all. */
    method WriteRest()
      requires OnTrack(true) && plan.provision && |config.subscribers| <= 100
      modifies `config, `posts, `done
      ensures OnTrack(true)
      ensures done == old(done) + (if plan.services then plan.Services() else []) + plan.Enrolments()
    {
      WriteServices();
      var ok := Enrol(config.subscribers.Keys);
    }

    /** Everything that is skipped when provisioning is off. */
    method Provision() returns (ok: bool)
      requires OnTrack(true) && plan.provision && |config.subscribers| <= 100
      modifies `config, `posts, `done
      ensures OnTrack(ok)
      ensures done <= old(done) + plan.Provisioning() && (ok ==> done == old(done) + plan.Provisioning())
    {
      ghost var first, services := plan.Basics() + plan.Provisions(plan.networks), plan.Services();
      ghost var second := if plan.services then services else [];
      plan.ProvisioningParts(old(done), first, second);
      ok := WriteCore();
      if ok { WriteRest(); }
    }

    /** Joins and names the nodes of a cluster. */
    method Cluster() returns (ok: bool)
      requires OnTrack(true)
      modifies `config, `posts, `done
      ensures OnTrack(ok) && config.subscribers == old(config).subscribers
      ensures done <= old(done) + plan.Clustering() && (ok ==> done == old(done) + plan.Clustering())
    {
      ok := true;
      if plan.clustered {
        JoinFollowers();
        if plan.naming { ok := NameMembers(); }
      }
    }

    /** Translation, then provisioning. */
    method Configure() returns (ok: bool)
      requires OnTrack(true) && |config.subscribers| <= 100
      modifies `config, `posts, `done
      ensures OnTrack(ok)
      ensures done <= old(done) + plan.Configuring() && (ok ==> done == old(done) + plan.Configuring())
    {
      Associate(done, if plan.gateway then [DisableNat] else [], if plan.provision then plan.Provisioning() else []);
      TurnOffNat();
      ok := true;
      if plan.provision { ok := Provision(); }
    }

    /** Everything after signing in. */
    method Work() returns (ok: bool)
      requires OnTrack(true) && |config.subscribers| <= 100
      modifies `config, `posts, `done
      ensures OnTrack(ok)
      ensures done <= old(done) + plan.Rest() && (ok ==> done == old(done) + plan.Rest())
    {
      Associate(done, plan.Clustering(), plan.Configuring());
      ok := Cluster();
      if ok { ok := Configure(); }
    }

    /** Chooses the node and signs in. */
    method Begin(leads: seq<bool>)
      requires plan.Valid() && |config.members| == plan.count == |leads|
      requires config.smsc.Valid() && config.diameter.Valid()
      requires done == [] && posts == [] && config == start
      modifies `config, `posts, `done, `core, `settle
      ensures OnTrack(true) && done == [Enter] && config.subscribers == start.subscribers
      ensures settle == (!start.members[core].initialized || plan.reconcile)
    {
      DiscoverLeader(leads);
      SignIn();
    }

    /** The whole script does what a complete run does. */
    method Bootstrap(leads: seq<bool>) returns (ok: bool)
      requires plan.Valid() && |config.members| == plan.count == |leads|
      requires config.smsc.Valid() && config.diameter.Valid()
      requires done == [] && posts == [] && config == start && |config.subscribers| <= 100
      modifies this
      ensures Current().Valid() && Current().Fits(start)
      ensures settle == (!start.members[core].initialized || plan.reconcile)
      ensures Current().Whole(start) == Effect(config, posts, !ok)
    {
      Begin(leads);
      ok := Work();
      Current().PrefixDecides(done, start);
    }
  }
}
