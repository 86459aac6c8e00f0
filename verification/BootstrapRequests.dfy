/** The POST requests of a complete bootstrap run: how it signs in, whom it joins, and what it creates. */
module BootstrapRequests {
  import opened Text
  import opened Bootstrap

  function Count(posts: seq<Post>, x: Post): nat {
    if posts == [] then 0 else (if posts[0] == x then 1 else 0) + Count(posts[1..], x)
  }

  lemma {:induction false} CountConcat(a: seq<Post>, b: seq<Post>, x: Post)
    ensures Count(a + b, x) == Count(a, x) + Count(b, x)
  {
    if a == [] {
      assert a + b == b;
    } else {
      assert (a + b)[0] == a[0] && (a + b)[1..] == a[1..] + b;
      CountConcat(a[1..], b, x);
    }
  }

  lemma {:induction false} CountIn(posts: seq<Post>, x: Post)
    ensures Count(posts, x) > 0 <==> x in posts
  {
    if posts != [] {
      CountIn(posts[1..], x);
      assert x in posts <==> x == posts[0] || x in posts[1..];
    }
  }

  /** Tokens are asked for one at a time, each for the join request that follows. */
  predicate Paired(posts: seq<Post>) {
    || posts == []
    || (posts[0] != PostToken && posts[0] != PostJoin && Paired(posts[1..]))
    || (|posts| >= 2 && posts[0] == PostToken && posts[1] == PostJoin && Paired(posts[2..]))
  }

  lemma {:induction false} PairedConcat(a: seq<Post>, b: seq<Post>)
    requires Paired(a) && Paired(b)
    ensures Paired(a + b)
  {
    if a == [] {
      assert a + b == b;
    } else if a[0] == PostToken {
      assert (a + b)[0] == a[0] && (a + b)[1] == a[1] && (a + b)[2..] == a[2..] + b;
      PairedConcat(a[2..], b);
    } else {
      assert (a + b)[0] == a[0] && (a + b)[1..] == a[1..] + b;
      PairedConcat(a[1..], b);
    }
  }

  /** Nodes other than the one talked to that have not joined, among the first `n`. */
  function Outside(members: seq<Member>, core: nat, n: nat): nat
    requires n <= |members|
  {
    if n == 0 then 0
    else Outside(members, core, n - 1) + if n - 1 != core && !members[n - 1].initialized then 1 else 0
  }

  // ---------------------------------------------------------------- one step

  lemma ActPaired(pass: Pass, s: Step, c: Config)
    requires pass.Valid() && pass.Fits(c) && pass.plan.Plans(s)
    ensures Paired(pass.Act(s, c).posts)
  {
  }

  /** Requests made only by a step of one kind. */
  lemma ActPosts(pass: Pass, s: Step, c: Config, x: Post)
    requires pass.Valid() && pass.Fits(c) && pass.plan.Plans(s)
    ensures x in pass.Act(s, c).posts ==>
      match x
      case PostInit => s.Enter?
      case PostLogin => s.Enter?
      case PostToken => s.Join?
      case PostJoin => s.Join?
      case PostResource(k) => s == Ensure(k) && k !in c.settings
      case PostNetwork(n) => s == Provide(n) && n !in c.networks
      case PostSmscPeer => s.Smsc?
      case PostDiameterPeer => s.Peer?
      case PostSubscriber(imsi) => s == Enrol(imsi) && imsi !in c.subscribers
  {
  }

  // ---------------------------------------------------------------- runs

  lemma {:induction false} RunPaired(pass: Pass, steps: seq<Step>, c: Config)
    requires pass.Valid() && pass.Fits(c) && pass.Planned(steps)
    ensures Paired(pass.Run(steps, c).posts)
  {
    if steps != [] {
      var e := pass.Act(steps[0], c);
      pass.ActFits(steps[0], c);
      ActPaired(pass, steps[0], c);
      if !e.raised {
        RunPaired(pass, steps[1..], e.config);
        PairedConcat(e.posts, pass.Run(steps[1..], e.config).posts);
      }
    }
  }

  /** A run without the kinds of step that make a request does not make it. */
  lemma {:induction false} RunLacks(pass: Pass, steps: seq<Step>, c: Config, x: Post)
    requires pass.Valid() && pass.Fits(c) && pass.Planned(steps)
    requires x in {PostInit, PostLogin} ==> forall s :: s in steps ==> !s.Enter?
    requires x == PostJoin ==> forall s :: s in steps ==> !s.Join?
    requires x in {PostInit, PostLogin, PostJoin}
    ensures x !in pass.Run(steps, c).posts
  {
    if steps != [] {
      var e := pass.Act(steps[0], c);
      assert steps[0] in steps;
      pass.ActFits(steps[0], c);
      ActPosts(pass, steps[0], c, x);
      if !e.raised { RunLacks(pass, steps[1..], e.config, x); }
    }
  }

  lemma {:induction false} NetworkPosted(pass: Pass, steps: seq<Step>, c: Config, n: string)
    requires pass.Valid() && pass.Fits(c) && pass.Planned(steps) && c.members[pass.core].initialized
    requires !pass.Run(steps, c).raised
    ensures PostNetwork(n) in pass.Run(steps, c).posts <==> Provide(n) in steps && n !in c.networks
  {
    if steps != [] {
      var s, e := steps[0], pass.Act(steps[0], c);
      pass.ActFits(s, c);
      pass.DoneStays(s, Enter, c);
      ActPosts(pass, s, c, PostNetwork(n));
      NetworkPosted(pass, steps[1..], e.config, n);
      assert Provide(n) in steps <==> s == Provide(n) || Provide(n) in steps[1..];
      if s != Provide(n) { pass.ActLeavesNetwork(s, c, n); }
    }
  }

  lemma ActLeavesSubscriber(pass: Pass, s: Step, c: Config, imsi: string)
    requires pass.Valid() && pass.Fits(c) && pass.plan.Plans(s) && s != Enrol(imsi)
    ensures imsi in pass.Act(s, c).config.subscribers <==> imsi in c.subscribers
  {
  }

  lemma {:induction false} SubscriberPosted(pass: Pass, steps: seq<Step>, c: Config, imsi: string)
    requires pass.Valid() && pass.Fits(c) && pass.Planned(steps) && !pass.Run(steps, c).raised
    ensures PostSubscriber(imsi) in pass.Run(steps, c).posts <==> Enrol(imsi) in steps && imsi !in c.subscribers
  {
    if steps != [] {
      var s, e := steps[0], pass.Act(steps[0], c);
      pass.ActFits(s, c);
      ActPosts(pass, s, c, PostSubscriber(imsi));
      SubscriberPosted(pass, steps[1..], e.config, imsi);
      assert Enrol(imsi) in steps <==> s == Enrol(imsi) || Enrol(imsi) in steps[1..];
      if s != Enrol(imsi) { ActLeavesSubscriber(pass, s, c, imsi); }
    }
  }

  /** Joining the first `n` nodes takes one join request for each that was outside. */
  lemma {:induction false} JoinsPosted(pass: Pass, n: nat, c: Config)
    requires pass.Valid() && pass.Fits(c) && pass.plan.clustered && n <= pass.plan.count
    ensures pass.Planned(Joins(n)) && !pass.Run(Joins(n), c).raised && pass.Fits(pass.Run(Joins(n), c).config)
    ensures Count(pass.Run(Joins(n), c).posts, PostJoin) == Outside(c.members, pass.core, n)
    ensures forall i :: n <= i < pass.plan.count ==> pass.Run(Joins(n), c).config.members[i] == c.members[i]
  {
    if n > 0 {
      var r := pass.Run(Joins(n - 1), c);
      JoinsPosted(pass, n - 1, c);
      assert Joins(n) == Joins(n - 1) + [Join(n - 1)];
      pass.Further(Joins(n - 1), Join(n - 1), c, r.config, r.posts);
      JoinPosted(pass, n - 1, r.config);
      CountConcat(r.posts, pass.Act(Join(n - 1), r.config).posts, PostJoin);
    }
  }

  lemma JoinPosted(pass: Pass, i: nat, c: Config)
    requires pass.Valid() && pass.Fits(c) && pass.plan.Plans(Join(i))
    ensures
      var e := pass.Act(Join(i), c);
      && !e.raised && pass.Fits(e.config)
      && Count(e.posts, PostJoin) == (if i != pass.core && !c.members[i].initialized then 1 else 0)
      && forall j :: 0 <= j < pass.plan.count && j != i ==> e.config.members[j] == c.members[j]
  {
    pass.ActFits(Join(i), c);
    assert [PostToken, PostJoin][1..] == [PostJoin] && [PostJoin][1..] == [];
  }

  /** What follows the joins of a cluster. */
  function Later(plan: Plan): seq<Step> {
    (if plan.naming && plan.clustered then Renames(plan.count) else []) + plan.Configuring()
  }

  lemma RestAfterJoins(pass: Pass)
    requires pass.Valid()
    ensures pass.plan.Rest() == (if pass.plan.clustered then Joins(pass.plan.count) else []) + Later(pass.plan)
    ensures pass.Planned(Later(pass.plan))
    ensures forall s :: s in Later(pass.plan) ==> !s.Join?
  {
    var plan := pass.plan;
    pass.ScriptIsPlanned();
    Associate(if plan.clustered then Joins(plan.count) else [],
              if plan.naming && plan.clustered then Renames(plan.count) else [], plan.Configuring());
    assert [] + Later(plan) == Later(plan) && [] + plan.Configuring() == plan.Configuring();
    forall s | s in Later(plan) ensures pass.plan.Plans(s) && !s.Join? {
      assert s in plan.Rest();
      if plan.provision && s in plan.Provisioning() { NoJoinIn(pass, s); }
    }
  }

  lemma NoJoinIn(pass: Pass, s: Step)
    requires pass.Valid() && s in pass.plan.Provisioning()
    ensures !s.Join?
  {
    pass.ProvisionsHas(pass.plan.networks, s);
  }

  /** A complete run signs in once, by `init` on a fresh Core and by logging in otherwise, and first of all. It asks for
      one token before each join request and makes one such request for each follower outside the cluster. It creates
      exactly the planned networks and subscribers that did not exist. */
  lemma RequestsExactly(pass: Pass, c: Config)
    requires pass.Valid() && pass.Fits(c) && !pass.Whole(c).raised
    ensures
      var posts, e := pass.Whole(c).posts, pass.Entered(c);
      && |e.members| == pass.plan.count
      && posts != [] && posts[0] == (if c.members[pass.core].initialized then PostLogin else PostInit)
      && PostInit !in posts[1..] && PostLogin !in posts[1..]
      && Paired(posts)
      && Count(posts, PostJoin) == (if pass.plan.clustered then Outside(e.members, pass.core, pass.plan.count) else 0)
      && (forall n :: PostNetwork(n) in posts <==> pass.plan.provision && n in pass.plan.pools && n !in e.networks)
      && (forall imsi :: PostSubscriber(imsi) in posts <==>
            pass.plan.provision && imsi in pass.plan.numbers && imsi !in c.subscribers)
  {
    var e, rest := pass.Entered(c), pass.plan.Rest();
    pass.WholeAfterEntering(c);
    var first := pass.Act(Enter, c).posts;
    var later := pass.Run(rest, e).posts;
    assert pass.Whole(c).posts == first + later && |first| == 1 && (first + later)[1..] == later;
    forall s | s in rest ensures !s.Enter? { pass.RestIsPlanned(s); }
    RunLacks(pass, rest, e, PostInit);
    RunLacks(pass, rest, e, PostLogin);
    ActPaired(pass, Enter, c);
    RunPaired(pass, rest, e);
    PairedConcat(first, later);
    CountConcat(first, later, PostJoin);
    CountIn(first, PostJoin);
    JoinRequests(pass, e);
    forall n ensures PostNetwork(n) in later <==> pass.plan.provision && n in pass.plan.pools && n !in e.networks {
      NetworkRequest(pass, e, n);
    }
    forall imsi ensures PostSubscriber(imsi) in later <==>
                        pass.plan.provision && imsi in pass.plan.numbers && imsi !in e.subscribers {
      SubscriberRequest(pass, e, imsi);
    }
  }

  lemma NetworkRequest(pass: Pass, e: Config, n: string)
    requires pass.Valid() && pass.Fits(e) && e.members[pass.core].initialized
    requires pass.Planned(pass.plan.Rest()) && !pass.Run(pass.plan.Rest(), e).raised
    ensures PostNetwork(n) in pass.Run(pass.plan.Rest(), e).posts <==>
            pass.plan.provision && n in pass.plan.pools && n !in e.networks
  {
    NetworkPosted(pass, pass.plan.Rest(), e, n);
    if pass.plan.Plans(Provide(n)) { pass.RestHas(Provide(n)); }
    if Provide(n) in pass.plan.Rest() { pass.RestIsPlanned(Provide(n)); }
  }

  lemma SubscriberRequest(pass: Pass, e: Config, imsi: string)
    requires pass.Valid() && pass.Fits(e)
    requires pass.Planned(pass.plan.Rest()) && !pass.Run(pass.plan.Rest(), e).raised
    ensures PostSubscriber(imsi) in pass.Run(pass.plan.Rest(), e).posts <==>
            pass.plan.provision && imsi in pass.plan.numbers && imsi !in e.subscribers
  {
    SubscriberPosted(pass, pass.plan.Rest(), e, imsi);
    if pass.plan.Plans(Enrol(imsi)) { pass.RestHas(Enrol(imsi)); }
    if Enrol(imsi) in pass.plan.Rest() { pass.RestIsPlanned(Enrol(imsi)); }
  }

  lemma JoinRequests(pass: Pass, e: Config)
    requires pass.Valid() && pass.Fits(e) && pass.Planned(pass.plan.Rest()) && !pass.Run(pass.plan.Rest(), e).raised
    ensures Count(pass.Run(pass.plan.Rest(), e).posts, PostJoin) ==
            if pass.plan.clustered then Outside(e.members, pass.core, pass.plan.count) else 0
  {
    var joins := if pass.plan.clustered then Joins(pass.plan.count) else [];
    RestAfterJoins(pass);
    if pass.plan.clustered { JoinsPosted(pass, pass.plan.count, e); }
    pass.RunThen(joins, Later(pass.plan), e);
    var r := pass.Run(joins, e);
    var later := pass.Run(Later(pass.plan), r.config).posts;
    RunLacks(pass, Later(pass.plan), r.config, PostJoin);
    CountIn(later, PostJoin);
    CountConcat(r.posts, later, PostJoin);
  }

  /** One resource after the run. */
  lemma SettingAfter(pass: Pass, c: Config, k: Key)
    requires pass.Valid() && pass.Fits(c) && !pass.Whole(c).raised && pass.plan.provision
    ensures
      var before, after := pass.Entered(c).settings, pass.Whole(c).config.settings;
      && (pass.plan.Rewrites(k) ==> k in after && after[k] == pass.plan.body(k))
      && (pass.plan.Creates(k) ==> k in after)
      && (k in before && !pass.plan.Rewrites(k) ==> k in after && after[k] == before[k])
  {
    pass.RunMeetsGoal(c);
    pass.KeysArePlanned(k);
  }

  /** What the run leaves set: the resources every run writes hold their planned bodies, those it only creates are
      there, and what else there was is as before. */
  lemma SettingsExactly(pass: Pass, c: Config, k: Key)
    requires pass.Valid() && pass.Fits(c) && !pass.Whole(c).raised && pass.plan.provision
    ensures
      var before, after := pass.Entered(c).settings, pass.Whole(c).config.settings;
      && (k in {OperatorId, Tracking, Slice} ==> k in after && after[k] == pass.plan.body(k))
      && (pass.plan.services &&
          k in {Sms, ImsAddress, ImsOperator, SmscOperator, Delivery, RouteCx, RouteRx, RxPolicy} ==>
          k in after && after[k] == pass.plan.body(k))
      && (k == Profile || (k.Policy? && k.network in pass.plan.pools) ==> k in after)
      && (k in before && (k.Profile? || k.Policy? || k.OtherResource?) ==> k in after && after[k] == before[k])
  {
    SettingAfter(pass, c, k);
  }
}
