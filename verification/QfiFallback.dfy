/** The reconcile loop of pipelined.deployment.yaml that gives every tunnel a classifier entry without a QFI match,
    below the one with it, and lets the traffic of known subscribers pass. Flow tables follow OpenFlow 1.3: section
    5.3 for matching, section 6.4 for adding an entry with the match and priority of an existing one. */
module QfiFallback {
  import opened Text

  datatype Field = InPort | TunId | Qfi | EthType | NwSrc | NwDst | Reg1 | Named(name: string)

  datatype Criterion = Exact(value: bv64) | Masked(value: bv64, mask: bv64)

  type Match = map<Field, Criterion>
  type Packet = map<Field, bv64>
  type Actions = string

  /** Priority and match identify an entry of a table. */
  datatype Key = Key(priority: nat, fields: Match)

  type Table = map<Key, Actions>

  predicate Accepts(c: Criterion, v: bv64) {
    match c
    case Exact(value) => v == value
    case Masked(value, mask) => v & mask == value & mask
  }

  predicate Matches(m: Match, p: Packet) {
    forall f :: f in m ==> f in p && Accepts(m[f], p[f])
  }

  /** The entries a packet may be handled by: those that match with the highest priority. With more than one the
      choice is undefined. */
  predicate Wins(t: Table, p: Packet, k: Key) {
    k in t && Matches(k.fields, p) && forall j :: j in t && Matches(j.fields, p) ==> j.priority <= k.priority
  }

  // ---------------------------------------------------------------- the classifier pass

  /** The two distinct priorities, the port of the GTP tunnel, and the priority of session pass flows if these are
      on. */
  datatype Config = Config(qfi: nat, fallback: nat, gtpPort: bv64, passEnabled: bool, sessionPass: nat) {

    predicate Valid() {
      fallback < qfi
    }

    /** The entries the pass rewrites. */
    predicate IsQfiEntry(k: Key) {
      && k.priority == qfi
      && InPort in k.fields && k.fields[InPort] == Exact(gtpPort)
      && TunId in k.fields && Qfi in k.fields
    }

    /** The same entry at the lower priority and without the QFI match. */
    function Derived(k: Key): Key {
      Key(fallback, k.fields - {Qfi})
    }

    function QfiEntries(t: Table): set<Key> {
      set k | k in t && IsQfiEntry(k)
    }

    /** Adding the derived entries of `order` one after the other, with the actions seen in `dump`. */
    function Install(t: Table, dump: Table, order: seq<Key>): Table
      requires forall k :: k in order ==> k in dump
      decreases |order|
    {
      if order == [] then t else Install(t[Derived(order[0]) := dump[order[0]]], dump, order[1..])
    }

    /** `order` lists QFI entries of the table; entries whose derived flow the switch refused may be missing. */
    predicate Lists(order: seq<Key>, t: Table) {
      forall k :: k in order ==> k in QfiEntries(t)
    }

    /** A dump lists every QFI entry once, in an order the switch chooses. */
    ghost predicate Dumps(order: seq<Key>, t: Table) {
      (forall k :: k in order <==> k in QfiEntries(t)) && forall i, j :: 0 <= i < j < |order| ==> order[i] != order[j]
    }

    function Pass(t: Table, order: seq<Key>): Table
      requires Lists(order, t)
    {
      Install(t, t, order)
    }

    lemma {:induction false} InstallConcat(t: Table, dump: Table, a: seq<Key>, b: seq<Key>)
      requires forall k :: k in a + b ==> k in dump
      ensures (forall k :: k in a ==> k in dump) && (forall k :: k in b ==> k in dump)
      ensures Install(t, dump, a + b) == Install(Install(t, dump, a), dump, b)
      decreases |a|
    {
      forall k | k in a ensures k in dump { assert k in a + b; }
      forall k | k in b ensures k in dump { assert k in a + b; }
      if a == [] {
        assert a + b == b;
      } else {
        assert (a + b)[1..] == a[1..] + b;
        InstallConcat(t[Derived(a[0]) := dump[a[0]]], dump, a[1..], b);
      }
    }

    /** The last listed entry that derives `d`. */
    function Last(order: seq<Key>, d: Key): (r: Option<Key>)
      ensures r.Some? ==> r.value in order && Derived(r.value) == d
      ensures r.None? ==> forall k :: k in order ==> Derived(k) != d
    {
      if order == [] then None
      else
        var later := Last(order[1..], d);
        if later.Some? then later else if Derived(order[0]) == d then Some(order[0]) else None
    }

    /** A key ends up with the actions of the last entry that derives it; other keys stay as they were. */
    lemma {:induction false} InstallAt(t: Table, dump: Table, order: seq<Key>, d: Key)
      requires forall k :: k in order ==> k in dump
      ensures
        var u := Install(t, dump, order);
        match Last(order, d)
        case Some(k) => d in u && u[d] == dump[k]
        case None => (d in u <==> d in t) && (d in t ==> u[d] == t[d])
      decreases |order|
    {
      if order != [] {
        InstallAt(t[Derived(order[0]) := dump[order[0]]], dump, order[1..], d);
      }
    }

    /** Installing adds the derived keys, changes nothing else, and each derived key carries the actions of some
        entry it is derived from. */
    lemma InstallEffect(t: Table, dump: Table, order: seq<Key>)
      requires forall k :: k in order ==> k in dump
      ensures
        var u := Install(t, dump, order);
        && (forall d :: d in u <==> d in t || exists k :: k in order && Derived(k) == d)
        && (forall d :: d in t && (forall k :: k in order ==> Derived(k) != d) ==> u[d] == t[d])
        && (forall d :: d in u && (exists k :: k in order && Derived(k) == d)
                        ==> exists k :: k in order && Derived(k) == d && u[d] == dump[k])
    {
      var u := Install(t, dump, order);
      forall d: Key
        ensures d in u <==> d in t || exists k :: k in order && Derived(k) == d
        ensures d in t && (forall k :: k in order ==> Derived(k) != d) ==> u[d] == t[d]
        ensures d in u && (exists k :: k in order && Derived(k) == d)
                ==> exists k :: k in order && Derived(k) == d && u[d] == dump[k]
      {
        InstallAt(t, dump, order, d);
        var k := Last(order, d);
        assert k.Some? ==> k.value in order && Derived(k.value) == d && u[d] == dump[k.value];
      }
    }

    /** The pass leaves every entry that is not at the fallback priority alone. */
    lemma PassKeepsOthers(t: Table, order: seq<Key>)
      requires Valid() && Lists(order, t)
      ensures forall k: Key :: k.priority != fallback ==> (k in Pass(t, order) <==> k in t)
      ensures forall k :: k in t && k.priority != fallback ==> Pass(t, order)[k] == t[k]
      ensures QfiEntries(Pass(t, order)) == QfiEntries(t)
    {
      InstallEffect(t, t, order);
    }

    // -------------------------------------------------------------- classification

    /** A packet that already matched above the fallback priority keeps exactly its winning entries and their
        actions, however many of the additions were refused. */
    lemma HigherMatchesKept(t: Table, order: seq<Key>, p: Packet, best: Key)
      requires Valid() && Lists(order, t)
      requires best in t && Matches(best.fields, p) && best.priority > fallback
      ensures forall k :: Wins(Pass(t, order), p, k) <==> Wins(t, p, k)
      ensures forall k :: Wins(t, p, k) ==> k in Pass(t, order) && Pass(t, order)[k] == t[k]
    {
      PassKeepsOthers(t, order);
      var u := Pass(t, order);
      assert best in u;
      forall k ensures Wins(u, p, k) <==> Wins(t, p, k) {
        if Wins(u, p, k) {
          assert k.priority >= best.priority;
          forall j | j in t && Matches(j.fields, p) ensures j.priority <= k.priority {
            if j.priority != fallback { assert j in u; }
          }
        }
        if Wins(t, p, k) {
          assert k.priority >= best.priority;
          forall j | j in u && Matches(j.fields, p) ensures j.priority <= k.priority {
            if j.priority != fallback { assert j in t; }
          }
        }
      }
    }

    /** The packet meets every criterion of the entry but the one on the QFI. */
    predicate FitsButQfi(q: Key, p: Packet) {
      forall f :: f in q.fields && f != Qfi ==> f in p && Accepts(q.fields[f], p[f])
    }

    lemma DerivedFits(q: Key, p: Packet)
      ensures Matches(Derived(q).fields, p) <==> FitsButQfi(q, p)
    {
      forall f | f in q.fields && f != Qfi ensures f in Derived(q).fields && Derived(q).fields[f] == q.fields[f] { }
    }

    /** A packet that fits no rewritten entry, even with its QFI ignored, keeps its winning entries and their
        actions. */
    lemma OtherTrafficKept(t: Table, order: seq<Key>, p: Packet)
      requires Valid() && Lists(order, t)
      requires forall q :: q in order ==> !FitsButQfi(q, p)
      ensures forall k :: Wins(Pass(t, order), p, k) <==> Wins(t, p, k)
      ensures forall k :: Wins(t, p, k) ==> k in Pass(t, order) && Pass(t, order)[k] == t[k]
    {
      InstallEffect(t, t, order);
      var u := Pass(t, order);
      forall k: Key | Matches(k.fields, p) ensures (k in u <==> k in t) && (k in t ==> u[k] == t[k]) {
        forall q | q in order ensures Derived(q) != k { DerivedFits(q, p); }
      }
    }

    /** Only entries at the QFI priority that match the GTP port, a tunnel and a QFI count: a packet that fits none of
        them is handled as before. */
    lemma OutsideTunnelsKept(t: Table, order: seq<Key>, p: Packet)
      requires Valid() && Lists(order, t)
      requires forall q :: q in t && FitsButQfi(q, p) ==>
        !(q.priority == qfi && InPort in q.fields && q.fields[InPort] == Exact(gtpPort) &&
          TunId in q.fields && Qfi in q.fields)
      ensures forall k :: Wins(Pass(t, order), p, k) <==> Wins(t, p, k)
      ensures forall k :: Wins(t, p, k) ==> k in Pass(t, order) && Pass(t, order)[k] == t[k]
    {
      forall q | q in order ensures !FitsButQfi(q, p) { assert q in QfiEntries(t); }
      OtherTrafficKept(t, order, p);
    }

    /** A packet that fits a rewritten entry but for its QFI, and nothing above the fallback priority, is handled at the
        fallback priority, by the actions of an entry it so fits or by another entry of that priority. */
    lemma FallbackWins(t: Table, order: seq<Key>, p: Packet, q: Key)
      requires Valid() && Lists(order, t) && q in order && FitsButQfi(q, p)
      requires forall j :: j in t && Matches(j.fields, p) ==> j.priority <= fallback
      ensures
        var u := Pass(t, order);
        && (forall k :: Wins(u, p, k) <==> k in u && Matches(k.fields, p) && k.priority == fallback)
        && (exists k :: Wins(u, p, k))
        && (forall k :: Wins(u, p, k) ==>
              (k in t && u[k] == t[k]) || exists r :: r in order && FitsButQfi(r, p) && u[k] == t[r])
    {
      InstallEffect(t, t, order);
      DerivedFits(q, p);
      var u := Pass(t, order);
      assert Derived(q) in u;
      forall j | j in u && Matches(j.fields, p) ensures j.priority <= fallback {
        if j !in t {
          var k :| k in order && Derived(k) == j;
        }
      }
      assert Wins(u, p, Derived(q));
      forall k | Wins(u, p, k)
        ensures k.priority == fallback
        ensures (k in t && u[k] == t[k]) || exists r :: r in order && FitsButQfi(r, p) && u[k] == t[r]
      {
        assert Derived(q).priority <= k.priority;
        if r :| r in order && Derived(r) == k && u[k] == t[r] { DerivedFits(r, p); }
      }
    }

    /** Each tunnel id has one QFI entry. */
    predicate OneEntryPerTunnel(t: Table) {
      && (forall q :: q in QfiEntries(t) ==> q.fields[TunId].Exact?)
      && (forall q, r :: q in QfiEntries(t) && r in QfiEntries(t) && q.fields[TunId] == r.fields[TunId] ==> q == r)
    }

    /** No entry of the table at the fallback priority matches the packet, other than ones an earlier pass wrote: those
        that match what a QFI entry matches but for the QFI. */
    predicate NothingElseOverlaps(t: Table, p: Packet) {
      forall k :: k in t && k.priority == fallback && Matches(k.fields, p) ==>
        exists q :: q in QfiEntries(t) && k.fields == q.fields - {Qfi}
    }

    lemma OneEntryFits(t: Table, p: Packet, q: Key, r: Key)
      requires OneEntryPerTunnel(t) && q in QfiEntries(t) && r in QfiEntries(t)
      requires FitsButQfi(q, p) && FitsButQfi(r, p)
      ensures r == q
    {
      assert r.fields[TunId] == Exact(p[TunId]) == q.fields[TunId];
    }

    /** Under those two conditions the remaining packets of a tunnel, whatever QFI they carry, get its QFI entry's
        actions, and only those. */
    lemma TunnelGetsQfiActions(t: Table, order: seq<Key>, p: Packet, q: Key)
      requires Valid() && Dumps(order, t) && OneEntryPerTunnel(t) && NothingElseOverlaps(t, p)
      requires q in t && q.priority == qfi && InPort in q.fields && q.fields[InPort] == Exact(gtpPort)
      requires TunId in q.fields && Qfi in q.fields && FitsButQfi(q, p)
      requires forall j :: j in t && Matches(j.fields, p) ==> j.priority <= fallback
      ensures exists k :: Wins(Pass(t, order), p, k)
      ensures forall k :: Wins(Pass(t, order), p, k) ==> k.priority == fallback && Pass(t, order)[k] == t[q]
    {
      assert q in QfiEntries(t);
      InstallEffect(t, t, order);
      FallbackWins(t, order, p, q);
      var u := Pass(t, order);
      forall k | Wins(u, p, k) ensures u[k] == t[q] {
        WinnerIsDerived(t, order, p, k);
        var r :| r in order && Derived(r) == k && u[k] == t[r];
        DerivedFits(r, p);
        OneEntryFits(t, p, q, r);
      }
    }

    lemma WinnerIsDerived(t: Table, order: seq<Key>, p: Packet, k: Key)
      requires Dumps(order, t) && NothingElseOverlaps(t, p) && Matches(k.fields, p) && k.priority == fallback
      requires k in Pass(t, order)
      ensures exists r :: r in order && Derived(r) == k && Pass(t, order)[k] == t[r]
    {
      InstallEffect(t, t, order);
      if k in t {
        var r :| r in QfiEntries(t) && k.fields == r.fields - {Qfi};
        assert r in order && Derived(r) == k;
      }
    }

    /** The actions a tunnel's packets fall back to are those the tunnel's packets get when they carry the expected
        QFI and no higher entry intervenes. */
    lemma FallbackAgreesWithQfi(t: Table, p: Packet, q: Key, v: bv64)
      requires q in t && q.priority == qfi && Qfi in q.fields && FitsButQfi(q, p) && Accepts(q.fields[Qfi], v)
      requires forall j :: j in t && Matches(j.fields, p[Qfi := v]) ==> j.priority <= qfi
      ensures Wins(t, p[Qfi := v], q)
    {
      forall f | f in q.fields ensures f in p[Qfi := v] && Accepts(q.fields[f], p[Qfi := v][f]) {
      }
    }

    // -------------------------------------------------------------- repeating the pass

    /** Entries that differ only in QFI carry the same actions. */
    predicate Consistent(t: Table) {
      forall q, r :: q in QfiEntries(t) && r in QfiEntries(t) && q.fields - {Qfi} == r.fields - {Qfi} ==>
        t[q] == t[r]
    }

    lemma OneEntryIsConsistent(t: Table)
      requires OneEntryPerTunnel(t)
      ensures Consistent(t)
    {
      forall q, r | q in QfiEntries(t) && r in QfiEntries(t) && Derived(q) == Derived(r) ensures t[q] == t[r] {
        assert TunId in Derived(q).fields && Derived(q).fields[TunId] == q.fields[TunId];
        assert TunId in Derived(r).fields && Derived(r).fields[TunId] == r.fields[TunId];
      }
    }

    /** A later pass overwrites everything an earlier one derived. */
    lemma PassOverwrites(t: Table, first: seq<Key>, second: seq<Key>)
      requires Valid() && Dumps(first, t) && Dumps(second, t)
      ensures Lists(second, Pass(t, first)) && Pass(Pass(t, first), second) == Pass(t, second)
    {
      PassKeepsOthers(t, first);
      SameActions(Pass(t, first), t, second);
      forall d: Key
        ensures (d in Install(Pass(t, first), t, second) <==> d in Pass(t, second))
        ensures d in Pass(t, second) ==> Install(Pass(t, first), t, second)[d] == Pass(t, second)[d]
      {
        OverwritesAt(t, first, second, d);
      }
    }

    lemma OverwritesAt(t: Table, first: seq<Key>, second: seq<Key>, d: Key)
      requires Valid() && Dumps(first, t) && Dumps(second, t)
      ensures d in Install(Pass(t, first), t, second) <==> d in Pass(t, second)
      ensures d in Pass(t, second) ==> Install(Pass(t, first), t, second)[d] == Pass(t, second)[d]
    {
      InstallAt(Pass(t, first), t, second, d);
      InstallAt(t, t, second, d);
      InstallAt(t, t, first, d);
      SameKeys(t, first, second);
      assert Last(first, d).Some? ==> Last(first, d).value in second;
    }

    lemma SameKeys(t: Table, first: seq<Key>, second: seq<Key>)
      requires Dumps(first, t) && Dumps(second, t)
      ensures forall k :: k in first <==> k in second
    {
    }

    /** Installing reads the dump only at the listed entries. */
    lemma {:induction false} SameActionsFrom(t: Table, d: Table, e: Table, order: seq<Key>)
      requires forall k :: k in order ==> k in d && k in e && d[k] == e[k]
      ensures Install(t, d, order) == Install(t, e, order)
      decreases |order|
    {
      if order != [] {
        SameActionsFrom(t[Derived(order[0]) := d[order[0]]], d, e, order[1..]);
      }
    }

    lemma SameActions(u: Table, t: Table, order: seq<Key>)
      requires forall k :: k in order ==> k in u && k in t && u[k] == t[k]
      ensures Install(u, u, order) == Install(u, t, order)
    {
      SameActionsFrom(u, u, t, order);
    }

    lemma ConsistentOrder(t: Table, first: seq<Key>, second: seq<Key>)
      requires Consistent(t) && Dumps(first, t) && Dumps(second, t)
      ensures Pass(t, first) == Pass(t, second)
    {
      forall d: Key
        ensures (d in Pass(t, first) <==> d in Pass(t, second))
        ensures d in Pass(t, first) ==> Pass(t, first)[d] == Pass(t, second)[d]
      {
        InstallAt(t, t, first, d);
        InstallAt(t, t, second, d);
        SameKeys(t, first, second);
        var a, b := Last(first, d), Last(second, d);
        assert a.Some? ==> a.value in second;
        assert b.Some? ==> b.value in first;
      }
    }

    lemma {:induction false} Enumerate(ks: set<Key>) returns (order: seq<Key>)
      ensures forall k :: k in order <==> k in ks
      ensures forall i, j :: 0 <= i < j < |order| ==> order[i] != order[j]
      decreases |ks|
    {
      if ks == {} {
        order := [];
      } else {
        var k :| k in ks;
        var rest := Enumerate(ks - {k});
        order := rest + [k];
      }
    }

    lemma LastInstalled(t: Table, dump: Table, order: seq<Key>, k: Key)
      requires k in dump && forall j :: j in order ==> j in dump
      ensures Derived(k) in Install(t, dump, order + [k]) && Install(t, dump, order + [k])[Derived(k)] == dump[k]
    {
      InstallConcat(t, dump, order, [k]);
      assert [k][1..] == [];
    }

    /** With two entries that differ only in QFI and actions, the order of the dump decides. */
    lemma ConflictDependsOnOrder(t: Table, q: Key, r: Key) returns (first: seq<Key>, second: seq<Key>)
      requires q in QfiEntries(t) && r in QfiEntries(t) && Derived(q) == Derived(r) && t[q] != t[r]
      ensures Dumps(first, t) && Dumps(second, t) && Pass(t, first) != Pass(t, second)
    {
      var others := Enumerate(QfiEntries(t) - {q, r});
      first := others + [q] + [r];
      second := others + [r] + [q];
      LastInstalled(t, t, others + [q], r);
      LastInstalled(t, t, others + [r], q);
    }

    /** A repeated pass settles, whatever order the two dumps come in, exactly when entries that differ only in QFI
        carry the same actions. */
    lemma PassSettlesExactly(t: Table)
      requires Valid()
      ensures (forall first, second :: Dumps(first, t) && Dumps(second, t) ==>
                 Lists(second, Pass(t, first)) && Pass(Pass(t, first), second) == Pass(t, first))
              <==> Consistent(t)
    {
      if Consistent(t) {
        forall first, second | Dumps(first, t) && Dumps(second, t)
          ensures Lists(second, Pass(t, first)) && Pass(Pass(t, first), second) == Pass(t, first)
        {
          PassOverwrites(t, first, second);
          ConsistentOrder(t, first, second);
        }
      } else {
        var q, r :| q in QfiEntries(t) && r in QfiEntries(t) && Derived(q) == Derived(r) && t[q] != t[r];
        var first, second := ConflictDependsOnOrder(t, q, r);
        PassOverwrites(t, first, second);
      }
    }

    // -------------------------------------------------------------- passing the sessions

    /** A downlink entry of table 0 that names a subscriber's address. */
    predicate IsSubscriberEntry(k: Key) {
      && k.priority == 65503
      && InPort in k.fields && k.fields[InPort] == Exact(LOCAL)
      && NwDst in k.fields && k.fields[NwDst].value >> 8 == POOL
    }

    function Subscribers(t: Table): set<Criterion> {
      set k | k in t && IsSubscriberEntry(k) :: k.fields[NwDst]
    }

    /** The subscribers are the addresses of 192.168.128.0/24 that entries at priority 65503 from the local port send
        to. */
    lemma SubscribersExactly(t: Table, ue: Criterion)
      ensures ue in Subscribers(t) <==>
              ue.value >> 8 == 0xC0A880 &&
              exists k :: k in t && k.priority == 65503 && InPort in k.fields && k.fields[InPort] == Exact(LOCAL) &&
                NwDst in k.fields && k.fields[NwDst] == ue
    {
      if k :| k in t && k.priority == 65503 && InPort in k.fields && k.fields[InPort] == Exact(LOCAL) &&
              NwDst in k.fields && k.fields[NwDst] == ue {
        assert IsSubscriberEntry(k) ==> k.fields[NwDst] in Subscribers(t);
      }
    }

    function Uplink(ue: Criterion): Key {
      Key(sessionPass, map[EthType := Exact(IPV4), Reg1 := Exact(0x1), NwSrc := ue])
    }

    function Downlink(ue: Criterion): Key {
      Key(sessionPass, map[EthType := Exact(IPV4), Reg1 := Exact(0x10), NwDst := ue])
    }

    function PassKeys(ues: set<Criterion>): set<Key> {
      (set ue | ue in ues :: Uplink(ue)) + (set ue | ue in ues :: Downlink(ue))
    }

    /** Both directions of every subscriber pass in table 11 and are removed from tables 13 and 14. */
    function Admit(b: Bridge, ues: seq<Criterion>): Bridge
      decreases |ues|
    {
      if ues == [] then b
      else
        var up, down := Uplink(ues[0]), Downlink(ues[0]);
        Admit(b.(t11 := b.t11[up := RESUBMIT][down := RESUBMIT],
                 t13 := b.t13 - {up} - {down}, t14 := b.t14 - {up} - {down}),
              ues[1..])
    }

    /** The result depends on the set of subscribers only. */
    function Admitted(b: Bridge, ues: set<Criterion>): Bridge {
      b.(t11 := b.t11 + (map k | k in PassKeys(ues) :: RESUBMIT),
         t13 := b.t13 - PassKeys(ues), t14 := b.t14 - PassKeys(ues))
    }

    lemma PassKeysCons(ue: Criterion, rest: set<Criterion>)
      ensures PassKeys({ue} + rest) == PassKeys(rest) + {Uplink(ue), Downlink(ue)}
    {
    }

    lemma AdmitOne(b: Bridge, ue: Criterion, keys: set<Key>)
      ensures
        var up, down := Uplink(ue), Downlink(ue);
        && b.t11[up := RESUBMIT][down := RESUBMIT] + (map k | k in keys :: RESUBMIT)
           == b.t11 + (map k | k in keys + {up, down} :: RESUBMIT)
        && b.t13 - {up} - {down} - keys == b.t13 - (keys + {up, down})
        && b.t14 - {up} - {down} - keys == b.t14 - (keys + {up, down})
    {
    }

    lemma {:induction false} AdmitEffect(b: Bridge, ues: seq<Criterion>)
      ensures Admit(b, ues) == Admitted(b, set ue | ue in ues)
      decreases |ues|
    {
      var all := set ue | ue in ues;
      if ues == [] {
        assert PassKeys(all) == {};
        assert b.t11 + (map k | k in PassKeys(all) :: RESUBMIT) == b.t11;
      } else {
        var up, down := Uplink(ues[0]), Downlink(ues[0]);
        var b' := b.(t11 := b.t11[up := RESUBMIT][down := RESUBMIT],
                     t13 := b.t13 - {up} - {down}, t14 := b.t14 - {up} - {down});
        var rest := set ue | ue in ues[1..];
        AdmitEffect(b', ues[1..]);
        assert all == {ues[0]} + rest;
        PassKeysCons(ues[0], rest);
        AdmitOne(b, ues[0], PassKeys(rest));
      }
    }

    lemma AdmittedTwice(b: Bridge, ues: set<Criterion>)
      ensures Admitted(Admitted(b, ues), ues) == Admitted(b, ues)
    {
      var a := Admitted(b, ues);
      assert a.t11 + (map k | k in PassKeys(ues) :: RESUBMIT) == a.t11;
      assert a.t13 - PassKeys(ues) == a.t13 && a.t14 - PassKeys(ues) == a.t14;
    }

    /** An IPv4 packet from a subscriber (register 1 holds 0x1) or to one (0x10). */
    ghost predicate OfSubscriber(ues: set<Criterion>, p: Packet) {
      && EthType in p && p[EthType] == IPV4 && Reg1 in p
      && ((p[Reg1] == 0x1 && NwSrc in p && exists ue :: ue in ues && Accepts(ue, p[NwSrc])) ||
          (p[Reg1] == 0x10 && NwDst in p && exists ue :: ue in ues && Accepts(ue, p[NwDst])))
    }

    lemma DirectionsMatch(ue: Criterion, p: Packet)
      ensures Matches(Uplink(ue).fields, p) <==>
              EthType in p && p[EthType] == IPV4 && Reg1 in p && p[Reg1] == 0x1 && NwSrc in p && Accepts(ue, p[NwSrc])
      ensures Matches(Downlink(ue).fields, p) <==>
              EthType in p && p[EthType] == IPV4 && Reg1 in p && p[Reg1] == 0x10 && NwDst in p && Accepts(ue, p[NwDst])
    {
      var up, down := Uplink(ue).fields, Downlink(ue).fields;
      assert EthType in up && Reg1 in up && NwSrc in up && EthType in down && Reg1 in down && NwDst in down;
    }

    lemma PassKeysMatch(ues: set<Criterion>, p: Packet)
      ensures OfSubscriber(ues, p) <==> exists k :: k in PassKeys(ues) && Matches(k.fields, p)
    {
      forall ue | ue in ues ensures Uplink(ue) in PassKeys(ues) && Downlink(ue) in PassKeys(ues) {
      }
      forall ue ensures Matches(Uplink(ue).fields, p) || Matches(Downlink(ue).fields, p) <==> OfSubscriber({ue}, p) {
        DirectionsMatch(ue, p);
        assert ue in {ue};
      }
      if OfSubscriber(ues, p) {
        var ue :| ue in ues && OfSubscriber({ue}, p);
      }
    }

    /** A subscriber's packet that nothing above the pass priority claims, and nothing at it that does otherwise, is
        passed on. */
    lemma SubscriberPasses(b: Bridge, ues: set<Criterion>, p: Packet)
      requires OfSubscriber(ues, p)
      requires forall j :: j in b.t11 && Matches(j.fields, p) ==>
        j.priority < sessionPass || (j.priority == sessionPass && (b.t11[j] == "resubmit(,12)" || j in PassKeys(ues)))
      ensures exists k :: Wins(Admitted(b, ues).t11, p, k)
      ensures forall k :: Wins(Admitted(b, ues).t11, p, k) ==> Admitted(b, ues).t11[k] == "resubmit(,12)"
    {
      PassKeysMatch(ues, p);
      var k :| k in PassKeys(ues) && Matches(k.fields, p);
      forall j | j in PassKeys(ues) ensures j.priority == sessionPass { }
      assert Wins(Admitted(b, ues).t11, p, k);
    }

    /** What a subscriber's packets met in tables 13 and 14 at the pass priority is gone, in both directions. */
    lemma SubscriberUnblocked(b: Bridge, ues: set<Criterion>, ue: Criterion)
      requires ue in ues
      ensures
        var a := Admitted(b, ues);
        var up := Key(sessionPass, map[EthType := Exact(IPV4), Reg1 := Exact(0x1), NwSrc := ue]);
        var down := Key(sessionPass, map[EthType := Exact(IPV4), Reg1 := Exact(0x10), NwDst := ue]);
        up !in a.t13 && down !in a.t13 && up !in a.t14 && down !in a.t14
    {
      assert Uplink(ue) in PassKeys(ues) && Downlink(ue) in PassKeys(ues);
    }

    /** Traffic of nobody's session is classified in tables 11, 13 and 14 as before. */
    lemma OthersUnaffected(b: Bridge, ues: set<Criterion>, p: Packet)
      requires !OfSubscriber(ues, p)
      ensures
        var a := Admitted(b, ues);
        && (forall k :: Wins(a.t11, p, k) <==> Wins(b.t11, p, k))
        && (forall k :: Wins(a.t13, p, k) <==> Wins(b.t13, p, k))
        && (forall k :: Wins(a.t14, p, k) <==> Wins(b.t14, p, k))
        && (forall k :: Wins(b.t11, p, k) ==> a.t11[k] == b.t11[k])
    {
      PassKeysMatch(ues, p);
    }

    // -------------------------------------------------------------- the loop

    /** What one iteration reads: the two dumps of table 0, each in the switch's order. */
    ghost predicate Reads(order: seq<Key>, ues: seq<Criterion>, b: Bridge) {
      Dumps(order, b.t0) && forall ue :: ue in ues <==> ue in Subscribers(Pass(b.t0, order))
    }

    function Iterate(b: Bridge, order: seq<Key>, ues: seq<Criterion>): Bridge
      requires Lists(order, b.t0)
    {
      var b' := b.(t0 := Pass(b.t0, order));
      if passEnabled then Admit(b', ues) else b'
    }

    /** A second iteration over both steps changes nothing. */
    lemma SecondIterationIsIdle(b: Bridge, order: seq<Key>, ues: seq<Criterion>, order': seq<Key>, ues': seq<Criterion>)
      requires Valid() && Consistent(b.t0) && Reads(order, ues, b)
      requires Reads(order', ues', Iterate(b, order, ues))
      ensures Iterate(Iterate(b, order, ues), order', ues') == Iterate(b, order, ues)
      ensures Consistent(Iterate(b, order, ues).t0)
    {
      var b1 := b.(t0 := Pass(b.t0, order));
      var all := set ue | ue in ues;
      AdmitEffect(b1, ues);
      PassKeepsOthers(b.t0, order);
      assert Dumps(order', b.t0);
      PassOverwrites(b.t0, order, order');
      ConsistentOrder(b.t0, order, order');
      assert all == set ue | ue in ues';
      AdmitEffect(Admitted(b1, all), ues');
      AdmittedTwice(b1, all);
    }

    /** What one iteration of a longer run reads. */
    ghost predicate Iterations(b: Bridge, rounds: seq<(seq<Key>, seq<Criterion>)>, end: Bridge)
      decreases |rounds|
    {
      if rounds == [] then end == b
      else Reads(rounds[0].0, rounds[0].1, b) && Iterations(Iterate(b, rounds[0].0, rounds[0].1), rounds[1..], end)
    }

    /** While nothing else writes the tables, any number of iterations leaves what the first one made. */
    lemma {:induction false} LoopSettles(b: Bridge, rounds: seq<(seq<Key>, seq<Criterion>)>, end: Bridge)
      requires Valid() && Consistent(b.t0) && rounds != [] && Iterations(b, rounds, end)
      ensures end == Iterate(b, rounds[0].0, rounds[0].1)
      decreases |rounds|
    {
      var b' := Iterate(b, rounds[0].0, rounds[0].1);
      if |rounds| > 1 {
        var next := rounds[1..][0];
        SecondIterationIsIdle(b, rounds[0].0, rounds[0].1, next.0, next.1);
        LoopSettles(b', rounds[1..], end);
      }
    }
  }

  const LOCAL: bv64 := 0xfffffffe
  const POOL: bv64 := 0xC0A880
  const IPV4: bv64 := 0x0800
  const RESUBMIT: Actions := "resubmit(,12)"

  /** The four tables the loop touches. */
  datatype Bridge = Bridge(t0: Table, t11: Table, t13: Table, t14: Table)

  // ---------------------------------------------------------------- the loop body as written

  class Switch {
    var bridge: Bridge
    const config: Config

    constructor (bridge: Bridge, config: Config)
      ensures this.bridge == bridge && this.config == config
    {
      this.bridge := bridge;
      this.config := config;
    }

    /** Adding an entry replaces one with the same priority and match; the switch may refuse it. */
    method AddFlow(k: Key, actions: Actions, accepted: bool)
      modifies this
      ensures bridge == old(bridge).(t0 := if accepted then old(bridge.t0)[k := actions] else old(bridge.t0))
    {
      if accepted { bridge := bridge.(t0 := bridge.t0[k := actions]); }
    }

    /** The classifier pass over one dump of table 0; `refused` are the entries whose derived flow the switch
        rejects. */
    method ReconcileClassifier(dump: seq<Key>, refused: set<Key>)
      requires config.Valid() && config.Lists(dump, bridge.t0)
      modifies this
      ensures config.Lists(Accepted(dump, refused), old(bridge.t0))
      ensures bridge == old(bridge).(t0 := config.Pass(old(bridge.t0), Accepted(dump, refused)))
    {
      ghost var before := bridge;
      var snapshot := bridge.t0;
      AcceptedListed(dump, refused);
      for i := 0 to |dump|
        invariant bridge == before.(t0 := bridge.t0)
        invariant config.Lists(Accepted(dump[i..], refused), snapshot)
        invariant config.Install(bridge.t0, snapshot, Accepted(dump[i..], refused))
                  == config.Pass(snapshot, Accepted(dump, refused))
      {
        AcceptedListed(dump[i + 1..], refused);
        AcceptedStep(dump[i..], refused);
        assert dump[i..][1..] == dump[i + 1..] && dump[i] in dump;
        AddFlow(config.Derived(dump[i]), snapshot[dump[i]], dump[i] !in refused);
      }
      assert dump[|dump|..] == [];
    }

    method EnsureSessionPassFlows(ues: seq<Criterion>)
      modifies this
      ensures bridge == config.Admitted(old(bridge), set ue | ue in ues)
    {
      config.AdmitEffect(bridge, ues);
      for i := 0 to |ues|
        invariant config.Admit(bridge, ues[i..]) == config.Admit(old(bridge), ues)
      {
        assert ues[i..][1..] == ues[i + 1..];
        var up, down := config.Uplink(ues[i]), config.Downlink(ues[i]);
        bridge := bridge.(t11 := bridge.t11[up := RESUBMIT]);
        bridge := bridge.(t11 := bridge.t11[down := RESUBMIT]);
        bridge := bridge.(t13 := bridge.t13 - {up});
        bridge := bridge.(t13 := bridge.t13 - {down});
        bridge := bridge.(t14 := bridge.t14 - {up});
        bridge := bridge.(t14 := bridge.t14 - {down});
      }
    }
  }

  /** One turn of the loop over the flow tables, in which the switch refuses the flows derived from `refused`; nothing
      happens while the bridge does not exist. */
  method Iteration(sw: Switch, bridgeExists: bool, dump: seq<Key>, refused: set<Key>, ues: seq<Criterion>)
    requires sw.config.Valid() && sw.config.Lists(dump, sw.bridge.t0)
    modifies sw
    ensures sw.config.Lists(Accepted(dump, refused), old(sw.bridge.t0))
    ensures sw.bridge ==
            if bridgeExists then sw.config.Iterate(old(sw.bridge), Accepted(dump, refused), ues) else old(sw.bridge)
  {
    AcceptedListed(dump, refused);
    if bridgeExists {
      sw.ReconcileClassifier(dump, refused);
      if sw.config.passEnabled {
        sw.config.AdmitEffect(sw.bridge, ues);
        sw.EnsureSessionPassFlows(ues);
      }
    }
  }

  function Accepted(dump: seq<Key>, refused: set<Key>): seq<Key> {
    if dump == [] then []
    else (if dump[0] in refused then [] else [dump[0]]) + Accepted(dump[1..], refused)
  }

  lemma AcceptedStep(dump: seq<Key>, refused: set<Key>)
    requires dump != []
    ensures dump[0] in refused ==> Accepted(dump, refused) == Accepted(dump[1..], refused)
    ensures dump[0] !in refused ==> Accepted(dump, refused) != [] && Accepted(dump, refused)[0] == dump[0]
                                    && Accepted(dump, refused)[1..] == Accepted(dump[1..], refused)
  {
  }

  lemma {:induction false} AcceptedListed(dump: seq<Key>, refused: set<Key>)
    ensures forall k :: k in Accepted(dump, refused) <==> k in dump && k !in refused
  {
    if dump != [] {
      AcceptedListed(dump[1..], refused);
    }
  }
}
