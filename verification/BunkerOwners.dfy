/** Who holds a relay open: exactly the host, if it chose the relay, and the connected clients paired on it. */
module BunkerOwners {
  import opened Common
  import opened BunkerModel
  import opened BunkerInvariants
  import opened BunkerRuns

  type Subs = map<string, set<Owner>>

  ghost predicate Populated(subs: Subs) {
    forall url :: url in subs ==> subs[url] != {}
  }

  ghost predicate Wants(st: State, w: Owner, url: string) {
    match w
    case Host => url in st.hosts
    case Peer(c) => c in st.clients.at && url in st.clients.at[c].relays
  }

  /**
   * No subscription without an owner; every owner wants its relay; and every client that wants a
   * relay owns it. The host owns all it wants from the start on; before, only relays it added.
   */
  ghost predicate OwnersExact(st: State) {
    st.stopped || (
      && Populated(st.subs)
      && (forall w, url :: w in Owners(st.subs, url) ==> Wants(st, w, url))
      && (forall w, url :: Wants(st, w, url) && (st.started || w.Peer?) ==> w in Owners(st.subs, url)))
  }

  lemma ClaimOwners(subs: Subs, u: string, owner: Owner)
    ensures forall w, url :: w in Owners(Claim(subs, u, owner), url) <==> w in Owners(subs, url) || (w == owner && url == u)
    ensures Populated(subs) ==> Populated(Claim(subs, u, owner))
  {}

  lemma {:induction false} ClaimAllOwners(subs: Subs, urls: seq<string>, owner: Owner)
    ensures forall w, url :: w in Owners(ClaimAll(subs, urls, owner), url) <==> w in Owners(subs, url) || (w == owner && url in urls)
    ensures Populated(subs) ==> Populated(ClaimAll(subs, urls, owner))
  {
    hide Claim, Owners;
    if urls == [] {
      assert ClaimAll(subs, urls, owner) == subs;
    } else {
      var front, u := urls[..|urls| - 1], urls[|urls| - 1];
      ClaimAllOwners(subs, front, owner);
      ClaimOwners(ClaimAll(subs, front, owner), u, owner);
      assert urls == front + [u];
      assert forall url :: url in urls <==> url in front || url == u;
    }
  }

  lemma ReleaseOwners(subs: Subs, u: string, owner: Owner)
    requires Populated(subs)
    ensures forall w, url :: w in Owners(Release(subs, u, owner), url) <==> w in Owners(subs, url) && !(w == owner && url == u)
    ensures Populated(Release(subs, u, owner))
  {}

  lemma {:induction false} ReleaseAllOwners(subs: Subs, urls: seq<string>, keep: seq<string>, owner: Owner)
    requires Populated(subs)
    ensures forall w, url :: w in Owners(ReleaseAll(subs, urls, keep, owner), url) <==>
              w in Owners(subs, url) && !(w == owner && url in urls && url !in keep)
    ensures Populated(ReleaseAll(subs, urls, keep, owner))
  {
    hide Release, Owners;
    if urls != [] {
      var front, u := urls[..|urls| - 1], urls[|urls| - 1];
      ReleaseAllOwners(subs, front, keep, owner);
      ReleaseOwners(ReleaseAll(subs, front, keep, owner), u, owner);
      assert urls == front + [u];
    }
  }

  /** Steps that leave hosts, clients and subscriptions alone. */
  ghost predicate SameListening(st: State, st': State) {
    st'.hosts == st.hosts && st'.clients == st.clients && st'.subs == st.subs && st'.started == st.started && st'.stopped == st.stopped
  }

  lemma SameListeningExact(st: State, st': State)
    requires OwnersExact(st) && SameListening(st, st')
    ensures OwnersExact(st')
  {
    hide Owners, Populated;
    assert forall w, url :: Wants(st', w, url) <==> Wants(st, w, url);
  }

  lemma AddHostExact(st: State, url: string)
    requires OwnersExact(st)
    ensures OwnersExact(AddHost(st, url))
  {
    hide Claim, Owners;
    ClaimOwners(st.subs, url, Host);
    var st' := AddHost(st, url);
    assert forall c, u :: Wants(st', Peer(c), u) <==> Wants(st, Peer(c), u);
    assert forall u :: Wants(st', Host, u) <==> Wants(st, Host, u) || u == url;
    if !st.stopped {
      forall w, u | w in Owners(st'.subs, u) ensures Wants(st', w, u) {
        assert Wants(st, w, u) || (w == Host && u == url);
      }
      forall w, u | Wants(st', w, u) && (st.started || w.Peer?) ensures w in Owners(st'.subs, u) {
        assert Wants(st, w, u) || (w == Host && u == url);
      }
    }
  }

  lemma {:induction false} AddHostsExact(st: State, urls: seq<string>)
    requires OwnersExact(st)
    ensures OwnersExact(AddHosts(st, urls))
  {
    hide OwnersExact, AddHost;
    if urls != [] {
      AddHostsExact(st, urls[..|urls| - 1]);
      AddHostExact(AddHosts(st, urls[..|urls| - 1]), urls[|urls| - 1]);
    }
  }

  /** Seating a client and then claiming its relays leaves exactly its new relays to it. */
  lemma SeatedExact(st: State, client: string, secret: string, raw: seq<string>, at: int)
    requires OwnersExact(st)
    ensures var st1 := Seated(st, client, secret, raw, at); OwnersExact(st1.(subs := ClaimAll(st1.subs, Dedupe(raw), Peer(client))))
  {
    hide NoDup, ClaimAll, ReleaseAll, Owners;
    var relays := Dedupe(raw);
    var st1 := Seated(st, client, secret, raw, at);
    if !st.stopped {
      if client in st.clients.at { ReleaseAllOwners(st.subs, st.clients.at[client].relays, relays, Peer(client)); }
      ClaimAllOwners(st1.subs, relays, Peer(client));
      var st' := st1.(subs := ClaimAll(st1.subs, relays, Peer(client)));
      assert forall c, url :: c != client ==> (Wants(st', Peer(c), url) <==> Wants(st, Peer(c), url));
      assert forall url :: Wants(st', Host, url) <==> Wants(st, Host, url);
      assert forall url :: Wants(st', Peer(client), url) <==> url in relays;
      forall w, url | w in Owners(st'.subs, url) ensures Wants(st', w, url) {
        if w != Peer(client) { assert Wants(st, w, url); } else { assert Wants(st, w, url) || url in relays; }
      }
    }
  }

  lemma AdmitExact(o: Options, st: State, client: string, secret: string, raw: seq<string>, at: int, now: int, muted: bool)
    requires OwnersExact(st)
    ensures OwnersExact(Admit(o, st, client, secret, raw, at, now, muted))
  {
    hide OwnersExact, Emit, ClaimAll, ReleaseAll, Dedupe;
    var st1 := Seated(st, client, secret, raw, at);
    SeatedExact(st, client, secret, raw, at);
    EmitLeaves(o, st1, now);
    SameListeningExact(st1.(subs := ClaimAll(st1.subs, Dedupe(raw), Peer(client))), Admit(o, st, client, secret, raw, at, now, muted));
  }

  lemma LeftExact(st: State, client: string)
    requires OwnersExact(st) && client in st.clients.at
    ensures OwnersExact(Left(st, client))
  {
    hide NoDup, ReleaseAll, Owners;
    if !st.stopped {
      ReleaseAllOwners(st.subs, st.clients.at[client].relays, [], Peer(client));
      var st' := Left(st, client);
      assert forall c, url :: c != client ==> (Wants(st', Peer(c), url) <==> Wants(st, Peer(c), url));
      assert forall url :: Wants(st', Host, url) <==> Wants(st, Host, url);
      forall w, url | w in Owners(st'.subs, url) ensures Wants(st', w, url) {
        assert Wants(st, w, url);
      }
      forall w, url | Wants(st', w, url) && (st.started || w.Peer?) ensures w in Owners(st'.subs, url) {
        assert w != Peer(client) && Wants(st, w, url);
      }
    }
  }

  lemma DropExact(o: Options, st: State, client: string, now: int)
    requires OwnersExact(st)
    ensures OwnersExact(Drop(o, st, client, now))
  {
    hide OwnersExact, Emit, ReleaseAll;
    if client in st.clients.at {
      LeftExact(st, client);
      EmitLeaves(o, Left(st, client), now);
      SameListeningExact(Left(st, client), Emit(o, Left(st, client), now));
    }
  }

  lemma RevokeExact(o: Options, st: State, secret: string, now: int)
    requires OwnersExact(st)
    ensures OwnersExact(RevokeSecret(o, st, secret, now).0)
  {
    hide OwnersExact, Emit, ReleaseAll;
    if secret in st.secrets.at {
      var st1 := Struck(st, secret);
      SameListeningExact(st, st1);
      var c := Held(st, secret).client;
      if c.Some? { DropExact(o, st1, c.value, now); }
      EmitLeaves(o, st1, now);
      SameListeningExact(st1, Emit(o, st1, now));
    }
  }

  lemma MintSame(o: Options, st: State, secret: string, urls: seq<string>, life: int, now: int)
    ensures SameListening(st, MintOn(o, st, secret, urls, life, now).0)
  {
    hide Emit, Redisplayed, Stored, Schedule, SameListening;
    if secret in st.secrets.at {
      RedisplayedSame(st, secret, urls);
      EmitSame(o, st, Redisplayed(st, secret, urls), now);
    } else {
      var due := if life > 0 then Some(now + life) else None;
      var r := Rec(urls, None, false, 0, true, due);
      StoredSame(st, secret, r, now + life);
      EmitSame(o, st, Stored(if due.Some? then Schedule(st, due.value) else st, secret, r), now);
      ItselfSame(st);
    }
  }

  lemma EmitSame(o: Options, st: State, st1: State, now: int)
    requires SameListening(st, st1)
    ensures SameListening(st, Emit(o, st1, now))
  {
    hide Emit;
    EmitLeaves(o, st1, now);
  }

  lemma ItselfSame(st: State)
    ensures SameListening(st, st)
  {}

  lemma RedisplayedSame(st: State, secret: string, urls: seq<string>)
    requires secret in st.secrets.at
    ensures SameListening(st, Redisplayed(st, secret, urls))
  {}

  lemma StoredSame(st: State, secret: string, r: Rec, e: int)
    ensures SameListening(st, Stored(st, secret, r)) && SameListening(st, Stored(Schedule(st, e), secret, r))
  {}

  lemma DropIfLapsedSame(o: Options, st: State, secret: string, now: int)
    ensures SameListening(st, DropIfLapsed(o, st, secret, now))
  {
    hide Emit;
    EmitLeaves(o, st.(secrets := st.secrets.Delete(secret)), now);
  }

  lemma BindSame(o: Options, st: State, secret: string, client: string, relays: seq<string>, now: int)
    ensures SameListening(st, Bind(o, st, secret, client, relays, now))
  {
    hide Emit;
    var st1 := Readied(st, secret, relays);
    var id := st1.secrets.at[secret];
    var r := RecOf(st1, id);
    EmitLeaves(o, SetRec(st1, id, r.(client := Some(client), pending := r.pending + 1)), now);
  }

  lemma UnbindSame(o: Options, st: State, secret: string, id: nat, now: int)
    ensures SameListening(st, Unbind(o, st, secret, id, now))
  {
    hide Emit, Freed;
    UnbindIsFreed(o, st, secret, id, now);
    FreedSame(st, secret, id);
    EmitLeaves(o, Freed(st, secret, id), now);
  }

  lemma FreedSame(st: State, secret: string, id: nat)
    ensures SameListening(st, Freed(st, secret, id))
  {}

  lemma ApprovalExact(o: Options, st: State, e: Event, now: int)
    requires OwnersExact(st) && (e.BeginConnect? || e.BeginScan? || e.Settle?)
    ensures OwnersExact(Step(o, st, e, now).0)
  {
    hide OwnersExact, Connect, Scan, SettleFlight;
    match e
    case BeginConnect(client, secret) =>
      ConnectSame(o, st, client, secret, now);
      SameListeningExact(st, Step(o, st, e, now).0);
    case BeginScan(client, secret, raw) =>
      ScanSame(o, st, client, secret, raw, now);
      SameListeningExact(st, Step(o, st, e, now).0);
    case Settle(flight, approved) =>
      SettleExact(o, st, flight, approved, now);
  }

  lemma ConnectSame(o: Options, st: State, client: string, secret: string, now: int)
    ensures SameListening(st, Connect(o, st, client, secret, now).0)
  {
    hide DropIfLapsed, Bind, Hex64, Bump, Held, OverCeiling, Takable;
    DropIfLapsedSame(o, st, secret, now);
    BindSame(o, DropIfLapsed(o, st, secret, now), secret, client, [], now);
  }

  lemma ScanSame(o: Options, st: State, client: string, secret: string, raw: seq<string>, now: int)
    ensures SameListening(st, Scan(o, st, client, secret, raw, now).0)
  {
    hide DropIfLapsed, Bind, Dedupe, Hex64, Bump, Held, OverCeiling, Takable;
    DropIfLapsedSame(o, st, secret, now);
    BindSame(o, DropIfLapsed(o, st, secret, now), secret, client, Dedupe(raw), now);
  }

  lemma SettleExact(o: Options, st: State, flight: nat, approved: bool, now: int)
    requires OwnersExact(st)
    ensures OwnersExact(SettleFlight(o, st, flight, approved, now).0)
  {
    hide OwnersExact, Unbind, Admit, Dedupe, Unbump, RoomFor;
    var (st', out) := SettleFlight(o, st, flight, approved, now);
    if flight in st.inflight {
      var f := st.inflight[flight];
      var st1 := EndApproval(st, flight);
      UnbindSame(o, st1, f.secret, f.rid, now);
      if out.Admitted? {
        SameListeningExact(st, Confirm(st1, f));
        AdmitExact(o, Confirm(st1, f), f.client, f.secret, f.relays, now, now, false);
      } else {
        SameListeningExact(st, st');
      }
    }
  }

  lemma {:induction false} AdmitAllExact(o: Options, st: State, plan: Plan, keys: seq<string>, now: int)
    requires OwnersExact(st)
    ensures OwnersExact(AdmitAll(o, st, plan, keys, now))
  {
    hide OwnersExact, Admit;
    if keys != [] {
      AdmitAllExact(o, st, plan, keys[..|keys| - 1], now);
      var k := keys[|keys| - 1];
      if k in plan.clients.at {
        var c := plan.clients.at[k];
        AdmitExact(o, AdmitAll(o, st, plan, keys[..|keys| - 1], now), k, c.secret, c.relays, c.connectedAt, now, true);
      }
    }
  }

  lemma {:induction false} PutSame(st: State, plan: Plan, keys: seq<string>)
    ensures SameListening(st, PutSecrets(st, plan, keys))
  {
    if keys != [] { PutSame(st, plan, keys[..|keys| - 1]); }
  }

  lemma RestoreExact(o: Options, st: State, b: Blob, allowUnsigned: bool, now: int)
    requires OwnersExact(st)
    ensures OwnersExact(RestoreState(o, st, b, allowUnsigned, now).0)
  {
    hide OwnersExact, Judge, PutSecrets, AdmitAll, Emit;
    var verdict := Judge(o, st, b, allowUnsigned, now);
    if verdict.Good? {
      var plan := verdict.value;
      var st1 := PutSecrets(st, plan, Fresh(st, plan.secrets.keys));
      PutSame(st, plan, Fresh(st, plan.secrets.keys));
      SameListeningExact(st, st1);
      AdmitAllExact(o, st1, plan, Absent(st, plan.clients.keys), now);
      var st2 := AdmitAll(o, st1, plan, Absent(st, plan.clients.keys), now);
      var st3 := st2.(generation := Max(st2.generation, StateGeneration(b)));
      SameListeningExact(st2, st3);
      EmitLeaves(o, st3, now);
      SameListeningExact(st3, Emit(o, st3, now));
    }
  }

  lemma StepExact(o: Options, st: State, e: Event, now: int)
    requires OwnersExact(st)
    ensures OwnersExact(Step(o, st, e, now).0)
  {
    hide OwnersExact, MintOn, AddHosts, Sweep, Connect, Scan, SettleFlight, RevokeSecret, Drop, RestoreState, Snapshot, Dedupe, AddHost;
    match e
    case Mint(secret, relays, ttl) =>
      SweepSame(st, now);
      var st0 := Sweep(st, now);
      SameListeningExact(st, st0);
      var urls := Dedupe(if relays == [] then st0.hosts else relays);
      AddHostsExact(st0, urls);
      var life := if ttl.Some? then ttl.value else o.secretTtl;
      MintSame(o, AddHosts(st0, urls), secret, urls, life, now);
      SameListeningExact(AddHosts(st0, urls), Step(o, st, e, now).0);
    case AddRelay(url) => AddHostExact(st, url);
    case BeginConnect(_, _) => ApprovalExact(o, st, e, now);
    case BeginScan(_, _, _) => ApprovalExact(o, st, e, now);
    case Settle(_, _) => ApprovalExact(o, st, e, now);
    case Revoke(secret) => RevokeExact(o, st, secret, now);
    case Disconnect(client) => DropExact(o, st, client, now);
    case Export => SweepSame(st, now); SameListeningExact(st, Sweep(st, now));
    case Restore(b, allowUnsigned) => RestoreExact(o, st, b, allowUnsigned, now);
    case Start => StartExact(o, st, now);
    case Stop => StopExact(o, st, now);
    case Restart => InitExact(o, st.generation);
  }

  lemma SweepSame(st: State, now: int)
    ensures SameListening(st, Sweep(st, now))
  {}

  lemma StartExact(o: Options, st: State, now: int)
    requires OwnersExact(st)
    ensures OwnersExact(Step(o, st, Start, now).0)
  {
    hide ClaimAll, Owners;
    ClaimAllOwners(st.subs, st.hosts, Host);
    var st' := Step(o, st, Start, now).0;
    assert forall w, url :: Wants(st', w, url) <==> Wants(st, w, url);
  }

  lemma StopExact(o: Options, st: State, now: int)
    requires OwnersExact(st)
    ensures OwnersExact(Step(o, st, Stop, now).0)
  {}

  lemma InitExact(o: Options, generation: int)
    ensures OwnersExact(Init(o, generation))
  {
    hide Dedupe;
  }

  /**
   * In every reachable state between start and stop, a relay's owners are exactly the host, if it
   * chose the relay, and the connected clients whose relay set contains it; and no relay is held for nobody.
   */
  lemma RelayOwnersAreExact(o: Options, generation: int, run: seq<Timed>, i: nat, url: string)
    requires i <= |run|
    ensures var st := Before(o, Init(o, generation), run, i);
            st.started && !st.stopped ==>
              && (url in st.subs <==> Owners(st.subs, url) != {})
              && (Host in Owners(st.subs, url) <==> url in st.hosts)
              && (forall c :: Peer(c) in Owners(st.subs, url) <==> c in st.clients.at && url in st.clients.at[c].relays)
  {
    hide Before, Init;
    RunOwners(o, generation, run, i);
    var st := Before(o, Init(o, generation), run, i);
    assert Wants(st, Host, url) <==> url in st.hosts;
    assert forall c :: Wants(st, Peer(c), url) <==> c in st.clients.at && url in st.clients.at[c].relays;
  }

  lemma {:induction false} RunOwners(o: Options, generation: int, run: seq<Timed>, i: nat)
    requires i <= |run|
    ensures OwnersExact(Before(o, Init(o, generation), run, i))
  {
    hide OwnersExact, Step, Init;
    if i == 0 {
      assert run[..0] == [];
      InitExact(o, generation);
    } else {
      RunOwners(o, generation, run, i - 1);
      NextState(o, Init(o, generation), run, i - 1);
      StepExact(o, Before(o, Init(o, generation), run, i - 1), run[i - 1].event, run[i - 1].now);
    }
  }
}
