/**
 * Which runs of the server only ever reach states whose export can be restored: what an event has to
 * respect, that these conditions suffice, and that leaving them out loses the round trip.
 */
module BunkerPortable {
  import opened Common
  import opened JsMap
  import opened BunkerModel
  import opened BunkerInvariants
  import opened BunkerRestore
  import opened BunkerRuns
  import opened BunkerBindings
  import opened BunkerRoundTrip

  ghost predicate Roomy(o: Options, relays: seq<string>) {
    relays != [] && |Dedupe(relays)| <= o.maxRelays
  }

  predicate Short(secret: string) {
    1 <= |secret| <= 256
  }

  // ── What is kept ──

  ghost predicate GoodRec(o: Options, r: Rec) {
    Roomy(o, r.relays) && (r.client.Some? ==> WellKeyed(r.client.value))
  }

  /** No secret is bound to a key that is no point of the curve. */
  ghost predicate Curved(o: Options, st: State) {
    forall s :: s in st.secrets.at && Held(st, s).client.Some? ==> o.onCurve(Held(st, s).client.value)
  }

  /** Every record and every approval in flight could be written down as it is. */
  ghost predicate Stocked(o: Options, st: State) {
    && (forall s :: s in st.secrets.at ==> Short(s))
    && (forall r :: r in st.recs ==> GoodRec(o, st.recs[r]))
    && (forall f :: f in st.inflight ==> Roomy(o, st.inflight[f].relays))
  }

  /** The relays a pending `connect` captured are still those of its record. */
  ghost predicate Captured(st: State) {
    forall f :: f in st.inflight && !st.inflight[f].scan ==> Alike(st.inflight[f].relays, RecOf(st, st.inflight[f].rid).relays)
  }

  /** A connected client listens where its secret's record says it does. */
  ghost predicate Matched(st: State) {
    forall c :: c in st.clients.at ==> Matches(st, c)
  }

  ghost predicate Matches(st: State, c: string)
    requires c in st.clients.at
  {
    Alike(st.clients.at[c].relays, Held(st, st.clients.at[c].secret).relays)
  }

  ghost predicate Carries(o: Options, st: State) {
    Stocked(o, st) && Captured(st) && Matched(st)
  }

  // ── What an event has to respect ──

  /** A minted secret fits the stored form: its length, and a relay list within the per-client limit. */
  ghost predicate TidyMint(o: Options, st: State, secret: string, relays: seq<string>) {
    Short(secret) && Roomy(o, Dedupe(if relays == [] then st.hosts else relays))
  }

  /** An approved scan finds no `connect` in flight on its record that captured other relays. */
  ghost predicate TidyScan(st: State, flight: nat) {
    flight in st.inflight && st.inflight[flight].scan ==>
      forall g :: g in st.inflight && g != flight && st.inflight[g].rid == st.inflight[flight].rid && !st.inflight[g].scan ==>
        Alike(st.inflight[g].relays, st.inflight[flight].relays)
  }

  /** No client is restored over a secret that memory holds for it with other relays. */
  ghost predicate TidyRestore(st: State, plan: Plan) {
    forall c :: c in plan.clients.at && c !in st.clients.at && Held(st, plan.clients.at[c].secret).client.Some? ==>
      Alike(plan.clients.at[c].relays, Held(st, plan.clients.at[c].secret).relays)
  }

  ghost predicate Tidy(o: Options, st: State, t: Timed) {
    match t.event
    case Mint(secret, relays, _) => TidyMint(o, st, secret, relays)
    case BeginScan(_, secret, _) => Short(secret)
    case Settle(flight, approved) => approved ==> TidyScan(st, flight)
    case Restore(b, allowUnsigned) =>
      var verdict := Judge(o, st, b, allowUnsigned, t.now);
      verdict.Good? ==> NoHalfBound(st, verdict.value) && TidyRestore(st, verdict.value)
    case _ => true
  }

  // ── Primitive changes ──

  lemma ForgetsCarries(o: Options, st: State, st': State)
    requires Carries(o, st) && Backed(st) && Forgets(st, st')
    ensures Carries(o, st')
  {
    hide GoodRec, Roomy, Alike, Table.Valid;
    forall c | c in st'.clients.at ensures Matches(st', c) {
      assert Matches(st, c);
      assert Held(st, st.clients.at[c].secret).confirmed;
    }
  }

  lemma EmitCarries(o: Options, st: State, now: int)
    requires Carries(o, st) && Backed(st) && st.secrets.Valid()
    ensures Carries(o, Emit(o, st, now))
  {
    hide Carries, Backed, Emit, Forgets;
    EmitForgets(o, st, now);
    ForgetsCarries(o, st, Emit(o, st, now));
  }

  /** Rewriting a record without touching its relays. */
  lemma SetRecCarries(o: Options, st: State, id: nat, r: Rec)
    requires Carries(o, st) && id in st.recs && GoodRec(o, r) && r.relays == st.recs[id].relays
    ensures Carries(o, SetRec(st, id, r))
  {
    hide GoodRec, Roomy, Alike;
    var st' := SetRec(st, id, r);
    assert forall k :: RecOf(st', k).relays == RecOf(st, k).relays;
    forall c | c in st'.clients.at ensures Matches(st', c) { assert Matches(st, c); }
  }

  /** New relays for a record that no client and no approval uses. */
  lemma RewriteCarries(o: Options, st: State, secret: string, urls: seq<string>)
    requires Core(o, st, None) && Carries(o, st) && Backed(st) && Roomy(o, urls)
    requires secret in st.secrets.at && Held(st, secret).client.None?
    ensures Carries(o, Redisplayed(st, secret, urls))
  {
    hide Roomy, Alike, Table.Valid, PendingExact, SlotsExact, WithinCeilings, WellKeyed;
    var st' := Redisplayed(st, secret, urls);
    forall c | c in st'.clients.at ensures Matches(st', c) {
      assert Matches(st, c) && Held(st, st.clients.at[c].secret).client.Some?;
    }
  }

  lemma StoredCarries(o: Options, st: State, secret: string, r: Rec)
    requires Core(o, st, None) && Carries(o, st) && Backed(st) && GoodRec(o, r) && Short(secret)
    requires Held(st, secret).client.None?
    ensures Carries(o, Stored(st, secret, r))
  {
    hide GoodRec, Roomy, Alike, Table.Valid, PendingExact, SlotsExact, WithinCeilings;
    var st' := Stored(st, secret, r);
    forall c | c in st'.clients.at ensures Matches(st', c) {
      assert Matches(st, c) && Held(st, st.clients.at[c].secret).client.Some?;
    }
  }

  lemma LaunchCarries(o: Options, st: State, client: string, secret: string, rid: nat, relays: seq<string>, scan: bool)
    requires Carries(o, st) && Roomy(o, relays) && (scan || Alike(relays, RecOf(st, rid).relays))
    ensures Carries(o, BeginApproval(st, client, secret, rid, relays, scan))
  {
    hide GoodRec, Roomy, Alike, Bump;
    var st' := BeginApproval(st, client, secret, rid, relays, scan);
    forall c | c in st'.clients.at ensures Matches(st', c) { assert Matches(st, c); }
  }

  lemma LandCarries(o: Options, st: State, flight: nat)
    requires Carries(o, st) && flight in st.inflight
    ensures Carries(o, EndApproval(st, flight))
  {
    hide GoodRec, Roomy, Alike, Unbump;
    var st' := EndApproval(st, flight);
    forall c | c in st'.clients.at ensures Matches(st', c) { assert Matches(st, c); }
  }

  // ── Event by event ──

  lemma MintCarries(o: Options, st: State, secret: string, relays: seq<string>, ttl: Option<int>, now: int)
    requires Core(o, st, None) && Backed(st) && Carries(o, st) && TidyMint(o, st, secret, relays)
    ensures Carries(o, MintSecret(o, st, secret, relays, ttl, now).0)
  {
    hide Core, Backed, Carries, Sweep, AddHosts, MintOn, Forgets, Follows, Roomy, Dedupe;
    CoreValid(o, st, None);
    SweepForgets(st, now);
    SweepGeneration(st, now);
    ForgetsCarries(o, st, Sweep(st, now));
    var st0 := Sweep(st, now);
    ForgetsFollows(st, st0);
    FollowsBacked(st, st0);
    ForgetsValid(st, st0);
    var urls := Dedupe(if relays == [] then st0.hosts else relays);
    AddHostsForgets(st0, urls);
    ForgetsCarries(o, st0, AddHosts(st0, urls));
    MintRoom(o, st, secret, relays, ttl, now);
    FollowsBacked(st, AddHosts(st0, urls));
    MintOnCarries(o, AddHosts(st0, urls), secret, urls, if ttl.Some? then ttl.value else o.secretTtl, now);
  }

  lemma ForgetsValid(st: State, st': State)
    requires Forgets(st, st')
    ensures st'.secrets.Valid()
  {}

  lemma MintOnCarries(o: Options, st: State, secret: string, urls: seq<string>, life: int, now: int)
    requires Core(o, st, None) && Backed(st) && Carries(o, st) && Short(secret) && Roomy(o, urls)
    ensures Carries(o, MintOn(o, st, secret, urls, life, now).0)
  {
    hide Core, Backed, Carries, Emit, Follows, Later, Stored, Roomy, Sheds, Redisplayed;
    if secret in st.secrets.at {
      RedisplayCarries(o, st, secret, urls, now);
    } else if st.secrets.Size() < o.maxSecrets {
      var due := if life > 0 then Some(now + life) else None;
      var st1 := if due.Some? then Schedule(st, due.value) else st;
      if due.Some? {
        CoreValid(o, st, None);
        ScheduleForgets(st, due.value);
        ForgetsCarries(o, st, st1);
        ScheduleKeeps(o, st, due.value);
        FollowsBacked(st, st1);
      }
      AbsentUnbound(st1, secret);
      var r := Rec(urls, None, false, 0, true, due);
      StoredCarries(o, st1, secret, r);
      StoredKeeps(o, st1, secret, r);
      FollowsBacked(st1, Stored(st1, secret, r));
      CoreValid(o, Stored(st1, secret, r), None);
      EmitCarries(o, Stored(st1, secret, r), now);
    }
  }

  lemma AbsentUnbound(st: State, secret: string)
    requires secret !in st.secrets.at
    ensures Held(st, secret).client.None?
  {}

  lemma ScheduleForgets(st: State, e: int)
    requires st.secrets.Valid()
    ensures Forgets(st, Schedule(st, e))
  {}

  lemma RedisplayCarries(o: Options, st: State, secret: string, urls: seq<string>, now: int)
    requires Core(o, st, None) && Backed(st) && Carries(o, st) && Roomy(o, urls) && secret in st.secrets.at
    ensures Carries(o, Emit(o, Redisplayed(st, secret, urls), now))
  {
    hide Core, Backed, Carries, Emit, Follows, Roomy, SetRec;
    CoreHeld(o, st, None, secret);
    CoreValid(o, st, None);
    var id := st.secrets.at[secret];
    var st2 := Redisplayed(st, secret, urls);
    if Held(st, secret).client.None? {
      RewriteCarries(o, st, secret, urls);
      if st.recs[id].confirmed { ConfirmedHeld(o, st, None, id); }
      var r := st.recs[id].(relays := urls);
      RecChangeKeeps(o, st, id, r, None, None);
      RecChangeFollows(st, id, r, None, None);
      FollowsBacked(st, st2);
      CoreValid(o, st2, None);
    }
    EmitCarries(o, st2, now);
  }

  lemma DropIfLapsedCarries(o: Options, st: State, secret: string, now: int)
    requires Core(o, st, None) && Backed(st) && Carries(o, st)
    ensures Carries(o, DropIfLapsed(o, st, secret, now)) && Backed(DropIfLapsed(o, st, secret, now))
  {
    hide Core, Backed, Carries, DropIfLapsed, Forgets, Follows;
    CoreValid(o, st, None);
    DropIfLapsedForgets(o, st, secret, now);
    ForgetsCarries(o, st, DropIfLapsed(o, st, secret, now));
    DropIfLapsedKeeps(o, st, secret, now);
    FollowsBacked(st, DropIfLapsed(o, st, secret, now));
  }

  lemma BindCarries(o: Options, st: State, secret: string, client: string, relays: seq<string>, now: int)
    requires Core(o, st, None) && Backed(st) && Carries(o, st) && Takable(st, secret, client)
    requires WellKeyed(client)
    requires secret in st.secrets.at || (st.secrets.Size() < o.maxSecrets && Short(secret) && Roomy(o, relays))
    ensures Carries(o, Bind(o, st, secret, client, relays, now))
  {
    hide Core, Backed, Carries, Emit, Follows, Later, Roomy, WellKeyed, Stored, SetRec;
    var st1 := Readied(st, secret, relays);
    var id := BindId(st, secret);
    ReadiedKeeps(o, st, secret, relays);
    FollowsBacked(st, st1);
    if secret !in st.secrets.at {
      AbsentUnbound(st, secret);
      StoredCarries(o, st, secret, Rec(relays, None, false, 0, false, None));
    }
    StockedRec(o, st1, id);
    var r := st1.recs[id].(client := Some(client), pending := st1.recs[id].pending + 1);
    if st1.recs[id].confirmed { ConfirmedHeld(o, st1, None, id); }
    SetRecCarries(o, st1, id, r);
    RecChangeKeeps(o, st1, id, r, None, Some(id));
    RecChangeFollows(st1, id, r, None, Some(id));
    FollowsBacked(st1, SetRec(st1, id, r));
    CoreValid(o, SetRec(st1, id, r), Some(id));
    EmitCarries(o, SetRec(st1, id, r), now);
  }

  lemma StockedRec(o: Options, st: State, id: nat)
    requires Carries(o, st) && id in st.recs
    ensures GoodRec(o, st.recs[id])
  {
    hide GoodRec, Captured, Matched;
  }

  lemma ConnectCarries(o: Options, st: State, client: string, secret: string, now: int)
    requires Core(o, st, None) && Backed(st) && Carries(o, st)
    ensures Carries(o, Connect(o, st, client, secret, now).0)
  {
    hide Core, Backed, Carries, DropIfLapsed, Bind, BeginApproval, Follows, Hex64, Lower, OverCeiling, Takable, Roomy;
    DropIfLapsedCarries(o, st, secret, now);
    DropIfLapsedKeeps(o, st, secret, now);
    var st1 := DropIfLapsed(o, st, secret, now);
    if Connect(o, st, client, secret, now).1.Waiting? {
      assert WellKeyed(client);
      BindCarries(o, st1, secret, client, [], now);
      BindKeeps(o, st1, secret, client, [], now);
      var st2 := Bind(o, st1, secret, client, [], now);
      var id := st1.secrets.at[secret];
      var relays := Held(st1, secret).relays;
      StockedRec(o, st2, id);
      LaunchCarries(o, st2, client, secret, id, relays, false);
    }
  }

  lemma ScanCarries(o: Options, st: State, client: string, secret: string, raw: seq<string>, now: int)
    requires Core(o, st, None) && Backed(st) && Carries(o, st) && Short(secret)
    ensures Carries(o, Scan(o, st, client, secret, raw, now).0)
  {
    hide Core, Backed, Carries, DropIfLapsed, Bind, BeginApproval, Follows, Hex64, Lower, OverCeiling, Takable, Dedupe;
    DropIfLapsedCarries(o, st, secret, now);
    DropIfLapsedKeeps(o, st, secret, now);
    var st1 := DropIfLapsed(o, st, secret, now);
    if Scan(o, st, client, secret, raw, now).1.Waiting? {
      assert WellKeyed(client);
      var relays := Dedupe(raw);
      DedupeOfNoDup(relays);
      BindCarries(o, st1, secret, client, relays, now);
      LaunchCarries(o, Bind(o, st1, secret, client, relays, now), client, secret, BindId(st1, secret), relays, true);
    }
  }

  lemma UnbindCarries(o: Options, st: State, secret: string, id: nat, now: int)
    requires Core(o, st, Some(id)) && Backed(st) && Carries(o, st) && id in st.recs
    ensures Carries(o, Unbind(o, st, secret, id, now))
  {
    hide Core, Backed, Carries, Emit, Unbind, Freed, Follows, SetRec;
    UnbindIsFreed(o, st, secret, id, now);
    StockedRec(o, st, id);
    var r := st.recs[id];
    if r.pending - 1 <= 0 && !r.confirmed {
      FreedCarries(o, st, secret, id);
      FreedKeeps(o, st, secret, id);
      FollowsBacked(st, Freed(st, secret, id));
      CoreValid(o, Freed(st, secret, id), None);
      EmitCarries(o, Freed(st, secret, id), now);
    } else {
      SetRecCarries(o, st, id, r.(pending := r.pending - 1));
    }
  }

  lemma FreedCarries(o: Options, st: State, secret: string, id: nat)
    requires Core(o, st, Some(id)) && Backed(st) && Carries(o, st) && id in st.recs && st.recs[id].pending <= 1 && !st.recs[id].confirmed
    ensures Carries(o, Freed(st, secret, id))
  {
    hide Core, Backed, Carries, Forgets, Follows;
    PendingPositive(o, st, id);
    StockedRec(o, st, id);
    var r := st.recs[id].(pending := 0, client := None);
    var st1 := SetRec(st, id, r);
    SetRecCarries(o, st, id, r);
    RecChangeKeeps(o, st, id, r, Some(id), None);
    RecChangeFollows(st, id, r, Some(id), None);
    FollowsBacked(st, st1);
    CoreValid(o, st1, None);
    FreedForgets(st, st1, secret, id);
    ForgetsCarries(o, st1, Freed(st, secret, id));
  }

  lemma FreedForgets(st: State, st1: State, secret: string, id: nat)
    requires id in st.recs && !st.recs[id].confirmed && st1.secrets.Valid()
    requires st1 == SetRec(st, id, st.recs[id].(pending := 0, client := None))
    ensures Forgets(st1, Freed(st, secret, id))
  {
    hide NoDup;
  }

  /** An approved flight confirms its record and seats its client on the same relays. */
  lemma AdmitCarries(o: Options, st: State, f: Flight, now: int)
    requires Core(o, st, Some(f.rid)) && Backed(st) && Carries(o, st) && f.rid in st.recs
    requires st.recs[f.rid].client == Some(f.client) && StillHeld(st, f.secret, f.rid) && Roomy(o, f.relays)
    requires f.scan || Alike(f.relays, st.recs[f.rid].relays)
    requires f.scan ==> forall g :: g in st.inflight && st.inflight[g].rid == f.rid && !st.inflight[g].scan ==> Alike(st.inflight[g].relays, f.relays)
    ensures Carries(o, Seated(Confirm(st, f), f.client, f.secret, f.relays, now))
  {
    hide PendingExact, SlotsExact, WithinCeilings, Roomy, WellKeyed, ReleaseAll, Table.Valid, Dedupe;
    var st' := Seated(Confirm(st, f), f.client, f.secret, f.relays, now);
    forall c | c in st'.clients.at ensures Matches(st', c) {
      if c != f.client {
        assert Matches(st, c);
        assert Held(st, st.clients.at[c].secret).client == Some(c);
        assert Held(st', st.clients.at[c].secret) == Held(st, st.clients.at[c].secret);
      }
    }
  }

  /** An approved scan by a key off the curve confirms its record and seats nobody. */
  lemma UnreachableCarries(o: Options, st: State, f: Flight)
    requires Core(o, st, Some(f.rid)) && Backed(st) && Carries(o, st) && f.rid in st.recs && f.client !in st.clients.at
    requires st.recs[f.rid].client == Some(f.client) && StillHeld(st, f.secret, f.rid) && Roomy(o, f.relays)
    requires f.scan ==> forall g :: g in st.inflight && st.inflight[g].rid == f.rid && !st.inflight[g].scan ==> Alike(st.inflight[g].relays, f.relays)
    ensures Carries(o, Confirm(st, f))
  {
    hide PendingExact, SlotsExact, WithinCeilings, Roomy, WellKeyed, Table.Valid, Dedupe;
    var st' := Confirm(st, f);
    forall c | c in st'.clients.at ensures Matches(st', c) {
      assert Matches(st, c);
      assert Held(st, st.clients.at[c].secret).client == Some(c);
      assert Held(st', st.clients.at[c].secret) == Held(st, st.clients.at[c].secret);
    }
  }

  lemma ConfirmLeavesClients(st: State, f: Flight)
    ensures Confirm(st, f).clients == st.clients
  {}

  lemma SubsCarries(o: Options, st: State, subs: map<string, set<Owner>>)
    requires Carries(o, st)
    ensures Carries(o, st.(subs := subs))
  {
    hide GoodRec, Roomy, Alike;
    var st' := st.(subs := subs);
    forall c | c in st'.clients.at ensures Matches(st', c) { assert Matches(st, c); }
  }

  lemma FlightFacts(o: Options, st: State, flight: nat)
    requires Core(o, st, None) && Carries(o, st) && flight in st.inflight
    ensures var f := st.inflight[flight];
            && f.rid in st.recs && st.recs[f.rid].client == Some(f.client) && Roomy(o, f.relays)
            && (f.scan || Alike(f.relays, st.recs[f.rid].relays))
  {
    hide PendingExact, SlotsExact, WithinCeilings, Roomy, WellKeyed, Alike, Table.Valid, Matched;
    assert GoodRec(o, st.recs[st.inflight[flight].rid]);
  }

  lemma SettleCarries(o: Options, st: State, flight: nat, approved: bool, now: int)
    requires Core(o, st, None) && Backed(st) && Carries(o, st) && (approved ==> TidyScan(st, flight))
    ensures Carries(o, SettleFlight(o, st, flight, approved, now).0)
  {
    hide Core, Backed, Carries, Unbind, Admit, Confirm, Follows, Roomy, RoomFor, Alike, Seated, SetRec, Unbump;
    if flight in st.inflight {
      var f := st.inflight[flight];
      FlightFacts(o, st, flight);
      LandCarries(o, st, flight);
      EndApprovalKeeps(o, st, flight);
      var st1 := EndApproval(st, flight);
      FollowsBacked(st, st1);
      UnbindCarries(o, st1, f.secret, f.rid, now);
      StockedRec(o, st1, f.rid);
      SetRecCarries(o, st1, f.rid, st1.recs[f.rid].(pending := st1.recs[f.rid].pending - 1));
      if approved && StillHeld(st1, f.secret, f.rid) && RoomFor(o, st1, f.client) {
        ConfirmLeavesClients(st1, f);
        if f.client !in st1.clients.at { UnreachableCarries(o, st1, f); }
        AdmitCarries(o, st1, f, now);
        AnnounceCarries(o, st1, f, now);
      }
    }
  }

  lemma AnnounceCarries(o: Options, st: State, f: Flight, now: int)
    requires Core(o, st, Some(f.rid)) && Backed(st) && f.rid in st.recs && st.recs[f.rid].client == Some(f.client)
    requires StillHeld(st, f.secret, f.rid) && RoomFor(o, st, f.client)
    requires Carries(o, Seated(Confirm(st, f), f.client, f.secret, f.relays, now))
    ensures Carries(o, Admit(o, Confirm(st, f), f.client, f.secret, f.relays, now, now, false))
  {
    hide Core, Backed, Carries, Confirm, Seated, Follows, Later, Emit, ClaimAll, Dedupe;
    ConfirmKeeps(o, st, f);
    var st2 := Confirm(st, f);
    FollowsBacked(st, st2);
    RoomSame(o, st, st2, f.client);
    SeatedKeeps(o, st2, f.client, f.secret, f.relays, now);
    var st3 := Seated(st2, f.client, f.secret, f.relays, now);
    CoreValid(o, st3, None);
    SeatedBacked(st2, f.client, f.secret, f.relays, now);
    EmitCarries(o, st3, now);
    AdmitIsSeated(o, st2, f.client, f.secret, f.relays, now);
    SubsCarries(o, Emit(o, st3, now), ClaimAll(Emit(o, st3, now).subs, Dedupe(f.relays), Peer(f.client)));
  }

  lemma AdmitIsSeated(o: Options, st: State, client: string, secret: string, raw: seq<string>, now: int)
    ensures var st3 := Emit(o, Seated(st, client, secret, raw, now), now);
            Admit(o, st, client, secret, raw, now, now, false) == st3.(subs := ClaimAll(st3.subs, Dedupe(raw), Peer(client)))
  {
    hide Emit, Dedupe, ClaimAll, ReleaseAll;
  }

  lemma LeftCarries(o: Options, st: State, client: string)
    requires Carries(o, st) && client in st.clients.at
    ensures Carries(o, Left(st, client))
  {
    hide GoodRec, Roomy, Alike, ReleaseAll;
    var st' := Left(st, client);
    forall c | c in st'.clients.at ensures Matches(st', c) { assert Matches(st, c); }
  }

  lemma DropCarries(o: Options, st: State, client: string, now: int)
    requires Core(o, st, None) && Backed(st) && Carries(o, st)
    ensures Carries(o, Drop(o, st, client, now))
  {
    hide Core, Backed, Carries, Emit, Follows, ReleaseAll;
    if client in st.clients.at {
      LeftCarries(o, st, client);
      LeftKeeps(o, st, client);
      FollowsBacked(st, Left(st, client));
      CoreValid(o, Left(st, client), None);
      EmitCarries(o, Left(st, client), now);
    }
  }

  lemma PurgedCarries(o: Options, st: State, secret: string)
    requires Backed(st) && Carries(o, st) && secret in st.secrets.at
    ensures Carries(o, Purged(st, secret))
  {
    hide Backed, Matched, GoodRec, Roomy, Alike, ReleaseAll, Table.Valid;
    PurgedMatched(st, secret);
  }

  lemma PurgedMatched(st: State, secret: string)
    requires Backed(st) && Matched(st) && secret in st.secrets.at
    ensures Matched(Purged(st, secret))
  {
    hide Alike, Purged;
    PurgedClients(st, secret);
    var st' := Purged(st, secret);
    forall c | c in st'.clients.at ensures Matches(st', c) {
      PurgedLeaves(st, secret, c);
      assert Matches(st, c);
      assert Held(st', st.clients.at[c].secret) == Held(st, st.clients.at[c].secret);
    }
  }

  lemma PurgedLeaves(st: State, secret: string, c: string)
    requires secret in st.secrets.at && c in Purged(st, secret).clients.at
    ensures var st' := Purged(st, secret);
            && st'.recs == st.recs && st'.secrets.at == st.secrets.at - {secret}
            && c in st.clients.at && st'.clients.at[c] == st.clients.at[c]
  {
    hide ReleaseAll, Table.Valid, RecOf;
  }

  lemma RevokeCarries(o: Options, st: State, secret: string, now: int)
    requires Core(o, st, None) && Backed(st) && Carries(o, st)
    ensures Carries(o, RevokeSecret(o, st, secret, now).0)
  {
    hide Core, Backed, Carries, Emit, Follows, Purged, RevokeSecret;
    if secret in st.secrets.at {
      PurgedCarries(o, st, secret);
      PurgedKeeps(o, st, secret);
      FollowsBacked(st, Purged(st, secret));
      PurgedValid(o, st, secret);
      EmitCarries(o, Purged(st, secret), now);
      RevokeIsPurge(o, st, secret, now);
    } else {
      RevokeNothing(o, st, secret, now);
    }
  }

  lemma RevokeNothing(o: Options, st: State, secret: string, now: int)
    requires secret !in st.secrets.at
    ensures RevokeSecret(o, st, secret, now).0 == st
  {
    hide Emit, Drop;
  }

  // ── Restoring ──

  /** What validation guarantees beyond soundness: everything in the plan could be written down again. */
  ghost predicate PlanStocked(o: Options, plan: Plan) {
    && (forall k :: k in plan.secrets.at ==> Short(k) && GoodRec(o, plan.secrets.at[k]))
    && (forall c :: c in plan.clients.at && plan.clients.at[c].secret in plan.secrets.at ==>
          Alike(plan.clients.at[c].relays, plan.secrets.at[plan.clients.at[c].secret].relays))
  }

  lemma IncomingGood(o: Options, b: SecretRecord, acc: Table<Rec>, now: int)
    requires CheckSecret(o, b, acc, now).Good?
    ensures GoodRec(o, Incoming(o, b, now)) && NoDup(Incoming(o, b, now).relays) && Short(b.secret)
  {
    hide Dedupe, Hex64, Lower, NoDup, WellKeyed;
    DedupeOfNoDup(Dedupe(b.relays));
    assert b.relays[0] in Dedupe(b.relays);
    if b.client.Some? { LowerKeyed(b.client.value); }
  }

  lemma {:induction false} CheckSecretsStocked(o: Options, list: seq<SecretRecord>, now: int)
    requires CheckSecrets(o, list, now).Good?
    ensures var t := CheckSecrets(o, list, now).value;
            forall k :: k in t.at ==> Short(k) && GoodRec(o, t.at[k]) && NoDup(t.at[k].relays)
  {
    hide GoodRec, NoDup, Dedupe, Hex64, Incoming;
    if list != [] {
      var front, b := list[..|list| - 1], list[|list| - 1];
      CheckSecretsStocked(o, front, now);
      IncomingGood(o, b, CheckSecrets(o, front, now).value, now);
    }
  }

  /** Two relay sets of one size, one inside the other, are one set. */
  lemma SameRelaysAlike(a: seq<string>, b: seq<string>)
    requires NoDup(a) && NoDup(b) && SameRelays(a, b)
    ensures Alike(a, b)
  {
    hide NoDup;
    NoDupCardinality(a);
    NoDupCardinality(b);
    var small, big := set u | u in a, set u | u in b;
    assert small <= big;
    assert big == small + (big - small);
    assert |big - small| == 0;
    forall u ensures u in a <==> u in b {
      assert u in small <==> u in big;
    }
  }

  lemma {:induction false} CheckClientsAlike(o: Options, list: seq<ClientRecord>, secrets: Table<Rec>)
    requires CheckClients(o, list, secrets).Good?
    requires forall k :: k in secrets.at ==> NoDup(secrets.at[k].relays)
    ensures var t := CheckClients(o, list, secrets).value;
            forall c :: c in t.at ==> t.at[c].secret in secrets.at && Alike(t.at[c].relays, secrets.at[t.at[c].secret].relays)
  {
    hide NoDup, Dedupe, Hex64, SameRelays, Alike;
    if list != [] {
      var front, b := list[..|list| - 1], list[|list| - 1];
      CheckClientsAlike(o, front, secrets);
      var relays := secrets.at[b.secret.value].relays;
      SameRelaysAlike(relays, Dedupe(b.relays));
      AlikeBack(relays, Dedupe(b.relays));
    }
  }

  lemma AlikeBack(a: seq<string>, b: seq<string>)
    requires Alike(a, b)
    ensures Alike(b, a)
  {}

  lemma JudgedStocked(o: Options, st: State, b: Blob, allowUnsigned: bool, now: int)
    requires Judge(o, st, b, allowUnsigned, now).Good?
    ensures PlanStocked(o, Judge(o, st, b, allowUnsigned, now).value)
  {
    hide CheckSecrets, CheckClients, Fit, GoodRec, NoDup, Alike;
    CheckSecretsStocked(o, b.content.secrets, now);
    CheckClientsAlike(o, b.content.clients, CheckSecrets(o, b.content.secrets, now).value);
    FitIsPlan(o, st, Validate(o, b.content, now).value);
  }

  lemma PutStocked(o: Options, st: State, st': State, plan: Plan, keys: seq<string>)
    requires Stocked(o, st) && PlanStocked(o, plan) && PutDone(st, st', plan, keys) && forall k :: k in keys ==> k in plan.secrets.at
    ensures Stocked(o, st')
  {
    hide GoodRec, Roomy, Alike;
    forall r | r in st'.recs ensures GoodRec(o, st'.recs[r]) {
      if r !in st.recs { assert FromPlan(plan, keys, st'.recs[r]); }
    }
  }

  lemma PutCaptured(o: Options, st: State, st': State, plan: Plan, keys: seq<string>)
    requires Shape(st) && Captured(st) && PutDone(st, st', plan, keys)
    ensures Captured(st')
  {
    hide Alike, FromPlan, Table.Valid;
  }

  /** Where each client listens once a plan has been applied. */
  lemma AppliedMatched(o: Options, st: State, plan: Plan, generation: int, now: int)
    requires Core(o, st, None) && Backed(st) && Matched(st) && PlanSound(plan) && PlanStocked(o, plan) && Fit(o, st, plan).Good?
    requires TidyRestore(st, plan)
    ensures Matched(Applied(o, st, plan, generation, now))
  {
    hide Core, Later, Follows, Fit, PutSecrets, AdmitAll, Applied, PutDone, AdmitDone, GoodRec, Alike, Backed, PlanSound;
    var st' := Applied(o, st, plan, generation, now);
    AppliedKeepsMemory(o, st, plan, generation, now);
    AppliedClients(o, st, plan, generation, now);
    forall c | c in st'.clients.at ensures Matches(st', c) {
      if c in st.clients.at {
        assert Matches(st, c);
        BackedSecret(st, c);
      } else {
        AppliedMatches(o, st, plan, generation, now, c);
      }
    }
  }

  lemma BackedSecret(st: State, c: string)
    requires Backed(st) && c in st.clients.at
    ensures st.clients.at[c].secret in st.secrets.at && Held(st, st.clients.at[c].secret).client.Some?
  {}

  lemma AppliedMatches(o: Options, st: State, plan: Plan, generation: int, now: int, c: string)
    requires Core(o, st, None) && PlanSound(plan) && PlanStocked(o, plan) && Fit(o, st, plan).Good?
    requires TidyRestore(st, plan) && c in plan.clients.at && c !in st.clients.at
    ensures var st' := Applied(o, st, plan, generation, now); c in st'.clients.at && Matches(st', c)
  {
    hide Core, Later, Follows, Fit, PutSecrets, AdmitAll, Applied, GoodRec, FromPlan, Table.Valid, Dedupe, NoDup;
    AppliedParts(o, st, plan, generation, now);
    AppliedKeepsMemory(o, st, plan, generation, now);
    assert Claims(plan, c);
    var s := plan.clients.at[c].secret;
    PlanKeys(plan, s, c);
    var st1 := PutSecrets(st, plan, Fresh(st, plan.secrets.keys));
    var st' := Applied(o, st, plan, generation, now);
    assert Held(st', s) == Held(st1, s);
    if Held(st, s).client.Some? {
      UnheldUnbound(st, s);
    }
  }

  lemma PlanKeys(plan: Plan, s: string, c: string)
    requires PlanSound(plan) && s in plan.secrets.at && c in plan.clients.at
    ensures s in plan.secrets.keys && c in plan.clients.keys
  {}

  lemma UnheldUnbound(st: State, s: string)
    requires Held(st, s).client.Some?
    ensures s in st.secrets.at
  {}

  lemma RestoreCarries(o: Options, st: State, b: Blob, allowUnsigned: bool, now: int)
    requires Core(o, st, None) && Backed(st) && Carries(o, st)
    requires Tidy(o, st, Timed(Restore(b, allowUnsigned), now))
    ensures Carries(o, RestoreState(o, st, b, allowUnsigned, now).0)
  {
    hide Core, Backed, Carries, Judge, Emit, Fit, PutSecrets, AdmitAll, Follows, Later, PlanSound, PlanStocked, TidyRestore, NoHalfBound;
    var verdict := Judge(o, st, b, allowUnsigned, now);
    if verdict.Good? {
      var plan, g := verdict.value, StateGeneration(b);
      JudgedSound(o, st, b, allowUnsigned, now);
      JudgedStocked(o, st, b, allowUnsigned, now);
      AppliedParts(o, st, plan, g, now);
      AppliedBacked(o, st, plan, g, now);
      AppliedCarries(o, st, plan, g, now);
      var st1 := Applied(o, st, plan, g, now);
      CoreValid(o, st1, None);
      EmitCarries(o, st1, now);
    }
  }

  lemma AppliedCarries(o: Options, st: State, plan: Plan, generation: int, now: int)
    requires Core(o, st, None) && Backed(st) && Carries(o, st) && PlanSound(plan) && PlanStocked(o, plan) && Fit(o, st, plan).Good?
    requires TidyRestore(st, plan)
    ensures Carries(o, Applied(o, st, plan, generation, now))
  {
    hide Core, Backed, Stocked, Captured, Matched, Fit, PutSecrets, AdmitAll, Follows, Later, PlanSound, PlanStocked, TidyRestore, PutDone;
    AppliedParts(o, st, plan, generation, now);
    var loose := Fresh(st, plan.secrets.keys);
    var st1 := PutSecrets(st, plan, loose);
    LooseInPlan(st, plan);
    CoreShape(o, st);
    PutStocked(o, st, st1, plan, loose);
    PutCaptured(o, st, st1, plan, loose);
    AppliedMatched(o, st, plan, generation, now);
    var st' := Applied(o, st, plan, generation, now);
    AdmittedKeeps(o, st1, st', plan, Absent(st, plan.clients.keys));
  }

  lemma CoreShape(o: Options, st: State)
    requires Core(o, st, None)
    ensures Shape(st)
  {
    hide Shape;
  }

  lemma LooseInPlan(st: State, plan: Plan)
    requires PlanSound(plan)
    ensures forall k :: k in Fresh(st, plan.secrets.keys) ==> k in plan.secrets.at
  {}

  lemma AdmittedKeeps(o: Options, st: State, st': State, plan: Plan, keys: seq<string>)
    requires Stocked(o, st) && Captured(st) && AdmitDone(st, st'.(generation := st.generation), plan, keys)
    ensures Stocked(o, st') && Captured(st')
  {
    hide GoodRec, Roomy, Alike;
  }

  // ── Every step, every run ──

  lemma TidyStepCarries(o: Options, st: State, t: Timed)
    requires Core(o, st, None) && Backed(st) && Carries(o, st) && Tidy(o, st, t)
    ensures Carries(o, Step(o, st, t.event, t.now).0)
  {
    hide Core, Backed, Carries, MintSecret, AddHost, Connect, Scan, SettleFlight, RevokeSecret, Drop, Sweep, RestoreState, Judge,
         Snapshot, ClaimAll, Init, Forgets, TidyMint, TidyScan, TidyRestore;
    CoreValid(o, st, None);
    match t.event
    case Mint(secret, relays, ttl) => MintCarries(o, st, secret, relays, ttl, t.now);
    case BeginConnect(client, secret) => ConnectCarries(o, st, client, secret, t.now);
    case BeginScan(client, secret, relays) => ScanCarries(o, st, client, secret, relays, t.now);
    case Settle(flight, approved) => SettleCarries(o, st, flight, approved, t.now);
    case Revoke(secret) => RevokeCarries(o, st, secret, t.now);
    case Disconnect(client) => DropCarries(o, st, client, t.now);
    case Restore(b, allowUnsigned) => RestoreCarries(o, st, b, allowUnsigned, t.now);
    case Restart => StartsCarrying(o, st.generation);
    case _ =>
      QuietForgets(st, t.event, t.now, o);
      ForgetsCarries(o, st, Step(o, st, t.event, t.now).0);
  }

  lemma QuietForgets(st: State, e: Event, now: int, o: Options)
    requires st.secrets.Valid() && (e.AddRelay? || e.Export? || e.Start? || e.Stop?)
    ensures Forgets(st, Step(o, st, e, now).0)
  {
    hide Sweep, Snapshot, ClaimAll, NoDup;
    SweepForgets(st, now);
  }

  lemma StartsCarrying(o: Options, generation: int)
    ensures Carries(o, Init(o, generation)) && Keyed(Init(o, generation))
  {}

  lemma CarriesKeyed(o: Options, st: State)
    requires Carries(o, st)
    ensures Keyed(st)
  {
    hide Captured, Matched, Roomy, WellKeyed;
    forall r | r in st.recs && st.recs[r].client.Some? ensures WellKeyed(st.recs[r].client.value) {
      assert GoodRec(o, st.recs[r]);
    }
  }

  lemma AlikeSameRelays(a: seq<string>, b: seq<string>)
    requires Alike(a, b)
    ensures SameRelays(Dedupe(b), Dedupe(a)) && |Dedupe(a)| == |Dedupe(b)|
  {
    NoDupSameElements(Dedupe(a), Dedupe(b));
  }

  lemma CarriesPortable(o: Options, st: State)
    requires Core(o, st, None) && Backed(st) && Carries(o, st)
    ensures Portable(o, st) <==> Curved(o, st)
  {
    hide PendingExact, SlotsExact, FlightsBound, WithinCeilings, Alike, Dedupe, SameRelays, Captured, WellKeyed, Table.Valid;
    forall s | s in st.secrets.at
      ensures GoodRecord(o, s, Held(st, s)) <==> (Held(st, s).client.Some? ==> o.onCurve(Held(st, s).client.value)) {
      assert GoodRec(o, Held(st, s));
    }
    forall c | c in st.clients.at ensures GoodClient(o, st, c) {
      assert Matches(st, c);
      var cl := st.clients.at[c];
      BackedSecret(st, c);
      assert GoodRec(o, Held(st, cl.secret));
      AlikeSameRelays(cl.relays, Held(st, cl.secret).relays);
      AlikeEmpty(cl.relays, Held(st, cl.secret).relays);
    }
  }

  lemma AlikeEmpty(a: seq<string>, b: seq<string>)
    requires Alike(a, b) && b != []
    ensures a != []
  {
    assert b[0] in b;
  }

  ghost predicate TidyRun(o: Options, st: State, run: seq<Timed>) {
    forall i :: 0 <= i < |run| ==> Tidy(o, Before(o, st, run, i), run[i])
  }

  lemma TidyIsCareful(o: Options, st: State, run: seq<Timed>)
    requires TidyRun(o, st, run)
    ensures CarefulRestores(o, st, run)
  {
    hide Before, Judge, NoHalfBound, TidyRestore;
    forall i | 0 <= i < |run| && run[i].event.Restore? ensures CarefulRestore(o, Before(o, st, run, i), run[i]) {
      assert Tidy(o, Before(o, st, run, i), run[i]);
    }
  }

  lemma {:induction false} TidyRunCarries(o: Options, st: State, run: seq<Timed>, i: nat)
    requires Core(o, st, None) && Backed(st) && Carries(o, st) && TidyRun(o, st, run) && i <= |run|
    ensures Carries(o, Before(o, st, run, i))
  {
    hide Core, Backed, Carries, Step, Tidy;
    if i == 0 {
      assert run[..0] == [];
    } else {
      TidyRunCarries(o, st, run, i - 1);
      RunKeepsCore(o, st, run, i - 1);
      TidyIsCareful(o, st, run);
      RunKeepsBacked(o, st, run, i - 1);
      NextState(o, st, run, i - 1);
      TidyStepCarries(o, Before(o, st, run, i - 1), run[i - 1]);
    }
  }

  /**
   * Every state a tidy run of the server reaches can be moved to a fresh process, if and only if no
   * secret it holds is bound to a scanned key off the curve: the export is then accepted there, and
   * gives back the same clients and the same unexpired secrets.
   */
  lemma ReachableStatesRoundTrip(o: Options, generation: int, run: seq<Timed>, i: nat, now: int)
    requires generation >= 0 && i <= |run| && TidyRun(o, Init(o, generation), run)
    ensures var st := Before(o, Init(o, generation), run, i);
            var (st', out) := RestoreState(o, Init(o, st.generation), Sign(o, Snapshot(o, st)), false, now);
            && (out == Restored <==> Curved(o, st))
            && (out == Restored ==> RoundTripped(o, st, st', now))
  {
    hide Core, Backed, Carries, Curved, Before, TidyRun, Portable, Keyed, RestoreState, Snapshot, Judge, RoundTripped, CarefulRestores;
    FreshStart(o, generation);
    StartsCarrying(o, generation);
    TidyIsCareful(o, Init(o, generation), run);
    RunKeepsCore(o, Init(o, generation), run, i);
    RunKeepsBacked(o, Init(o, generation), run, i);
    TidyRunCarries(o, Init(o, generation), run, i);
    var st := Before(o, Init(o, generation), run, i);
    CarriesPortable(o, st);
    CarriesKeyed(o, st);
    ZeroPrefix(o, Init(o, generation), run);
    GenerationOverRun(o, Init(o, generation), run, 0, i);
    ExportIsAccepted(o, st, now);
    if Portable(o, st) { RestoreUndoesExport(o, st, now); }
  }

  // ── What the conditions are for ──

  /** What an admission leaves: the record confirmed, the client seated on the flight's own relays. */
  lemma AdmissionLeaves(o: Options, st: State, flight: nat, now: int)
    requires Core(o, st, None) && flight in st.inflight && SettleFlight(o, st, flight, true, now).1.Admitted?
    ensures var f := st.inflight[flight];
            var st' := SettleFlight(o, st, flight, true, now).0;
            && f.rid in st.recs && StillHeld(st', f.secret, f.rid) && st'.inflight == st.inflight - {flight}
            && f.rid in st'.recs && st'.recs[f.rid].relays == (if f.scan then f.relays else st.recs[f.rid].relays)
            && f.client in st'.clients.at && st'.clients.at[f.client] == Client(f.secret, Dedupe(f.relays), now)
  {
    hide Core, Follows, Later, Backed, Unbind, RoomFor, Unbump, Emit, Dedupe, ReleaseAll, ClaimAll, Forgets, Admit;
    var f := st.inflight[flight];
    EndApprovalKeeps(o, st, flight);
    var st1 := EndApproval(st, flight);
    ConfirmKeeps(o, st1, f);
    var st2 := Confirm(st1, f);
    CoreValid(o, st2, None);
    var st3 := Seated(st2, f.client, f.secret, f.relays, now);
    AdmitIsSeated(o, st2, f.client, f.secret, f.relays, now);
    EmitForgets(o, st3, now);
    ForgetsConfirmed(st3, Emit(o, st3, now), f.secret);
    EmitLeaves(o, st3, now);
  }

  lemma ForgetsConfirmed(st: State, st': State, secret: string)
    requires Forgets(st, st') && secret in st.secrets.at && Held(st, secret).confirmed
    ensures secret in st'.secrets.at && st'.secrets.at[secret] == st.secrets.at[secret]
  {
    hide NoDup;
  }

  lemma GoodClientIsAlike(o: Options, st: State, c: string)
    requires c in st.clients.at
    requires Roomy(o, st.clients.at[c].relays)
    ensures GoodClient(o, st, c) <==> Alike(st.clients.at[c].relays, Held(st, st.clients.at[c].secret).relays)
  {
    hide NoDup;
    var mine, its := st.clients.at[c].relays, Held(st, st.clients.at[c].secret).relays;
    if GoodClient(o, st, c) {
      SameRelaysAlike(Dedupe(its), Dedupe(mine));
    }
    if Alike(mine, its) { AlikeSameRelays(mine, its); }
  }

  /**
   * A scan and a `connect` of the same client are in flight on one record, and both are approved,
   * the scan first: the client's export is restorable if and only if the two named the same relays.
   */
  lemma ScanOverConnect(o: Options, st: State, f: nat, g: nat, now: int, later: int)
    requires Core(o, st, None) && Carries(o, st) && f in st.inflight && g in st.inflight && f != g
    requires st.inflight[f].scan && !st.inflight[g].scan && st.inflight[f].rid == st.inflight[g].rid
    requires SettleFlight(o, st, f, true, now).1.Admitted?
    ensures var c := st.inflight[g].client;
            var st1 := SettleFlight(o, st, f, true, now).0;
            var (st2, out) := SettleFlight(o, st1, g, true, later);
            && out.Admitted? && c in st2.clients.at
            && (GoodClient(o, st2, c) <==> Alike(st.inflight[g].relays, st.inflight[f].relays))
  {
    hide Core, Carries, SettleFlight, Backed, Later, Roomy, Alike, GoodClient, Dedupe;
    var st1 := SettleFlight(o, st, f, true, now).0;
    AdmissionLeaves(o, st, f, now);
    FlightFacts(o, st, f);
    FlightFacts(o, st, g);
    SameRecordSameSecret(o, st, f, g, now);
    SettleKeeps(o, st, f, true, now);
    SecondAdmission(o, st1, g, later);
    AdmissionLeaves(o, st1, g, later);
    var st2 := SettleFlight(o, st1, g, true, later).0;
    var c := st.inflight[g].client;
    RoomyOnce(o, st.inflight[g].relays);
    GoodClientIsAlike(o, st2, c);
    AlikeDedupe(st.inflight[g].relays, st.inflight[f].relays);
  }

  lemma RoomyOnce(o: Options, relays: seq<string>)
    requires Roomy(o, relays)
    ensures Roomy(o, Dedupe(relays))
  {
    DedupeOfNoDup(Dedupe(relays));
    assert relays[0] in Dedupe(relays);
  }

  lemma AlikeDedupe(a: seq<string>, b: seq<string>)
    ensures Alike(Dedupe(a), b) <==> Alike(a, b)
  {}

  lemma SameRecordSameSecret(o: Options, st: State, f: nat, g: nat, now: int)
    requires Core(o, st, None) && f in st.inflight && g in st.inflight && st.inflight[f].rid == st.inflight[g].rid
    requires SettleFlight(o, st, f, true, now).1.Admitted?
    ensures st.inflight[f].secret == st.inflight[g].secret && st.inflight[f].client == st.inflight[g].client
  {
    hide PendingExact, SlotsExact, WithinCeilings, ConfirmedBound, Table.Valid, Admit, Unbind, RoomFor, Unbump;
  }

  lemma SecondAdmission(o: Options, st: State, g: nat, now: int)
    requires g in st.inflight && StillHeld(st, st.inflight[g].secret, st.inflight[g].rid) && st.inflight[g].client in st.clients.at
    ensures SettleFlight(o, st, g, true, now).1.Admitted?
  {
    hide Admit, Unbind, Unbump;
  }

  /**
   * A restored client whose secret memory already held bound keeps the relays of the state, while the
   * secret keeps those of memory: its next export is restorable if and only if the two agree.
   */
  lemma RestoreOverBound(o: Options, st: State, plan: Plan, generation: int, now: int, c: string)
    requires Core(o, st, None) && PlanSound(plan) && PlanStocked(o, plan) && Fit(o, st, plan).Good?
    requires c in plan.clients.at && c !in st.clients.at && Held(st, plan.clients.at[c].secret).client.Some?
    ensures var st' := Applied(o, st, plan, generation, now);
            && c in st'.clients.at
            && (GoodClient(o, st', c) <==> Alike(plan.clients.at[c].relays, Held(st, plan.clients.at[c].secret).relays))
  {
    hide Core, Follows, Later, Fit, PutSecrets, AdmitAll, Applied, PutDone, AdmitDone, FromPlan, Table.Valid, GoodRec, Alike, Roomy, GoodClient;
    assert Claims(plan, c);
    var s := plan.clients.at[c].secret;
    AppliedKeepsMemory(o, st, plan, generation, now);
    UnheldUnbound(st, s);
    AppliedSeats(o, st, plan, generation, now, c);
    PlanRoomy(o, plan, c);
    var st' := Applied(o, st, plan, generation, now);
    RoomyOnce(o, plan.clients.at[c].relays);
    GoodClientIsAlike(o, st', c);
    AlikeDedupe(plan.clients.at[c].relays, Held(st, s).relays);
  }

  lemma AppliedSeats(o: Options, st: State, plan: Plan, generation: int, now: int, c: string)
    requires Core(o, st, None) && PlanSound(plan) && Fit(o, st, plan).Good? && c in plan.clients.at && c !in st.clients.at
    ensures var st' := Applied(o, st, plan, generation, now);
            c in st'.clients.at && st'.clients.at[c] == plan.clients.at[c].(relays := Dedupe(plan.clients.at[c].relays))
  {
    hide Core, Follows, Later, Fit, PutSecrets, AdmitAll, Applied, PutDone, FromPlan, Dedupe;
    AppliedParts(o, st, plan, generation, now);
    assert c in plan.clients.keys;
  }

  lemma PlanRoomy(o: Options, plan: Plan, c: string)
    requires PlanSound(plan) && PlanStocked(o, plan) && c in plan.clients.at
    ensures Roomy(o, plan.clients.at[c].relays)
  {
    hide Table.Valid, Dedupe;
    assert Claims(plan, c);
    var mine, its := plan.clients.at[c].relays, plan.secrets.at[plan.clients.at[c].secret].relays;
    assert GoodRec(o, plan.secrets.at[plan.clients.at[c].secret]);
    AlikeSameRelays(mine, its);
    AlikeEmpty(mine, its);
  }
}
