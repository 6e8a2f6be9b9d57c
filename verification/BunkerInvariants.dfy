/**
 * What every step of the pairing machine keeps: record identities, the pending counters, the
 * binding discipline, and the fact that every connected client is backed by a secret.
 */
module BunkerInvariants {
  import opened Common
  import opened JsMap
  import opened BunkerModel

  // ── The invariant, part by part ──

  ghost predicate Shape(st: State) {
    && st.secrets.Valid() && st.clients.Valid()
    && (forall s :: s in st.secrets.at ==> st.secrets.at[s] in st.recs)
    && (forall s, t :: s in st.secrets.at && t in st.secrets.at && st.secrets.at[s] == st.secrets.at[t] ==> s == t)
    && (forall r :: r in st.recs ==> r < st.nextId)
    && (forall f :: f in st.inflight ==> f < st.nextFlight && st.inflight[f].rid in st.recs)
  }

  /** The suspended approvals that count on record `r`. */
  ghost function Riders(inflight: map<nat, Flight>, r: nat): set<nat> {
    set f | f in inflight && inflight[f].rid == r
  }

  /** The suspended approvals of `client` that hold an admission slot. */
  ghost function Slots(inflight: map<nat, Flight>, client: string): set<nat> {
    set f | f in inflight && inflight[f].client == client && inflight[f].slot
  }

  /** Each record's `pending` is its riders, plus the one approval being begun or ended (`extra`). */
  ghost predicate PendingExact(st: State, extra: Option<nat>) {
    forall r :: r in st.recs ==>
      st.recs[r].pending == |Riders(st.inflight, r)| + (if extra == Some(r) then 1 else 0)
  }

  ghost predicate SlotsExact(st: State) {
    && st.approvals == |st.inflight|
    && (forall c :: c in st.admissions <==> Slots(st.inflight, c) != {})
    && (forall c :: c in st.admissions ==> st.admissions[c] == |Slots(st.inflight, c)|)
  }

  /** A record with an approval in flight is bound to that approval's client, under its secret. */
  ghost predicate FlightsBound(st: State) {
    && (forall f :: f in st.inflight ==> RecOf(st, st.inflight[f].rid).client == Some(st.inflight[f].client))
    && (forall f, s :: f in st.inflight && s in st.secrets.at && st.secrets.at[s] == st.inflight[f].rid
          ==> st.inflight[f].secret == s)
  }

  ghost predicate ConfirmedBound(st: State) {
    forall r :: r in st.recs && st.recs[r].confirmed ==> st.recs[r].client.Some?
  }

  /** Every connected client is backed: its secret is still held, confirmed, and bound to it. */
  ghost predicate Backed(st: State) {
    forall c :: c in st.clients.at ==>
      && st.clients.at[c].secret in st.secrets.at
      && Held(st, st.clients.at[c].secret).confirmed
      && Held(st, st.clients.at[c].secret).client == Some(c)
  }

  ghost predicate WithinCeilings(o: Options, st: State) {
    st.secrets.Size() <= o.maxSecrets && st.clients.Size() <= o.maxClients
  }

  ghost predicate Core(o: Options, st: State, extra: Option<nat>) {
    && Shape(st) && WithinCeilings(o, st)
    && PendingExact(st, extra) && SlotsExact(st)
    && FlightsBound(st) && ConfirmedBound(st)
  }

  // ── What never goes back ──

  /** Records outlive the secrets that name them; a confirmation and its client are for good; a dropped record stays dropped. */
  ghost predicate Later(st: State, st': State) {
    && st.nextId <= st'.nextId
    && (forall r :: r in st.recs ==> r in st'.recs)
    && (forall r :: r in st.recs && st.recs[r].confirmed ==>
          st'.recs[r].confirmed && st'.recs[r].client == st.recs[r].client)
    && (forall s :: s in st'.secrets.at && st'.secrets.at[s] < st.nextId ==>
          s in st.secrets.at && st.secrets.at[s] == st'.secrets.at[s])
  }

  ghost predicate Follows(st: State, st': State) {
    Later(st, st') && (Backed(st) ==> Backed(st'))
  }

  lemma FollowsReflexive(st: State)
    ensures Follows(st, st)
  {}

  lemma FollowsBacked(st: State, st': State)
    requires Follows(st, st')
    ensures Backed(st) ==> Backed(st')
  {
    hide Backed, Later;
  }

  lemma FollowsTransitive(a: State, b: State, c: State)
    requires Follows(a, b) && Follows(b, c)
    ensures Follows(a, c)
  {
    hide Backed;
  }

  // ── Counting ──

  lemma RidersAdd(m: map<nat, Flight>, f: nat, x: Flight, r: nat)
    requires f !in m
    ensures |Riders(m[f := x], r)| == |Riders(m, r)| + (if x.rid == r then 1 else 0)
  {
    var after := Riders(m[f := x], r);
    if x.rid == r {
      assert after == Riders(m, r) + {f};
    } else {
      assert after == Riders(m, r);
    }
  }

  lemma RidersRemove(m: map<nat, Flight>, f: nat, r: nat)
    requires f in m
    ensures |Riders(m, r)| == |Riders(m - {f}, r)| + (if m[f].rid == r then 1 else 0)
  {
    RidersAdd(m - {f}, f, m[f], r);
    assert (m - {f})[f := m[f]] == m;
  }

  lemma SlotsAdd(m: map<nat, Flight>, f: nat, x: Flight, c: string)
    requires f !in m
    ensures Slots(m[f := x], c) == Slots(m, c) + (if x.client == c && x.slot then {f} else {})
    ensures |Slots(m[f := x], c)| == |Slots(m, c)| + (if x.client == c && x.slot then 1 else 0)
  {
    var after := Slots(m[f := x], c);
    if x.client == c && x.slot {
      assert after == Slots(m, c) + {f};
    } else {
      assert after == Slots(m, c);
    }
  }

  lemma SlotsRemove(m: map<nat, Flight>, f: nat, c: string)
    requires f in m
    ensures |Slots(m, c)| == |Slots(m - {f}, c)| + (if m[f].client == c && m[f].slot then 1 else 0)
  {
    SlotsAdd(m - {f}, f, m[f], c);
    assert (m - {f})[f := m[f]] == m;
  }

  // ── Primitive change 1: secrets are shed, or nothing about pairing changes ──

  ghost predicate Sheds(st: State, st': State) {
    && st' == st.(secrets := st'.secrets, nextSweep := st'.nextSweep, sweptAt := st'.sweptAt, hosts := st'.hosts,
                  subs := st'.subs, started := st'.started, stopped := st'.stopped, generation := st'.generation)
    && st'.secrets.Valid()
    && (forall s :: s in st'.secrets.at ==> s in st.secrets.at && st'.secrets.at[s] == st.secrets.at[s])
  }

  /** What is shed was unclaimed. */
  ghost predicate Forgets(st: State, st': State) {
    Sheds(st, st') && (forall s :: s in st.secrets.at && s !in st'.secrets.at ==> !Held(st, s).confirmed)
  }

  lemma SubsetSize<V>(small: map<string, V>, big: map<string, V>)
    requires small.Keys <= big.Keys
    ensures |small| <= |big|
  {
    var rest := big.Keys - small.Keys;
    assert big.Keys == small.Keys + rest;
  }

  lemma ShedsShape(o: Options, st: State, st': State)
    requires Shape(st) && WithinCeilings(o, st) && Sheds(st, st')
    ensures Shape(st') && WithinCeilings(o, st')
  {
    SubsetSize(st'.secrets.at, st.secrets.at);
  }

  lemma ShedsCore(o: Options, st: State, st': State, extra: Option<nat>)
    requires Core(o, st, extra) && Sheds(st, st')
    ensures Core(o, st', extra)
  {
    hide Shape, WithinCeilings, Riders, Slots;
    ShedsShape(o, st, st');
  }

  lemma ShedsLater(st: State, st': State)
    requires Sheds(st, st')
    ensures Later(st, st')
  {}

  lemma ForgetsFollows(st: State, st': State)
    requires Forgets(st, st')
    ensures Follows(st, st')
  {
    hide Later;
    ShedsLater(st, st');
    assert forall s :: s in st'.secrets.at ==> Held(st', s) == Held(st, s);
  }

  lemma SweepForgets(st: State, now: int)
    requires st.secrets.Valid()
    ensures Forgets(st, Sweep(st, now))
  {
    hide Walk;
    WalkForgets(st, now);
  }

  lemma WalkForgets(st: State, now: int)
    requires st.secrets.Valid()
    ensures Forgets(st, Walk(st, now))
  {
    hide NextOver, LiveKeys;
  }

  lemma EmitForgets(o: Options, st: State, now: int)
    requires st.secrets.Valid()
    ensures Forgets(st, Emit(o, st, now))
  {
    hide Sweep;
    SweepForgets(st, now);
  }

  lemma CoreValid(o: Options, st: State, extra: Option<nat>)
    requires Core(o, st, extra)
    ensures st.secrets.Valid() && st.clients.Valid()
  {}

  lemma EmitKeeps(o: Options, st: State, now: int, extra: Option<nat>)
    requires Core(o, st, extra)
    ensures Core(o, Emit(o, st, now), extra) && Follows(st, Emit(o, st, now)) && Sheds(st, Emit(o, st, now))
  {
    hide Core, Follows, Emit, Sheds;
    CoreValid(o, st, extra);
    EmitForgets(o, st, now);
    ShedsCore(o, st, Emit(o, st, now), extra);
    ForgetsFollows(st, Emit(o, st, now));
  }

  lemma DropIfLapsedForgets(o: Options, st: State, secret: string, now: int)
    requires st.secrets.Valid()
    ensures Forgets(st, DropIfLapsed(o, st, secret, now))
  {
    hide Emit;
    if secret in st.secrets.at && Lapsed(Held(st, secret), now) {
      var st1 := st.(secrets := st.secrets.Delete(secret));
      EmitForgets(o, st1, now);
      assert forall s :: s in st1.secrets.at ==> Held(st1, s) == Held(st, s);
    }
  }

  lemma DropIfLapsedKeeps(o: Options, st: State, secret: string, now: int)
    requires Core(o, st, None)
    ensures Core(o, DropIfLapsed(o, st, secret, now), None) && Follows(st, DropIfLapsed(o, st, secret, now))
  {
    hide DropIfLapsed, Core, Follows, Sheds;
    CoreValid(o, st, None);
    DropIfLapsedForgets(o, st, secret, now);
    ShedsCore(o, st, DropIfLapsed(o, st, secret, now), None);
    ForgetsFollows(st, DropIfLapsed(o, st, secret, now));
  }

  lemma AddHostsSame(st: State, urls: seq<string>)
    ensures AddHosts(st, urls) == st.(hosts := AddHosts(st, urls).hosts, subs := AddHosts(st, urls).subs)
  {}

  lemma AddHostsForgets(st: State, urls: seq<string>)
    requires st.secrets.Valid()
    ensures Forgets(st, AddHosts(st, urls))
  {
    AddHostsSame(st, urls);
  }

  // ── Primitive change 2: one record's fields ──

  ghost function One(extra: Option<nat>, id: nat): int {
    if extra == Some(id) then 1 else 0
  }

  /** A change of record `id` that respects its riders, its confirmation and the pending count. */
  ghost predicate FairChange(st: State, id: nat, r: Rec, extra: Option<nat>, extra': Option<nat>) {
    && id in st.recs
    && (extra == None || extra == Some(id)) && (extra' == None || extra' == Some(id))
    && r.pending - One(extra', id) == st.recs[id].pending - One(extra, id)
    && (r.client == st.recs[id].client || st.recs[id].client.None? || st.recs[id].pending == One(extra, id))
    && (r.confirmed ==> r.client.Some?)
    && (st.recs[id].confirmed ==> r.confirmed && r.client == st.recs[id].client)
  }

  lemma RecChangeShape(o: Options, st: State, id: nat, r: Rec)
    requires Shape(st) && WithinCeilings(o, st) && id in st.recs
    ensures Shape(SetRec(st, id, r)) && WithinCeilings(o, SetRec(st, id, r))
  {
    hide NoDup;
  }

  lemma RecChangeCounts(st: State, id: nat, r: Rec, extra: Option<nat>, extra': Option<nat>)
    requires PendingExact(st, extra) && SlotsExact(st) && FairChange(st, id, r, extra, extra')
    ensures PendingExact(SetRec(st, id, r), extra') && SlotsExact(SetRec(st, id, r))
  {
    hide Riders, Slots;
  }

  lemma RecChangeFlights(st: State, id: nat, r: Rec, extra: Option<nat>, extra': Option<nat>)
    requires PendingExact(st, extra) && FlightsBound(st) && FairChange(st, id, r, extra, extra')
    ensures FlightsBound(SetRec(st, id, r))
  {
    forall f | f in st.inflight && st.inflight[f].rid == id ensures r.client == Some(st.inflight[f].client) {
      assert f in Riders(st.inflight, id);
      assert RecOf(st, st.inflight[f].rid) == st.recs[id];
    }
  }

  lemma RecChangeConfirmed(st: State, id: nat, r: Rec, extra: Option<nat>, extra': Option<nat>)
    requires ConfirmedBound(st) && FairChange(st, id, r, extra, extra')
    ensures ConfirmedBound(SetRec(st, id, r))
  {}

  lemma RecChangeBacked(st: State, id: nat, r: Rec, extra: Option<nat>, extra': Option<nat>)
    requires FairChange(st, id, r, extra, extra') && Backed(st)
    ensures Backed(SetRec(st, id, r))
  {
    var st' := SetRec(st, id, r);
    assert forall s :: s in st.secrets.at && Held(st, s).confirmed ==>
      Held(st', s).confirmed && Held(st', s).client == Held(st, s).client;
  }

  lemma RecChangeKeeps(o: Options, st: State, id: nat, r: Rec, extra: Option<nat>, extra': Option<nat>)
    requires Core(o, st, extra) && FairChange(st, id, r, extra, extra')
    ensures Core(o, SetRec(st, id, r), extra')
  {
    hide Shape, WithinCeilings, PendingExact, SlotsExact, FlightsBound, ConfirmedBound, SetRec, One;
    RecChangeShape(o, st, id, r);
    RecChangeCounts(st, id, r, extra, extra');
    RecChangeFlights(st, id, r, extra, extra');
    RecChangeConfirmed(st, id, r, extra, extra');
  }

  lemma RecChangeFollows(st: State, id: nat, r: Rec, extra: Option<nat>, extra': Option<nat>)
    requires FairChange(st, id, r, extra, extra')
    ensures Follows(st, SetRec(st, id, r))
  {
    hide Backed;
    if Backed(st) { RecChangeBacked(st, id, r, extra, extra'); }
  }

  // ── Primitive change 3: a record nobody knows yet, stored under a secret ──

  lemma StoredShape(st: State, secret: string, r: Rec)
    requires Shape(st)
    ensures Shape(Stored(st, secret, r))
  {}

  lemma StoredCeilings(o: Options, st: State, secret: string, r: Rec)
    requires WithinCeilings(o, st) && (secret in st.secrets.at || st.secrets.Size() < o.maxSecrets)
    ensures WithinCeilings(o, Stored(st, secret, r))
  {
    assert Stored(st, secret, r).secrets.at.Keys == st.secrets.at.Keys + {secret};
    assert secret in st.secrets.at ==> st.secrets.at.Keys + {secret} == st.secrets.at.Keys;
  }

  lemma StoredCounts(st: State, secret: string, r: Rec)
    requires Shape(st) && PendingExact(st, None) && SlotsExact(st) && r.pending == 0
    ensures PendingExact(Stored(st, secret, r), None) && SlotsExact(Stored(st, secret, r))
  {
    hide NoDup, Shape, Riders, Slots;
    NoRidersYet(st);
  }

  lemma NoRidersYet(st: State)
    requires Shape(st)
    ensures Riders(st.inflight, st.nextId) == {} && st.nextId !in st.recs
  {
    hide NoDup;
  }

  lemma StoredBindings(st: State, secret: string, r: Rec)
    requires Shape(st) && FlightsBound(st) && ConfirmedBound(st) && (r.confirmed ==> r.client.Some?)
    ensures FlightsBound(Stored(st, secret, r)) && ConfirmedBound(Stored(st, secret, r))
  {
    hide NoDup;
  }

  lemma StoredBacked(st: State, secret: string, r: Rec)
    requires Shape(st) && Held(st, secret).client.None? && Backed(st)
    ensures Backed(Stored(st, secret, r))
  {
    hide NoDup;
    var st' := Stored(st, secret, r);
    assert forall s :: s in st.secrets.at && s != secret ==> Held(st', s) == Held(st, s);
  }

  lemma StoredLater(st: State, secret: string, r: Rec)
    requires Shape(st)
    ensures Later(st, Stored(st, secret, r))
  {
    hide NoDup;
  }

  /** Storing a fresh record keeps everything, when it fits and takes no bound record's place. */
  lemma StoredKeeps(o: Options, st: State, secret: string, r: Rec)
    requires Core(o, st, None) && r.pending == 0 && (r.confirmed ==> r.client.Some?)
    requires Held(st, secret).client.None?
    requires secret in st.secrets.at || st.secrets.Size() < o.maxSecrets
    ensures Core(o, Stored(st, secret, r), None) && Follows(st, Stored(st, secret, r))
  {
    hide Shape, PendingExact, SlotsExact, FlightsBound, ConfirmedBound, Later, Backed, WithinCeilings, Stored;
    StoredShape(st, secret, r);
    StoredCeilings(o, st, secret, r);
    StoredCounts(st, secret, r);
    StoredBindings(st, secret, r);
    StoredLater(st, secret, r);
    if Backed(st) { StoredBacked(st, secret, r); }
  }

  // ── Primitive change 4: who is connected ──

  ghost predicate ClientsChange(o: Options, st: State, st': State) {
    && st' == st.(clients := st'.clients, subs := st'.subs)
    && st'.clients.Valid() && st'.clients.Size() <= o.maxClients
  }

  lemma ClientsChangeCore(o: Options, st: State, st': State, extra: Option<nat>)
    requires Core(o, st, extra) && ClientsChange(o, st, st')
    ensures Core(o, st', extra)
  {
    hide Shape, PendingExact, SlotsExact, FlightsBound, ConfirmedBound;
    ClientsChangeShape(o, st, st');
    ClientsChangeCounts(o, st, st', extra);
    ClientsChangeBindings(o, st, st');
  }

  lemma ClientsChangeShape(o: Options, st: State, st': State)
    requires Shape(st) && WithinCeilings(o, st) && ClientsChange(o, st, st')
    ensures Shape(st') && WithinCeilings(o, st')
  {
    hide NoDup;
  }

  lemma ClientsChangeCounts(o: Options, st: State, st': State, extra: Option<nat>)
    requires PendingExact(st, extra) && SlotsExact(st) && ClientsChange(o, st, st')
    ensures PendingExact(st', extra) && SlotsExact(st')
  {
    hide Table.Valid, Riders, Slots;
  }

  lemma ClientsChangeBindings(o: Options, st: State, st': State)
    requires FlightsBound(st) && ConfirmedBound(st) && ClientsChange(o, st, st')
    ensures FlightsBound(st') && ConfirmedBound(st')
  {
    hide Table.Valid;
  }

  lemma ClientsChangeLater(o: Options, st: State, st': State)
    requires ClientsChange(o, st, st')
    ensures Later(st, st')
  {
    hide NoDup;
  }

  // ── Minting ──

  lemma MintRoom(o: Options, st: State, secret: string, relays: seq<string>, ttl: Option<int>, now: int)
    requires Core(o, st, None)
    ensures var st1 := AddHosts(Sweep(st, now), Dedupe(if relays == [] then Sweep(st, now).hosts else relays));
            Core(o, st1, None) && Follows(st, st1)
  {
    hide Core, Sweep, AddHosts, Follows, Sheds;
    CoreValid(o, st, None);
    SweepForgets(st, now);
    var st0 := Sweep(st, now);
    ShedsCore(o, st, st0, None);
    ForgetsFollows(st, st0);
    CoreValid(o, st0, None);
    var urls := Dedupe(if relays == [] then st0.hosts else relays);
    AddHostsForgets(st0, urls);
    ShedsCore(o, st0, AddHosts(st0, urls), None);
    ForgetsFollows(st0, AddHosts(st0, urls));
    FollowsTransitive(st, st0, AddHosts(st0, urls));
  }

  lemma CoreHeld(o: Options, st: State, extra: Option<nat>, secret: string)
    requires Core(o, st, extra) && secret in st.secrets.at
    ensures st.secrets.at[secret] in st.recs
  {}

  lemma ConfirmedHeld(o: Options, st: State, extra: Option<nat>, id: nat)
    requires Core(o, st, extra) && id in st.recs && st.recs[id].confirmed
    ensures st.recs[id].client.Some?
  {}

  lemma RedisplayKeeps(o: Options, st: State, secret: string, urls: seq<string>, now: int)
    requires Core(o, st, None) && secret in st.secrets.at
    ensures var st3 := Emit(o, Redisplayed(st, secret, urls), now); Core(o, st3, None) && Follows(st, st3)
  {
    hide Core, Follows, Emit, SetRec, Sheds;
    CoreHeld(o, st, None, secret);
    var id := st.secrets.at[secret];
    var st2 := Redisplayed(st, secret, urls);
    FollowsReflexive(st);
    if Held(st, secret).client.None? {
      if st.recs[id].confirmed { ConfirmedHeld(o, st, None, id); }
      RecChangeKeeps(o, st, id, st.recs[id].(relays := urls), None, None);
      RecChangeFollows(st, id, st.recs[id].(relays := urls), None, None);
    }
    EmitKeeps(o, st2, now, None);
    FollowsTransitive(st, st2, Emit(o, st2, now));
  }

  lemma NewSecretKeeps(o: Options, st: State, secret: string, r: Rec, due: Option<int>, now: int)
    requires Core(o, st, None) && secret !in st.secrets.at && st.secrets.Size() < o.maxSecrets
    requires r.pending == 0 && !r.confirmed
    ensures var st3 := Emit(o, Stored(if due.Some? then Schedule(st, due.value) else st, secret, r), now);
            Core(o, st3, None) && Follows(st, st3)
  {
    hide Core, Follows, Emit, Stored, Later, Backed;
    var st2 := if due.Some? then Schedule(st, due.value) else st;
    CoreValid(o, st, None);
    ShedsCore(o, st, st2, None);
    ForgetsFollows(st, st2);
    StoredKeeps(o, st2, secret, r);
    FollowsTransitive(st, st2, Stored(st2, secret, r));
    EmitKeeps(o, Stored(st2, secret, r), now, None);
    FollowsTransitive(st, Stored(st2, secret, r), Emit(o, Stored(st2, secret, r), now));
  }

  lemma MintOnKeeps(o: Options, st: State, secret: string, urls: seq<string>, life: int, now: int)
    requires Core(o, st, None)
    ensures Core(o, MintOn(o, st, secret, urls, life, now).0, None) && Follows(st, MintOn(o, st, secret, urls, life, now).0)
  {
    hide Core, Follows, Emit, Schedule, Redisplayed, Stored;
    FollowsReflexive(st);
    if secret in st.secrets.at {
      RedisplayKeeps(o, st, secret, urls, now);
    } else if st.secrets.Size() < o.maxSecrets {
      var due := if life > 0 then Some(now + life) else None;
      NewSecretKeeps(o, st, secret, Rec(urls, None, false, 0, true, due), due, now);
    }
  }

  lemma MintKeeps(o: Options, st: State, secret: string, relays: seq<string>, ttl: Option<int>, now: int)
    requires Core(o, st, None)
    ensures Core(o, MintSecret(o, st, secret, relays, ttl, now).0, None)
    ensures Follows(st, MintSecret(o, st, secret, relays, ttl, now).0)
  {
    hide Core, Follows, Sweep, AddHosts, MintOn;
    MintRoom(o, st, secret, relays, ttl, now);
    var urls := Dedupe(if relays == [] then Sweep(st, now).hosts else relays);
    var st1 := AddHosts(Sweep(st, now), urls);
    MintOnKeeps(o, st1, secret, urls, if ttl.Some? then ttl.value else o.secretTtl, now);
    FollowsTransitive(st, st1, MintSecret(o, st, secret, relays, ttl, now).0);
  }

  // ── Beginning an approval ──

  ghost function BindId(st: State, secret: string): nat {
    if secret in st.secrets.at then st.secrets.at[secret] else st.nextId
  }

  /** The state in which `#bind` finds or makes its record. */
  function Readied(st: State, secret: string, relays: seq<string>): State {
    if secret in st.secrets.at then st else Stored(st, secret, Rec(relays, None, false, 0, false, None))
  }

  lemma ReadiedKeeps(o: Options, st: State, secret: string, relays: seq<string>)
    requires Core(o, st, None)
    requires secret in st.secrets.at || st.secrets.Size() < o.maxSecrets
    ensures var st1 := Readied(st, secret, relays);
            var id := BindId(st, secret);
            && Core(o, st1, None) && Follows(st, st1) && id in st1.recs && secret in st1.secrets.at && st1.secrets.at[secret] == id
            && st1 == st.(recs := st1.recs, secrets := st1.secrets, nextId := st1.nextId)
            && st1.recs[id].relays == (if secret in st.secrets.at then Held(st, secret).relays else relays)
            && st1.recs[id].client == Held(st, secret).client
  {
    hide Core, Follows;
    FollowsReflexive(st);
    if secret in st.secrets.at {
      CoreHeld(o, st, None, secret);
    } else {
      StoredKeeps(o, st, secret, Rec(relays, None, false, 0, false, None));
    }
  }

  lemma PendingPositive(o: Options, st: State, id: nat)
    requires Core(o, st, Some(id)) && id in st.recs
    ensures st.recs[id].pending > 0
  {
    hide Shape, WithinCeilings, SlotsExact, FlightsBound, ConfirmedBound;
  }

  lemma EmitHolds(o: Options, st: State, now: int, secret: string)
    requires secret in st.secrets.at && Held(st, secret).pending > 0 && st.secrets.Valid()
    ensures secret in Emit(o, st, now).secrets.at && Emit(o, st, now).secrets.at[secret] == st.secrets.at[secret]
  {}

  lemma EmitLeaves(o: Options, st: State, now: int)
    ensures var st' := Emit(o, st, now); st' == st.(secrets := st'.secrets, nextSweep := st'.nextSweep, sweptAt := st'.sweptAt)
  {}

  lemma BindKeeps(o: Options, st: State, secret: string, client: string, relays: seq<string>, now: int)
    requires Core(o, st, None) && Takable(st, secret, client)
    requires secret in st.secrets.at || st.secrets.Size() < o.maxSecrets
    ensures var st' := Bind(o, st, secret, client, relays, now);
            var id := BindId(st, secret);
            && Core(o, st', Some(id)) && Follows(st, st')
            && id in st'.recs && st'.recs[id].client == Some(client) && StillHeld(st', secret, id)
            && st' == st.(secrets := st'.secrets, recs := st'.recs, nextId := st'.nextId, nextSweep := st'.nextSweep, sweptAt := st'.sweptAt)
            && st'.recs[id].relays == (if secret in st.secrets.at then Held(st, secret).relays else relays)
  {
    hide Core, Follows, Emit, Sheds;
    ReadiedKeeps(o, st, secret, relays);
    var id := BindId(st, secret);
    var st1 := Readied(st, secret, relays);
    var r := st1.recs[id].(client := Some(client), pending := st1.recs[id].pending + 1);
    if st1.recs[id].confirmed { ConfirmedHeld(o, st1, None, id); }
    RecChangeKeeps(o, st1, id, r, None, Some(id));
    RecChangeFollows(st1, id, r, None, Some(id));
    var st2 := SetRec(st1, id, r);
    FollowsTransitive(st, st1, st2);
    EmitKeeps(o, st2, now, Some(id));
    FollowsTransitive(st, st2, Emit(o, st2, now));
    PendingPositive(o, st2, id);
    CoreValid(o, st2, Some(id));
    EmitHolds(o, st2, now, secret);
    EmitLeaves(o, st2, now);
  }

  function Launched(st: State, f: Flight): State {
    st.(approvals := st.approvals + 1,
        admissions := if f.slot then Bump(st.admissions, f.client) else st.admissions,
        inflight := st.inflight[st.nextFlight := f], nextFlight := st.nextFlight + 1)
  }

  lemma LaunchedCounts(st: State, f: Flight)
    requires st.nextFlight !in st.inflight && PendingExact(st, Some(f.rid)) && SlotsExact(st)
    ensures PendingExact(Launched(st, f), None)
  {
    hide SlotsExact, Slots, Bump;
    forall r | r in st.recs ensures st.recs[r].pending == |Riders(Launched(st, f).inflight, r)| {
      RidersAdd(st.inflight, st.nextFlight, f, r);
    }
  }

  lemma LaunchedSlots(st: State, f: Flight)
    requires st.nextFlight !in st.inflight && SlotsExact(st)
    ensures SlotsExact(Launched(st, f))
  {
    hide Slots, Launched;
    LaunchedCount(st, f);
    var st' := Launched(st, f);
    forall c ensures c in st'.admissions <==> Slots(st'.inflight, c) != {}
             ensures c in st'.admissions ==> st'.admissions[c] == |Slots(st'.inflight, c)| {
      LaunchedSlotsOf(st, f, c);
    }
  }

  lemma LaunchedCount(st: State, f: Flight)
    requires st.nextFlight !in st.inflight && st.approvals == |st.inflight|
    ensures Launched(st, f).approvals == |Launched(st, f).inflight|
  {
    hide Bump;
    assert Launched(st, f).inflight.Keys == st.inflight.Keys + {st.nextFlight};
  }

  lemma LaunchedSlotsOf(st: State, f: Flight, c: string)
    requires st.nextFlight !in st.inflight && SlotsExact(st)
    ensures var st' := Launched(st, f);
            && (c in st'.admissions <==> Slots(st'.inflight, c) != {})
            && (c in st'.admissions ==> st'.admissions[c] == |Slots(st'.inflight, c)|)
  {
    hide Slots;
    SlotsAdd(st.inflight, st.nextFlight, f, c);
    assert c in st.admissions <==> Slots(st.inflight, c) != {};
    assert f.client in st.admissions <==> Slots(st.inflight, f.client) != {};
  }

  lemma LaunchedShape(o: Options, st: State, f: Flight)
    requires Shape(st) && WithinCeilings(o, st) && f.rid in st.recs
    ensures Shape(Launched(st, f)) && WithinCeilings(o, Launched(st, f)) && st.nextFlight !in st.inflight
  {
    hide NoDup, Bump;
  }

  lemma LaunchedBindings(st: State, f: Flight)
    requires Shape(st) && FlightsBound(st) && ConfirmedBound(st)
    requires f.rid in st.recs && st.recs[f.rid].client == Some(f.client) && StillHeld(st, f.secret, f.rid)
    ensures FlightsBound(Launched(st, f)) && ConfirmedBound(Launched(st, f))
  {
    hide NoDup, Bump;
  }

  lemma LaunchedKeeps(o: Options, st: State, f: Flight)
    requires Core(o, st, Some(f.rid)) && f.rid in st.recs && st.recs[f.rid].client == Some(f.client)
    requires StillHeld(st, f.secret, f.rid)
    ensures Core(o, Launched(st, f), None)
  {
    hide Shape, WithinCeilings, PendingExact, SlotsExact, FlightsBound, ConfirmedBound, Launched;
    LaunchedShape(o, st, f);
    LaunchedCounts(st, f);
    LaunchedSlots(st, f);
    LaunchedBindings(st, f);
  }

  /** Approvals in flight come and go without touching records, secrets or clients. */
  ghost predicate FlightsChange(st: State, st': State) {
    st' == st.(approvals := st'.approvals, admissions := st'.admissions, inflight := st'.inflight, nextFlight := st'.nextFlight)
  }

  lemma FlightsChangeFollows(st: State, st': State)
    requires FlightsChange(st, st')
    ensures Follows(st, st')
  {
    assert forall s :: s in st.secrets.at ==> Held(st', s) == Held(st, s);
  }

  lemma BeginApprovalKeeps(o: Options, st: State, client: string, secret: string, rid: nat, relays: seq<string>, scan: bool)
    requires Core(o, st, Some(rid)) && rid in st.recs && st.recs[rid].client == Some(client)
    requires StillHeld(st, secret, rid)
    ensures var st' := BeginApproval(st, client, secret, rid, relays, scan); Core(o, st', None) && Follows(st, st')
  {
    hide Core, Follows;
    LaunchedKeeps(o, st, Flight(client, secret, rid, relays, client !in st.clients.at, scan));
    FlightsChangeFollows(st, BeginApproval(st, client, secret, rid, relays, scan));
  }

  lemma BindAndLaunchKeeps(o: Options, st: State, client: string, secret: string, bindRelays: seq<string>,
                           relays: seq<string>, scan: bool, now: int)
    requires Core(o, st, None) && Takable(st, secret, client)
    requires secret in st.secrets.at || st.secrets.Size() < o.maxSecrets
    ensures var st' := BeginApproval(Bind(o, st, secret, client, bindRelays, now), client, secret, BindId(st, secret), relays, scan);
            Core(o, st', None) && Follows(st, st')
  {
    hide Core, Follows, Bind, BeginApproval;
    BindKeeps(o, st, secret, client, bindRelays, now);
    var st2 := Bind(o, st, secret, client, bindRelays, now);
    BeginApprovalKeeps(o, st2, client, secret, BindId(st, secret), relays, scan);
    FollowsTransitive(st, st2, BeginApproval(st2, client, secret, BindId(st, secret), relays, scan));
  }

  lemma ConnectKeeps(o: Options, st: State, client: string, secret: string, now: int)
    requires Core(o, st, None)
    ensures Core(o, Connect(o, st, client, secret, now).0, None) && Follows(st, Connect(o, st, client, secret, now).0)
  {
    hide Core, Follows, DropIfLapsed, Bind, BeginApproval, OverCeiling, Takable, Hex64, Held;
    FollowsReflexive(st);
    DropIfLapsedKeeps(o, st, secret, now);
    var st1 := DropIfLapsed(o, st, secret, now);
    if Connect(o, st, client, secret, now).1.Waiting? {
      BindAndLaunchKeeps(o, st1, client, secret, [], Held(st1, secret).relays, false, now);
      FollowsTransitive(st, st1, Connect(o, st, client, secret, now).0);
    }
  }

  lemma ScanKeeps(o: Options, st: State, client: string, secret: string, raw: seq<string>, now: int)
    requires Core(o, st, None)
    ensures Core(o, Scan(o, st, client, secret, raw, now).0, None) && Follows(st, Scan(o, st, client, secret, raw, now).0)
  {
    hide Core, Follows, DropIfLapsed, Bind, BeginApproval, OverCeiling, Takable, Hex64, Held;
    FollowsReflexive(st);
    DropIfLapsedKeeps(o, st, secret, now);
    var st1 := DropIfLapsed(o, st, secret, now);
    if Scan(o, st, client, secret, raw, now).1.Waiting? {
      BindAndLaunchKeeps(o, st1, client, secret, Dedupe(raw), Dedupe(raw), true, now);
      FollowsTransitive(st, st1, Scan(o, st, client, secret, raw, now).0);
    }
  }

  // ── Settling one ──

  lemma LandedCounts(st: State, flight: nat)
    requires PendingExact(st, None) && flight in st.inflight
    ensures PendingExact(EndApproval(st, flight), Some(st.inflight[flight].rid))
  {
    hide Unbump;
    var st' := EndApproval(st, flight);
    var f := st.inflight[flight];
    forall r | r in st'.recs ensures st'.recs[r].pending == |Riders(st'.inflight, r)| + (if f.rid == r then 1 else 0) {
      RidersRemove(st.inflight, flight, r);
    }
  }

  lemma LandedSlots(st: State, flight: nat)
    requires SlotsExact(st) && flight in st.inflight
    ensures SlotsExact(EndApproval(st, flight))
  {
    var st' := EndApproval(st, flight);
    var f := st.inflight[flight];
    assert st.inflight.Keys == st'.inflight.Keys + {flight};
    forall c ensures c in st'.admissions <==> Slots(st'.inflight, c) != {}
             ensures c in st'.admissions ==> st'.admissions[c] == |Slots(st'.inflight, c)| {
      SlotsRemove(st.inflight, flight, c);
      assert f.slot && c == f.client ==> flight in Slots(st.inflight, c);
    }
  }

  lemma LandedShape(o: Options, st: State, flight: nat)
    requires Shape(st) && WithinCeilings(o, st) && FlightsBound(st) && ConfirmedBound(st) && flight in st.inflight
    ensures var st' := EndApproval(st, flight); Shape(st') && WithinCeilings(o, st') && FlightsBound(st') && ConfirmedBound(st')
  {
    hide NoDup, Unbump;
  }

  lemma EndApprovalKeeps(o: Options, st: State, flight: nat)
    requires Core(o, st, None) && flight in st.inflight
    ensures var st' := EndApproval(st, flight);
            var f := st.inflight[flight];
            Core(o, st', Some(f.rid)) && Follows(st, st') && f.rid in st'.recs && st'.recs[f.rid].client == Some(f.client)
  {
    hide PendingExact, SlotsExact, WithinCeilings, ConfirmedBound, Unbump, NoDup, Follows;
    LandedShape(o, st, flight);
    LandedCounts(st, flight);
    LandedSlots(st, flight);
    FlightsChangeFollows(st, EndApproval(st, flight));
  }

  lemma CountOffKeeps(o: Options, st: State, id: nat)
    requires Core(o, st, Some(id)) && id in st.recs
    ensures var st' := SetRec(st, id, st.recs[id].(pending := st.recs[id].pending - 1)); Core(o, st', None) && Follows(st, st')
  {
    hide Core, Follows, SetRec;
    var r := st.recs[id].(pending := st.recs[id].pending - 1);
    if st.recs[id].confirmed { ConfirmedHeld(o, st, Some(id), id); }
    RecChangeKeeps(o, st, id, r, Some(id), None);
    RecChangeFollows(st, id, r, Some(id), None);
  }

  function Freed(st: State, secret: string, id: nat): State {
    var r := RecOf(st, id);
    var st1 := SetRec(st, id, r.(pending := 0, client := None));
    if !r.bunker && StillHeld(st1, secret, id) then st1.(secrets := st1.secrets.Delete(secret)) else st1
  }

  lemma FreedKeeps(o: Options, st: State, secret: string, id: nat)
    requires Core(o, st, Some(id)) && id in st.recs && st.recs[id].pending <= 1 && !st.recs[id].confirmed
    ensures Core(o, Freed(st, secret, id), None) && Follows(st, Freed(st, secret, id))
  {
    hide Core, Follows;
    PendingPositive(o, st, id);
    var r := st.recs[id].(pending := 0, client := None);
    var st1 := SetRec(st, id, r);
    RecChangeKeeps(o, st, id, r, Some(id), None);
    RecChangeFollows(st, id, r, Some(id), None);
    CoreValid(o, st1, None);
    assert Forgets(st1, Freed(st, secret, id));
    ShedsCore(o, st1, Freed(st, secret, id), None);
    ForgetsFollows(st1, Freed(st, secret, id));
    FollowsTransitive(st, st1, Freed(st, secret, id));
  }

  lemma UnbindIsFreed(o: Options, st: State, secret: string, id: nat, now: int)
    ensures Unbind(o, st, secret, id, now) ==
            if RecOf(st, id).pending - 1 <= 0 && !RecOf(st, id).confirmed then Emit(o, Freed(st, secret, id), now)
            else SetRec(st, id, RecOf(st, id).(pending := RecOf(st, id).pending - 1))
  {
    hide Emit, RecOf;
  }

  lemma UnbindKeeps(o: Options, st: State, secret: string, id: nat, now: int)
    requires Core(o, st, Some(id)) && id in st.recs
    ensures var st' := Unbind(o, st, secret, id, now); Core(o, st', None) && Follows(st, st')
  {
    hide Core, Follows, Emit;
    var r := st.recs[id];
    if r.pending - 1 <= 0 && !r.confirmed {
      FreedKeeps(o, st, secret, id);
      EmitKeeps(o, Freed(st, secret, id), now, None);
      FollowsTransitive(st, Freed(st, secret, id), Emit(o, Freed(st, secret, id), now));
    } else {
      CountOffKeeps(o, st, id);
    }
  }

  lemma ConfirmKeeps(o: Options, st: State, f: Flight)
    requires Core(o, st, Some(f.rid)) && f.rid in st.recs && st.recs[f.rid].client == Some(f.client)
    ensures var st' := Confirm(st, f);
            Core(o, st', None) && Follows(st, st')
            && RecOf(st', f.rid).confirmed && RecOf(st', f.rid).client == Some(f.client)
            && st' == st.(recs := st'.recs)
  {
    hide Core, Follows;
    var r0 := st.recs[f.rid];
    var r := r0.(pending := r0.pending - 1, confirmed := true, expiresAt := None, relays := if f.scan then f.relays else r0.relays);
    RecChangeKeeps(o, st, f.rid, r, Some(f.rid), None);
    RecChangeFollows(st, f.rid, r, Some(f.rid), None);
  }

  function Seated(st: State, client: string, secret: string, raw: seq<string>, at: int): State {
    var relays := Dedupe(raw);
    st.(clients := st.clients.Put(client, Client(secret, relays, at)),
        subs := if client in st.clients.at
                then ReleaseAll(st.subs, st.clients.at[client].relays, relays, Peer(client)) else st.subs)
  }

  lemma SeatedChange(o: Options, st: State, client: string, secret: string, raw: seq<string>, at: int)
    requires st.clients.Valid() && st.clients.Size() <= o.maxClients && RoomFor(o, st, client)
    ensures ClientsChange(o, st, Seated(st, client, secret, raw, at))
  {
    assert Seated(st, client, secret, raw, at).clients.at.Keys == st.clients.at.Keys + {client};
    assert client in st.clients.at ==> st.clients.at.Keys + {client} == st.clients.at.Keys;
  }

  lemma SeatedBacked(st: State, client: string, secret: string, raw: seq<string>, at: int)
    requires Backed(st) && secret in st.secrets.at && Held(st, secret).confirmed && Held(st, secret).client == Some(client)
    ensures Backed(Seated(st, client, secret, raw, at))
  {
    var st' := Seated(st, client, secret, raw, at);
    assert forall s :: s in st.secrets.at ==> Held(st', s) == Held(st, s);
  }

  lemma CoreCeilings(o: Options, st: State, extra: Option<nat>)
    requires Core(o, st, extra)
    ensures WithinCeilings(o, st)
  {}

  ghost predicate Owned(st: State, secret: string, client: string) {
    secret in st.secrets.at && Held(st, secret).confirmed && Held(st, secret).client == Some(client)
  }

  lemma SeatedKeeps(o: Options, st: State, client: string, secret: string, raw: seq<string>, at: int)
    requires Core(o, st, None) && RoomFor(o, st, client)
    ensures var st' := Seated(st, client, secret, raw, at);
            Core(o, st', None) && Later(st, st') && (Owned(st, secret, client) ==> Follows(st, st'))
  {
    hide Core, Later, Backed, Seated;
    CoreValid(o, st, None);
    CoreCeilings(o, st, None);
    SeatedChange(o, st, client, secret, raw, at);
    ClientsChangeCore(o, st, Seated(st, client, secret, raw, at), None);
    ClientsChangeLater(o, st, Seated(st, client, secret, raw, at));
    if Backed(st) && Owned(st, secret, client) { SeatedBacked(st, client, secret, raw, at); }
  }

  lemma LaterTransitive(a: State, b: State, c: State)
    requires Later(a, b) && Later(b, c)
    ensures Later(a, c)
  {}

  lemma SubsOnlyKeeps(o: Options, st: State, subs: map<string, set<Owner>>)
    requires Core(o, st, None)
    ensures Core(o, st.(subs := subs), None) && Follows(st, st.(subs := subs))
  {
    hide Core, Follows;
    CoreValid(o, st, None);
    ShedsCore(o, st, st.(subs := subs), None);
    ForgetsFollows(st, st.(subs := subs));
  }

  lemma AdmitLeavesRecs(o: Options, st: State, client: string, secret: string, raw: seq<string>, at: int, now: int, muted: bool)
    ensures Admit(o, st, client, secret, raw, at, now, muted).recs == st.recs
  {
    hide Emit, Dedupe;
    EmitLeaves(o, Seated(st, client, secret, raw, at), now);
  }

  /** Admission keeps the core; it keeps clients backed when the client's secret is held, confirmed and its own. */
  lemma AdmitKeeps(o: Options, st: State, client: string, secret: string, raw: seq<string>, at: int, now: int, muted: bool)
    requires Core(o, st, None) && RoomFor(o, st, client)
    ensures var st' := Admit(o, st, client, secret, raw, at, now, muted);
            Core(o, st', None) && Later(st, st') && (Owned(st, secret, client) ==> Follows(st, st'))
  {
    hide Core, Later, Backed, Emit, Owned, RoomFor;
    SeatedKeeps(o, st, client, secret, raw, at);
    var st1 := Seated(st, client, secret, raw, at);
    EmitKeeps(o, st1, now, None);
    FollowsReflexive(st1);
    var st2 := if muted then st1 else Emit(o, st1, now);
    SubsOnlyKeeps(o, st2, ClaimAll(st2.subs, Dedupe(raw), Peer(client)));
    var st' := Admit(o, st, client, secret, raw, at, now, muted);
    LaterTransitive(st, st1, st2);
    LaterTransitive(st, st2, st');
  }

  lemma SettleKeeps(o: Options, st: State, flight: nat, approved: bool, now: int)
    requires Core(o, st, None)
    ensures Core(o, SettleFlight(o, st, flight, approved, now).0, None) && Follows(st, SettleFlight(o, st, flight, approved, now).0)
  {
    hide Core, Follows, Unbind, Admit, Confirm, EndApproval, RoomFor;
    FollowsReflexive(st);
    if flight in st.inflight {
      var f := st.inflight[flight];
      var st1 := EndApproval(st, flight);
      EndApprovalKeeps(o, st, flight);
      UnbindKeeps(o, st1, f.secret, f.rid, now);
      FollowsTransitive(st, st1, Unbind(o, st1, f.secret, f.rid, now));
      CountOffKeeps(o, st1, f.rid);
      FollowsTransitive(st, st1, SetRec(st1, f.rid, st1.recs[f.rid].(pending := st1.recs[f.rid].pending - 1)));
      if approved && StillHeld(st1, f.secret, f.rid) && RoomFor(o, st1, f.client) {
        ConfirmKeeps(o, st1, f);
        var st2 := Confirm(st1, f);
        FollowsTransitive(st, st1, st2);
        RoomSame(o, st1, st2, f.client);
        AdmitKeeps(o, st2, f.client, f.secret, f.relays, now, now, false);
        assert Owned(st2, f.secret, f.client);
        FollowsTransitive(st, st2, Admit(o, st2, f.client, f.secret, f.relays, now, now, false));
      }
    }
  }

  lemma RoomSame(o: Options, st: State, st': State, client: string)
    requires st'.clients == st.clients
    ensures RoomFor(o, st, client) == RoomFor(o, st', client)
  {}

  // ── Leaving ──

  function Left(st: State, client: string): State
    requires client in st.clients.at
  {
    st.(clients := st.clients.Delete(client), subs := ReleaseAll(st.subs, st.clients.at[client].relays, [], Peer(client)))
  }

  lemma LeftBacked(st: State, client: string)
    requires Backed(st) && client in st.clients.at
    ensures Backed(Left(st, client))
  {
    assert forall s :: s in st.secrets.at ==> Held(Left(st, client), s) == Held(st, s);
  }

  lemma LeftChange(o: Options, st: State, client: string)
    requires st.clients.Valid() && st.clients.Size() <= o.maxClients && client in st.clients.at
    ensures ClientsChange(o, st, Left(st, client))
  {
    SubsetSize(Left(st, client).clients.at, st.clients.at);
  }

  lemma LeftKeeps(o: Options, st: State, client: string)
    requires Core(o, st, None) && client in st.clients.at
    ensures Core(o, Left(st, client), None) && Follows(st, Left(st, client))
  {
    hide Core, Later, Backed, Left;
    CoreValid(o, st, None);
    CoreCeilings(o, st, None);
    LeftChange(o, st, client);
    ClientsChangeCore(o, st, Left(st, client), None);
    ClientsChangeLater(o, st, Left(st, client));
    if Backed(st) { LeftBacked(st, client); }
  }

  lemma DropKeeps(o: Options, st: State, client: string, now: int)
    requires Core(o, st, None)
    ensures Core(o, Drop(o, st, client, now), None) && Follows(st, Drop(o, st, client, now))
  {
    hide Core, Follows, Emit;
    FollowsReflexive(st);
    if client in st.clients.at {
      LeftKeeps(o, st, client);
      EmitKeeps(o, Left(st, client), now, None);
      FollowsTransitive(st, Left(st, client), Emit(o, Left(st, client), now));
    }
  }

  function Struck(st: State, secret: string): State {
    st.(secrets := st.secrets.Delete(secret), generation := st.generation + 1)
  }

  lemma StruckSheds(st: State, secret: string)
    requires st.secrets.Valid()
    ensures Sheds(st, Struck(st, secret))
  {}

  lemma LeftLeaves(st: State, client: string)
    requires client in st.clients.at
    ensures var st' := Left(st, client);
            st'.clients.at == st.clients.at - {client} && st' == st.(clients := st'.clients, subs := st'.subs)
  {
    hide ReleaseAll;
  }

  /** The state a revocation leaves before it announces itself: the secret and its client are both gone. */
  function Purged(st: State, secret: string): State {
    var st1 := Struck(st, secret);
    var owner := Held(st, secret).client;
    if owner.Some? && owner.value in st1.clients.at && st1.clients.at[owner.value].secret == secret
    then Left(st1, owner.value) else st1
  }

  lemma PurgedBacked(st: State, secret: string)
    requires Backed(st) && secret in st.secrets.at
    ensures Backed(Purged(st, secret))
  {
    hide Table.Put, NoDup, ReleaseAll;
    var st' := Purged(st, secret);
    forall c | c in st'.clients.at
      ensures st'.clients.at[c].secret in st'.secrets.at && Held(st', st'.clients.at[c].secret).confirmed
              && Held(st', st'.clients.at[c].secret).client == Some(c) {
      assert c in st.clients.at && st'.clients.at[c] == st.clients.at[c];
      var s := st.clients.at[c].secret;
      assert s != secret;
      assert Held(st', s) == Held(st, s);
    }
  }

  lemma PurgedKeeps(o: Options, st: State, secret: string)
    requires Core(o, st, None) && secret in st.secrets.at
    ensures Core(o, Purged(st, secret), None) && Follows(st, Purged(st, secret))
  {
    hide Core, Later, Backed, Struck, Left, Sheds;
    CoreValid(o, st, None);
    StruckSheds(st, secret);
    var st1 := Struck(st, secret);
    ShedsCore(o, st, st1, None);
    ShedsLater(st, st1);
    var owner := Held(st, secret).client;
    if owner.Some? && owner.value in st1.clients.at && st1.clients.at[owner.value].secret == secret {
      LeftKeeps(o, st1, owner.value);
      LaterTransitive(st, st1, Left(st1, owner.value));
    }
    if Backed(st) { PurgedBacked(st, secret); }
  }

  lemma RevokeKeeps(o: Options, st: State, secret: string, now: int)
    requires Core(o, st, None)
    ensures Core(o, RevokeSecret(o, st, secret, now).0, None) && Follows(st, RevokeSecret(o, st, secret, now).0)
  {
    hide Core, Follows, Emit;
    FollowsReflexive(st);
    if secret in st.secrets.at {
      PurgedKeeps(o, st, secret);
      EmitKeeps(o, Purged(st, secret), now, None);
      FollowsTransitive(st, Purged(st, secret), Emit(o, Purged(st, secret), now));
    }
  }
}
