/**
 * Export and restore are inverse: exactly which exported states a fresh process accepts, and what
 * it then holds.
 */
module BunkerRoundTrip {
  import opened Common
  import opened JsMap
  import opened BunkerModel
  import opened BunkerInvariants
  import opened BunkerRestore
  import opened BunkerRuns
  import opened BunkerBindings

  /** What a restore asks of one secret. */
  ghost predicate GoodRecord(o: Options, s: string, r: Rec) {
    && 1 <= |s| <= 256
    && r.relays != [] && |Dedupe(r.relays)| <= o.maxRelays
    && (r.client.Some? ==> o.onCurve(r.client.value))
  }

  /** What a restore asks of one client: a bounded relay set, the one its secret records. */
  ghost predicate GoodClient(o: Options, st: State, c: string) {
    var cl := ClientOf(st, c);
    && cl.relays != [] && |Dedupe(cl.relays)| <= o.maxRelays
    && SameRelays(Dedupe(Held(st, cl.secret).relays), Dedupe(cl.relays))
  }

  ghost predicate Portable(o: Options, st: State) {
    && (forall s :: s in st.secrets.at ==> GoodRecord(o, s, Held(st, s)))
    && (forall c :: c in st.clients.at ==> GoodClient(o, st, c))
  }

  ghost predicate Keyed(st: State) {
    forall r :: r in st.recs && st.recs[r].client.Some? ==> WellKeyed(st.recs[r].client.value)
  }

  /** Unclaimed and past its expiry: restore drops it, pending or not. */
  predicate Expired(r: Rec, now: int) {
    !r.confirmed && r.expiresAt.Some? && r.expiresAt.value <= now
  }

  function Lasting(st: State, keys: seq<string>, now: int): (lasting: seq<string>)
    ensures forall k :: k in lasting <==> k in keys && !Expired(Held(st, k), now)
    ensures |lasting| <= |keys|
  {
    if keys == [] then []
    else
      var k := keys[|keys| - 1];
      Lasting(st, keys[..|keys| - 1], now) + (if Expired(Held(st, k), now) then [] else [k])
  }

  /** A record after one trip through storage: nothing in flight, and a life for an unclaimed one that had none. */
  function Returned(o: Options, r: Rec, now: int): Rec {
    Rec(Dedupe(r.relays), r.client, r.confirmed, 0, r.bunker,
        if !r.confirmed && r.expiresAt.None? && o.secretTtl > 0 then Some(now + o.secretTtl) else r.expiresAt)
  }

  function Written(k: string, r: Rec): SecretRecord {
    SecretRecord(k, r.bunker, r.relays, r.client, r.confirmed, r.expiresAt)
  }

  // ── The secrets pass validation ──

  ghost predicate Storable(r: Rec) {
    (r.client.Some? ==> WellKeyed(r.client.value)) && (r.confirmed ==> r.client.Some?)
  }

  lemma CheckWritten(o: Options, k: string, r: Rec, acc: Table<Rec>, now: int)
    requires k !in acc.at && Storable(r)
    ensures CheckSecret(o, Written(k, r), acc, now) ==
            if !GoodRecord(o, k, r) then Bad(BadRecord)
            else if Expired(r, now) then Good(acc)
            else Good(acc.Put(k, Returned(o, r, now)))
  {
    hide Dedupe, Hex64, Lower;
    if r.client.Some? { assert WellKeyed(r.client.value); }
  }

  ghost predicate Returns(o: Options, st: State, keys: seq<string>, now: int, t: Table<Rec>) {
    && t.Valid() && t.keys == Lasting(st, keys, now)
    && (forall k :: k in t.at ==> t.at[k] == Returned(o, Held(st, k), now))
  }

  lemma ReturnsGrows(o: Options, st: State, keys: seq<string>, now: int, t: Table<Rec>, k: string)
    requires Returns(o, st, keys, now, t) && k !in keys
    ensures k !in t.at
    ensures Returns(o, st, keys + [k], now, if Expired(Held(st, k), now) then t else t.Put(k, Returned(o, Held(st, k), now)))
  {
    hide Returned, Lasting, NoDup;
    LastingLast(st, keys, now, k);
    assert k !in t.keys;
    ReturnsTable(o, st, now, t, k);
  }

  lemma LastingLast(st: State, keys: seq<string>, now: int, k: string)
    ensures Lasting(st, keys + [k], now) == Lasting(st, keys, now) + (if Expired(Held(st, k), now) then [] else [k])
    ensures forall j :: j in Lasting(st, keys, now) ==> j in keys
  {
    assert (keys + [k])[..|keys|] == keys;
  }

  lemma ReturnsTable(o: Options, st: State, now: int, t: Table<Rec>, k: string)
    requires t.Valid() && k !in t.keys && forall j :: j in t.at ==> t.at[j] == Returned(o, Held(st, j), now)
    ensures var u := t.Put(k, Returned(o, Held(st, k), now));
            u.Valid() && u.keys == t.keys + [k] && forall j :: j in u.at ==> u.at[j] == Returned(o, Held(st, j), now)
  {
    hide NoDup, Returned, Held;
  }

  lemma ReturnsNothing(o: Options, st: State, now: int)
    ensures Returns(o, st, [], now, Empty())
  {}

  lemma ExportSecretsLast(st: State, keys: seq<string>, k: string)
    ensures ExportSecrets(st, keys + [k]) == ExportSecrets(st, keys) + [Written(k, Held(st, k))]
  {
    assert (keys + [k])[..|keys|] == keys;
  }

  lemma CheckSecretsLast(o: Options, list: seq<SecretRecord>, b: SecretRecord, now: int)
    ensures CheckSecrets(o, list + [b], now) ==
            (if CheckSecrets(o, list, now).Bad? then CheckSecrets(o, list, now)
             else CheckSecret(o, b, CheckSecrets(o, list, now).value, now))
  {
    assert (list + [b])[..|list|] == list;
  }

  lemma {:induction false} CheckExported(o: Options, st: State, keys: seq<string>, now: int)
    requires NoDup(keys) && forall k :: k in keys ==> Storable(Held(st, k))
    ensures var verdict := CheckSecrets(o, ExportSecrets(st, keys), now);
            && (verdict.Good? <==> forall k :: k in keys ==> GoodRecord(o, k, Held(st, k)))
            && (verdict.Good? ==> Returns(o, st, keys, now, verdict.value))
  {
    hide GoodRecord, Returns, Storable, CheckSecrets, ExportSecrets, CheckSecret, Held;
    if keys == [] {
      ReturnsNothing(o, st, now);
      CheckNothing(o, st, now);
    } else {
      var front, k := keys[..|keys| - 1], keys[|keys| - 1];
      assert keys == front + [k];
      CheckExported(o, st, front, now);
      ExportSecretsLast(st, front, k);
      CheckSecretsLast(o, ExportSecrets(st, front), Written(k, Held(st, k)), now);
      var before := CheckSecrets(o, ExportSecrets(st, front), now);
      if before.Good? {
        ReturnsGrows(o, st, front, now, before.value, k);
        CheckWritten(o, k, Held(st, k), before.value, now);
      }
    }
  }

  lemma CheckNothing(o: Options, st: State, now: int)
    ensures CheckSecrets(o, ExportSecrets(st, []), now) == Good(Empty())
  {}

  // ── The clients pass validation ──

  function WrittenClient(c: string, cl: Client): ClientRecord {
    ClientRecord(c, cl.relays, if cl.secret == "" then None else Some(cl.secret), cl.connectedAt)
  }

  ghost predicate Vouched(o: Options, st: State, secrets: Table<Rec>, c: string, now: int) {
    var s := ClientOf(st, c).secret;
    && WellKeyed(c) && o.onCurve(c) && s != "" && Owned(st, s, c)
    && s in secrets.at && secrets.at[s] == Returned(o, Held(st, s), now)
  }

  lemma CheckWrittenClient(o: Options, st: State, secrets: Table<Rec>, c: string, acc: Table<Client>, now: int)
    requires Vouched(o, st, secrets, c, now) && c !in acc.at
    ensures CheckClient(o, WrittenClient(c, ClientOf(st, c)), secrets, acc).Good? <==> GoodClient(o, st, c)
    ensures GoodClient(o, st, c) ==>
      (CheckClient(o, WrittenClient(c, ClientOf(st, c)), secrets, acc)
       == Good(acc.Put(c, ClientOf(st, c).(relays := Dedupe(ClientOf(st, c).relays)))))
  {
    hide Dedupe, Hex64, Lower, SameRelays;
    assert WellKeyed(c);
  }

  ghost predicate ReturnsClients(st: State, keys: seq<string>, t: Table<Client>) {
    && t.Valid() && t.keys == keys
    && (forall c :: c in t.at ==> t.at[c] == ClientOf(st, c).(relays := Dedupe(ClientOf(st, c).relays)))
  }

  lemma ReturnsClientsGrows(st: State, keys: seq<string>, t: Table<Client>, c: string)
    requires ReturnsClients(st, keys, t) && c !in keys
    ensures c !in t.at
    ensures ReturnsClients(st, keys + [c], t.Put(c, ClientOf(st, c).(relays := Dedupe(ClientOf(st, c).relays))))
  {
    hide NoDup;
    assert c !in t.keys;
  }

  lemma ExportClientsLast(st: State, keys: seq<string>, c: string)
    ensures ExportClients(st, keys + [c]) == ExportClients(st, keys) + [WrittenClient(c, ClientOf(st, c))]
  {
    assert (keys + [c])[..|keys|] == keys;
  }

  lemma CheckClientsLast(o: Options, list: seq<ClientRecord>, b: ClientRecord, secrets: Table<Rec>)
    ensures CheckClients(o, list + [b], secrets) ==
            (if CheckClients(o, list, secrets).Bad? then CheckClients(o, list, secrets)
             else CheckClient(o, b, secrets, CheckClients(o, list, secrets).value))
  {
    assert (list + [b])[..|list|] == list;
  }

  lemma {:induction false} CheckExportedClients(o: Options, st: State, keys: seq<string>, secrets: Table<Rec>, now: int)
    requires NoDup(keys) && forall c :: c in keys ==> Vouched(o, st, secrets, c, now)
    ensures var verdict := CheckClients(o, ExportClients(st, keys), secrets);
            && (verdict.Good? <==> forall c :: c in keys ==> GoodClient(o, st, c))
            && (verdict.Good? ==> ReturnsClients(st, keys, verdict.value))
  {
    hide GoodClient, ReturnsClients, Vouched, CheckClients, ExportClients, CheckClient;
    if keys == [] {
      CheckNoClients(o, st, secrets);
    } else {
      var front, c := keys[..|keys| - 1], keys[|keys| - 1];
      assert keys == front + [c];
      CheckExportedClients(o, st, front, secrets, now);
      ExportClientsLast(st, front, c);
      CheckClientsLast(o, ExportClients(st, front), WrittenClient(c, ClientOf(st, c)), secrets);
      var before := CheckClients(o, ExportClients(st, front), secrets);
      if before.Good? {
        ReturnsClientsGrows(st, front, before.value, c);
        CheckWrittenClient(o, st, secrets, c, before.value, now);
      }
    }
  }

  lemma CheckNoClients(o: Options, st: State, secrets: Table<Rec>)
    ensures CheckClients(o, ExportClients(st, []), secrets) == Good(Empty())
    ensures ReturnsClients(st, [], Empty())
  {}

  // ── The whole exported state ──

  lemma ValidKeys<V>(t: Table<V>)
    requires t.Valid()
    ensures NoDup(t.keys) && forall k :: k in t.keys <==> k in t.at
  {}

  lemma HeldStorable(o: Options, st: State, k: string)
    requires Core(o, st, None) && Keyed(st) && k in st.secrets.at
    ensures Storable(Held(st, k))
  {
    hide WellKeyed, PendingExact, SlotsExact, FlightsBound, WithinCeilings;
  }

  lemma ClientVouched(o: Options, st: State, t: Table<Rec>, c: string, now: int)
    requires Core(o, st, None) && Backed(st) && Keyed(st) && c in st.clients.at
    requires Returns(o, st, st.secrets.keys, now, t)
    requires forall s :: s in st.secrets.at ==> GoodRecord(o, s, Held(st, s))
    ensures Vouched(o, st, t, c, now)
  {
    hide WellKeyed, PendingExact, SlotsExact, FlightsBound, WithinCeilings, Returned;
    var s := st.clients.at[c].secret;
    assert Owned(st, s, c);
    assert GoodRecord(o, s, Held(st, s));
    HeldStorable(o, st, s);
    assert s in st.secrets.keys && s in t.keys;
  }

  /** Validation accepts an exported state exactly when it is portable. */
  lemma ExportValidates(o: Options, st: State, now: int)
    requires Core(o, st, None) && Backed(st) && Keyed(st)
    ensures var verdict := Validate(o, Snapshot(o, st), now);
            && (verdict.Good? <==> Portable(o, st))
            && (verdict.Good? ==> Returns(o, st, st.secrets.keys, now, verdict.value.secrets)
                                  && ReturnsClients(st, st.clients.keys, verdict.value.clients))
  {
    hide Core, Backed, Keyed, GoodRecord, GoodClient, Vouched, Storable, Returns, ReturnsClients, NoDup, Table.Valid,
         CheckSecrets, CheckClients, ExportSecrets, ExportClients;
    CoreValid(o, st, None);
    CoreCeilings(o, st, None);
    ValidKeys(st.secrets);
    ValidKeys(st.clients);
    forall k | k in st.secrets.keys ensures Storable(Held(st, k)) { HeldStorable(o, st, k); }
    CheckExported(o, st, st.secrets.keys, now);
    var secrets := CheckSecrets(o, ExportSecrets(st, st.secrets.keys), now);
    if secrets.Good? {
      ReturnsSmall(o, st, now, secrets.value);
      forall c | c in st.clients.keys ensures Vouched(o, st, secrets.value, c, now) {
        ClientVouched(o, st, secrets.value, c, now);
      }
      CheckExportedClients(o, st, st.clients.keys, secrets.value, now);
      var clients := CheckClients(o, ExportClients(st, st.clients.keys), secrets.value);
      if clients.Good? { ReturnsClientsSmall(st, clients.value); }
    }
  }

  lemma ReturnsSmall(o: Options, st: State, now: int, t: Table<Rec>)
    requires Returns(o, st, st.secrets.keys, now, t) && st.secrets.Valid()
    ensures t.Size() <= st.secrets.Size()
  {
    KeysCount(t);
    KeysCount(st.secrets);
  }

  lemma ReturnsClientsSmall(st: State, t: Table<Client>)
    requires ReturnsClients(st, st.clients.keys, t) && st.clients.Valid()
    ensures t.Size() == st.clients.Size()
  {
    KeysCount(t);
    KeysCount(st.clients);
  }

  lemma {:induction false} FreshOfEmpty(o: Options, generation: int, keys: seq<string>)
    ensures Fresh(Init(o, generation), keys) == keys && Absent(Init(o, generation), keys) == keys
  {
    if keys != [] {
      FreshOfEmpty(o, generation, keys[..|keys| - 1]);
      assert keys == keys[..|keys| - 1] + [keys[|keys| - 1]];
    }
  }

  lemma FitsEmpty(o: Options, generation: int, plan: Plan)
    requires plan.secrets.Valid() && plan.clients.Valid() && plan.secrets.Size() <= o.maxSecrets && plan.clients.Size() <= o.maxClients
    ensures Fit(o, Init(o, generation), plan) == Good(plan)
  {
    hide Fresh, Absent, Dedupe, NoDup;
    FreshOfEmpty(o, generation, plan.secrets.keys);
    FreshOfEmpty(o, generation, plan.clients.keys);
    KeysCount(plan.clients);
    NewOfEmpty(o, generation, plan.secrets);
  }

  lemma NewOfEmpty(o: Options, generation: int, t: Table<Rec>)
    requires t.Valid()
    ensures |set k | k in Fresh(Init(o, generation), t.keys) && k !in Init(o, generation).secrets.at| == t.Size()
  {
    hide Fresh, Dedupe, NoDup;
    FreshOfEmpty(o, generation, t.keys);
    assert (set k | k in Fresh(Init(o, generation), t.keys) && k !in Init(o, generation).secrets.at) == t.at.Keys;
  }

  lemma ValidateSizes(o: Options, c: Content, now: int)
    requires Validate(o, c, now).Good?
    ensures var plan := Validate(o, c, now).value; plan.secrets.Size() <= o.maxSecrets && plan.clients.Size() <= o.maxClients
  {
    hide CheckSecrets, CheckClients;
  }

  /**
   * A fresh process with the same key, options and generation accepts an exported state if and only
   * if the state is portable.
   */
  lemma ExportIsAccepted(o: Options, st: State, now: int)
    requires Core(o, st, None) && Backed(st) && Keyed(st) && st.generation >= 0
    ensures var b := Sign(o, Snapshot(o, st));
            && (Judge(o, Init(o, st.generation), b, false, now).Good? <==> Portable(o, st))
            && (Portable(o, st) ==> Judge(o, Init(o, st.generation), b, false, now) == Validate(o, Snapshot(o, st), now))
            && (RestoreState(o, Init(o, st.generation), b, false, now).1 == Restored <==> Portable(o, st))
  {
    hide Core, Backed, Keyed, Portable, Validate, Fit, Returns, ReturnsClients, ExportSecrets, ExportClients, PutSecrets, AdmitAll, Emit, Dedupe;
    ExportValidates(o, st, now);
    var verdict := Validate(o, Snapshot(o, st), now);
    if verdict.Good? {
      ValidateSizes(o, Snapshot(o, st), now);
      ReturnsValid(o, st, st.secrets.keys, now, verdict.value);
      FitsEmpty(o, st.generation, verdict.value);
    }
  }

  lemma ReturnsValid(o: Options, st: State, keys: seq<string>, now: int, plan: Plan)
    requires Returns(o, st, keys, now, plan.secrets) && ReturnsClients(st, st.clients.keys, plan.clients)
    ensures plan.secrets.Valid() && plan.clients.Valid()
  {}

  // ── What the fresh process then holds ──

  lemma {:induction false} PutKeysInOrder(st: State, plan: Plan, keys: seq<string>)
    requires NoDup(keys) && (forall k :: k in keys ==> k in plan.secrets.at && k !in st.secrets.at) && st.secrets.keys == []
    requires forall k :: k !in st.secrets.at
    ensures PutSecrets(st, plan, keys).secrets.keys == keys
    ensures forall k :: k in PutSecrets(st, plan, keys).secrets.at <==> k in keys
  {
    hide Stored, Schedule, NoDup;
    if keys != [] {
      var front, k := keys[..|keys| - 1], keys[|keys| - 1];
      assert keys == front + [k];
      FrontNoDup(keys);
      PutKeysInOrder(st, plan, front);
      PutKeysOne(PutSecrets(st, plan, front), k, plan.secrets.at[k]);
    }
  }

  lemma FrontNoDup(keys: seq<string>)
    requires NoDup(keys) && keys != []
    ensures NoDup(keys[..|keys| - 1]) && keys[|keys| - 1] !in keys[..|keys| - 1]
  {}

  lemma PutKeysOne(st: State, k: string, r: Rec)
    requires k !in st.secrets.at
    ensures Stored(st, k, r).secrets.keys == st.secrets.keys + [k]
    ensures Stored(st, k, r).secrets.at.Keys == st.secrets.at.Keys + {k}
    ensures forall e :: Schedule(st, e).secrets == st.secrets
    ensures forall e :: Schedule(Stored(st, k, r), e).secrets == Stored(st, k, r).secrets
  {
    hide NoDup;
  }

  lemma AdmitKeysOne(o: Options, st: State, client: string, secret: string, raw: seq<string>, at: int, now: int)
    requires client !in st.clients.at
    ensures Admit(o, st, client, secret, raw, at, now, true).clients.keys == st.clients.keys + [client]
    ensures Admit(o, st, client, secret, raw, at, now, true).clients.at.Keys == st.clients.at.Keys + {client}
  {}

  lemma {:induction false} AdmitKeysInOrder(o: Options, st: State, plan: Plan, keys: seq<string>, now: int)
    requires NoDup(keys) && (forall c :: c in keys ==> c in plan.clients.at) && st.clients.keys == [] && forall c :: c !in st.clients.at
    ensures AdmitAll(o, st, plan, keys, now).clients.keys == keys
    ensures forall c :: c in AdmitAll(o, st, plan, keys, now).clients.at <==> c in keys
  {
    hide Admit;
    if keys != [] {
      var front, c := keys[..|keys| - 1], keys[|keys| - 1];
      assert keys == front + [c];
      AdmitKeysInOrder(o, st, plan, front, now);
      var r := plan.clients.at[c];
      AdmitKeysOne(o, AdmitAll(o, st, plan, front, now), c, r.secret, r.relays, r.connectedAt, now);
    }
  }

  lemma {:induction false} LiveKeysAll(st: State, keys: seq<string>, now: int)
    requires forall k :: k in keys ==> !Lapsed(Held(st, k), now)
    ensures LiveKeys(st, keys, now) == keys
  {
    if keys != [] {
      LiveKeysAll(st, keys[..|keys| - 1], now);
      assert keys == keys[..|keys| - 1] + [keys[|keys| - 1]];
    }
  }

  lemma EmitNothingLapsed(o: Options, st: State, now: int)
    requires st.secrets.Valid() && forall k :: k in st.secrets.at ==> !Lapsed(Held(st, k), now)
    ensures Emit(o, st, now).secrets == st.secrets
  {
    LiveKeysAll(st, st.secrets.keys, now);
    assert (map k | k in st.secrets.at && !Lapsed(Held(st, k), now) :: st.secrets.at[k]) == st.secrets.at;
  }

  ghost predicate RoundTripped(o: Options, st: State, st': State, now: int) {
    && st'.secrets.keys == Lasting(st, st.secrets.keys, now)
    && (forall s :: s in st'.secrets.at <==> s in st.secrets.at && !Expired(Held(st, s), now))
    && (forall s :: s in st'.secrets.at ==> Held(st', s) == Returned(o, Held(st, s), now))
    && st'.clients.keys == st.clients.keys
    && (forall c :: c in st'.clients.at <==> c in st.clients.at)
    && (forall c :: c in st'.clients.at ==> st'.clients.at[c] == st.clients.at[c].(relays := Dedupe(st.clients.at[c].relays)))
    && st'.generation == st.generation
  }

  ghost predicate SecretsFrom(st1: State, plan: Plan) {
    && st1.secrets.keys == plan.secrets.keys
    && (forall s :: s in st1.secrets.at <==> s in plan.secrets.at)
    && (forall s :: s in st1.secrets.at ==> Held(st1, s) == plan.secrets.at[s])
  }

  ghost predicate ClientsFrom(st1: State, plan: Plan) {
    && st1.clients.keys == plan.clients.keys
    && (forall c :: c in st1.clients.at <==> c in plan.clients.at)
    && (forall c :: c in st1.clients.at ==> st1.clients.at[c] == plan.clients.at[c].(relays := Dedupe(plan.clients.at[c].relays)))
  }

  ghost predicate AppliedFrom(st: State, st1: State, plan: Plan) {
    SecretsFrom(st1, plan) && ClientsFrom(st1, plan) && st1.generation == st.generation && st1.secrets.Valid()
  }

  lemma PutFromEmpty(o: Options, generation: int, plan: Plan)
    requires var st0 := Init(o, generation); PutDone(st0, PutSecrets(st0, plan, plan.secrets.keys), plan, plan.secrets.keys)
    requires plan.secrets.Valid()
    ensures var st1 := PutSecrets(Init(o, generation), plan, plan.secrets.keys);
            SecretsFrom(st1, plan) && st1.clients == Empty() && st1.generation == generation
  {
    hide FromPlan, NoDup, PutSecrets, Dedupe, Table.Valid;
    ValidKeys(plan.secrets);
    PutKeysInOrder(Init(o, generation), plan, plan.secrets.keys);
  }

  lemma AdmitFromEmpty(st1: State, st2: State, plan: Plan)
    requires AdmitDone(st1, st2, plan, plan.clients.keys) && plan.clients.Valid() && st1.clients == Empty()
    requires st2.clients.keys == plan.clients.keys
    ensures ClientsFrom(st2, plan) && st2.secrets == st1.secrets && st2.recs == st1.recs && st2.generation == st1.generation
  {
    hide NoDup, Dedupe;
  }

  lemma SecretsFromSame(st1: State, st2: State, plan: Plan)
    requires SecretsFrom(st1, plan) && st2.secrets == st1.secrets && st2.recs == st1.recs
    ensures SecretsFrom(st2, plan)
  {
    assert forall s :: Held(st2, s) == Held(st1, s);
  }

  lemma ClientsFromSame(st1: State, st2: State, plan: Plan)
    requires ClientsFrom(st1, plan) && st2.clients == st1.clients
    ensures ClientsFrom(st2, plan)
  {}

  lemma AppliedFromEmpty(o: Options, generation: int, plan: Plan, now: int)
    requires PlanSound(plan) && plan.secrets.Size() <= o.maxSecrets && plan.clients.Size() <= o.maxClients
    ensures AppliedFrom(Init(o, generation), Applied(o, Init(o, generation), plan, generation, now), plan)
  {
    hide Core, Fit, AdmitAll, PutSecrets, Follows, Later, PutDone, AdmitDone, Dedupe, NoDup, Fresh, Absent, Table.Valid, Claims,
         SecretsFrom, ClientsFrom;
    var st0 := Init(o, generation);
    FreshStart(o, generation);
    FitsEmpty(o, generation, plan);
    AppliedParts(o, st0, plan, generation, now);
    FreshOfEmpty(o, generation, plan.secrets.keys);
    FreshOfEmpty(o, generation, plan.clients.keys);
    var st1 := PutSecrets(st0, plan, plan.secrets.keys);
    var st' := Applied(o, st0, plan, generation, now);
    var st2 := st'.(generation := st1.generation);
    PutFromEmpty(o, generation, plan);
    ValidKeys(plan.clients);
    AdmitKeysInOrder(o, st1, plan, plan.clients.keys, now);
    AdmitFromEmpty(st1, st2, plan);
    AppliedGeneration(o, st0, plan, generation, now);
    SecretsFromSame(st1, st', plan);
    ClientsFromSame(st2, st', plan);
    CoreValid(o, st', None);
  }

  lemma AppliedRoundTrips(o: Options, st: State, st1: State, st': State, plan: Plan, now: int)
    requires AppliedFrom(Init(o, st.generation), st1, plan)
    requires Returns(o, st, st.secrets.keys, now, plan.secrets) && ReturnsClients(st, st.clients.keys, plan.clients)
    requires st.secrets.Valid() && st.clients.Valid()
    requires st'.secrets == st1.secrets && st'.recs == st1.recs && st'.clients == st1.clients && st'.generation == st1.generation
    ensures RoundTripped(o, st, st', now)
  {
    hide Returned, Expired, Lasting, NoDup;
    assert forall s :: Held(st', s) == Held(st1, s);
    forall s ensures s in st'.secrets.at <==> s in st.secrets.at && !Expired(Held(st, s), now) {
      assert s in plan.secrets.at <==> s in plan.secrets.keys;
      assert s in st.secrets.at <==> s in st.secrets.keys;
    }
    ClientsRoundTrip(st, st1, plan);
  }

  lemma ClientsRoundTrip(st: State, st1: State, plan: Plan)
    requires ReturnsClients(st, st.clients.keys, plan.clients) && st.clients.Valid()
    requires forall c :: c in st1.clients.at <==> c in plan.clients.at
    requires forall c :: c in st1.clients.at ==> st1.clients.at[c] == plan.clients.at[c].(relays := Dedupe(plan.clients.at[c].relays))
    ensures forall c :: c in st1.clients.at <==> c in st.clients.at
    ensures forall c :: c in st1.clients.at ==> st1.clients.at[c] == st.clients.at[c].(relays := Dedupe(st.clients.at[c].relays))
  {
    hide NoDup;
    forall c ensures c in st1.clients.at <==> c in st.clients.at {
      assert c in plan.clients.at <==> c in plan.clients.keys;
      assert c in st.clients.at <==> c in st.clients.keys;
    }
    forall c | c in st1.clients.at
      ensures st1.clients.at[c] == st.clients.at[c].(relays := Dedupe(st.clients.at[c].relays)) {
      DedupeOfNoDup(Dedupe(st.clients.at[c].relays));
    }
  }

  lemma ReturnedNotLapsed(o: Options, r: Rec, now: int)
    requires !Expired(r, now)
    ensures !Lapsed(Returned(o, r, now), now)
  {}

  /**
   * Restore undoes export. A fresh process that is handed a portable state holds the same clients,
   * with the same secrets, relays and connection times, and the same secrets with the same bindings,
   * in the same order; it leaves out unclaimed secrets that expired meanwhile, and gives an
   * unclaimed secret that had no expiry the default life.
   */
  lemma RestoreUndoesExport(o: Options, st: State, now: int)
    requires Core(o, st, None) && Backed(st) && Keyed(st) && st.generation >= 0 && Portable(o, st)
    ensures RoundTripped(o, st, RestoreState(o, Init(o, st.generation), Sign(o, Snapshot(o, st)), false, now).0, now)
  {
    hide Core, Backed, Keyed, Portable, Validate, Fit, Returns, ReturnsClients, Snapshot, PutSecrets, AdmitAll, Emit, Dedupe,
         Judge, Verifies, RoundTripped, PlanSound, AppliedFrom;
    var b := Sign(o, Snapshot(o, st));
    var st0 := Init(o, st.generation);
    ExportIsAccepted(o, st, now);
    ExportValidates(o, st, now);
    JudgedSound(o, st0, b, false, now);
    var plan := Validate(o, Snapshot(o, st), now).value;
    ValidateSizes(o, Snapshot(o, st), now);
    SnapshotGeneration(o, st);
    AppliedFromEmpty(o, st.generation, plan, now);
    var st1 := Applied(o, st0, plan, st.generation, now);
    AppliedNotLapsed(o, st, st0, st1, plan, now);
    EmitNothingLapsed(o, st1, now);
    EmitLeaves(o, st1, now);
    CoreValid(o, st, None);
    AppliedRoundTrips(o, st, st1, Emit(o, st1, now), plan, now);
  }

  lemma SnapshotGeneration(o: Options, st: State)
    ensures Snapshot(o, st).generation == st.generation
  {}

  lemma AppliedNotLapsed(o: Options, st: State, st0: State, st1: State, plan: Plan, now: int)
    requires AppliedFrom(st0, st1, plan) && Returns(o, st, st.secrets.keys, now, plan.secrets)
    ensures st1.secrets.Valid() && forall k :: k in st1.secrets.at ==> !Lapsed(Held(st1, k), now)
  {
    hide Returned;
    forall k | k in st1.secrets.at ensures !Lapsed(Held(st1, k), now) {
      assert k in plan.secrets.keys;
      ReturnedNotLapsed(o, Held(st, k), now);
    }
  }

  // ── Exporting again ──

  lemma {:induction false} ExportSecretsAlike(st: State, st': State, keys: seq<string>)
    requires forall k :: k in keys ==> Written(k, Held(st, k)) == Written(k, Held(st', k))
    ensures ExportSecrets(st, keys) == ExportSecrets(st', keys)
  {
    if keys != [] { ExportSecretsAlike(st, st', keys[..|keys| - 1]); }
  }

  lemma {:induction false} ExportClientsAlike(st: State, st': State, keys: seq<string>)
    requires forall c :: c in keys ==> ClientOf(st, c) == ClientOf(st', c)
    ensures ExportClients(st, keys) == ExportClients(st', keys)
  {
    if keys != [] { ExportClientsAlike(st, st', keys[..|keys| - 1]); }
  }

  lemma {:induction false} LastingAll(st: State, keys: seq<string>, now: int)
    requires forall k :: k in keys ==> !Expired(Held(st, k), now)
    ensures Lasting(st, keys, now) == keys
  {
    hide Expired, Held;
    if keys != [] {
      LastingAll(st, keys[..|keys| - 1], now);
      assert keys == keys[..|keys| - 1] + [keys[|keys| - 1]];
    }
  }

  /** The second export is the first, when every unclaimed secret carries an expiry still ahead. */
  lemma ExportsAlike(o: Options, st: State, now: int)
    requires Core(o, st, None) && Backed(st) && Keyed(st) && st.generation >= 0 && Portable(o, st)
    requires forall s :: s in st.secrets.at ==>
      NoDup(Held(st, s).relays) && (Held(st, s).confirmed || (Held(st, s).expiresAt.Some? && Held(st, s).expiresAt.value > now))
    requires forall c :: c in st.clients.at ==> NoDup(st.clients.at[c].relays)
    ensures Snapshot(o, RestoreState(o, Init(o, st.generation), Sign(o, Snapshot(o, st)), false, now).0) == Snapshot(o, st)
  {
    hide Core, Backed, Keyed, Portable, RestoreState, ExportSecrets, ExportClients, Dedupe, NoDup, Init;
    RestoreUndoesExport(o, st, now);
    CoreValid(o, st, None);
    var st' := RestoreState(o, Init(o, st.generation), Sign(o, Snapshot(o, st)), false, now).0;
    forall k | k in st.secrets.keys ensures !Expired(Held(st, k), now) && Written(k, Held(st, k)) == Written(k, Held(st', k)) {
      assert k in st.secrets.at;
      DedupeOfNoDup(Held(st, k).relays);
    }
    LastingAll(st, st.secrets.keys, now);
    ExportSecretsAlike(st, st', st.secrets.keys);
    forall c | c in st.clients.keys ensures ClientOf(st, c) == ClientOf(st', c) {
      assert c in st.clients.at;
      DedupeOfNoDup(st.clients.at[c].relays);
    }
    ExportClientsAlike(st, st', st.clients.keys);
  }
}
