/** Which states a restore accepts, and what it leaves, read off the records of the state itself. */
module BunkerRestoreLaws {
  import opened Common
  import opened JsMap
  import opened BunkerModel
  import opened BunkerInvariants
  import opened BunkerRestore
  import opened BunkerPortable
  import opened BunkerLaws
  import BunkerRuns

  // ── The records ──

  predicate Hexed(s: string) {
    |s| == 64 && forall i :: 0 <= i < 64 ==> '0' <= s[i] <= '9' || 'a' <= s[i] <= 'f' || 'A' <= s[i] <= 'F'
  }

  lemma HexedIs(s: string)
    ensures Hexed(s) <==> Hex64(s)
  {
    forall i | 0 <= i < |s|
      ensures ('0' <= s[i] <= '9' || 'a' <= s[i] <= 'f' || 'A' <= s[i] <= 'F') <==>
              ('0' <= LowerChar(s[i]) <= '9' || 'a' <= LowerChar(s[i]) <= 'f') {}
  }

  /** Confirmed, or with time left. */
  predicate Unlapsed(b: SecretRecord, now: int) {
    b.confirmed || b.expiresAt.None? || now < b.expiresAt.value
  }

  ghost predicate FewRelays(o: Options, relays: seq<string>) {
    relays != [] && |set u | u in relays| <= o.maxRelays
  }

  lemma FewIsDeduped(o: Options, relays: seq<string>)
    ensures FewRelays(o, relays) <==> relays != [] && |Dedupe(relays)| <= o.maxRelays
  {
    NoDupCardinality(Dedupe(relays));
    assert (set u | u in relays) == set u | u in Dedupe(relays);
  }

  ghost predicate SoundSecret(o: Options, b: SecretRecord) {
    && 1 <= |b.secret| <= 256 && FewRelays(o, b.relays)
    && (b.client.Some? ==> Hexed(b.client.value) && o.onCurve(Lower(b.client.value)))
    && (b.confirmed ==> b.client.Some?)
  }

  /** Every record is sound, and after one that has not lapsed its secret is not listed again. */
  ghost predicate SoundSecrets(o: Options, list: seq<SecretRecord>, now: int) {
    && (forall i :: 0 <= i < |list| ==> SoundSecret(o, list[i]))
    && (forall i, j :: 0 <= i < j < |list| && list[i].secret == list[j].secret ==> !Unlapsed(list[i], now))
  }

  /** The secret record that lets this client in: its own, confirmed, on the same relays. */
  ghost predicate Vouches(b: SecretRecord, c: ClientRecord) {
    && b.confirmed && c.secret == Some(b.secret) && b.client.Some? && Lower(b.client.value) == Lower(c.pubkey)
    && forall u :: u in b.relays <==> u in c.relays
  }

  ghost predicate SoundClient(o: Options, secrets: seq<SecretRecord>, c: ClientRecord) {
    && Hexed(c.pubkey) && o.onCurve(Lower(c.pubkey)) && FewRelays(o, c.relays)
    && exists i :: 0 <= i < |secrets| && Vouches(secrets[i], c)
  }

  ghost predicate SoundClients(o: Options, secrets: seq<SecretRecord>, list: seq<ClientRecord>) {
    && (forall i :: 0 <= i < |list| ==> SoundClient(o, secrets, list[i]))
    && (forall i, j :: 0 <= i < j < |list| ==> Lower(list[i].pubkey) != Lower(list[j].pubkey))
  }

  ghost function UnlapsedSecrets(list: seq<SecretRecord>, now: int): set<string> {
    set i | 0 <= i < |list| && Unlapsed(list[i], now) :: list[i].secret
  }

  ghost function ClientKeys(list: seq<ClientRecord>): set<string> {
    set i | 0 <= i < |list| :: Lower(list[i].pubkey)
  }

  // ── Validation ──

  ghost predicate Tabled(o: Options, list: seq<SecretRecord>, now: int, t: Table<Rec>) {
    && t.Valid() && t.at.Keys == UnlapsedSecrets(list, now)
    && forall i :: 0 <= i < |list| && Unlapsed(list[i], now) ==> t.at[list[i].secret] == Incoming(o, list[i], now)
  }

  lemma OneSecret(o: Options, b: SecretRecord, acc: Table<Rec>, now: int)
    ensures CheckSecret(o, b, acc, now).Good? <==> SoundSecret(o, b) && b.secret !in acc.at
    ensures CheckSecret(o, b, acc, now).Good? ==>
              CheckSecret(o, b, acc, now).value == if Unlapsed(b, now) then acc.Put(b.secret, Incoming(o, b, now)) else acc
  {
    hide Hex64, Hexed, FewRelays, Incoming, Table.Put;
    FewIsDeduped(o, b.relays);
    if b.client.Some? { HexedIs(b.client.value); }
  }

  /** The table the list makes is the one its unlapsed records make, exactly when the list is sound. */
  lemma {:induction false} SecretsChecked(o: Options, list: seq<SecretRecord>, now: int)
    ensures CheckSecrets(o, list, now).Good? <==> SoundSecrets(o, list, now)
    ensures CheckSecrets(o, list, now).Good? ==> Tabled(o, list, now, CheckSecrets(o, list, now).value)
  {
    hide SoundSecret, Unlapsed, CheckSecret, Incoming, Table.Put, Table.Valid, Tabled, NoDup;
    if list == [] {
      NothingTabled(o, now);
    } else {
      var front, b := list[..|list| - 1], list[|list| - 1];
      assert list == front + [b];
      SecretsChecked(o, front, now);
      var before := CheckSecrets(o, front, now);
      if before.Good? {
        OneSecret(o, b, before.value, now);
        TabledHas(o, front, now, before.value, b.secret);
        if SoundSecret(o, b) && b.secret !in before.value.at { TabledGrows(o, front, b, now, before.value); }
        if SoundSecrets(o, list, now) {
          forall i | 0 <= i < |front| && front[i].secret == b.secret ensures !Unlapsed(front[i], now) { assert list[i] == front[i]; }
        }
        if SoundSecret(o, b) && b.secret !in before.value.at {
          forall i, j | 0 <= i < j < |list| && list[i].secret == list[j].secret ensures !Unlapsed(list[i], now) {
            assert list[i] == front[i];
            if j < |front| { assert list[j] == front[j]; }
          }
        }
      } else if SoundSecrets(o, list, now) {
        FrontSound(o, list, now);
      }
    }
  }

  lemma FrontSound(o: Options, list: seq<SecretRecord>, now: int)
    requires SoundSecrets(o, list, now) && list != []
    ensures SoundSecrets(o, list[..|list| - 1], now)
  {
    hide SoundSecret, Unlapsed;
  }

  lemma NothingTabled(o: Options, now: int)
    ensures Tabled(o, [], now, Empty())
  {}

  lemma TabledHas(o: Options, list: seq<SecretRecord>, now: int, t: Table<Rec>, s: string)
    requires Tabled(o, list, now, t)
    ensures s in t.at <==> exists i :: 0 <= i < |list| && list[i].secret == s && Unlapsed(list[i], now)
  {}

  lemma TabledGrows(o: Options, list: seq<SecretRecord>, b: SecretRecord, now: int, t: Table<Rec>)
    requires Tabled(o, list, now, t) && b.secret !in t.at
    ensures Tabled(o, list + [b], now, if Unlapsed(b, now) then t.Put(b.secret, Incoming(o, b, now)) else t)
  {
    hide Unlapsed, Incoming, NoDup;
    var t' := if Unlapsed(b, now) then t.Put(b.secret, Incoming(o, b, now)) else t;
    var list' := list + [b];
    forall s ensures s in t'.at <==> s in UnlapsedSecrets(list', now) {
      if s in t.at {
        var i :| 0 <= i < |list| && Unlapsed(list[i], now) && list[i].secret == s;
        assert list'[i].secret == s && Unlapsed(list'[i], now);
      } else if s == b.secret && Unlapsed(b, now) {
        assert list'[|list|] == b;
      }
    }
    forall i | 0 <= i < |list'| && Unlapsed(list'[i], now) ensures t'.at[list'[i].secret] == Incoming(o, list'[i], now) {
      if i < |list| {
        assert list'[i] == list[i];
        assert list[i].secret in UnlapsedSecrets(list, now);
      }
    }
  }

  ghost predicate Seats(list: seq<ClientRecord>, t: Table<Client>) {
    && t.Valid() && t.at.Keys == ClientKeys(list)
    && forall i :: 0 <= i < |list| && list[i].secret.Some? ==>
         Lower(list[i].pubkey) in t.at && t.at[Lower(list[i].pubkey)] == Client(list[i].secret.value, Dedupe(list[i].relays), list[i].connectedAt)
  }

  lemma OneClient(o: Options, secrets: seq<SecretRecord>, c: ClientRecord, now: int, t: Table<Rec>, acc: Table<Client>)
    requires SoundSecrets(o, secrets, now) && Tabled(o, secrets, now, t)
    ensures CheckClient(o, c, t, acc).Good? <==> SoundClient(o, secrets, c) && Lower(c.pubkey) !in acc.at
    ensures CheckClient(o, c, t, acc).Good? ==>
              c.secret.Some? && CheckClient(o, c, t, acc).value == acc.Put(Lower(c.pubkey), Client(c.secret.value, Dedupe(c.relays), c.connectedAt))
  {
    hide Hex64, Hexed, FewRelays, Table.Put, SoundSecrets, Tabled, Lower, Dedupe, SameRelays, Vouches;
    FewIsDeduped(o, c.relays);
    HexedIs(c.pubkey);
    VouchedFor(o, secrets, c, now, t);
  }

  lemma VouchedFor(o: Options, secrets: seq<SecretRecord>, c: ClientRecord, now: int, t: Table<Rec>)
    requires Tabled(o, secrets, now, t)
    ensures (exists i :: 0 <= i < |secrets| && Vouches(secrets[i], c)) <==>
            && c.secret.Some? && c.secret.value in t.at
            && t.at[c.secret.value].client == Some(Lower(c.pubkey)) && t.at[c.secret.value].confirmed
            && SameRelays(t.at[c.secret.value].relays, Dedupe(c.relays))
  {
    hide Lower, Dedupe, SameRelays;
    if i :| 0 <= i < |secrets| && Vouches(secrets[i], c) {
      var b := secrets[i];
      assert b.secret in UnlapsedSecrets(secrets, now);
      AlikeSameRelays(c.relays, b.relays);
    }
    if c.secret.Some? && c.secret.value in t.at && t.at[c.secret.value].client == Some(Lower(c.pubkey)) && t.at[c.secret.value].confirmed
       && SameRelays(t.at[c.secret.value].relays, Dedupe(c.relays)) {
      TabledHas(o, secrets, now, t, c.secret.value);
      var i :| 0 <= i < |secrets| && secrets[i].secret == c.secret.value && Unlapsed(secrets[i], now);
      SameRelaysAlike(Dedupe(secrets[i].relays), Dedupe(c.relays));
      DedupedAlike(secrets[i].relays, c.relays);
      assert Vouches(secrets[i], c);
    }
  }

  lemma DedupedAlike(a: seq<string>, b: seq<string>)
    requires Alike(Dedupe(a), Dedupe(b))
    ensures forall u :: u in a <==> u in b
  {
    forall u ensures u in a <==> u in b { assert u in a <==> u in Dedupe(a); assert u in b <==> u in Dedupe(b); }
  }

  lemma {:induction false} ClientsChecked(o: Options, secrets: seq<SecretRecord>, list: seq<ClientRecord>, now: int, t: Table<Rec>)
    requires SoundSecrets(o, secrets, now) && Tabled(o, secrets, now, t)
    ensures CheckClients(o, list, t).Good? <==> SoundClients(o, secrets, list)
    ensures CheckClients(o, list, t).Good? ==> Seats(list, CheckClients(o, list, t).value)
  {
    hide SoundClient, CheckClient, Table.Put, Table.Valid, Seats, NoDup, Tabled, SoundSecrets, Lower, Dedupe;
    if list == [] {
      NothingSeats();
    } else {
      var front, c := list[..|list| - 1], list[|list| - 1];
      assert list == front + [c];
      ClientsChecked(o, secrets, front, now, t);
      var before := CheckClients(o, front, t);
      if before.Good? {
        OneClient(o, secrets, c, now, t, before.value);
        SeatsHas(front, before.value, Lower(c.pubkey));
        if SoundClient(o, secrets, c) && Lower(c.pubkey) !in before.value.at { SeatsGrow(front, c, before.value); }
        if SoundClients(o, secrets, list) {
          forall i | 0 <= i < |front| ensures Lower(front[i].pubkey) != Lower(c.pubkey) { assert list[i] == front[i] && list[|front|] == c; }
        }
        if SoundClient(o, secrets, c) && Lower(c.pubkey) !in before.value.at {
          forall i, j | 0 <= i < j < |list| ensures Lower(list[i].pubkey) != Lower(list[j].pubkey) {
            assert list[i] == front[i];
            if j < |front| { assert list[j] == front[j]; }
          }
        }
      } else if SoundClients(o, secrets, list) {
        FrontClientsSound(o, secrets, list);
      }
    }
  }

  lemma FrontClientsSound(o: Options, secrets: seq<SecretRecord>, list: seq<ClientRecord>)
    requires SoundClients(o, secrets, list) && list != []
    ensures SoundClients(o, secrets, list[..|list| - 1])
  {
    hide SoundClient, Lower;
  }

  lemma NothingSeats()
    ensures Seats([], Empty())
  {}

  lemma SeatsHas(list: seq<ClientRecord>, t: Table<Client>, k: string)
    requires Seats(list, t)
    ensures k in t.at <==> exists i :: 0 <= i < |list| && Lower(list[i].pubkey) == k
  {
    hide Lower, Dedupe;
  }

  lemma SeatsGrow(list: seq<ClientRecord>, c: ClientRecord, t: Table<Client>)
    requires Seats(list, t) && Lower(c.pubkey) !in t.at && c.secret.Some?
    ensures Seats(list + [c], t.Put(Lower(c.pubkey), Client(c.secret.value, Dedupe(c.relays), c.connectedAt)))
  {
    hide Lower, Dedupe, NoDup;
    var k := Lower(c.pubkey);
    var list', t' := list + [c], t.Put(k, Client(c.secret.value, Dedupe(c.relays), c.connectedAt));
    forall x ensures x in t'.at <==> x in ClientKeys(list') {
      if x in t.at {
        var i :| 0 <= i < |list| && Lower(list[i].pubkey) == x;
        assert list'[i] == list[i];
      } else if x == k {
        assert list'[|list|] == c;
      }
    }
    forall i | 0 <= i < |list'| && list'[i].secret.Some?
      ensures Lower(list'[i].pubkey) in t'.at
      ensures t'.at[Lower(list'[i].pubkey)] == Client(list'[i].secret.value, Dedupe(list'[i].relays), list'[i].connectedAt) {
      if i < |list| { assert list'[i] == list[i]; assert Lower(list[i].pubkey) in ClientKeys(list); }
    }
  }

  // ── The verdict ──

  /** Signed by this key at a generation not behind the host's; or of the old format, let through by the caller and an explicit generation still at zero. */
  predicate Genuine(o: Options, st: State, b: Blob, allowUnsigned: bool) {
    || (b.version == Some(2) && b.mac == Some(Mac(o.key, b.content)) && 0 <= b.content.generation && st.generation <= b.content.generation)
    || ((b.version == None || b.version == Some(1)) && allowUnsigned && o.explicitGeneration && st.generation <= 0)
  }

  /** A secret memory holds bound is listed for its own client or for none. */
  ghost predicate NoClash(st: State, secrets: seq<SecretRecord>, now: int) {
    forall i :: 0 <= i < |secrets| && Unlapsed(secrets[i], now) && secrets[i].client.Some?
                && secrets[i].secret in st.secrets.at && Held(st, secrets[i].secret).client.Some?
      ==> Lower(secrets[i].client.value) == Held(st, secrets[i].secret).client.value
  }

  /** The listed secrets and clients are within the limits, alone and together with those in memory. */
  ghost predicate Room(o: Options, st: State, c: Content, now: int) {
    && |UnlapsedSecrets(c.secrets, now)| <= o.maxSecrets && |ClientKeys(c.clients)| <= o.maxClients
    && |st.secrets.at.Keys + UnlapsedSecrets(c.secrets, now)| <= o.maxSecrets
    && |st.clients.at.Keys + ClientKeys(c.clients)| + |st.admissions| <= o.maxClients
  }

  /** A restore is accepted if and only if the state is genuine and this server's, no approval is pending, every record is sound, nothing clashes with memory and there is room. */
  lemma RestoreAccepts(o: Options, st: State, b: Blob, allowUnsigned: bool, now: int)
    requires st.secrets.Valid() && st.clients.Valid()
    ensures Step(o, st, Restore(b, allowUnsigned), now).1 == Restored <==>
            && Genuine(o, st, b, allowUnsigned) && b.content.pubkey == o.pubkey && st.approvals <= 0
            && SoundSecrets(o, b.content.secrets, now) && SoundClients(o, b.content.secrets, b.content.clients)
            && NoClash(st, b.content.secrets, now) && Room(o, st, b.content, now)
  {
    hide Validate, Fit, SoundSecrets, SoundClients, NoClash, Room, Table.Valid;
    ValidatedIs(o, b.content, now);
    RoomAlone(o, st, b.content, now);
    if Validate(o, b.content, now).Good? { FitsIs(o, st, b.content, now, Validate(o, b.content, now).value); }
  }

  lemma RoomAlone(o: Options, st: State, c: Content, now: int)
    ensures Room(o, st, c, now) ==> |UnlapsedSecrets(c.secrets, now)| <= o.maxSecrets && |ClientKeys(c.clients)| <= o.maxClients
  {}

  ghost predicate PlanOf(o: Options, c: Content, now: int, plan: Plan) {
    Tabled(o, c.secrets, now, plan.secrets) && Seats(c.clients, plan.clients)
  }

  lemma ValidatedIs(o: Options, c: Content, now: int)
    ensures Validate(o, c, now).Good? <==>
            && SoundSecrets(o, c.secrets, now) && SoundClients(o, c.secrets, c.clients)
            && |UnlapsedSecrets(c.secrets, now)| <= o.maxSecrets && |ClientKeys(c.clients)| <= o.maxClients
    ensures Validate(o, c, now).Good? ==> PlanOf(o, c, now, Validate(o, c, now).value)
  {
    hide SoundSecrets, SoundClients, CheckSecrets, CheckClients, Table.Valid;
    SecretsChecked(o, c.secrets, now);
    if CheckSecrets(o, c.secrets, now).Good? { ClientsChecked(o, c.secrets, c.clients, now, CheckSecrets(o, c.secrets, now).value); }
  }

  lemma FitsIs(o: Options, st: State, c: Content, now: int, plan: Plan)
    requires PlanOf(o, c, now, plan) && st.secrets.Valid() && st.clients.Valid()
    requires |UnlapsedSecrets(c.secrets, now)| <= o.maxSecrets && |ClientKeys(c.clients)| <= o.maxClients
    ensures Fit(o, st, plan).Good? <==> NoClash(st, c.secrets, now) && Room(o, st, c, now)
    ensures Fit(o, st, plan).Good? ==> Fit(o, st, plan).value == plan
  {
    hide Clashes, Fresh, Absent, NoClash, NoDup, Tabled, Seats;
    NoClashIs(o, st, c, now, plan);
    RoomIs(o, st, c, now, plan);
  }

  lemma NoClashIs(o: Options, st: State, c: Content, now: int, plan: Plan)
    requires Tabled(o, c.secrets, now, plan.secrets)
    ensures NoClash(st, c.secrets, now) <==> forall i :: 0 <= i < |plan.secrets.keys| ==> !Clashes(st, plan, plan.secrets.keys[i])
  {
    hide Unlapsed, Lower, Dedupe, NoDup;
    if NoClash(st, c.secrets, now) {
      forall k | k in plan.secrets.at ensures !Clashes(st, plan, k) {
        TabledHas(o, c.secrets, now, plan.secrets, k);
        var i :| 0 <= i < |c.secrets| && c.secrets[i].secret == k && Unlapsed(c.secrets[i], now);
      }
      forall i | 0 <= i < |plan.secrets.keys| ensures !Clashes(st, plan, plan.secrets.keys[i]) { assert plan.secrets.keys[i] in plan.secrets.keys; }
    }
    if forall i :: 0 <= i < |plan.secrets.keys| ==> !Clashes(st, plan, plan.secrets.keys[i]) {
      forall i | 0 <= i < |c.secrets| && Unlapsed(c.secrets[i], now) ensures !Clashes(st, plan, c.secrets[i].secret) {
        assert c.secrets[i].secret in UnlapsedSecrets(c.secrets, now);
        assert c.secrets[i].secret in plan.secrets.keys;
        var k :| 0 <= k < |plan.secrets.keys| && plan.secrets.keys[k] == c.secrets[i].secret;
      }
    }
  }

  lemma RoomIs(o: Options, st: State, c: Content, now: int, plan: Plan)
    requires PlanOf(o, c, now, plan) && st.secrets.Valid() && st.clients.Valid()
    ensures st.secrets.Size() + |set k | k in Fresh(st, plan.secrets.keys) && k !in st.secrets.at| == |st.secrets.at.Keys + UnlapsedSecrets(c.secrets, now)|
    ensures st.clients.Size() + |Absent(st, plan.clients.keys)| == |st.clients.at.Keys + ClientKeys(c.clients)|
  {
    hide NoDup;
    var new_ := set k | k in Fresh(st, plan.secrets.keys) && k !in st.secrets.at;
    assert new_ == UnlapsedSecrets(c.secrets, now) - st.secrets.at.Keys;
    Disjoint(st.secrets.at.Keys, UnlapsedSecrets(c.secrets, now));
    MapSize(st.secrets.at);
    MapSize(st.clients.at);
    NoDupCardinality(Absent(st, plan.clients.keys));
    assert (set k | k in Absent(st, plan.clients.keys)) == ClientKeys(c.clients) - st.clients.at.Keys;
    Disjoint(st.clients.at.Keys, ClientKeys(c.clients));
  }

  lemma Disjoint(a: set<string>, b: set<string>)
    ensures |a + b| == |a| + |b - a|
  {
    assert a + b == a + (b - a);
  }

  lemma MapSize<V>(m: map<string, V>)
    ensures |m| == |m.Keys|
  {}

  // ── What is left ──

  /** The record a restored secret gets: nothing pending, and the default life where an unconfirmed one brought no expiry. */
  ghost predicate RecordFrom(o: Options, b: SecretRecord, now: int, r: Rec) {
    && r.bunker == b.bunker && r.confirmed == b.confirmed && r.pending == 0
    && (forall u :: u in r.relays <==> u in b.relays)
    && r.client == (if b.client.Some? then Some(Lower(b.client.value)) else None)
    && r.expiresAt == (if !b.confirmed && b.expiresAt.None? && o.secretTtl > 0 then Some(now + o.secretTtl) else b.expiresAt)
  }

  /**
   * After an accepted restore a listed secret that memory did not hold bound is held as the state has it,
   * lapsed ones aside. A secret it did hold bound, or that was not listed, is untouched or has lapsed.
   */
  lemma RestoreLeavesSecrets(o: Options, st: State, b: Blob, allowUnsigned: bool, now: int)
    requires Core(o, st, None) && Step(o, st, Restore(b, allowUnsigned), now).1 == Restored
    ensures var st', list := Step(o, st, Restore(b, allowUnsigned), now).0, b.content.secrets;
            && (forall i :: 0 <= i < |list| && Unlapsed(list[i], now) && Held(st, list[i].secret).client.None? ==>
                  list[i].secret in st'.secrets.at && RecordFrom(o, list[i], now, Held(st', list[i].secret)))
            && (forall s :: s in st'.secrets.at && (s !in UnlapsedSecrets(list, now) || Held(st, s).client.Some?) ==>
                  s in st.secrets.at && st'.secrets.at[s] == st.secrets.at[s] && Held(st', s) == Held(st, s))
  {
    hide Core, Judge, Emit, Applied, Fit, Held, Unlapsed, RecordFrom, PutDone, AdmitDone, Follows, Later, Fresh, Absent, Tabled, Seats;
    var list := b.content.secrets;
    Plans(o, st, b, allowUnsigned, now);
    var plan := Judge(o, st, b, allowUnsigned, now).value;
    var st1 := Applied(o, st, plan, StateGeneration(b), now);
    AppliedParts(o, st, plan, StateGeneration(b), now);
    AppliedSecrets(o, st, b.content, plan, StateGeneration(b), now);
    CoreValid(o, st1, None);
    var st' := Emit(o, st1, now);
    RestoreIs(o, st, b, allowUnsigned, now);
    EmitForgets(o, st1, now);
    forall i | 0 <= i < |list| && Unlapsed(list[i], now) && Held(st, list[i].secret).client.None?
      ensures list[i].secret in st'.secrets.at && RecordFrom(o, list[i], now, Held(st', list[i].secret)) {
      FromLives(o, list[i], now, Held(st1, list[i].secret));
      EmitKeepsLive(o, st1, list[i].secret, now);
      KeptRecord(st1, st', list[i].secret);
    }
    forall s | s in st'.secrets.at && (s !in UnlapsedSecrets(list, now) || Held(st, s).client.Some?)
      ensures s in st.secrets.at && st'.secrets.at[s] == st.secrets.at[s] && Held(st', s) == Held(st, s) {
      KeptRecord(st1, st', s);
    }
  }

  lemma RestoreIs(o: Options, st: State, b: Blob, allowUnsigned: bool, now: int)
    requires Judge(o, st, b, allowUnsigned, now).Good?
    ensures Step(o, st, Restore(b, allowUnsigned), now).0 == Emit(o, Applied(o, st, Judge(o, st, b, allowUnsigned, now).value, StateGeneration(b), now), now)
  {
    hide Judge, Emit, PutSecrets, AdmitAll;
  }

  lemma Plans(o: Options, st: State, b: Blob, allowUnsigned: bool, now: int)
    requires Step(o, st, Restore(b, allowUnsigned), now).1 == Restored
    ensures var v := Judge(o, st, b, allowUnsigned, now);
            v.Good? && PlanSound(v.value) && Fit(o, st, v.value).Good? && PlanOf(o, b.content, now, v.value)
  {
    hide Fit, Validate, PlanOf, PlanSound;
    JudgedSound(o, st, b, allowUnsigned, now);
    ValidatedIs(o, b.content, now);
    FitIsPlan(o, st, Validate(o, b.content, now).value);
  }

  lemma FromLives(o: Options, b: SecretRecord, now: int, r: Rec)
    requires RecordFrom(o, b, now, r) && Unlapsed(b, now)
    ensures !Lapsed(r, now)
  {}

  lemma AppliedSecrets(o: Options, st: State, c: Content, plan: Plan, generation: int, now: int)
    requires Core(o, st, None) && PlanSound(plan) && Fit(o, st, plan).Good? && PlanOf(o, c, now, plan)
    ensures var st1 := Applied(o, st, plan, generation, now);
            && (forall i :: 0 <= i < |c.secrets| && Unlapsed(c.secrets[i], now) && Held(st, c.secrets[i].secret).client.None? ==>
                  c.secrets[i].secret in st1.secrets.at && RecordFrom(o, c.secrets[i], now, Held(st1, c.secrets[i].secret)))
            && (forall s :: s in st1.secrets.at && (s !in UnlapsedSecrets(c.secrets, now) || Held(st, s).client.Some?) ==>
                  s in st.secrets.at && st1.secrets.at[s] == st.secrets.at[s] && Held(st1, s) == Held(st, s))
  {
    hide Core, Applied, Fit, Follows, Later, Seats, PutSecrets, Fresh, Tabled, PutDone, AdmitDone, Unlapsed, RecordFrom, Held;
    AppliedParts(o, st, plan, generation, now);
    var mid, st1 := PutSecrets(st, plan, Fresh(st, plan.secrets.keys)), Applied(o, st, plan, generation, now);
    SeatingLeaves(mid, st1, plan, Absent(st, plan.clients.keys));
    forall i | 0 <= i < |c.secrets| && Unlapsed(c.secrets[i], now) && Held(st, c.secrets[i].secret).client.None?
      ensures c.secrets[i].secret in st1.secrets.at && RecordFrom(o, c.secrets[i], now, Held(st1, c.secrets[i].secret)) {
      TabledAt(o, c.secrets, now, plan.secrets, i);
      PutListed(st, mid, plan, c.secrets[i].secret);
      SameHeld(mid, st1, c.secrets[i].secret);
    }
    forall s | s in st1.secrets.at && (s !in UnlapsedSecrets(c.secrets, now) || Held(st, s).client.Some?)
      ensures s in st.secrets.at && st1.secrets.at[s] == st.secrets.at[s] && Held(st1, s) == Held(st, s) {
      TabledKeys(o, c.secrets, now, plan.secrets, s);
      if s in st.secrets.at { CoreHeld(o, st, None, s); }
      PutOthers(st, mid, plan, s);
      SameHeld(mid, st1, s);
    }
  }

  lemma SeatingLeaves(mid: State, st1: State, plan: Plan, keys: seq<string>)
    requires AdmitDone(mid, st1.(generation := mid.generation), plan, keys)
    ensures st1.secrets == mid.secrets && st1.recs == mid.recs
  {}

  lemma SameHeld(mid: State, st1: State, s: string)
    requires st1.secrets == mid.secrets && st1.recs == mid.recs
    ensures Held(st1, s) == Held(mid, s)
  {}

  lemma TabledAt(o: Options, list: seq<SecretRecord>, now: int, t: Table<Rec>, i: nat)
    requires Tabled(o, list, now, t) && i < |list| && Unlapsed(list[i], now)
    ensures list[i].secret in t.at && list[i].secret in t.keys && RecordFrom(o, list[i], now, t.at[list[i].secret])
  {
    hide Unlapsed, NoDup, Lower;
    assert list[i].secret in UnlapsedSecrets(list, now);
  }

  lemma TabledKeys(o: Options, list: seq<SecretRecord>, now: int, t: Table<Rec>, s: string)
    requires Tabled(o, list, now, t)
    ensures s in t.keys <==> s in UnlapsedSecrets(list, now)
  {
    hide Unlapsed, NoDup, UnlapsedSecrets, Incoming;
  }

  lemma PutListed(st: State, mid: State, plan: Plan, k: string)
    requires PutDone(st, mid, plan, Fresh(st, plan.secrets.keys)) && k in plan.secrets.keys && k in plan.secrets.at && Held(st, k).client.None?
    ensures k in mid.secrets.at && Held(mid, k) == plan.secrets.at[k]
  {
    hide Held, FromPlan;
  }

  lemma PutOthers(st: State, mid: State, plan: Plan, s: string)
    requires PutDone(st, mid, plan, Fresh(st, plan.secrets.keys)) && s in mid.secrets.at
    requires s !in plan.secrets.keys || Held(st, s).client.Some?
    requires s in st.secrets.at ==> st.secrets.at[s] in st.recs
    ensures s in st.secrets.at && mid.secrets.at[s] == st.secrets.at[s] && Held(mid, s) == Held(st, s)
  {
    hide FromPlan;
  }

  /** And the clients: those of memory stay as they are, a listed one that was not connected is seated, and the generation is the higher of the two. */
  lemma RestoreLeavesClients(o: Options, st: State, b: Blob, allowUnsigned: bool, now: int)
    requires Core(o, st, None) && Step(o, st, Restore(b, allowUnsigned), now).1 == Restored
    ensures var st', list := Step(o, st, Restore(b, allowUnsigned), now).0, b.content.clients;
            && (forall k :: k in st'.clients.at <==> k in st.clients.at || k in ClientKeys(list))
            && (forall k :: k in st.clients.at ==> st'.clients.at[k] == st.clients.at[k])
            && (forall i :: 0 <= i < |list| && Lower(list[i].pubkey) !in st.clients.at ==>
                  && list[i].secret.Some?
                  && st'.clients.at[Lower(list[i].pubkey)] == Client(list[i].secret.value, Dedupe(list[i].relays), list[i].connectedAt))
            && st'.generation == if b.version == Some(2) then b.content.generation else 0
  {
    hide Core, Judge, Emit, Applied, Fit, PutDone, AdmitDone, Follows, Later, Fresh, Absent, Tabled, Seats, Table.Valid, Lower, PutSecrets;
    var list := b.content.clients;
    Plans(o, st, b, allowUnsigned, now);
    RestoreGeneration(o, st, b, allowUnsigned, now);
    var plan := Judge(o, st, b, allowUnsigned, now).value;
    var st1 := Applied(o, st, plan, StateGeneration(b), now);
    AppliedParts(o, st, plan, StateGeneration(b), now);
    var mid := PutSecrets(st, plan, Fresh(st, plan.secrets.keys));
    PutLeavesClients(st, mid, plan, Fresh(st, plan.secrets.keys));
    CoreValid(o, st1, None);
    EmitClients(o, st1, now);
    RestoreIs(o, st, b, allowUnsigned, now);
    SeatsKeys(list, plan.clients);
    forall k ensures k in st1.clients.at <==> k in st.clients.at || k in ClientKeys(list)
             ensures k in st.clients.at ==> st1.clients.at[k] == st.clients.at[k] {
      SeatedAt(st, mid, st1, plan, k);
    }
    forall i | 0 <= i < |list| && Lower(list[i].pubkey) !in st.clients.at
      ensures list[i].secret.Some? && Lower(list[i].pubkey) in st1.clients.at
      ensures st1.clients.at[Lower(list[i].pubkey)] == Client(list[i].secret.value, Dedupe(list[i].relays), list[i].connectedAt) {
      ListedHaveSecrets(o, st, b, allowUnsigned, now, i);
      SeatsAt(list, plan.clients, i);
      SeatedAt(st, mid, st1, plan, Lower(list[i].pubkey));
      DedupeOfNoDup(Dedupe(list[i].relays));
    }
  }

  lemma RestoreGeneration(o: Options, st: State, b: Blob, allowUnsigned: bool, now: int)
    requires Core(o, st, None) && Step(o, st, Restore(b, allowUnsigned), now).1 == Restored
    ensures Step(o, st, Restore(b, allowUnsigned), now).0.generation == if b.version == Some(2) then b.content.generation else 0
  {
    hide Core, Emit, Applied, Fit, Validate, PutDone, AdmitDone, Follows, Later, Fresh, Absent, PlanSound, PlanOf;
    Plans(o, st, b, allowUnsigned, now);
    RestoreIs(o, st, b, allowUnsigned, now);
    var plan := Judge(o, st, b, allowUnsigned, now).value;
    BunkerRuns.AppliedGeneration(o, st, plan, StateGeneration(b), now);
    EmitClients(o, Applied(o, st, plan, StateGeneration(b), now), now);
  }

  lemma EmitClients(o: Options, st: State, now: int)
    ensures Emit(o, st, now).clients == st.clients && Emit(o, st, now).generation == st.generation
  {}

  lemma SeatsKeys(list: seq<ClientRecord>, t: Table<Client>)
    requires Seats(list, t)
    ensures forall k :: k in t.keys <==> k in ClientKeys(list)
  {
    hide ClientKeys, NoDup;
  }

  lemma SeatsAt(list: seq<ClientRecord>, t: Table<Client>, i: nat)
    requires Seats(list, t) && i < |list| && list[i].secret.Some?
    ensures Lower(list[i].pubkey) in t.at && Lower(list[i].pubkey) in t.keys
    ensures t.at[Lower(list[i].pubkey)] == Client(list[i].secret.value, Dedupe(list[i].relays), list[i].connectedAt)
  {
    hide ClientKeys, NoDup;
  }

  lemma SeatedAt(st: State, mid: State, st1: State, plan: Plan, k: string)
    requires AdmitDone(mid, st1.(generation := mid.generation), plan, Absent(st, plan.clients.keys)) && mid.clients == st.clients
    ensures k in st1.clients.at <==> k in st.clients.at || k in plan.clients.keys
    ensures k in st.clients.at ==> st1.clients.at[k] == st.clients.at[k]
    ensures k !in st.clients.at && k in plan.clients.keys && k in plan.clients.at ==>
              st1.clients.at[k] == plan.clients.at[k].(relays := Dedupe(plan.clients.at[k].relays))
  {
    hide Dedupe;
  }

  lemma ListedHaveSecrets(o: Options, st: State, b: Blob, allowUnsigned: bool, now: int, i: nat)
    requires Core(o, st, None) && Step(o, st, Restore(b, allowUnsigned), now).1 == Restored && i < |b.content.clients|
    ensures b.content.clients[i].secret.Some?
  {
    hide Core, Step, SoundSecrets, NoClash, Room, Genuine;
    CoreValid(o, st, None);
    RestoreAccepts(o, st, b, allowUnsigned, now);
    assert SoundClient(o, b.content.secrets, b.content.clients[i]);
  }

  // ── What is written ──

  /**
   * An export: signed with this server's key, at its generation, with every secret that is held once the
   * lapsed are swept and every client, in the order they came, field by field.
   */
  lemma ExportIs(o: Options, st: State, now: int)
    requires Core(o, st, None)
    ensures var (st', out) := Step(o, st, Export, now);
            && out.Exported? && out.blob.version == Some(2) && out.blob.mac == Some(Mac(o.key, out.blob.content))
            && var c := out.blob.content;
            && c.pubkey == o.pubkey && c.generation == st.generation
            && |c.secrets| == |st'.secrets.keys| && |c.clients| == |st.clients.keys|
            && (forall i :: 0 <= i < |c.secrets| ==> RecordOf(st', st'.secrets.keys[i], c.secrets[i]))
            && (forall i :: 0 <= i < |c.clients| ==> ClientRecordOf(st, st.clients.keys[i], c.clients[i]))
            && (forall s :: s in st.secrets.at && s !in st'.secrets.at ==> !Usable(st, s, now))
  {
    hide Core, Sweep, ExportSecrets, ExportClients, RecordOf, ClientRecordOf, Forgets, Usable;
    CoreValid(o, st, None);
    var st' := Sweep(st, now);
    SweepForgets(st, now);
    SweepLeavesHosts(st, now);
    SweepLeavesGeneration(st, now);
    ForgetsValidKeys(st, st');
    SecretsWritten(st', st'.secrets.keys);
    ClientsWritten(st', st'.clients.keys);
    forall i | 0 <= i < |st'.clients.keys| ensures ClientRecordOf(st, st.clients.keys[i], ExportClients(st', st'.clients.keys)[i]) {
      SameSeats(st, st', st.clients.keys[i], ExportClients(st', st'.clients.keys)[i]);
    }
    forall s | s in st.secrets.at && s !in st'.secrets.at ensures !Usable(st, s, now) { SweptIsLapsed(o, st, s, now); }
  }

  ghost predicate RecordOf(st: State, s: string, b: SecretRecord) {
    && s in st.secrets.at && b.secret == s
    && var r := Held(st, s);
    b.bunker == r.bunker && b.relays == r.relays && b.client == r.client && b.confirmed == r.confirmed && b.expiresAt == r.expiresAt
  }

  ghost predicate ClientRecordOf(st: State, k: string, c: ClientRecord) {
    && k in st.clients.at && c.pubkey == k && c.relays == st.clients.at[k].relays && c.connectedAt == st.clients.at[k].connectedAt
    && c.secret == if st.clients.at[k].secret == "" then None else Some(st.clients.at[k].secret)
  }

  lemma SameSeats(st: State, st': State, k: string, c: ClientRecord)
    requires st'.clients == st.clients && ClientRecordOf(st', k, c)
    ensures ClientRecordOf(st, k, c)
  {}

  lemma SweepLeavesGeneration(st: State, now: int)
    ensures Sweep(st, now).generation == st.generation
  {}

  lemma ForgetsValidKeys(st: State, st': State)
    requires Forgets(st, st') && st.clients.Valid()
    ensures forall k :: k in st'.secrets.keys ==> k in st'.secrets.at
    ensures forall k :: k in st.clients.keys ==> k in st.clients.at
  {
    hide NoDup;
  }

  lemma SweptIsLapsed(o: Options, st: State, s: string, now: int)
    requires st.secrets.Valid() && s in st.secrets.at && s !in Sweep(st, now).secrets.at
    ensures !Usable(st, s, now)
  {
    hide NextOver, LiveKeys;
  }

  lemma {:induction false} SecretsWritten(st: State, keys: seq<string>)
    requires forall k :: k in keys ==> k in st.secrets.at
    ensures forall i :: 0 <= i < |keys| ==> RecordOf(st, keys[i], ExportSecrets(st, keys)[i])
  {
    hide RecordOf, Held;
    if keys != [] {
      var front, last := keys[..|keys| - 1], keys[|keys| - 1];
      assert keys == front + [last];
      SecretsWritten(st, front);
      OneWritten(st, last);
    }
  }

  lemma OneWritten(st: State, k: string)
    requires k in st.secrets.at
    ensures var r := Held(st, k); RecordOf(st, k, SecretRecord(k, r.bunker, r.relays, r.client, r.confirmed, r.expiresAt))
  {
    hide Held;
  }

  lemma {:induction false} ClientsWritten(st: State, keys: seq<string>)
    requires forall k :: k in keys ==> k in st.clients.at
    ensures forall i :: 0 <= i < |keys| ==> ClientRecordOf(st, keys[i], ExportClients(st, keys)[i])
  {
    if keys != [] {
      var front, last := keys[..|keys| - 1], keys[|keys| - 1];
      assert keys == front + [last];
      ClientsWritten(st, front);
    }
  }
}
