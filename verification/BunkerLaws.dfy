/**
 * What each pairing event answers and leaves behind, in terms of the records themselves: the life of
 * a minted secret, who may connect or scan, and what an answer of the handler changes.
 */
module BunkerLaws {
  import opened Common
  import opened JsMap
  import opened BunkerModel
  import opened BunkerInvariants
  import opened BunkerRuns
  import BunkerPortable
  import BunkerFirm

  // ── Minting ──

  /**
   * A minted secret is unbound, listens on the relays named, or the host's, and lives as long as the
   * given ttl, or the default one; a ttl of zero or less never lapses.
   */
  lemma MintGivesLife(o: Options, st: State, secret: string, relays: seq<string>, ttl: Option<int>, now: int)
    requires Core(o, st, None) && secret !in st.secrets.at && Step(o, st, Mint(secret, relays, ttl), now).1 == Done
    ensures var st' := Step(o, st, Mint(secret, relays, ttl), now).0;
            var life := if ttl.Some? then ttl.value else o.secretTtl;
            && secret in st'.secrets.at && st'.secrets.at[secret] in st'.recs
            && var r := st'.recs[st'.secrets.at[secret]];
            && r.expiresAt == (if life > 0 then Some(now + life) else None)
            && r.client == None && !r.confirmed && r.pending == 0 && r.bunker
            && (forall u :: u in r.relays <==> u in if relays == [] then st.hosts else relays)
  {
    hide Core, Sweep, AddHosts, Emit, Stored, Schedule, Sheds, Follows;
    MintRoom(o, st, secret, relays, ttl, now);
    CoreValid(o, st, None);
    SweepForgets(st, now);
    SweepLeavesHosts(st, now);
    var st0 := Sweep(st, now);
    var urls := Dedupe(if relays == [] then st0.hosts else relays);
    AddHostsSame(st0, urls);
    var st1 := AddHosts(st0, urls);
    assert secret !in st1.secrets.at by { ForgetsOnly(st, st0); }
    NewSecretLives(o, st1, secret, urls, if ttl.Some? then ttl.value else o.secretTtl, now);
  }

  lemma ForgetsOnly(st: State, st0: State)
    requires Forgets(st, st0)
    ensures forall s :: s in st0.secrets.at ==> s in st.secrets.at
  {
    hide NoDup;
  }

  lemma SweepLeavesHosts(st: State, now: int)
    ensures Sweep(st, now).hosts == st.hosts && Sweep(st, now).recs == st.recs && Sweep(st, now).clients == st.clients
  {
    hide NextOver, LiveKeys;
  }

  lemma NewSecretLives(o: Options, st: State, secret: string, urls: seq<string>, life: int, now: int)
    requires Core(o, st, None) && secret !in st.secrets.at && st.secrets.Size() < o.maxSecrets
    ensures var st' := MintOn(o, st, secret, urls, life, now).0;
            StillHeld(st', secret, st.nextId) && st.nextId in st'.recs
            && st'.recs[st.nextId] == Rec(urls, None, false, 0, true, if life > 0 then Some(now + life) else None)
  {
    hide PendingExact, SlotsExact, FlightsBound, ConfirmedBound, WithinCeilings, Emit, NoDup;
    var due := if life > 0 then Some(now + life) else None;
    var st1 := if due.Some? then Schedule(st, due.value) else st;
    var r := Rec(urls, None, false, 0, true, due);
    var st2 := Stored(st1, secret, r);
    assert st2.secrets.Valid();
    EmitHoldsUnlapsed(o, st2, now, secret);
    EmitLeaves(o, st2, now);
  }

  lemma EmitHoldsUnlapsed(o: Options, st: State, now: int, secret: string)
    requires st.secrets.Valid() && secret in st.secrets.at
    requires var r := Held(st, secret); r.confirmed || r.pending != 0 || r.expiresAt.None? || r.expiresAt.value > now
    ensures StillHeld(Emit(o, st, now), secret, st.secrets.at[secret])
  {}

  /** A mint is refused only for a new secret with no room, counted after the lapsed ones are swept; a known one keeps all but, unbound, its relays. */
  lemma MintAnswers(o: Options, st: State, secret: string, relays: seq<string>, ttl: Option<int>, now: int)
    requires Core(o, st, None)
    ensures var (st', out) := Step(o, st, Mint(secret, relays, ttl), now);
            var kept := Sweep(st, now).secrets.at;
            && (out == Refused(TooManySecrets) <==> secret !in kept && |kept| >= o.maxSecrets)
            && (out == Done <==> secret in kept || |kept| < o.maxSecrets)
            && (secret in kept ==>
                  && st.secrets.at[secret] in st'.recs
                  && var before, after := Held(st, secret), st'.recs[st.secrets.at[secret]];
                  && after == before.(relays := after.relays)
                  && (before.client.Some? ==> after == before)
                  && (before.client.None? ==> forall u :: u in after.relays <==> u in if relays == [] then st.hosts else relays))
  {
    hide Core, Sweep, AddHosts, Emit, Stored, Schedule, Sheds, Follows;
    MintRoom(o, st, secret, relays, ttl, now);
    CoreValid(o, st, None);
    SweepForgets(st, now);
    SweepLeavesHosts(st, now);
    var st0 := Sweep(st, now);
    var urls := Dedupe(if relays == [] then st0.hosts else relays);
    AddHostsSame(st0, urls);
    var st1 := AddHosts(st0, urls);
    if secret in st0.secrets.at {
      KeptRecord(st, st0, secret);
      CoreHeld(o, st, None, secret);
      EmitLeaves(o, Redisplayed(st1, secret, urls), now);
    }
  }

  lemma KeptRecord(st: State, st0: State, secret: string)
    requires Forgets(st, st0) && secret in st0.secrets.at
    ensures secret in st.secrets.at && st0.secrets.at[secret] == st.secrets.at[secret] && Held(st0, secret) == Held(st, secret)
  {
    hide NoDup;
  }

  // ── Connecting and scanning ──

  /** The secret is held, and not an unclaimed one past its expiry with nothing pending. */
  predicate Usable(st: State, secret: string, now: int) {
    secret in st.secrets.at && st.secrets.at[secret] in st.recs
    && var r := st.recs[st.secrets.at[secret]];
    r.confirmed || r.pending != 0 || r.expiresAt.None? || now < r.expiresAt.value
  }

  /** A key as a server spells it. */
  predicate Spelled(client: string) {
    |client| == 64 && forall i :: 0 <= i < 64 ==> '0' <= client[i] <= '9' || 'a' <= client[i] <= 'f'
  }

  lemma SpelledIsKeyed(client: string)
    ensures Spelled(client) <==> Hex64(client) && Lower(client) == client
  {
    if Spelled(client) { assert Lower(client) == client; }
    if Hex64(client) && Lower(client) == client {
      forall i | 0 <= i < 64 ensures '0' <= client[i] <= '9' || 'a' <= client[i] <= 'f' { assert LowerChar(client[i]) == client[i]; }
    }
  }

  /** Neither connected nor being admitted, and no seat is left. */
  predicate Crowded(o: Options, st: State, client: string) {
    client !in st.clients.at && client !in st.admissions && |st.clients.at| + |st.admissions| >= o.maxClients
  }

  predicate Taken(st: State, secret: string, client: string) {
    secret in st.secrets.at && st.secrets.at[secret] in st.recs
    && st.recs[st.secrets.at[secret]].client.Some? && st.recs[st.secrets.at[secret]].client.value != client
  }

  /** `connect`, refusal by refusal in the order they are found. */
  lemma ConnectAnswers(o: Options, st: State, client: string, secret: string, now: int)
    requires Core(o, st, None)
    ensures Step(o, st, BeginConnect(client, secret), now).1 ==
            if !Spelled(client) || !o.onCurve(client) then Refused(BadRequest)
            else if secret == "" || !Usable(st, secret, now) then Refused(InvalidSecret)
            else if Crowded(o, st, client) then Refused(TooManyClients)
            else if Taken(st, secret, client) then Refused(SecretTaken)
            else Waiting(st.nextFlight)
  {
    hide Core, Bind, BeginApproval, Hex64, Lower, Spelled, Usable, DropIfLapsed, OverCeiling, Crowded, Takable, Taken;
    SpelledIsKeyed(client);
    LookedUp(o, st, secret, now);
    SameRoom(o, st, DropIfLapsed(o, st, secret, now), client);
    TakableUnlessTaken(o, st, secret, client);
    BindLeavesFlights(o, DropIfLapsed(o, st, secret, now), secret, client, [], now);
  }

  lemma BindLeavesFlights(o: Options, st: State, secret: string, client: string, relays: seq<string>, now: int)
    ensures Bind(o, st, secret, client, relays, now).nextFlight == st.nextFlight
  {
    hide Emit;
    var st1 := Readied(st, secret, relays);
    var id := st1.secrets.at[secret];
    var r := RecOf(st1, id);
    EmitLeaves(o, SetRec(st1, id, r.(client := Some(client), pending := r.pending + 1)), now);
  }

  lemma SameRoom(o: Options, st: State, st1: State, client: string)
    requires st1.clients == st.clients && st1.admissions == st.admissions
    ensures OverCeiling(o, st1, client) <==> Crowded(o, st, client)
  {}

  lemma TakableUnlessTaken(o: Options, st: State, secret: string, client: string)
    requires Core(o, st, None)
    ensures Takable(st, secret, client) <==> !Taken(st, secret, client)
  {
    hide PendingExact, SlotsExact, FlightsBound, ConfirmedBound, WithinCeilings, NoDup;
  }

  /** `#liveSecret` drops what is not usable, and nothing else. */
  lemma LookedUp(o: Options, st: State, secret: string, now: int)
    requires Core(o, st, None)
    ensures var st1 := DropIfLapsed(o, st, secret, now);
            && (secret in st1.secrets.at <==> Usable(st, secret, now))
            && (Usable(st, secret, now) ==> st1 == st)
            && st1.recs == st.recs && st1.clients == st.clients && st1.admissions == st.admissions
            && st1.nextFlight == st.nextFlight && st1.inflight == st.inflight && st1.nextId == st.nextId
  {
    hide PendingExact, SlotsExact, FlightsBound, ConfirmedBound, WithinCeilings, Emit;
    if secret in st.secrets.at && Lapsed(Held(st, secret), now) {
      var st0 := st.(secrets := st.secrets.Delete(secret));
      EmitForgets(o, st0, now);
      EmitLeaves(o, st0, now);
    }
  }

  /** What a `connect` that waits leaves: one more approval pending on the record, which is bound to the client and otherwise as it was. */
  lemma ConnectLeaves(o: Options, st: State, client: string, secret: string, now: int)
    requires Core(o, st, None) && Step(o, st, BeginConnect(client, secret), now).1.Waiting?
    ensures var st' := Step(o, st, BeginConnect(client, secret), now).0;
            && secret in st.secrets.at && st.secrets.at[secret] in st.recs
            && var id := st.secrets.at[secret];
            var r := st.recs[id];
            && st'.recs == st.recs[id := r.(client := Some(client), pending := r.pending + 1)]
            && StillHeld(st', secret, id)
            && st'.inflight == st.inflight[st.nextFlight := Flight(client, secret, id, r.relays, client !in st.clients.at, false)]
            && st'.approvals == st.approvals + 1 && st'.clients == st.clients && st'.generation == st.generation
  {
    hide PendingExact, SlotsExact, FlightsBound, ConfirmedBound, WithinCeilings, Emit, Hex64, Lower, Usable, NoDup, Bump, DropIfLapsed;
    LookedUp(o, st, secret, now);
    CoreHeld(o, st, None, secret);
    BindHere(o, st, secret, client, [], now);
  }

  lemma BindHere(o: Options, st: State, secret: string, client: string, relays: seq<string>, now: int)
    requires Core(o, st, None) && secret in st.secrets.at && Takable(st, secret, client)
    ensures var st' := Bind(o, st, secret, client, relays, now);
            var id := st.secrets.at[secret];
            var r := RecOf(st, id);
            && st'.recs == st.recs[id := r.(client := Some(client), pending := r.pending + 1)] && StillHeld(st', secret, id)
            && st' == st.(secrets := st'.secrets, recs := st'.recs, nextSweep := st'.nextSweep, sweptAt := st'.sweptAt)
  {
    hide Core, Emit, RecOf, Follows;
    BindKeeps(o, st, secret, client, relays, now);
    var id := st.secrets.at[secret];
    var r := RecOf(st, id);
    EmitLeaves(o, SetRec(st, id, r.(client := Some(client), pending := r.pending + 1)), now);
  }

  /** A scan, refusal by refusal; it needs no secret to be known, and takes one whether or not it was. */
  lemma ScanAnswers(o: Options, st: State, client: string, secret: string, relays: seq<string>, now: int)
    requires Core(o, st, None)
    ensures var held := Step(o, st, BeginScan(client, secret, relays), now).1;
            var others := DropIfLapsed(o, st, secret, now).secrets.at;
            held ==
            if !Spelled(client) || secret == "" || relays == [] || |Dedupe(relays)| > o.maxRelays then Refused(BadRequest)
            else if Crowded(o, st, client) then Refused(TooManyClients)
            else if !Usable(st, secret, now) && |others| >= o.maxSecrets then Refused(TooManySecrets)
            else if Usable(st, secret, now) && Taken(st, secret, client) then Refused(SecretTaken)
            else Waiting(st.nextFlight)
  {
    hide Core, Bind, BeginApproval, Hex64, Lower, Spelled, Usable, DropIfLapsed, OverCeiling, Crowded, Takable, Taken, NoDup;
    SpelledIsKeyed(client);
    LookedUp(o, st, secret, now);
    SameRoom(o, st, DropIfLapsed(o, st, secret, now), client);
    TakableUnlessTaken(o, st, secret, client);
    UnheldTakable(DropIfLapsed(o, st, secret, now), secret, client);
    BindLeavesFlights(o, DropIfLapsed(o, st, secret, now), secret, client, Dedupe(relays), now);
    if relays != [] { assert relays[0] in Dedupe(relays); }
  }

  lemma UnheldTakable(st: State, secret: string, client: string)
    ensures secret !in st.secrets.at ==> Takable(st, secret, client)
  {}

  /** What a scan that waits leaves: a known secret's record bound and counted with its relays untouched, or a new record on the scanned relays. */
  lemma ScanLeaves(o: Options, st: State, client: string, secret: string, relays: seq<string>, now: int)
    requires Core(o, st, None) && Step(o, st, BeginScan(client, secret, relays), now).1.Waiting?
    ensures var st' := Step(o, st, BeginScan(client, secret, relays), now).0;
            var known := Usable(st, secret, now);
            var id := if known then st.secrets.at[secret] else st.nextId;
            && StillHeld(st', secret, id) && id in st'.recs
            && st'.recs[id] == (if known then var r := st.recs[id]; r.(client := Some(client), pending := r.pending + 1)
                                else Rec(Dedupe(relays), Some(client), false, 1, false, None))
            && (forall r :: r in st.recs && r != id ==> r in st'.recs && st'.recs[r] == st.recs[r])
            && st'.inflight == st.inflight[st.nextFlight := Flight(client, secret, id, Dedupe(relays), client !in st.clients.at, true)]
            && st'.approvals == st.approvals + 1 && st'.clients == st.clients && st'.generation == st.generation
  {
    hide Core, Emit, Hex64, Lower, Usable, NoDup, Bump, DropIfLapsed, Bind, Takable, Follows, Dedupe;
    LookedUp(o, st, secret, now);
    DropIfLapsedKeeps(o, st, secret, now);
    DropLeaves(o, st, secret, now);
    var st1 := DropIfLapsed(o, st, secret, now);
    if secret in st1.secrets.at {
      KnownHeld(st, secret, now);
      BindHere(o, st1, secret, client, Dedupe(relays), now);
    } else {
      BindNew(o, st1, secret, client, Dedupe(relays), now);
    }
  }

  lemma KnownHeld(st: State, secret: string, now: int)
    requires Usable(st, secret, now)
    ensures secret in st.secrets.at && st.secrets.at[secret] in st.recs
  {}

  lemma DropLeaves(o: Options, st: State, secret: string, now: int)
    ensures var st1 := DropIfLapsed(o, st, secret, now); st1.generation == st.generation && st1.approvals == st.approvals
  {
    hide Emit;
    if secret in st.secrets.at && Lapsed(Held(st, secret), now) { EmitLeaves(o, st.(secrets := st.secrets.Delete(secret)), now); }
  }

  lemma BindNew(o: Options, st: State, secret: string, client: string, relays: seq<string>, now: int)
    requires Core(o, st, None) && secret !in st.secrets.at && st.secrets.Size() < o.maxSecrets
    ensures var st' := Bind(o, st, secret, client, relays, now);
            && st'.recs == st.recs[st.nextId := Rec(relays, Some(client), false, 1, false, None)] && StillHeld(st', secret, st.nextId)
            && st' == st.(secrets := st'.secrets, recs := st'.recs, nextId := st'.nextId, nextSweep := st'.nextSweep, sweptAt := st'.sweptAt)
  {
    hide Core, Emit, Follows, NoDup;
    BindKeeps(o, st, secret, client, relays, now);
    var st1 := Stored(st, secret, Rec(relays, None, false, 0, false, None));
    EmitLeaves(o, SetRec(st1, st.nextId, Rec(relays, Some(client), false, 1, false, None)), now);
  }

  // ── The handler's answer ──

  /** What an answer comes to: the approval is looked up, then the record by identity, then the seats, then the key. */
  lemma SettleAnswers(o: Options, st: State, flight: nat, approved: bool, now: int)
    requires Core(o, st, None)
    ensures var out := Step(o, st, Settle(flight, approved), now).1;
            if flight !in st.inflight then out == Refused(NoSuchFlight)
            else
              var f := st.inflight[flight];
              var seated := f.client in st.clients.at;
              out ==
              if !approved then Rejected
              else if !(f.secret in st.secrets.at && st.secrets.at[f.secret] == f.rid) then Discarded
              else if !seated && |st.clients.at| >= o.maxClients then NoRoom
              else if !seated && !o.onCurve(f.client) then Unreachable
              else Admitted(f.client, f.secret, f.rid)
  {
    hide Core, Unbind, Admit, Unbump, RecOf;
  }

  /** The record after an answer. */
  function Answered(r: Rec, f: Flight, out: Outcome): Rec {
    match out
    case Admitted(_, _, _) => Rec(if f.scan then f.relays else r.relays, r.client, true, r.pending - 1, r.bunker, None)
    case Unreachable => Rec(if f.scan then f.relays else r.relays, r.client, true, r.pending - 1, r.bunker, None)
    case Discarded => r.(pending := r.pending - 1)
    case _ => if r.pending == 1 && !r.confirmed then r.(pending := 0, client := None) else r.(pending := r.pending - 1)
  }

  /** Every answer takes one approval off its own record and changes no other; only an admission seats anyone, on the approval's relays. */
  lemma SettleLeaves(o: Options, st: State, flight: nat, approved: bool, now: int)
    requires Core(o, st, None) && flight in st.inflight
    ensures var (st', out) := Step(o, st, Settle(flight, approved), now);
            var f := st.inflight[flight];
            && f.rid in st.recs && st'.recs == st.recs[f.rid := Answered(st.recs[f.rid], f, out)]
            && st'.inflight == st.inflight - {flight} && st'.approvals == st.approvals - 1 && st'.generation == st.generation
            && st'.clients.at == (if out.Admitted? then st.clients.at[f.client := Client(f.secret, Dedupe(f.relays), now)] else st.clients.at)
  {
    hide Core, Unbind, Admit, Unbump, Dedupe, RoomFor;
    var f := st.inflight[flight];
    var st1 := EndApproval(st, flight);
    RiderPending(o, st, flight);
    UnbindLeaves(o, st1, f.secret, f.rid, now);
    AdmitLeaves(o, Confirm(st1, f), f.client, f.secret, f.relays, now);
  }

  lemma RiderPending(o: Options, st: State, flight: nat)
    requires Core(o, st, None) && flight in st.inflight
    ensures st.inflight[flight].rid in st.recs && st.recs[st.inflight[flight].rid].pending >= 1
  {
    hide SlotsExact, FlightsBound, ConfirmedBound, WithinCeilings, Table.Valid;
    var r := st.inflight[flight].rid;
    assert flight in Riders(st.inflight, r);
    assert |Riders(st.inflight, r)| > 0;
  }

  lemma UnbindLeaves(o: Options, st: State, secret: string, id: nat, now: int)
    requires id in st.recs && st.recs[id].pending >= 1
    ensures var st' := Unbind(o, st, secret, id, now);
            var r := st.recs[id];
            && st'.recs == st.recs[id := if r.pending == 1 && !r.confirmed then r.(pending := 0, client := None) else r.(pending := r.pending - 1)]
            && st'.inflight == st.inflight && st'.approvals == st.approvals && st'.generation == st.generation && st'.clients == st.clients
  {
    hide Emit;
    UnbindIsFreed(o, st, secret, id, now);
    EmitLeaves(o, Freed(st, secret, id), now);
  }

  lemma AdmitLeaves(o: Options, st: State, client: string, secret: string, raw: seq<string>, now: int)
    ensures var st' := Admit(o, st, client, secret, raw, now, now, false);
            && st'.recs == st.recs && st'.clients.at == st.clients.at[client := Client(secret, Dedupe(raw), now)]
            && st'.inflight == st.inflight && st'.approvals == st.approvals && st'.generation == st.generation
  {
    hide Emit, Dedupe, ReleaseAll, ClaimAll;
    EmitLeaves(o, Seated(st, client, secret, raw, now), now);
  }

  /** Disconnecting takes away that client and no other, and touches no record. */
  lemma DisconnectLeaves(o: Options, st: State, client: string, now: int)
    ensures var st' := Step(o, st, Disconnect(client), now).0;
            st'.clients.at == st.clients.at - {client} && st'.recs == st.recs && st'.generation == st.generation && st'.inflight == st.inflight
  {
    hide Emit, ReleaseAll;
    if client in st.clients.at { EmitLeaves(o, Left(st, client), now); }
  }

  // ── An unclaimed secret lapses ──

  /** If `s` is held, then by a record nobody has presented, expiring at `e`. */
  ghost predicate Waits(st: State, s: string, e: int) {
    s in st.secrets.at ==>
      && st.secrets.at[s] in st.recs
      && var r := st.recs[st.secrets.at[s]];
      r.client == None && !r.confirmed && r.pending == 0 && r.expiresAt == Some(e)
  }

  lemma ForgetsWaits(st: State, st': State, s: string, e: int)
    requires Waits(st, s, e) && Forgets(st, st')
    ensures Waits(st', s, e)
  {
    hide NoDup;
  }

  lemma EmitWaits(o: Options, st: State, now: int, s: string, e: int)
    requires Waits(st, s, e) && st.secrets.Valid()
    ensures Waits(Emit(o, st, now), s, e)
  {
    hide Waits, Emit, Forgets;
    EmitForgets(o, st, now);
    ForgetsWaits(st, Emit(o, st, now), s, e);
  }

  /** A change of another record. */
  lemma SetRecWaits(st: State, id: nat, r: Rec, s: string, e: int)
    requires Waits(st, s, e) && (s in st.secrets.at ==> st.secrets.at[s] != id)
    ensures Waits(SetRec(st, id, r), s, e)
  {}

  lemma StoredWaits(st: State, secret: string, r: Rec, s: string, e: int)
    requires Waits(st, s, e) && Shape(st) && secret != s
    ensures Waits(Stored(st, secret, r), s, e) && Stored(st, secret, r).secrets.Valid()
  {
    hide NoDup;
  }

  lemma OtherRecord(o: Options, st: State, secret: string, s: string)
    requires Core(o, st, None) && secret in st.secrets.at && s in st.secrets.at && secret != s
    ensures st.secrets.at[secret] != st.secrets.at[s]
  {
    hide PendingExact, SlotsExact, FlightsBound, ConfirmedBound, WithinCeilings, Table.Valid;
  }

  lemma MintOtherWaits(o: Options, st: State, secret: string, urls: seq<string>, life: int, now: int, s: string, e: int)
    requires Core(o, st, None) && Waits(st, s, e) && secret != s
    ensures Waits(MintOn(o, st, secret, urls, life, now).0, s, e)
  {
    hide PendingExact, SlotsExact, FlightsBound, ConfirmedBound, WithinCeilings, Waits, Emit, SetRec, Stored, NoDup;
    if secret in st.secrets.at {
      if s in st.secrets.at { OtherRecord(o, st, secret, s); }
      var id := st.secrets.at[secret];
      SetRecWaits(st, id, Held(st, secret).(relays := urls), s, e);
      BunkerFirm.SetRecValid(st, id, Held(st, secret).(relays := urls));
      EmitWaits(o, Redisplayed(st, secret, urls), now, s, e);
    } else if st.secrets.Size() < o.maxSecrets {
      var due := if life > 0 then Some(now + life) else None;
      var st1 := if due.Some? then Schedule(st, due.value) else st;
      SameWaits(st, st1, s, e);
      StoredWaits(st1, secret, Rec(urls, None, false, 0, true, due), s, e);
      EmitWaits(o, Stored(st1, secret, Rec(urls, None, false, 0, true, due)), now, s, e);
    }
  }

  lemma SameWaits(st: State, st': State, s: string, e: int)
    requires Waits(st, s, e) && st'.secrets == st.secrets && st'.recs == st.recs
    ensures Waits(st', s, e)
  {}

  /** A `connect` or scan of another secret. */
  lemma BeginOtherWaits(o: Options, st: State, ev: Event, now: int, s: string, e: int)
    requires Core(o, st, None) && Waits(st, s, e) && (ev.BeginConnect? || ev.BeginScan?)
    requires ev.secret != s || !Step(o, st, ev, now).1.Waiting?
    ensures Waits(Step(o, st, ev, now).0, s, e)
  {
    hide Core, Waits, DropIfLapsed, Bind, Follows, Hex64, Lower, OverCeiling, Takable, Dedupe, Forgets;
    DropIfLapsedKeeps(o, st, ev.secret, now);
    CoreValid(o, st, None);
    DropIfLapsedForgets(o, st, ev.secret, now);
    var st1 := DropIfLapsed(o, st, ev.secret, now);
    ForgetsWaits(st, st1, s, e);
    var (st', out) := Step(o, st, ev, now);
    if out.Waiting? {
      var relays := if ev.BeginScan? then Dedupe(ev.relays) else [];
      BindOtherWaits(o, st1, ev.secret, ev.client, relays, now, s, e);
      SameWaits(Bind(o, st1, ev.secret, ev.client, relays, now), st', s, e);
    }
  }

  lemma BindOtherWaits(o: Options, st: State, secret: string, client: string, relays: seq<string>, now: int, s: string, e: int)
    requires Core(o, st, None) && Waits(st, s, e) && secret != s && Takable(st, secret, client)
    requires secret in st.secrets.at || st.secrets.Size() < o.maxSecrets
    ensures Waits(Bind(o, st, secret, client, relays, now), s, e)
  {
    hide Waits, Emit, SetRec, Stored, Follows, Core;
    BunkerPortable.CoreShape(o, st);
    var st1 := Readied(st, secret, relays);
    ReadiedKeeps(o, st, secret, relays);
    if secret !in st.secrets.at { StoredWaits(st, secret, Rec(relays, None, false, 0, false, None), s, e); }
    var id := st1.secrets.at[secret];
    if s in st1.secrets.at { OtherRecord(o, st1, secret, s); }
    var r := RecOf(st1, id).(client := Some(client), pending := RecOf(st1, id).pending + 1);
    SetRecWaits(st1, id, r, s, e);
    BunkerFirm.SetRecValid(st1, id, r);
    CoreValid(o, st1, None);
    EmitWaits(o, SetRec(st1, id, r), now, s, e);
  }

  lemma SettleWaits(o: Options, st: State, flight: nat, approved: bool, now: int, s: string, e: int)
    requires Core(o, st, None) && Waits(st, s, e)
    ensures Waits(SettleFlight(o, st, flight, approved, now).0, s, e)
  {
    hide Core, Waits, Emit, Unbind, Admit, Confirm, SetRec, Unbump, RoomFor;
    if flight in st.inflight {
      var f := st.inflight[flight];
      var st1 := EndApproval(st, flight);
      SameWaits(st, st1, s, e);
      RiderPending(o, st, flight);
      NotRidden(st, f.rid, s, e);
      CoreValid(o, st, None);
      UnbindOtherWaits(o, st1, f.secret, f.rid, now, s, e);
      SetRecWaits(st1, f.rid, RecOf(st1, f.rid).(pending := RecOf(st1, f.rid).pending - 1), s, e);
      ConfirmOtherWaits(st1, f, s, e);
      AdmitWaits(o, Confirm(st1, f), f.client, f.secret, f.relays, now, s, e);
    }
  }

  lemma NotRidden(st: State, id: nat, s: string, e: int)
    requires Waits(st, s, e) && id in st.recs && st.recs[id].pending >= 1
    ensures s in st.secrets.at ==> st.secrets.at[s] != id
  {}

  lemma ConfirmOtherWaits(st: State, f: Flight, s: string, e: int)
    requires Waits(st, s, e) && (s in st.secrets.at ==> st.secrets.at[s] != f.rid)
    ensures Waits(Confirm(st, f), s, e) && Confirm(st, f).secrets == st.secrets
  {}

  lemma UnbindOtherWaits(o: Options, st: State, secret: string, id: nat, now: int, s: string, e: int)
    requires st.secrets.Valid() && Waits(st, s, e) && (s in st.secrets.at ==> st.secrets.at[s] != id)
    ensures Waits(Unbind(o, st, secret, id, now), s, e)
  {
    hide Waits, Emit, Freed, SetRec;
    UnbindIsFreed(o, st, secret, id, now);
    SetRecWaits(st, id, RecOf(st, id).(pending := RecOf(st, id).pending - 1), s, e);
    FreedOtherWaits(st, secret, id, s, e);
    EmitWaits(o, Freed(st, secret, id), now, s, e);
  }

  lemma FreedOtherWaits(st: State, secret: string, id: nat, s: string, e: int)
    requires st.secrets.Valid() && Waits(st, s, e) && (s in st.secrets.at ==> st.secrets.at[s] != id)
    ensures Waits(Freed(st, secret, id), s, e) && Freed(st, secret, id).secrets.Valid()
  {
    hide NoDup;
  }

  lemma AdmitWaits(o: Options, st: State, client: string, secret: string, raw: seq<string>, now: int, s: string, e: int)
    requires st.secrets.Valid() && Waits(st, s, e)
    ensures Waits(Admit(o, st, client, secret, raw, now, now, false), s, e)
  {
    hide Waits, Emit, Dedupe, ReleaseAll, ClaimAll;
    var st1 := Seated(st, client, secret, raw, now);
    SameWaits(st, st1, s, e);
    EmitWaits(o, st1, now, s, e);
    SameWaits(Emit(o, st1, now), Admit(o, st, client, secret, raw, now, now, false), s, e);
  }

  lemma RevokeWaits(o: Options, st: State, secret: string, now: int, s: string, e: int)
    requires st.secrets.Valid() && Waits(st, s, e)
    ensures Waits(RevokeSecret(o, st, secret, now).0, s, e)
  {
    hide Waits, Emit, Purged;
    if secret in st.secrets.at {
      RevokeIsPurge(o, st, secret, now);
      PurgedWaits(st, secret, s, e);
      EmitWaits(o, Purged(st, secret), now, s, e);
    }
  }

  lemma PurgedWaits(st: State, secret: string, s: string, e: int)
    requires st.secrets.Valid() && Waits(st, s, e)
    ensures Waits(Purged(st, secret), s, e) && Purged(st, secret).secrets.Valid()
  {
    hide ReleaseAll, NoDup;
  }

  lemma DropWaits(o: Options, st: State, client: string, now: int, s: string, e: int)
    requires st.secrets.Valid() && Waits(st, s, e)
    ensures Waits(Drop(o, st, client, now), s, e)
  {
    hide Waits, Emit, ReleaseAll;
    if client in st.clients.at {
      SameWaits(st, Left(st, client), s, e);
      EmitWaits(o, Left(st, client), now, s, e);
    }
  }

  /** The event neither mints, scans nor restores `s`, nor gets a `connect` of it to wait. */
  ghost predicate LeavesAlone(o: Options, st: State, t: Timed, s: string) {
    match t.event
    case Mint(secret, _, _) => secret != s
    case BeginScan(_, secret, _) => secret != s
    case BeginConnect(_, secret) => secret != s || !Step(o, st, t.event, t.now).1.Waiting?
    case Restore(_, _) => false
    case Restart => false
    case _ => true
  }

  lemma StepWaits(o: Options, st: State, t: Timed, s: string, e: int)
    requires Core(o, st, None) && Waits(st, s, e) && LeavesAlone(o, st, t, s)
    ensures Waits(Step(o, st, t.event, t.now).0, s, e)
  {
    hide Core, Waits, MintOn, AddHosts, Sweep, Connect, Scan, SettleFlight, RevokeSecret, Drop, ClaimAll, Snapshot, Claim, Dedupe, Follows, Forgets;
    CoreValid(o, st, None);
    SweepForgets(st, t.now);
    ForgetsWaits(st, Sweep(st, t.now), s, e);
    match t.event
    case Mint(secret, relays, ttl) =>
      MintRoom(o, st, secret, relays, ttl, t.now);
      var st0 := Sweep(st, t.now);
      var urls := Dedupe(if relays == [] then st0.hosts else relays);
      AddHostsSame(st0, urls);
      var st1 := AddHosts(st0, urls);
      SameWaits(st0, st1, s, e);
      MintOtherWaits(o, st1, secret, urls, if ttl.Some? then ttl.value else o.secretTtl, t.now, s, e);
    case BeginConnect(_, _) => BeginOtherWaits(o, st, t.event, t.now, s, e);
    case BeginScan(_, _, _) => BeginOtherWaits(o, st, t.event, t.now, s, e);
    case Settle(flight, approved) => SettleWaits(o, st, flight, approved, t.now, s, e);
    case Revoke(secret) => RevokeWaits(o, st, secret, t.now, s, e);
    case Disconnect(client) => DropWaits(o, st, client, t.now, s, e);
    case Export =>
    case AddRelay(url) => SameWaits(st, AddHost(st, url), s, e);
    case Start => SameWaits(st, Step(o, st, t.event, t.now).0, s, e);
    case Stop => SameWaits(st, Step(o, st, t.event, t.now).0, s, e);
  }

  lemma {:induction false} RunWaits(o: Options, st: State, run: seq<Timed>, i: nat, j: nat, s: string, e: int)
    requires Core(o, st, None) && i <= j <= |run| && Waits(Before(o, st, run, i), s, e)
    requires forall k :: i <= k < j ==> LeavesAlone(o, Before(o, st, run, k), run[k], s)
    ensures Waits(Before(o, st, run, j), s, e)
    decreases j
  {
    hide Core, Step, Waits, Before, LeavesAlone;
    if i < j {
      RunWaits(o, st, run, i, j - 1, s, e);
      RunKeepsCore(o, st, run, j - 1);
      NextState(o, st, run, j - 1);
      StepWaits(o, Before(o, st, run, j - 1), run[j - 1], s, e);
    }
  }

  /**
   * A secret minted without a ttl, under a default one, and never presented: from the end of the
   * default life on, every `connect` with it is refused, until it is minted, scanned or restored again.
   */
  lemma MintedSecretsLapse(o: Options, st: State, run: seq<Timed>, i: nat, j: nat)
    requires Core(o, st, None) && i < j < |run| && o.secretTtl > 0
    requires run[i].event.Mint? && run[i].event.ttl == None && Answer(o, st, run, i) == Done
    requires run[i].event.secret !in Before(o, st, run, i).secrets.at
    requires run[j].event.BeginConnect? && run[j].event.secret == run[i].event.secret
    requires Spelled(run[j].event.client) && o.onCurve(run[j].event.client)
    requires run[j].now >= run[i].now + o.secretTtl
    requires forall k :: i < k < j ==> LeavesAlone(o, Before(o, st, run, k), run[k], run[i].event.secret)
    ensures Answer(o, st, run, j) == Refused(InvalidSecret)
  {
    hide Core, Step, Before, LeavesAlone, Spelled, Crowded, Taken;
    var s, e := run[i].event.secret, run[i].now + o.secretTtl;
    RunKeepsCore(o, st, run, i);
    NextState(o, st, run, i);
    MintGivesLife(o, Before(o, st, run, i), s, run[i].event.relays, None, run[i].now);
    RunWaits(o, st, run, i + 1, j, s, e);
    RunKeepsCore(o, st, run, j);
    ConnectAnswers(o, Before(o, st, run, j), run[j].event.client, s, run[j].now);
  }

  // ── What stays held ──

  lemma UnlapsedStay(o: Options, st: State, s: string, now: int)
    requires st.secrets.Valid() && Usable(st, s, now)
    ensures StillHeld(Emit(o, st, now), s, st.secrets.at[s])
  {
    EmitHoldsUnlapsed(o, st, now, s);
  }

  /**
   * A refused approval: a scanned secret goes with its last approval, if it is still held by that record and
   * was never confirmed. Every other secret that has not lapsed stays.
   */
  lemma RefusalForgets(o: Options, st: State, flight: nat, approved: bool, now: int, s: string)
    requires Core(o, st, None) && flight in st.inflight
    requires Step(o, st, Settle(flight, approved), now).1 in {Rejected, NoRoom}
    ensures var st', f := Step(o, st, Settle(flight, approved), now).0, st.inflight[flight];
            f.rid in st.recs &&
            var r := st.recs[f.rid];
            var goes := r.pending == 1 && !r.confirmed && !r.bunker && StillHeld(st, f.secret, f.rid);
            && (goes ==> f.secret !in st'.secrets.at)
            && (s in st.secrets.at && st.secrets.at[s] != f.rid && Usable(st, s, now) ==> StillHeld(st', s, st.secrets.at[s]))
            && (StillHeld(st, f.secret, f.rid) && !goes && (r.expiresAt.None? || now < r.expiresAt.value || r.confirmed || r.pending > 1) ==>
                  StillHeld(st', f.secret, f.rid))
  {
    hide Core, Emit, Unbump, RoomFor, Usable, Admit, Confirm, Freed, Forgets;
    RiderPending(o, st, flight);
    CoreValid(o, st, None);
    var f := st.inflight[flight];
    var st1 := EndApproval(st, flight);
    UnbindIsFreed(o, st1, f.secret, f.rid, now);
    FreedHolds(st1, f.secret, f.rid);
    var st2 := Freed(st1, f.secret, f.rid);
    EmitForgets(o, st2, now);
    ForgetsOnly(st2, Emit(o, st2, now));
    if s in st.secrets.at && st.secrets.at[s] != f.rid && Usable(st, s, now) {
      FreedUsable(st, st2, f.rid, s, now);
      if s in st2.secrets.at { UnlapsedStay(o, st2, s, now); }
    }
    if StillHeld(st2, f.secret, f.rid) && (st2.recs[f.rid].expiresAt.None? || now < st2.recs[f.rid].expiresAt.value) {
      UsableHere(st2, f.secret, now);
      UnlapsedStay(o, st2, f.secret, now);
    }
  }

  lemma UsableHere(st: State, s: string, now: int)
    requires s in st.secrets.at && st.secrets.at[s] in st.recs
    requires st.recs[st.secrets.at[s]].expiresAt.None? || now < st.recs[st.secrets.at[s]].expiresAt.value
    ensures Usable(st, s, now)
  {}

  lemma FreedHolds(st: State, secret: string, id: nat)
    requires id in st.recs && st.secrets.Valid()
    ensures var st', r := Freed(st, secret, id), st.recs[id];
            && st'.secrets.Valid() && st'.recs == st.recs[id := r.(pending := 0, client := None)]
            && st'.secrets.at == if !r.bunker && StillHeld(st, secret, id) then st.secrets.at - {secret} else st.secrets.at
  {
    hide Table.Delete, NoDup;
    DeleteKeeps(st.secrets, secret);
  }

  lemma DeleteKeeps(t: Table<nat>, k: string)
    requires t.Valid()
    ensures t.Delete(k).Valid() && t.Delete(k).at == t.at - {k}
  {}

  lemma FreedUsable(st: State, st2: State, id: nat, s: string, now: int)
    requires s in st.secrets.at && st.secrets.at[s] != id && Usable(st, s, now)
    requires id in st.recs && st2.recs == st.recs[id := st.recs[id].(pending := 0, client := None)]
    requires s in st2.secrets.at ==> st2.secrets.at[s] == st.secrets.at[s]
    ensures s in st2.secrets.at ==> Usable(st2, s, now)
  {}

  /** Revoking: that secret and the client seated by it, one more on the generation, and nothing else but what has lapsed. An unknown secret changes nothing. */
  lemma RevokeLeaves(o: Options, st: State, secret: string, now: int, s: string)
    requires Core(o, st, None)
    ensures var (st', out) := Step(o, st, Revoke(secret), now);
            && (secret !in st.secrets.at ==> st' == st && out == Done)
            && (secret in st.secrets.at ==>
                  && out == Revoked && secret !in st'.secrets.at && st'.recs == st.recs && st'.generation == st.generation + 1
                  && (s in st.secrets.at && s != secret && Usable(st, s, now) ==> StillHeld(st', s, st.secrets.at[s]))
                  && st.secrets.at[secret] in st.recs
                  && var c := st.recs[st.secrets.at[secret]].client;
                  st'.clients.at == if c.Some? && c.value in st.clients.at && st.clients.at[c.value].secret == secret
                                    then st.clients.at - {c.value} else st.clients.at)
  {
    hide Core, Emit, Purged, Usable, Forgets, NoDup;
    if secret in st.secrets.at {
      CoreHeld(o, st, None, secret);
      CoreValid(o, st, None);
      RevokeIsPurge(o, st, secret, now);
      PurgedIs(st, secret);
      var st1 := Purged(st, secret);
      DeletedUsable(st, st1, secret, s, now);
      EmitForgets(o, st1, now);
      ForgetsOnly(st1, Emit(o, st1, now));
      EmitLeaves(o, st1, now);
      if s in st.secrets.at && s != secret && Usable(st, s, now) { UnlapsedStay(o, st1, s, now); }
    }
  }

  lemma PurgedIs(st: State, secret: string)
    requires secret in st.secrets.at
    ensures var st1 := Purged(st, secret);
            && st1.secrets == st.secrets.Delete(secret) && st1.recs == st.recs && st1.generation == st.generation + 1
            && var c := Held(st, secret).client;
            st1.clients.at == if c.Some? && c.value in st.clients.at && st.clients.at[c.value].secret == secret
                              then st.clients.at - {c.value} else st.clients.at
  {
    hide Left;
    var c := Held(st, secret).client;
    if c.Some? && c.value in st.clients.at { LeftLeaves(Struck(st, secret), c.value); }
  }

  lemma DeletedUsable(st: State, st2: State, secret: string, s: string, now: int)
    requires st.secrets.Valid() && st2.secrets == st.secrets.Delete(secret) && st2.recs == st.recs
    ensures st2.secrets.Valid() && secret !in st2.secrets.at
    ensures s != secret && Usable(st, s, now) ==> Usable(st2, s, now) && st2.secrets.at[s] == st.secrets.at[s]
  {
    hide NoDup;
  }

  /** The host's own events: a relay more to listen on, the first start's claims, a stop that lets go of everything, and a new process that keeps the generation and nothing else. */
  lemma HostEvents(o: Options, st: State, url: string, now: int)
    ensures var st' := Step(o, st, AddRelay(url), now).0;
            && (forall u :: u in st'.hosts <==> u in st.hosts || u == url)
            && st' == st.(hosts := st'.hosts, subs := st'.subs)
            && url in st'.subs && Host in st'.subs[url] && (forall u :: u != url && u in st.subs ==> u in st'.subs && st'.subs[u] == st.subs[u])
    ensures Step(o, st, Start, now).1 == (if st.started || !st.stopped then Done else Refused(AlreadyStopped))
    ensures !st.started && !st.stopped ==>
              Step(o, st, Start, now).0 == st.(started := true, subs := Step(o, st, Start, now).0.subs)
              && forall u :: u in st.hosts ==> u in Step(o, st, Start, now).0.subs && Host in Step(o, st, Start, now).0.subs[u]
    ensures Step(o, st, Stop, now).0 == if st.stopped then st else st.(stopped := true, subs := map[])
    ensures var st' := Step(o, st, Restart, now).0;
            && st'.generation == st.generation && st'.secrets.at == map[] && st'.clients.at == map[] && st'.inflight == map[]
            && st'.approvals == 0 && st'.admissions == map[] && st'.subs == map[] && !st'.started && !st'.stopped
            && (forall u :: u in st'.hosts <==> u in o.hosts)
  {
    hide ClaimAll;
    ClaimedAll(st.subs, st.hosts);
  }

  lemma {:induction false} ClaimedAll(subs: map<string, set<Owner>>, urls: seq<string>)
    ensures forall u :: u in urls ==> u in ClaimAll(subs, urls, Host) && Host in ClaimAll(subs, urls, Host)[u]
  {
    if urls != [] {
      var front, last := urls[..|urls| - 1], urls[|urls| - 1];
      assert urls == front + [last];
      ClaimedAll(subs, front);
    }
  }
}
