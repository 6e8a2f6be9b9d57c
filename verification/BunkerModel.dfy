/**
 * The NIP-46 responder's pairing state as a deterministic machine.
 *
 * One event is one stretch of code between two awaits: `connect` and the `nostrconnect://` scan
 * are each split at the handler call into a begin event and a settle event. Secret records are
 * heap objects in the program; here each has an identity (`nat`), so that "the same record" and
 * "a record under the same secret" stay different things.
 */
module BunkerModel {
  import opened Common
  import opened JsMap

  /** `observed` says whether the host passed `onStateChange`; `onCurve` is the curve check. */
  datatype Options = Options(
    maxSecrets: nat, maxClients: nat, maxRelays: nat, secretTtl: int, observed: bool,
    explicitGeneration: bool, key: string, pubkey: string, hosts: seq<string>, onCurve: string -> bool)

  /** A secret's record. `bunker` is its origin: minted by the host, or brought by a scanned URI. */
  datatype Rec = Rec(relays: seq<string>, client: Option<string>, confirmed: bool, pending: int,
                     bunker: bool, expiresAt: Option<int>)

  datatype Client = Client(secret: string, relays: seq<string>, connectedAt: int)

  datatype Owner = Host | Peer(pubkey: string)

  /** A suspended `connect` or scan: the local variables that survive the handler's await. */
  datatype Flight = Flight(client: string, secret: string, rid: nat, relays: seq<string>, slot: bool, scan: bool)

  /** `nextSweep` is `None` for infinity. `sweptAt` is history: when a sweep last walked the set. */
  datatype State = State(
    secrets: Table<nat>, recs: map<nat, Rec>, nextId: nat,
    clients: Table<Client>,
    inflight: map<nat, Flight>, nextFlight: nat, approvals: int, admissions: map<string, int>,
    generation: int, nextSweep: Option<int>, sweptAt: Option<int>,
    hosts: seq<string>, subs: map<string, set<Owner>>, started: bool, stopped: bool)

  datatype SecretRecord = SecretRecord(secret: string, bunker: bool, relays: seq<string>,
                                       client: Option<string>, confirmed: bool, expiresAt: Option<int>)
  datatype ClientRecord = ClientRecord(pubkey: string, relays: seq<string>, secret: Option<string>, connectedAt: int)

  datatype Content = Content(pubkey: string, generation: int, secrets: seq<SecretRecord>, clients: seq<ClientRecord>)

  /** An ideal MAC: the key it was made under and everything it covers. */
  datatype Mac = Mac(key: string, content: Content)

  /** A state as the host hands it back. A version other than `Some(2)` is the unsigned format. */
  datatype Blob = Blob(version: Option<int>, mac: Option<Mac>, content: Content)

  datatype Reason =
    | InvalidSecret | TooManyClients | TooManySecrets | SecretTaken | BadRequest | NoSuchFlight
    | Unsigned | NoExplicitGeneration | BadMac | BadVersion | OtherKey | BehindGeneration | ApprovalsPending
    | BadRecord | DuplicateRecord | UnbackedClient | RelaysDiffer | BoundElsewhere | AlreadyStopped

  datatype Outcome =
    | Done
    | Refused(why: Reason)
    | Waiting(flight: nat)
    | Admitted(client: string, secret: string, rid: nat)
    | Rejected
    | Discarded
    | NoRoom
    | Unreachable
    | Revoked
    | Exported(blob: Blob)
    | Restored

  datatype Event =
    | Mint(secret: string, relays: seq<string>, ttl: Option<int>)
    | AddRelay(url: string)
    | BeginConnect(client: string, secret: string)
    | BeginScan(client: string, secret: string, relays: seq<string>)
    | Settle(flight: nat, approved: bool)
    | Revoke(secret: string)
    | Disconnect(client: string)
    | Export
    | Restore(blob: Blob, allowUnsigned: bool)
    | Start
    | Stop
    | Restart

  datatype Checked<+T> = Good(value: T) | Bad(why: Reason)

  const Blank := Rec([], None, false, 0, true, None)

  function Init(o: Options, generation: int): State {
    State(Empty(), map[], 0, Empty(), map[], 0, 0, map[], generation, None, None, Dedupe(o.hosts), map[], false, false)
  }

  function RecOf(st: State, id: nat): Rec {
    if id in st.recs then st.recs[id] else Blank
  }

  /** The record currently stored under `secret`. */
  function Held(st: State, secret: string): Rec {
    if secret in st.secrets.at then RecOf(st, st.secrets.at[secret]) else Blank
  }

  function SetRec(st: State, id: nat, r: Rec): State {
    st.(recs := st.recs[id := r])
  }

  /** True while `secrets.get(secret)` is still the very record `id`. */
  predicate StillHeld(st: State, secret: string, id: nat) {
    secret in st.secrets.at && st.secrets.at[secret] == id
  }

  function Hex64(s: string): (b: bool) {
    |s| == 64 && forall i :: 0 <= i < 64 ==> '0' <= LowerChar(s[i]) <= '9' || 'a' <= LowerChar(s[i]) <= 'f'
  }

  // ── Lapsing ──

  predicate Lapsed(r: Rec, now: int) {
    !r.confirmed && r.pending == 0 && r.expiresAt.Some? && r.expiresAt.value <= now
  }

  function Earlier(e: int, next: Option<int>): Option<int> {
    if next.None? || e < next.value then Some(e) else next
  }

  function Max(a: int, b: int): int { if a < b then b else a }

  /** One turn of the sweep loop: the candidate for the next sweep after seeing `r`. */
  function NextAfter(r: Rec, now: int, next: Option<int>): Option<int> {
    if r.confirmed || r.expiresAt.None? || Lapsed(r, now) then next
    else if next.None? || r.expiresAt.value < next.value then
      Some(if r.pending == 0 then r.expiresAt.value else Max(r.expiresAt.value, now + 1000))
    else next
  }

  function NextOver(st: State, keys: seq<string>, now: int): Option<int> {
    if keys == [] then None
    else NextAfter(Held(st, keys[|keys| - 1]), now, NextOver(st, keys[..|keys| - 1], now))
  }

  function LiveKeys(st: State, keys: seq<string>, now: int): (live: seq<string>)
    ensures forall k :: k in live <==> k in keys && !Lapsed(Held(st, k), now)
    ensures NoDup(keys) ==> NoDup(live)
  {
    if keys == [] then []
    else
      var front, k := LiveKeys(st, keys[..|keys| - 1], now), keys[|keys| - 1];
      assert NoDup(keys) ==> k !in keys[..|keys| - 1];
      if Lapsed(Held(st, k), now) then front else front + [k]
  }

  function Walk(st: State, now: int): State {
    st.(secrets := Table(LiveKeys(st, st.secrets.keys, now),
                         map k | k in st.secrets.at && !Lapsed(Held(st, k), now) :: st.secrets.at[k]),
        nextSweep := NextOver(st, st.secrets.keys, now),
        sweptAt := Some(now))
  }

  /** The sweep: nothing at all before `nextSweep`, one walk over the secrets after it. */
  function Sweep(st: State, now: int): State {
    if st.nextSweep.None? || now < st.nextSweep.value then st else Walk(st, now)
  }

  function Schedule(st: State, e: int): State {
    st.(nextSweep := Earlier(e, st.nextSweep))
  }

  /** `#emit`: an observed server exports, and exporting sweeps. */
  function Emit(o: Options, st: State, now: int): State {
    if o.observed then Sweep(st, now) else st
  }

  function DropIfLapsed(o: Options, st: State, secret: string, now: int): State {
    if secret in st.secrets.at && Lapsed(Held(st, secret), now)
    then Emit(o, st.(secrets := st.secrets.Delete(secret)), now)
    else st
  }

  // ── Relay owners ──

  function Owners(subs: map<string, set<Owner>>, url: string): set<Owner> {
    if url in subs then subs[url] else {}
  }

  function Claim(subs: map<string, set<Owner>>, url: string, owner: Owner): map<string, set<Owner>> {
    subs[url := Owners(subs, url) + {owner}]
  }

  function Release(subs: map<string, set<Owner>>, url: string, owner: Owner): map<string, set<Owner>> {
    if url !in subs then subs
    else if subs[url] - {owner} != {} then subs[url := subs[url] - {owner}]
    else subs - {url}
  }

  function ClaimAll(subs: map<string, set<Owner>>, urls: seq<string>, owner: Owner): map<string, set<Owner>> {
    if urls == [] then subs
    else Claim(ClaimAll(subs, urls[..|urls| - 1], owner), urls[|urls| - 1], owner)
  }

  /** Release the relays of `urls` that are not in `keep`. */
  function ReleaseAll(subs: map<string, set<Owner>>, urls: seq<string>, keep: seq<string>, owner: Owner): map<string, set<Owner>> {
    if urls == [] then subs
    else
      var before := ReleaseAll(subs, urls[..|urls| - 1], keep, owner);
      var url := urls[|urls| - 1];
      if url in keep then before else Release(before, url, owner)
  }

  function AddHost(st: State, url: string): State {
    st.(hosts := if url in st.hosts then st.hosts else st.hosts + [url], subs := Claim(st.subs, url, Host))
  }

  function AddHosts(st: State, urls: seq<string>): State {
    if urls == [] then st else AddHost(AddHosts(st, urls[..|urls| - 1]), urls[|urls| - 1])
  }

  // ── Minting, binding, approving ──

  function MintSecret(o: Options, st: State, secret: string, relays: seq<string>, ttl: Option<int>, now: int): (State, Outcome) {
    var st0 := Sweep(st, now);
    var urls := Dedupe(if relays == [] then st0.hosts else relays);
    MintOn(o, AddHosts(st0, urls), secret, urls, if ttl.Some? then ttl.value else o.secretTtl, now)
  }

  /** A record nobody knows yet, stored under `secret`. */
  function Stored(st: State, secret: string, r: Rec): State {
    st.(recs := st.recs[st.nextId := r], secrets := st.secrets.Put(secret, st.nextId), nextId := st.nextId + 1)
  }

  /** A known secret is redisplayed: only an unbound one takes the new relays. A new one needs room. */
  function MintOn(o: Options, st: State, secret: string, urls: seq<string>, life: int, now: int): (State, Outcome) {
    if secret in st.secrets.at then
      (Emit(o, Redisplayed(st, secret, urls), now), Done)
    else if st.secrets.Size() >= o.maxSecrets then (st, Refused(TooManySecrets))
    else
      var due := if life > 0 then Some(now + life) else None;
      var st1 := if due.Some? then Schedule(st, due.value) else st;
      (Emit(o, Stored(st1, secret, Rec(urls, None, false, 0, true, due)), now), Done)
  }

  function Redisplayed(st: State, secret: string, urls: seq<string>): State
    requires secret in st.secrets.at
  {
    if Held(st, secret).client.None? then SetRec(st, st.secrets.at[secret], Held(st, secret).(relays := urls)) else st
  }

  predicate OverCeiling(o: Options, st: State, client: string) {
    client !in st.clients.at && client !in st.admissions && st.clients.Size() + |st.admissions| >= o.maxClients
  }

  predicate RoomFor(o: Options, st: State, client: string) {
    client in st.clients.at || st.clients.Size() < o.maxClients
  }

  predicate Takable(st: State, secret: string, client: string) {
    Held(st, secret).client.None? || Held(st, secret).client == Some(client)
  }

  /** `#bind` once its refusals are out of the way: bind, count one pending approval, announce. */
  function Bind(o: Options, st: State, secret: string, client: string, relays: seq<string>, now: int): State {
    var st1 := if secret in st.secrets.at then st else Stored(st, secret, Rec(relays, None, false, 0, false, None));
    var id := st1.secrets.at[secret];
    var r := RecOf(st1, id);
    Emit(o, SetRec(st1, id, r.(client := Some(client), pending := r.pending + 1)), now)
  }

  function Bump(m: map<string, int>, client: string): map<string, int> {
    m[client := (if client in m then m[client] else 0) + 1]
  }

  function Unbump(m: map<string, int>, client: string): map<string, int> {
    var left := (if client in m then m[client] else 1) - 1;
    if left <= 0 then m - {client} else m[client := left]
  }

  /** `#beginApproval`, with the suspended call that now waits for the handler. */
  function BeginApproval(st: State, client: string, secret: string, rid: nat, relays: seq<string>, scan: bool): State {
    var slot := client !in st.clients.at;
    st.(approvals := st.approvals + 1,
        admissions := if slot then Bump(st.admissions, client) else st.admissions,
        inflight := st.inflight[st.nextFlight := Flight(client, secret, rid, relays, slot, scan)],
        nextFlight := st.nextFlight + 1)
  }

  function EndApproval(st: State, flight: nat): State
    requires flight in st.inflight
  {
    var f := st.inflight[flight];
    st.(approvals := st.approvals - 1,
        admissions := if f.slot then Unbump(st.admissions, f.client) else st.admissions,
        inflight := st.inflight - {flight})
  }

  function Connect(o: Options, st: State, client: string, secret: string, now: int): (State, Outcome) {
    if !Hex64(client) || Lower(client) != client || !o.onCurve(client) then (st, Refused(BadRequest))
    else if secret == "" then (st, Refused(InvalidSecret))
    else
      var st1 := DropIfLapsed(o, st, secret, now);
      if secret !in st1.secrets.at then (st1, Refused(InvalidSecret))
      else if OverCeiling(o, st1, client) then (st1, Refused(TooManyClients))
      else if !Takable(st1, secret, client) then (st1, Refused(SecretTaken))
      else
        var id := st1.secrets.at[secret];
        var relays := Held(st1, secret).relays;
        var st2 := Bind(o, st1, secret, client, [], now);
        (BeginApproval(st2, client, secret, id, relays, false), Waiting(st2.nextFlight))
  }

  function Scan(o: Options, st: State, client: string, secret: string, raw: seq<string>, now: int): (State, Outcome) {
    var relays := Dedupe(raw);
    if !Hex64(client) || Lower(client) != client || secret == "" || relays == [] || |relays| > o.maxRelays
    then (st, Refused(BadRequest))
    else
      var st1 := DropIfLapsed(o, st, secret, now);
      if OverCeiling(o, st1, client) then (st1, Refused(TooManyClients))
      else if secret !in st1.secrets.at && st1.secrets.Size() >= o.maxSecrets then (st1, Refused(TooManySecrets))
      else if !Takable(st1, secret, client) then (st1, Refused(SecretTaken))
      else
        var id := if secret in st1.secrets.at then st1.secrets.at[secret] else st1.nextId;
        var st2 := Bind(o, st1, secret, client, relays, now);
        (BeginApproval(st2, client, secret, id, relays, true), Waiting(st2.nextFlight))
  }

  /** `#unbind`: undo one pending approval, and free the secret when nothing else holds it. */
  function Unbind(o: Options, st: State, secret: string, id: nat, now: int): State {
    var r := RecOf(st, id);
    if r.pending - 1 <= 0 && !r.confirmed then
      var st1 := SetRec(st, id, r.(pending := 0, client := None));
      var st2 := if !r.bunker && StillHeld(st1, secret, id) then st1.(secrets := st1.secrets.Delete(secret)) else st1;
      Emit(o, st2, now)
    else SetRec(st, id, r.(pending := r.pending - 1))
  }

  /** `#admit`. `muted` is the silence a restore keeps while it applies. */
  function Admit(o: Options, st: State, client: string, secret: string, raw: seq<string>, at: int, now: int, muted: bool): State {
    var relays := Dedupe(raw);
    var subs := if client in st.clients.at
                then ReleaseAll(st.subs, st.clients.at[client].relays, relays, Peer(client)) else st.subs;
    var st1 := st.(clients := st.clients.Put(client, Client(secret, relays, at)), subs := subs);
    var st2 := if muted then st1 else Emit(o, st1, now);
    st2.(subs := ClaimAll(st2.subs, relays, Peer(client)))
  }

  function Confirm(st: State, f: Flight): State {
    var r := RecOf(st, f.rid);
    SetRec(st, f.rid, r.(pending := r.pending - 1, confirmed := true, expiresAt := None,
                         relays := if f.scan then f.relays else r.relays))
  }

  function SettleFlight(o: Options, st: State, flight: nat, approved: bool, now: int): (State, Outcome) {
    if flight !in st.inflight then (st, Refused(NoSuchFlight))
    else
      var f := st.inflight[flight];
      var st1 := EndApproval(st, flight);
      if !approved then (Unbind(o, st1, f.secret, f.rid, now), Rejected)
      else if !StillHeld(st1, f.secret, f.rid) then
        var r := RecOf(st1, f.rid);
        (SetRec(st1, f.rid, r.(pending := r.pending - 1)), Discarded)
      else if !RoomFor(o, st1, f.client) then (Unbind(o, st1, f.secret, f.rid, now), NoRoom)
      else
        var st2 := Confirm(st1, f);
        if f.client !in st2.clients.at && !o.onCurve(f.client) then (st2, Unreachable)
        else (Admit(o, st2, f.client, f.secret, f.relays, now, now, false), Admitted(f.client, f.secret, f.rid))
  }

  // ── Disconnecting and revoking ──

  function Drop(o: Options, st: State, client: string, now: int): State {
    if client !in st.clients.at then st
    else Emit(o, st.(clients := st.clients.Delete(client),
                     subs := ReleaseAll(st.subs, st.clients.at[client].relays, [], Peer(client))), now)
  }

  function RevokeSecret(o: Options, st: State, secret: string, now: int): (State, Outcome) {
    if secret !in st.secrets.at then (st, Done)
    else
      var r := Held(st, secret);
      var st1 := st.(secrets := st.secrets.Delete(secret), generation := st.generation + 1);
      if r.client.Some? && r.client.value in st1.clients.at && st1.clients.at[r.client.value].secret == secret
      then (Drop(o, st1, r.client.value, now), Revoked)
      else (Emit(o, st1, now), Revoked)
  }

  // ── Export and restore ──

  function ExportSecrets(st: State, keys: seq<string>): (list: seq<SecretRecord>)
    ensures |list| == |keys|
  {
    if keys == [] then []
    else
      var k := keys[|keys| - 1];
      var r := Held(st, k);
      ExportSecrets(st, keys[..|keys| - 1]) + [SecretRecord(k, r.bunker, r.relays, r.client, r.confirmed, r.expiresAt)]
  }

  function ClientOf(st: State, client: string): Client {
    if client in st.clients.at then st.clients.at[client] else Client("", [], 0)
  }

  function ExportClients(st: State, keys: seq<string>): (list: seq<ClientRecord>)
    ensures |list| == |keys|
  {
    if keys == [] then []
    else
      var k := keys[|keys| - 1];
      var c := ClientOf(st, k);
      ExportClients(st, keys[..|keys| - 1])
        + [ClientRecord(k, c.relays, if c.secret == "" then None else Some(c.secret), c.connectedAt)]
  }

  function Snapshot(o: Options, st: State): Content {
    Content(o.pubkey, st.generation, ExportSecrets(st, st.secrets.keys), ExportClients(st, st.clients.keys))
  }

  function Sign(o: Options, c: Content): Blob {
    Blob(Some(2), Some(Mac(o.key, c)), c)
  }

  predicate Verifies(o: Options, b: Blob) {
    b.mac == Some(Mac(o.key, b.content))
  }

  /** The stored form of one incoming record; an unconfirmed one without expiry gets the default life. */
  function Incoming(o: Options, b: SecretRecord, now: int): Rec {
    Rec(Dedupe(b.relays), if b.client.Some? then Some(Lower(b.client.value)) else None, b.confirmed, 0, b.bunker,
        if !b.confirmed && b.expiresAt.None? && o.secretTtl > 0 then Some(now + o.secretTtl) else b.expiresAt)
  }

  function CheckSecret(o: Options, b: SecretRecord, acc: Table<Rec>, now: int): Checked<Table<Rec>> {
    if |b.secret| == 0 || |b.secret| > 256 then Bad(BadRecord)
    else if b.secret in acc.at then Bad(DuplicateRecord)
    else if b.client.Some? && !Hex64(b.client.value) then Bad(BadRecord)
    else if b.confirmed && b.client.None? then Bad(BadRecord)
    else if b.relays == [] || |Dedupe(b.relays)| > o.maxRelays then Bad(BadRecord)
    else if b.client.Some? && !o.onCurve(Lower(b.client.value)) then Bad(BadRecord)
    else if !b.confirmed && b.expiresAt.Some? && b.expiresAt.value <= now then Good(acc)
    else Good(acc.Put(b.secret, Incoming(o, b, now)))
  }

  function CheckSecrets(o: Options, list: seq<SecretRecord>, now: int): Checked<Table<Rec>> {
    if list == [] then Good(Empty())
    else
      var before := CheckSecrets(o, list[..|list| - 1], now);
      if before.Bad? then before else CheckSecret(o, list[|list| - 1], before.value, now)
  }

  predicate SameRelays(a: seq<string>, b: seq<string>) {
    |a| == |b| && forall i :: 0 <= i < |a| ==> a[i] in b
  }

  function CheckClient(o: Options, c: ClientRecord, secrets: Table<Rec>, acc: Table<Client>): Checked<Table<Client>> {
    if !Hex64(c.pubkey) then Bad(BadRecord)
    else
      var pubkey, relays := Lower(c.pubkey), Dedupe(c.relays);
      if pubkey in acc.at then Bad(DuplicateRecord)
      else if c.relays == [] || |relays| > o.maxRelays then Bad(BadRecord)
      else if c.secret.None? then Bad(UnbackedClient)
      else if c.secret.value !in secrets.at || secrets.at[c.secret.value].client != Some(pubkey)
              || !secrets.at[c.secret.value].confirmed then Bad(UnbackedClient)
      else if !SameRelays(secrets.at[c.secret.value].relays, relays) then Bad(RelaysDiffer)
      else if !o.onCurve(pubkey) then Bad(BadRecord)
      else Good(acc.Put(pubkey, Client(c.secret.value, relays, c.connectedAt)))
  }

  function CheckClients(o: Options, list: seq<ClientRecord>, secrets: Table<Rec>): Checked<Table<Client>> {
    if list == [] then Good(Empty())
    else
      var before := CheckClients(o, list[..|list| - 1], secrets);
      if before.Bad? then before else CheckClient(o, list[|list| - 1], secrets, before.value)
  }

  datatype Plan = Plan(secrets: Table<Rec>, clients: Table<Client>)

  /** `#validateState`. */
  function Validate(o: Options, c: Content, now: int): Checked<Plan> {
    var secrets := CheckSecrets(o, c.secrets, now);
    if secrets.Bad? then Bad(secrets.why)
    else if secrets.value.Size() > o.maxSecrets then Bad(TooManySecrets)
    else
      var clients := CheckClients(o, c.clients, secrets.value);
      if clients.Bad? then Bad(clients.why)
      else if clients.value.Size() > o.maxClients then Bad(TooManyClients)
      else Good(Plan(secrets.value, clients.value))
  }

  /** Everything `restore` decides before it touches anything, up to the plan. */
  function Judge(o: Options, st: State, b: Blob, allowUnsigned: bool, now: int): Checked<Plan> {
    if b.version == None || b.version == Some(1) then
      if !allowUnsigned then Bad(Unsigned)
      else if !o.explicitGeneration then Bad(NoExplicitGeneration)
      else JudgeGenuine(o, st, b.content, 0, now)
    else if b.version == Some(2) then
      if !Verifies(o, b) then Bad(BadMac)
      else if b.content.generation < 0 then Bad(BadRecord)
      else JudgeGenuine(o, st, b.content, b.content.generation, now)
    else Bad(BadVersion)
  }

  function JudgeGenuine(o: Options, st: State, c: Content, generation: int, now: int): Checked<Plan> {
    if c.pubkey != o.pubkey then Bad(OtherKey)
    else if generation < st.generation then Bad(BehindGeneration)
    else if st.approvals > 0 then Bad(ApprovalsPending)
    else
      var plan := Validate(o, c, now);
      if plan.Bad? then plan else Fit(o, st, plan.value)
  }

  /** Keys of the plan's secrets that memory does not hold bound. */
  function Fresh(st: State, keys: seq<string>): (unbound: seq<string>)
    ensures forall k :: k in unbound <==> k in keys && Held(st, k).client.None?
    ensures NoDup(keys) ==> NoDup(unbound)
  {
    if keys == [] then []
    else
      var front, k := Fresh(st, keys[..|keys| - 1]), keys[|keys| - 1];
      assert NoDup(keys) ==> k !in keys[..|keys| - 1];
      if Held(st, k).client.None? then front + [k] else front
  }

  predicate Clashes(st: State, plan: Plan, k: string) {
    k in plan.secrets.at && Held(st, k).client.Some? && plan.secrets.at[k].client.Some?
    && plan.secrets.at[k].client != Held(st, k).client
  }

  /** Keys of the plan's clients that are not connected in memory. */
  function Absent(st: State, keys: seq<string>): (absent: seq<string>)
    ensures forall k :: k in absent <==> k in keys && k !in st.clients.at
    ensures NoDup(keys) ==> NoDup(absent)
  {
    if keys == [] then []
    else
      var front, k := Absent(st, keys[..|keys| - 1]), keys[|keys| - 1];
      assert NoDup(keys) ==> k !in keys[..|keys| - 1];
      if k in st.clients.at then front else front + [k]
  }

  function Fit(o: Options, st: State, plan: Plan): Checked<Plan> {
    if exists i :: 0 <= i < |plan.secrets.keys| && Clashes(st, plan, plan.secrets.keys[i]) then Bad(BoundElsewhere)
    else
      var newKeys := set k | k in Fresh(st, plan.secrets.keys) && k !in st.secrets.at;
      if st.secrets.Size() + |newKeys| > o.maxSecrets then Bad(TooManySecrets)
      else if st.clients.Size() + |st.admissions| + |Absent(st, plan.clients.keys)| > o.maxClients then Bad(TooManyClients)
      else Good(plan)
  }

  function PutSecrets(st: State, plan: Plan, keys: seq<string>): State {
    if keys == [] then st
    else
      var st1 := PutSecrets(st, plan, keys[..|keys| - 1]);
      var k := keys[|keys| - 1];
      if k !in plan.secrets.at then st1
      else
        var r := plan.secrets.at[k];
        var st2 := Stored(st1, k, r);
        if r.expiresAt.Some? && !r.confirmed then Schedule(st2, r.expiresAt.value) else st2
  }

  function AdmitAll(o: Options, st: State, plan: Plan, keys: seq<string>, now: int): State {
    if keys == [] then st
    else
      var st1 := AdmitAll(o, st, plan, keys[..|keys| - 1], now);
      var k := keys[|keys| - 1];
      if k !in plan.clients.at then st1
      else
        var c := plan.clients.at[k];
        Admit(o, st1, k, c.secret, c.relays, c.connectedAt, now, true)
  }

  function StateGeneration(b: Blob): int {
    if b.version == Some(2) then b.content.generation else 0
  }

  function RestoreState(o: Options, st: State, b: Blob, allowUnsigned: bool, now: int): (State, Outcome) {
    var verdict := Judge(o, st, b, allowUnsigned, now);
    if verdict.Bad? then (st, Refused(verdict.why))
    else
      var plan := verdict.value;
      var st1 := PutSecrets(st, plan, Fresh(st, plan.secrets.keys));
      var st2 := AdmitAll(o, st1, plan, Absent(st, plan.clients.keys), now);
      var st3 := st2.(generation := Max(st2.generation, StateGeneration(b)));
      (Emit(o, st3, now), Restored)
  }

  // ── The machine ──

  function Step(o: Options, st: State, e: Event, now: int): (State, Outcome) {
    match e
    case Mint(secret, relays, ttl) => MintSecret(o, st, secret, relays, ttl, now)
    case AddRelay(url) => (AddHost(st, url), Done)
    case BeginConnect(client, secret) => Connect(o, st, client, secret, now)
    case BeginScan(client, secret, relays) => Scan(o, st, client, secret, relays, now)
    case Settle(flight, approved) => SettleFlight(o, st, flight, approved, now)
    case Revoke(secret) => RevokeSecret(o, st, secret, now)
    case Disconnect(client) => (Drop(o, st, client, now), Done)
    case Export => var st1 := Sweep(st, now); (st1, Exported(Sign(o, Snapshot(o, st1))))
    case Restore(blob, allowUnsigned) => RestoreState(o, st, blob, allowUnsigned, now)
    case Start =>
      if st.started then (st, Done)
      else if st.stopped then (st, Refused(AlreadyStopped))
      else (st.(started := true, subs := ClaimAll(st.subs, st.hosts, Host)), Done)
    case Stop => if st.stopped then (st, Done) else (st.(stopped := true, subs := map[]), Done)
    case Restart => (Init(o, st.generation), Done)
  }
}
