/**
 * The responder as it runs: a server object whose secrets are shared, mutable records. Every method
 * is proved against the machine of `BunkerModel`, whose record identities stand for the objects here.
 */
module BunkerServer {
  import opened Common
  import opened JsMap
  import opened BunkerModel
  import M = BunkerModel
  import BunkerSweep

  /** One pairing secret's record. A suspended approval holds the object, not its key; `id` numbers the objects. */
  class SecretState {
    const id: nat
    const bunker: bool
    var relays: seq<string>
    var client: Option<string>
    var confirmed: bool
    var pending: int
    var expiresAt: Option<int>

    constructor (id: nat, r: Rec)
      ensures this.id == id && View() == r
    {
      this.id, bunker := id, r.bunker;
      relays, client, confirmed, pending, expiresAt := r.relays, r.client, r.confirmed, r.pending, r.expiresAt;
    }

    function View(): Rec
      reads this
    {
      Rec(relays, client, confirmed, pending, bunker, expiresAt)
    }
  }

  /** The locals of a `connect` or scan that survive the handler's await. */
  datatype Ticket = Ticket(client: string, secret: string, record: SecretState, relays: seq<string>, slot: bool, scan: bool)

  class Server {
    const o: Options
    var secrets: Table<SecretState>
    var clients: Table<Client>
    var suspended: map<nat, Ticket>
    var tickets: nat
    var approvals: int
    var admissions: map<string, int>
    var generation: int
    var nextSweep: Option<int>
    var hosts: seq<string>
    var subs: map<string, set<Owner>>
    var started: bool
    var stopped: bool
    var muted: bool
    var made: nat
    ghost var registry: seq<SecretState>
    ghost var sweptAt: Option<int>

    ghost predicate Known(r: SecretState)
      reads this
    {
      r.id < |registry| && registry[r.id] == r
    }

    ghost predicate Valid()
      reads this
    {
      && secrets.Valid() && clients.Valid() && made == |registry|
      && (forall i :: 0 <= i < |registry| ==> registry[i].id == i)
      && (forall s :: s in secrets.at ==> Known(secrets.at[s]))
      && (forall t :: t in suspended ==> Known(suspended[t].record))
    }

    ghost function Records(): map<nat, Rec>
      reads this, registry
    {
      map i: nat | i < |registry| :: registry[i].View()
    }

    ghost function Named(): Table<nat>
      reads this
    {
      Table(secrets.keys, map s | s in secrets.at :: secrets.at[s].id)
    }

    ghost function Flights(): map<nat, Flight>
      reads this
    {
      map t | t in suspended ::
        Flight(suspended[t].client, suspended[t].secret, suspended[t].record.id, suspended[t].relays, suspended[t].slot, suspended[t].scan)
    }

    /** The machine state this object stands for. */
    ghost function Abs(): State
      reads this, registry
    {
      State(Named(), Records(), |registry|, clients, Flights(), tickets, approvals, admissions, generation, nextSweep, sweptAt,
            hosts, subs, started, stopped)
    }

    constructor (o: Options, generation: int)
      ensures this.o == o && Valid() && registry == [] && !muted
      ensures Abs() == Init(o, generation)
    {
      this.o, this.generation, hosts := o, generation, Dedupe(o.hosts);
      secrets, clients, suspended, tickets, approvals, admissions := Empty(), Empty(), map[], 0, 0, map[];
      nextSweep, sweptAt, subs, started, stopped, muted, made, registry := None, None, map[], false, false, false, 0, [];
    }

    // ── Records ──

    lemma HeldIs(secret: string)
      requires Valid()
      ensures secret in Abs().secrets.at <==> secret in secrets.at
      ensures secret in secrets.at ==> Abs().secrets.at[secret] == secrets.at[secret].id && Known(secrets.at[secret])
      ensures Held(Abs(), secret) == if secret in secrets.at then secrets.at[secret].View() else Blank
    {}

    lemma SizeIs()
      ensures Abs().secrets.Size() == |secrets.at|
    {
      assert Named().at.Keys == secrets.at.Keys;
    }

    lemma AllHeld()
      requires Valid()
      ensures forall s :: s in secrets.at ==> Held(Abs(), s) == secrets.at[s].View()
    {}

    lemma NamedValid()
      requires Valid()
      ensures Named().Valid()
    {}

    lemma RecIs(r: SecretState)
      requires Valid() && Known(r)
      ensures RecOf(Abs(), r.id) == r.View()
    {}

    /** Two secrets name one record only if they name one identity. */
    lemma SameRecord(r: SecretState, q: SecretState)
      requires Valid() && Known(r) && Known(q)
      ensures r == q <==> r.id == q.id
    {}

    /** Only the fields of one record changed. */
    twostate lemma RecordChanged(r: SecretState)
      requires old(Valid()) && old(Known(r)) && Valid()
      requires unchanged(this)
      requires forall q :: q in registry && q != r ==> q.View() == old(q.View())
      ensures Abs() == SetRec(old(Abs()), r.id, r.View())
    {
      forall i: nat | i < |registry| ensures Records()[i] == old(Records())[r.id := r.View()][i] {
        assert registry[i] == r <==> i == r.id;
      }
      assert Records() == old(Records())[r.id := r.View()];
    }

    lemma NamesAre()
      ensures Abs().secrets == Table(secrets.keys, map s | s in secrets.at :: secrets.at[s].id)
    {}

    /** Only the secrets and the sweep's own two fields changed. */
    twostate lemma SecretsOnly()
      requires unchanged(`registry) && forall q :: q in registry ==> q.View() == old(q.View())
      requires unchanged(`clients, `suspended, `tickets, `approvals, `admissions, `generation, `hosts, `subs, `started, `stopped)
      ensures Abs() == old(Abs()).(secrets := Named(), nextSweep := nextSweep, sweptAt := sweptAt)
    {
      assert Records() == old(Records());
      assert Flights() == old(Flights());
    }

    /** A new record object, stored under `secret`. */
    method Store(secret: string, r: Rec) returns (record: SecretState)
      requires Valid()
      modifies this`secrets, this`made, this`registry
      ensures Valid() && Known(record) && fresh(record) && registry == old(registry) + [record]
      ensures secret in secrets.at && secrets.at[secret] == record
      ensures Abs() == Stored(old(Abs()), secret, r)
    {
      hide Table.Valid, NoDup, Abs, Stored;
      record := new SecretState(made, r);
      made, registry := made + 1, registry + [record];
      secrets := secrets.Put(secret, record);
      RecordAdded(secret, record);
    }

    twostate lemma RecordAdded(secret: string, new record: SecretState)
      requires old(Valid()) && record.id == old(|registry|)
      requires registry == old(registry) + [record] && secrets == old(secrets).Put(secret, record)
      requires forall q :: q in old(registry) ==> q.View() == old(q.View())
      requires unchanged(`clients, `suspended, `tickets, `approvals, `admissions, `generation, `nextSweep, `sweptAt, `hosts, `subs, `started, `stopped)
      ensures Abs() == Stored(old(Abs()), secret, record.View())
    {
      hide Table.Valid, NoDup;
      forall i: nat | i < |registry| ensures Records()[i] == old(Records())[record.id := record.View()][i] {
        if i < old(|registry|) { assert registry[i] == old(registry)[i]; }
      }
      assert Records() == old(Records())[record.id := record.View()];
      assert Named().at == old(Named()).at[secret := record.id];
    }

    // ── Sweeping and announcing ──

    /** A sweep would walk the whole set now. */
    predicate Due(now: int)
      reads this
    {
      nextSweep.Some? && nextSweep.value <= now
    }

    method Sweep(now: int)
      requires Valid()
      modifies this`secrets, this`nextSweep, this`sweptAt
      ensures Valid() && Abs() == M.Sweep(old(Abs()), now) && !Due(now)
      ensures secrets.at.Keys <= old(secrets.at.Keys)
      decreases if Due(now) then 1 else 0, 0
    {
      hide Table.Valid, NoDup, LiveKeys, Walk, M.Sweep, M.Emit;
      if !Due(now) {
        NotDue(Abs(), now);
        return;
      }
      ghost var st := Abs();
      NamedValid();
      var changed := WalkSecrets(now);
      WalkIsOver(st, now);
      IsWalk(st, now);
      if changed { Emit(now); }
      EmitAfterWalk(o, st, now);
    }

    /** The walk of a sweep that is due. */
    method WalkSecrets(now: int) returns (changed: bool)
      requires Valid()
      modifies this`secrets, this`nextSweep, this`sweptAt
      ensures Valid() && Abs() == Walk(old(Abs()), now)
      ensures secrets.at.Keys <= old(secrets.at.Keys)
    {
      hide Table.Valid, NoDup, LiveKeys, Walk, Thinned, Held, Abs, NextOver, M.Sweep;
      ghost var st := Abs();
      var keys, next := secrets.keys, None;
      changed := false;
      ThinStart(st, secrets, now);
      AllHeld();
      NamesAre();
      NextStart(st, keys, now);
      var i := 0;
      while i < |keys|
        modifies this`secrets
        invariant 0 <= i <= |keys|
        invariant Thinned(st, old(secrets), secrets, keys, i, now)
        invariant forall k :: k in old(secrets).at ==> Held(st, k) == old(secrets).at[k].View()
        invariant next == NextOver(st, keys[..i], now)
      {
        var secret := keys[i];
        ThinStep(st, old(secrets), secrets, keys, i, now);
        NextStep(st, keys, i, now, next);
        var r := secrets.at[secret];
        if r.confirmed || r.expiresAt.None? {
        } else if r.pending == 0 && r.expiresAt.value <= now {
          secrets := secrets.Delete(secret);
          changed := true;
        } else if next.None? || r.expiresAt.value < next.value {
          next := Some(if r.pending == 0 then r.expiresAt.value else Max(r.expiresAt.value, now + 1000));
        }
        i := i + 1;
      }
      assert keys[..i] == keys;
      ThinDone(st, old(secrets), secrets, now);
      nextSweep, sweptAt := next, Some(now);
      SecretsOnly();
      Walked(st, Abs(), now);
    }

    /** `#emit`: an observed server that is not muted exports itself to its host. */
    method Emit(now: int)
      requires Valid()
      modifies this`secrets, this`nextSweep, this`sweptAt
      ensures Valid() && Abs() == (if muted then old(Abs()) else M.Emit(o, old(Abs()), now))
      ensures old(!Due(now)) ==> !Due(now)
      ensures secrets.at.Keys <= old(secrets.at.Keys)
      decreases if Due(now) then 1 else 0, 2
    {
      if !o.observed || muted { return; }
      var _ := ExportState(now);
    }

    method ExportState(now: int) returns (blob: Blob)
      requires Valid()
      modifies this`secrets, this`nextSweep, this`sweptAt
      ensures Valid() && Abs() == M.Sweep(old(Abs()), now) && blob == Sign(o, Snapshot(o, Abs())) && !Due(now)
      ensures secrets.at.Keys <= old(secrets.at.Keys)
      decreases if Due(now) then 1 else 0, 1
    {
      hide Table.Valid, M.Sweep;
      Sweep(now);
      var outSecrets := WriteSecrets();
      var outClients := WriteClients();
      blob := Sign(o, Content(o.pubkey, generation, outSecrets, outClients));
    }

    method WriteSecrets() returns (out: seq<SecretRecord>)
      requires Valid()
      ensures out == ExportSecrets(Abs(), secrets.keys)
    {
      hide Abs, Held, Known, NoDup;
      ghost var st := Abs();
      var i := 0;
      out := [];
      while i < |secrets.keys|
        invariant 0 <= i <= |secrets.keys| && out == ExportSecrets(st, secrets.keys[..i])
      {
        var k := secrets.keys[i];
        HeldIs(k);
        WriteStep(st, secrets.keys, i);
        assert k in secrets.at;
        var r := secrets.at[k];
        out := out + [SecretRecord(k, r.bunker, r.relays, r.client, r.confirmed, r.expiresAt)];
        i := i + 1;
      }
      assert secrets.keys[..i] == secrets.keys;
    }

    method WriteClients() returns (out: seq<ClientRecord>)
      requires Valid()
      ensures out == ExportClients(Abs(), clients.keys)
    {
      ghost var st := Abs();
      var i := 0;
      out := [];
      while i < |clients.keys|
        invariant 0 <= i <= |clients.keys| && out == ExportClients(st, clients.keys[..i])
      {
        var k := clients.keys[i];
        assert clients.keys[..i + 1][..i] == clients.keys[..i];
        assert k in clients.at;
        var c := clients.at[k];
        out := out + [ClientRecord(k, c.relays, if c.secret == "" then None else Some(c.secret), c.connectedAt)];
        i := i + 1;
      }
      assert clients.keys[..i] == clients.keys;
    }

    // ── Relays ──

    /** Nothing about secrets, records or suspended calls changed. */
    twostate lemma PairingSame()
      requires unchanged(`registry, `secrets, `suspended) && forall q :: q in registry ==> q.View() == old(q.View())
      ensures Named() == old(Named()) && Records() == old(Records()) && Flights() == old(Flights())
    {}

    /** `#claim`. */
    method Claim(url: string, owner: Owner)
      modifies this`subs
      ensures subs == M.Claim(old(subs), url, owner)
    {
      if url in subs {
        subs := subs[url := subs[url] + {owner}];
      } else {
        subs := subs[url := {owner}];
        assert {} + {owner} == {owner};
      }
    }

    /** `#release`. */
    method Release(url: string, owner: Owner)
      modifies this`subs
      ensures subs == M.Release(old(subs), url, owner)
    {
      if url !in subs { return; }
      var left := subs[url] - {owner};
      if left != {} {
        subs := subs[url := left];
      } else {
        subs := subs - {url};
      }
    }

    method ClaimEach(urls: seq<string>, owner: Owner)
      modifies this`subs
      ensures subs == ClaimAll(old(subs), urls, owner)
    {
      var i := 0;
      while i < |urls|
        invariant 0 <= i <= |urls| && subs == ClaimAll(old(subs), urls[..i], owner)
      {
        assert urls[..i + 1][..i] == urls[..i];
        Claim(urls[i], owner);
        i := i + 1;
      }
      assert urls[..i] == urls;
    }

    method ReleaseEach(urls: seq<string>, keep: seq<string>, owner: Owner)
      modifies this`subs
      ensures subs == ReleaseAll(old(subs), urls, keep, owner)
    {
      var i := 0;
      while i < |urls|
        invariant 0 <= i <= |urls| && subs == ReleaseAll(old(subs), urls[..i], keep, owner)
      {
        assert urls[..i + 1][..i] == urls[..i];
        if urls[i] !in keep { Release(urls[i], owner); }
        i := i + 1;
      }
      assert urls[..i] == urls;
    }

    method AddRelay(url: string)
      requires Valid()
      modifies this`hosts, this`subs
      ensures Valid() && Abs() == AddHost(old(Abs()), url)
    {
      hide Table.Valid, NoDup, Named, Records, Flights;
      if url !in hosts { hosts := hosts + [url]; }
      Claim(url, Host);
      PairingSame();
    }

    method Start() returns (out: Outcome)
      requires Valid()
      modifies this`started, this`subs
      ensures Valid() && (Abs(), out) == Step(o, old(Abs()), Event.Start, 0)
    {
      hide Table.Valid, NoDup, Named, Records, Flights;
      if started {
        out := Done;
      } else if stopped {
        out := Refused(AlreadyStopped);
      } else {
        started := true;
        ClaimEach(hosts, Host);
        out := Done;
      }
      PairingSame();
    }

    method Stop() returns (out: Outcome)
      requires Valid()
      modifies this`stopped, this`subs
      ensures Valid() && (Abs(), out) == Step(o, old(Abs()), Event.Stop, 0)
    {
      hide Table.Valid, NoDup, Named, Records, Flights;
      out := Done;
      if !stopped {
        stopped := true;
        subs := map[];
      }
      PairingSame();
    }

    // ── Minting ──

    predicate Ready()
      reads this
    {
      !muted
    }

    twostate predicate Grown()
      reads this
    {
      old(registry) <= registry && forall i :: old(|registry|) <= i < |registry| ==> fresh(registry[i])
    }

    /** `#liveSecret`: says whether the secret is there, after dropping a lapsed one. */
    method LiveSecret(secret: string, now: int) returns (live: bool)
      requires Valid() && Ready()
      modifies this`secrets, this`nextSweep, this`sweptAt
      ensures Valid() && Abs() == DropIfLapsed(o, old(Abs()), secret, now) && (live <==> secret in secrets.at)
    {
      hide Table.Valid, NoDup, Named, Records, Flights, M.Emit, Held;
      HeldIs(secret);
      if secret !in secrets.at { return false; }
      var r := secrets.at[secret];
      if !r.confirmed && r.pending == 0 && r.expiresAt.Some? && r.expiresAt.value <= now {
        DeleteSecret(secret);
        Emit(now);
        return false;
      }
      return true;
    }

    method DeleteSecret(secret: string)
      requires Valid()
      modifies this`secrets
      ensures Valid() && secrets == old(secrets).Delete(secret)
      ensures Abs() == old(Abs()).(secrets := old(Abs()).secrets.Delete(secret))
    {
      hide Table.Valid, NoDup;
      secrets := secrets.Delete(secret);
      assert Named().at == old(Named()).at - {secret};
      SecretsOnly();
    }

    /** `createBunkerUri`. */
    method CreateBunkerUri(secret: string, relays: seq<string>, ttl: Option<int>, now: int) returns (out: Outcome)
      requires Valid() && Ready()
      modifies this, registry
      ensures Valid() && Ready() && Grown()
      ensures (Abs(), out) == MintSecret(o, old(Abs()), secret, relays, ttl, now)
    {
      hide Table.Valid, NoDup, Named, Records, Flights, M.Sweep, AddHosts, M.MintOn;
      Sweep(now);
      var urls := Dedupe(if relays == [] then hosts else relays);
      AddRelays(urls);
      out := MintOn(secret, urls, if ttl.Some? then ttl.value else o.secretTtl, now);
    }

    method MintOn(secret: string, urls: seq<string>, life: int, now: int) returns (out: Outcome)
      requires Valid() && Ready()
      modifies this, registry
      ensures Valid() && Ready() && Grown()
      ensures (Abs(), out) == M.MintOn(o, old(Abs()), secret, urls, life, now)
    {
      hide Table.Valid, NoDup, Named, Records, Flights, M.Emit, Held, Stored, SetRec, Abs;
      HeldIs(secret);
      SizeIs();
      if secret in secrets.at {
        var existing := secrets.at[secret];
        if existing.client.None? {
          existing.relays := urls;
          RecordChanged(existing);
        }
      } else {
        if |secrets.at| >= o.maxSecrets { return Refused(TooManySecrets); }
        var due := None;
        if life > 0 {
          due := Some(now + life);
          ScheduleSweep(now + life);
        }
        var _ := Store(secret, Rec(urls, None, false, 0, true, due));
      }
      Emit(now);
      out := Done;
    }

    method ScheduleSweep(expiresAt: int)
      requires Valid()
      modifies this`nextSweep
      ensures Valid() && Abs() == Schedule(old(Abs()), expiresAt)
    {
      hide Table.Valid, NoDup, Named, Records, Flights;
      if nextSweep.None? || expiresAt < nextSweep.value { nextSweep := Some(expiresAt); }
      PairingSame();
    }

    method AddRelays(urls: seq<string>)
      requires Valid()
      modifies this`hosts, this`subs
      ensures Valid() && Abs() == AddHosts(old(Abs()), urls)
    {
      hide Table.Valid, NoDup, Named, Records, Flights;
      var i := 0;
      while i < |urls|
        invariant 0 <= i <= |urls| && Valid() && Abs() == AddHosts(old(Abs()), urls[..i])
      {
        assert urls[..i + 1][..i] == urls[..i];
        AddRelay(urls[i]);
        i := i + 1;
      }
      assert urls[..i] == urls;
    }

    // ── Binding ──

    /**
     * `#bind`: the record now bound to `client` with one more pending approval, or `null` when the
     * secret is held by another client.
     */
    method Bind(secret: string, client: string, relays: seq<string>, now: int) returns (record: SecretState?)
      requires Valid() && Ready()
      modifies this, registry
      ensures Valid() && Ready() && Grown() && clients == old(clients)
      ensures record == null <==> !Takable(old(Abs()), secret, client)
      ensures record == null ==> Abs() == old(Abs())
      ensures record != null ==>
        Known(record) && record.id == (if secret in old(secrets.at) then old(secrets.at)[secret].id else old(|registry|))
        && (secret in old(secrets.at) ==> record.relays == old(secrets.at[secret].relays))
        && Abs() == M.Bind(o, old(Abs()), secret, client, relays, now)
    {
      hide Table.Valid, NoDup, Named, Records, Flights, M.Emit, Held, Stored, SetRec, Abs, RecOf;
      HeldIs(secret);
      var bound: SecretState;
      if secret in secrets.at {
        bound := secrets.at[secret];
        if bound.client.Some? && bound.client != Some(client) { return null; }
      } else {
        bound := Store(secret, Rec(relays, None, false, 0, false, None));
      }
      label Found:
      RecIs(bound);
      HeldIs(secret);
      bound.client, bound.pending := Some(client), bound.pending + 1;
      RecordChanged@Found(bound);
      Emit(now);
      record := bound;
    }

    /** `#unbind`. */
    method Unbind(record: SecretState, secret: string, now: int)
      requires Valid() && Ready() && Known(record)
      modifies this, record
      ensures Valid() && Ready() && registry == old(registry)
      ensures Abs() == M.Unbind(o, old(Abs()), secret, record.id, now)
    {
      hide Table.Valid, NoDup, Named, Records, Flights, M.Emit, SetRec, Abs, RecOf;
      RecIs(record);
      if record.pending - 1 <= 0 && !record.confirmed {
        record.pending, record.client := 0, None;
        RecordChanged(record);
        HeldIs(secret);
        if !record.bunker && secret in secrets.at && secrets.at[secret] == record {
          DeleteSecret(secret);
        } else if secret in secrets.at {
          SameRecord(secrets.at[secret], record);
        }
        Emit(now);
      } else {
        record.pending := record.pending - 1;
        RecordChanged(record);
      }
    }

    // ── Approvals ──

    predicate OverClientCeiling(client: string)
      reads this
      ensures OverClientCeiling(client) == OverCeiling(o, Abs(), client)
    {
      client !in clients.at && client !in admissions && |clients.at| + |admissions| >= o.maxClients
    }

    /** `#beginApproval`: says whether the request took an admission slot. */
    method CountApproval(client: string) returns (slot: bool)
      requires Valid()
      modifies this`approvals, this`admissions
      ensures Valid() && slot == (client !in clients.at)
      ensures Abs() == old(Abs()).(approvals := old(approvals) + 1,
                                   admissions := if slot then Bump(old(admissions), client) else old(admissions))
    {
      hide Table.Valid, NoDup, Named, Records, Flights;
      approvals := approvals + 1;
      slot := client !in clients.at;
      if slot { admissions := admissions[client := (if client in admissions then admissions[client] else 0) + 1]; }
      PairingSame();
    }

    /** `#endApproval`. */
    method UncountApproval(client: string, slot: bool)
      requires Valid()
      modifies this`approvals, this`admissions
      ensures Valid()
      ensures Abs() == old(Abs()).(approvals := old(approvals) - 1,
                                   admissions := if slot then Unbump(old(admissions), client) else old(admissions))
    {
      hide Table.Valid, NoDup, Named, Records, Flights;
      approvals := approvals - 1;
      if slot {
        var left := (if client in admissions then admissions[client] else 1) - 1;
        if left <= 0 {
          admissions := admissions - {client};
        } else {
          admissions := admissions[client := left];
        }
      }
      PairingSame();
    }

    /** The await begins: the call keeps its locals, the record object among them. */
    method Suspend(f: Ticket) returns (ticket: nat)
      requires Valid() && Known(f.record)
      modifies this`suspended, this`tickets
      ensures Valid() && ticket == old(tickets)
      ensures Abs() == old(Abs()).(nextFlight := ticket + 1,
        inflight := old(Abs()).inflight[ticket := Flight(f.client, f.secret, f.record.id, f.relays, f.slot, f.scan)])
    {
      hide Table.Valid, NoDup, Named, Records, Flights;
      ticket := tickets;
      suspended := suspended[ticket := f];
      tickets := tickets + 1;
      TicketTaken(ticket);
      RecordsSame();
    }

    /** The await is over. */
    method Resume(ticket: nat)
      requires Valid() && ticket in suspended
      modifies this`suspended
      ensures Valid() && suspended == old(suspended) - {ticket}
      ensures Abs() == old(Abs()).(inflight := old(Abs()).inflight - {ticket})
    {
      hide Table.Valid, NoDup, Named, Records, Flights;
      suspended := suspended - {ticket};
      TicketReturned(ticket);
      RecordsSame();
    }

    method BeginApproval(client: string, secret: string, record: SecretState, relays: seq<string>, scan: bool) returns (ticket: nat)
      requires Valid() && Known(record)
      modifies this`approvals, this`admissions, this`suspended, this`tickets
      ensures Valid() && ticket == old(tickets)
      ensures Abs() == M.BeginApproval(old(Abs()), client, secret, record.id, relays, scan)
    {
      hide Table.Valid, NoDup, Abs, Bump;
      TicketsAre();
      var slot := CountApproval(client);
      ticket := Suspend(Ticket(client, secret, record, relays, slot, scan));
    }

    method EndApproval(ticket: nat)
      requires Valid() && ticket in suspended
      modifies this`approvals, this`admissions, this`suspended
      ensures Valid() && suspended == old(suspended) - {ticket}
      ensures ticket in old(Abs()).inflight && Abs() == M.EndApproval(old(Abs()), ticket)
    {
      hide Table.Valid, NoDup, Abs, Unbump;
      TicketIs(ticket);
      TicketsAre();
      var f := suspended[ticket];
      Resume(ticket);
      UncountApproval(f.client, f.slot);
    }

    twostate lemma RecordsSame()
      requires unchanged(`registry, `secrets) && forall q :: q in registry ==> q.View() == old(q.View())
      ensures Named() == old(Named()) && Records() == old(Records())
    {}

    twostate lemma TicketTaken(ticket: nat)
      requires ticket in suspended && suspended == old(suspended)[ticket := suspended[ticket]]
      ensures var f := suspended[ticket];
              Flights() == old(Flights())[ticket := Flight(f.client, f.secret, f.record.id, f.relays, f.slot, f.scan)]
    {}

    twostate lemma TicketReturned(ticket: nat)
      requires ticket in old(suspended) && suspended == old(suspended) - {ticket}
      ensures var f := old(suspended)[ticket];
              && ticket in old(Flights())
              && old(Flights())[ticket] == Flight(f.client, f.secret, f.record.id, f.relays, f.slot, f.scan)
              && Flights() == old(Flights()) - {ticket}
    {}

    /** `#connect` up to the handler. */
    method Connect(client: string, secret: string, now: int) returns (out: Outcome)
      requires Valid() && Ready()
      modifies this, registry
      ensures Valid() && Ready() && Grown()
      ensures (Abs(), out) == M.Connect(o, old(Abs()), client, secret, now)
    {
      hide Table.Valid, NoDup, Named, Records, Flights, M.Bind, M.BeginApproval, DropIfLapsed, OverCeiling, Held, RecOf, Abs, Hex64, Lower;
      if !Hex64(client) || Lower(client) != client || !o.onCurve(client) { return Refused(BadRequest); }
      if secret == "" { return Refused(InvalidSecret); }
      var live := LiveSecret(secret, now);
      HeldIs(secret);
      if !live { return Refused(InvalidSecret); }
      if OverClientCeiling(client) { return Refused(TooManyClients); }
      var record := Bind(secret, client, [], now);
      if record == null { return Refused(SecretTaken); }
      TicketsAre();
      var ticket := BeginApproval(client, secret, record, record.relays, false);
      out := Waiting(ticket);
    }

    /** `acceptNostrConnect` up to the handler. */
    method AcceptNostrConnect(client: string, secret: string, raw: seq<string>, now: int) returns (out: Outcome)
      requires Valid() && Ready()
      modifies this, registry
      ensures Valid() && Ready() && Grown()
      ensures (Abs(), out) == Scan(o, old(Abs()), client, secret, raw, now)
    {
      hide Table.Valid, NoDup, Named, Records, Flights, M.Bind, M.BeginApproval, DropIfLapsed, OverCeiling, Held, RecOf, Abs, Hex64, Lower, Dedupe;
      var relays := Dedupe(raw);
      if !Hex64(client) || Lower(client) != client || secret == "" || relays == [] || |relays| > o.maxRelays {
        return Refused(BadRequest);
      }
      var _ := LiveSecret(secret, now);
      HeldIs(secret);
      SizeIs();
      TicketsAre();
      if OverClientCeiling(client) { return Refused(TooManyClients); }
      if secret !in secrets.at && |secrets.at| >= o.maxSecrets { return Refused(TooManySecrets); }
      var record := Bind(secret, client, relays, now);
      if record == null { return Refused(SecretTaken); }
      TicketsAre();
      var ticket := BeginApproval(client, secret, record, relays, true);
      out := Waiting(ticket);
    }

    /** `#admit`. */
    method Admit(client: string, secret: string, raw: seq<string>, at: int, now: int)
      requires Valid()
      modifies this`secrets, this`nextSweep, this`sweptAt, this`clients, this`subs
      ensures Valid() && Abs() == M.Admit(o, old(Abs()), client, secret, raw, at, now, muted)
    {
      hide Table.Valid, NoDup, Named, Records, Flights, M.Emit, Dedupe, ClaimAll, ReleaseAll;
      var relays := Dedupe(raw);
      label Before:
      var previous := if client in clients.at then Some(clients.at[client]) else None;
      clients := clients.Put(client, Client(secret, relays, at));
      if previous.Some? { ReleaseEach(previous.value.relays, relays, Peer(client)); }
      PairingSame@Before();
      Emit(now);
      label Announced:
      ClaimEach(relays, Peer(client));
      PairingSame@Announced();
    }

    /** The rest of `connect` or of a scan, once the handler has answered. */
    method Answer(ticket: nat, approved: bool, now: int) returns (out: Outcome)
      requires Valid() && Ready()
      modifies this, registry
      ensures Valid() && Ready() && registry == old(registry)
      ensures (Abs(), out) == SettleFlight(o, old(Abs()), ticket, approved, now)
    {
      hide Table.Valid, NoDup, Named, Records, Flights, M.Unbind, M.Admit, M.EndApproval, Held, RecOf, Abs, SetRec, Confirm;
      TicketIs(ticket);
      if ticket !in suspended { return Refused(NoSuchFlight); }
      var f := suspended[ticket];
      EndApproval(ticket);
      if !approved {
        Unbind(f.record, f.secret, now);
        return Rejected;
      }
      HeldIs(f.secret);
      RecIs(f.record);
      TicketsAre();
      if f.secret in secrets.at { SameRecord(secrets.at[f.secret], f.record); }
      if f.secret !in secrets.at || secrets.at[f.secret] != f.record {
        label Dropped:
        f.record.pending := f.record.pending - 1;
        RecordChanged@Dropped(f.record);
        return Discarded;
      }
      if f.client !in clients.at && |clients.at| >= o.maxClients {
        Unbind(f.record, f.secret, now);
        return NoRoom;
      }
      ConfirmRecord(f);
      TicketsAre();
      if f.client !in clients.at && !o.onCurve(f.client) { return Unreachable; }
      Admit(f.client, f.secret, f.relays, now, now);
      out := Admitted(f.client, f.secret, f.record.id);
    }

    method ConfirmRecord(f: Ticket)
      requires Valid() && Known(f.record)
      modifies f.record
      ensures Valid()
      ensures Abs() == Confirm(old(Abs()), Flight(f.client, f.secret, f.record.id, f.relays, f.slot, f.scan))
    {
      hide Table.Valid, NoDup, Named, Records, Flights, RecOf, Abs, SetRec;
      RecIs(f.record);
      f.record.pending := f.record.pending - 1;
      f.record.confirmed := true;
      if f.scan { f.record.relays := f.relays; }
      f.record.expiresAt := None;
      RecordChanged(f.record);
    }

    lemma TicketIs(ticket: nat)
      requires Valid()
      ensures ticket in Abs().inflight <==> ticket in suspended
      ensures ticket in suspended ==>
        Known(suspended[ticket].record)
        && var f := suspended[ticket];
           Abs().inflight[ticket] == Flight(f.client, f.secret, f.record.id, f.relays, f.slot, f.scan)
    {}

    // ── Leaving ──

    method DisconnectClient(client: string, now: int)
      requires Valid() && Ready()
      modifies this`secrets, this`nextSweep, this`sweptAt, this`clients, this`subs
      ensures Valid() && Abs() == Drop(o, old(Abs()), client, now)
    {
      hide Table.Valid, NoDup, Named, Records, Flights, M.Emit, ReleaseAll;
      if client !in clients.at { return; }
      var relays := clients.at[client].relays;
      clients := clients.Delete(client);
      ReleaseEach(relays, [], Peer(client));
      PairingSame();
      Emit(now);
    }

    method RevokeSecret(secret: string, now: int) returns (out: Outcome)
      requires Valid() && Ready()
      modifies this`secrets, this`nextSweep, this`sweptAt, this`clients, this`subs, this`generation
      ensures Valid() && (Abs(), out) == M.RevokeSecret(o, old(Abs()), secret, now)
    {
      hide Table.Valid, NoDup, Named, Records, Flights, M.Emit, Drop, Held, Abs;
      HeldIs(secret);
      if secret !in secrets.at { return Done; }
      var record := secrets.at[secret];
      TicketsAre();
      DeleteSecret(secret);
      NextGeneration(generation + 1);
      TicketsAre();
      if record.client.Some? && record.client.value in clients.at && clients.at[record.client.value].secret == secret {
        DisconnectClient(record.client.value, now);
      } else {
        Emit(now);
      }
      out := Revoked;
    }

    method NextGeneration(g: int)
      requires Valid()
      modifies this`generation
      ensures Valid() && Abs() == old(Abs()).(generation := g)
    {
      hide Table.Valid, NoDup, Named, Records, Flights;
      generation := g;
      PairingSame();
    }

    // ── Restoring ──

    /** `#validateState`. */
    method ValidateState(c: Content, now: int) returns (verdict: Checked<Plan>)
      ensures verdict == Validate(o, c, now)
    {
      hide CheckSecret, CheckClient;
      var records: Table<Rec>, i := Empty(), 0;
      while i < |c.secrets|
        invariant 0 <= i <= |c.secrets| && CheckSecrets(o, c.secrets[..i], now) == Good(records)
      {
        var next := CheckSecret(o, c.secrets[i], records, now);
        assert c.secrets[..i + 1][..i] == c.secrets[..i];
        if next.Bad? {
          StopsAtBad(o, c.secrets, i + 1, now);
          return Bad(next.why);
        }
        records, i := next.value, i + 1;
      }
      assert c.secrets[..i] == c.secrets;
      if |records.at| > o.maxSecrets { return Bad(TooManySecrets); }
      var connected: Table<Client>;
      connected, i := Empty(), 0;
      while i < |c.clients|
        invariant 0 <= i <= |c.clients| && CheckClients(o, c.clients[..i], records) == Good(connected)
      {
        var next := CheckClient(o, c.clients[i], records, connected);
        assert c.clients[..i + 1][..i] == c.clients[..i];
        if next.Bad? {
          ClientsStopAtBad(o, c.clients, i + 1, records);
          return Bad(next.why);
        }
        connected, i := next.value, i + 1;
      }
      assert c.clients[..i] == c.clients;
      if |connected.at| > o.maxClients { return Bad(TooManyClients); }
      verdict := Good(Plan(records, connected));
    }

    /** Which of the plan's secrets to set, or that one is bound elsewhere. */
    method Unbound(plan: Plan) returns (loose: Option<seq<string>>)
      requires Valid()
      ensures loose.None? <==> exists i :: 0 <= i < |plan.secrets.keys| && Clashes(Abs(), plan, plan.secrets.keys[i])
      ensures loose.Some? ==> loose.value == Fresh(Abs(), plan.secrets.keys)
    {
      hide Abs, Held, Valid, Known, NoDup, Fresh, Clashes;
      ghost var st := Abs();
      var keys := plan.secrets.keys;
      var out: seq<string>, i := [], 0;
      FreshStart(st, keys);
      while i < |keys|
        invariant 0 <= i <= |keys| && out == Fresh(st, keys[..i])
        invariant forall j :: 0 <= j < i ==> !Clashes(st, plan, keys[j])
      {
        var k := keys[i];
        HeldIs(k);
        FreshStep(st, plan, keys, i);
        if k in secrets.at && secrets.at[k].client.Some? {
          if k in plan.secrets.at && plan.secrets.at[k].client.Some? && plan.secrets.at[k].client != secrets.at[k].client {
            assert Clashes(st, plan, keys[i]);
            return None;
          }
        } else {
          out := out + [k];
        }
        i := i + 1;
      }
      assert keys[..i] == keys;
      loose := Some(out);
    }

    method Unconnected(plan: Plan) returns (admit: seq<string>)
      ensures admit == Absent(Abs(), plan.clients.keys)
    {
      hide Abs, NoDup, Absent;
      ghost var st := Abs();
      TicketsAre();
      var keys := plan.clients.keys;
      var i := 0;
      admit := [];
      AbsentStart(st, keys);
      while i < |keys|
        invariant 0 <= i <= |keys| && admit == Absent(st, keys[..i])
      {
        AbsentStep(st, keys, i);
        if keys[i] !in clients.at { admit := admit + [keys[i]]; }
        i := i + 1;
      }
      assert keys[..i] == keys;
    }

    /** Everything `restore` decides before its first mutation: the plan, what to set, whom to admit. */
    method JudgeState(b: Blob, allowUnsigned: bool, now: int) returns (verdict: Checked<Plan>, loose: seq<string>, admit: seq<string>)
      requires Valid()
      ensures verdict == Judge(o, Abs(), b, allowUnsigned, now)
      ensures verdict.Good? ==>
        loose == Fresh(Abs(), verdict.value.secrets.keys) && admit == Absent(Abs(), verdict.value.clients.keys)
    {
      hide Validate, Fit, Abs, Fresh, Absent;
      loose, admit := [], [];
      var stated;
      if b.version == None || b.version == Some(1) {
        if !allowUnsigned { return Bad(Unsigned), [], []; }
        if !o.explicitGeneration { return Bad(NoExplicitGeneration), [], []; }
        stated := 0;
      } else if b.version == Some(2) {
        if !Verifies(o, b) { return Bad(BadMac), [], []; }
        if b.content.generation < 0 { return Bad(BadRecord), [], []; }
        stated := b.content.generation;
      } else {
        return Bad(BadVersion), [], [];
      }
      TicketsAre();
      if b.content.pubkey != o.pubkey { return Bad(OtherKey), [], []; }
      if stated < generation { return Bad(BehindGeneration), [], []; }
      if approvals > 0 { return Bad(ApprovalsPending), [], []; }
      var plan := ValidateState(b.content, now);
      if plan.Bad? { return plan, [], []; }
      verdict, loose, admit := FitPlan(plan.value);
    }

    method FitPlan(plan: Plan) returns (verdict: Checked<Plan>, loose: seq<string>, admit: seq<string>)
      requires Valid()
      ensures verdict == Fit(o, Abs(), plan)
      ensures verdict.Good? ==> verdict.value == plan && loose == Fresh(Abs(), plan.secrets.keys) && admit == Absent(Abs(), plan.clients.keys)
    {
      hide Fresh, Absent, Abs, Clashes;
      loose, admit := [], [];
      var free := Unbound(plan);
      if free.None? { return Bad(BoundElsewhere), [], []; }
      loose := free.value;
      admit := Unconnected(plan);
      SizeIs();
      TicketsAre();
      NamesIn();
      var added := set k | k in loose && k !in secrets.at;
      assert added == (set k | k in Fresh(Abs(), plan.secrets.keys) && k !in Abs().secrets.at);
      if |secrets.at| + |added| > o.maxSecrets { return Bad(TooManySecrets), [], []; }
      if |clients.at| + |admissions| + |admit| > o.maxClients { return Bad(TooManyClients), [], []; }
      verdict := Good(plan);
    }

    lemma NamesIn()
      ensures forall k :: k in Abs().secrets.at <==> k in secrets.at
    {}

    method Restore(b: Blob, allowUnsigned: bool, now: int) returns (out: Outcome)
      requires Valid() && Ready()
      modifies this, registry
      ensures Valid() && Ready() && Grown()
      ensures (Abs(), out) == RestoreState(o, old(Abs()), b, allowUnsigned, now)
    {
      hide Table.Valid, NoDup, Named, Records, Flights, Judge, PutSecrets, AdmitAll, M.Emit, Fresh, Absent, Abs;
      var verdict, loose, admit := JudgeState(b, allowUnsigned, now);
      if verdict.Bad? { return Refused(verdict.why); }
      var plan := verdict.value;
      Mute(true);
      SetSecrets(plan, loose);
      AdmitClients(plan, admit, now);
      Mute(false);
      TicketsAre();
      NextGeneration(Max(generation, StateGeneration(b)));
      Emit(now);
      out := Restored;
    }

    method Mute(on: bool)
      requires Valid()
      modifies this`muted
      ensures Valid() && muted == on && Abs() == old(Abs())
    {
      hide Table.Valid, NoDup, Named, Records, Flights;
      muted := on;
      PairingSame();
    }

    method SetSecrets(plan: Plan, keys: seq<string>)
      requires Valid()
      modifies this`secrets, this`made, this`registry, this`nextSweep
      ensures Valid() && Grown() && Abs() == PutSecrets(old(Abs()), plan, keys)
    {
      hide Table.Valid, NoDup, Named, Records, Flights, Abs, Stored, Schedule;
      var i := 0;
      while i < |keys|
        invariant 0 <= i <= |keys| && Valid() && Grown() && Abs() == PutSecrets(old(Abs()), plan, keys[..i])
      {
        assert keys[..i + 1][..i] == keys[..i];
        var k := keys[i];
        if k in plan.secrets.at {
          var r := plan.secrets.at[k];
          var _ := Store(k, r);
          if r.expiresAt.Some? && !r.confirmed { ScheduleSweep(r.expiresAt.value); }
        }
        i := i + 1;
      }
      assert keys[..i] == keys;
    }

    method AdmitClients(plan: Plan, keys: seq<string>, now: int)
      requires Valid() && muted
      modifies this`secrets, this`nextSweep, this`sweptAt, this`clients, this`subs
      ensures Valid() && Abs() == AdmitAll(o, old(Abs()), plan, keys, now)
    {
      hide Table.Valid, NoDup, Named, Records, Flights, Abs, M.Admit;
      var i := 0;
      while i < |keys|
        invariant 0 <= i <= |keys| && Valid() && Abs() == AdmitAll(o, old(Abs()), plan, keys[..i], now)
      {
        assert keys[..i + 1][..i] == keys[..i];
        var k := keys[i];
        if k in plan.clients.at {
          var c := plan.clients.at[k];
          Admit(k, c.secret, c.relays, c.connectedAt, now);
        }
        i := i + 1;
      }
      assert keys[..i] == keys;
    }

    lemma TicketsAre()
      ensures Abs().nextFlight == tickets && Abs().clients == clients && Abs().nextId == |registry|
      ensures Abs().hosts == hosts && Abs().generation == generation && Abs().approvals == approvals && Abs().admissions == admissions
      ensures Abs().subs == subs
    {}
  }

  lemma {:induction false} StopsAtBad(o: Options, list: seq<SecretRecord>, i: nat, now: int)
    requires i <= |list| && CheckSecrets(o, list[..i], now).Bad?
    ensures CheckSecrets(o, list, now) == CheckSecrets(o, list[..i], now)
  {
    hide CheckSecret;
    if i == |list| {
      assert list[..i] == list;
    } else {
      var front := list[..|list| - 1];
      assert front[..i] == list[..i];
      StopsAtBad(o, front, i, now);
    }
  }

  lemma {:induction false} ClientsStopAtBad(o: Options, list: seq<ClientRecord>, i: nat, secrets: Table<Rec>)
    requires i <= |list| && CheckClients(o, list[..i], secrets).Bad?
    ensures CheckClients(o, list, secrets) == CheckClients(o, list[..i], secrets)
  {
    hide CheckClient;
    if i == |list| {
      assert list[..i] == list;
    } else {
      var front := list[..|list| - 1];
      assert front[..i] == list[..i];
      ClientsStopAtBad(o, front, i, secrets);
    }
  }

  lemma FreshStart(st: State, keys: seq<string>)
    ensures Fresh(st, keys[..0]) == []
  {}

  lemma FreshStep(st: State, plan: Plan, keys: seq<string>, i: nat)
    requires i < |keys|
    ensures Fresh(st, keys[..i + 1]) == Fresh(st, keys[..i]) + (if Held(st, keys[i]).client.None? then [keys[i]] else [])
    ensures Clashes(st, plan, keys[i]) <==>
              keys[i] in plan.secrets.at && Held(st, keys[i]).client.Some? && plan.secrets.at[keys[i]].client.Some?
              && plan.secrets.at[keys[i]].client != Held(st, keys[i]).client
  {
    assert keys[..i + 1][..i] == keys[..i];
  }

  lemma AbsentStart(st: State, keys: seq<string>)
    ensures Absent(st, keys[..0]) == []
  {}

  lemma AbsentStep(st: State, keys: seq<string>, i: nat)
    requires i < |keys|
    ensures Absent(st, keys[..i + 1]) == Absent(st, keys[..i]) + (if keys[i] in st.clients.at then [] else [keys[i]])
  {
    assert keys[..i + 1][..i] == keys[..i];
  }

  lemma WriteStep(st: State, keys: seq<string>, i: nat)
    requires i < |keys|
    ensures var r := Held(st, keys[i]);
            ExportSecrets(st, keys[..i + 1]) ==
            ExportSecrets(st, keys[..i]) + [SecretRecord(keys[i], r.bunker, r.relays, r.client, r.confirmed, r.expiresAt)]
  {
    assert keys[..i + 1][..i] == keys[..i];
  }

  // ── The sweep loop on its two lists ──

  /** What is left of `before` once the first `i` keys have been looked at. */
  ghost predicate Thinned(st: State, before: Table<SecretState>, after: Table<SecretState>, keys: seq<string>, i: nat, now: int) {
    && i <= |keys| && keys == before.keys && before.Valid() && after.Valid()
    && after.keys == LiveKeys(st, keys[..i], now) + keys[i..]
    && (forall k :: k in after.at ==> k in before.at && after.at[k] == before.at[k])
    && (forall k :: k in before.at && k !in after.at ==> k in keys[..i] && Lapsed(Held(st, k), now))
    && (forall k :: k in keys[..i] && Lapsed(Held(st, k), now) ==> k !in after.at)
  }

  lemma ThinStart(st: State, before: Table<SecretState>, now: int)
    requires before.Valid()
    ensures Thinned(st, before, before, before.keys, 0, now)
  {}

  lemma ThinStep(st: State, before: Table<SecretState>, after: Table<SecretState>, keys: seq<string>, i: nat, now: int)
    requires i < |keys| && Thinned(st, before, after, keys, i, now)
    ensures keys[i] in after.at && keys[i] in before.at && after.at[keys[i]] == before.at[keys[i]]
    ensures Thinned(st, before, if Lapsed(Held(st, keys[i]), now) then after.Delete(keys[i]) else after, keys, i + 1, now)
  {
    hide NoDup, Lapsed, Held, LiveKeys, Without;
    ThinHolds(st, before, after, keys, i, now);
    ThinKeys(st, keys, i, now);
    PrefixGrows(keys, i);
  }

  lemma ThinHolds(st: State, before: Table<SecretState>, after: Table<SecretState>, keys: seq<string>, i: nat, now: int)
    requires i < |keys| && Thinned(st, before, after, keys, i, now)
    ensures keys[i] !in keys[..i] && keys[i] in after.at && keys[i] in before.at && after.at[keys[i]] == before.at[keys[i]]
    ensures NoDup(keys)
  {
    hide Lapsed, Held, LiveKeys, Without;
    assert keys[i] in before.at;
  }

  lemma ThinKeys(st: State, keys: seq<string>, i: nat, now: int)
    requires NoDup(keys) && i < |keys|
    ensures LiveKeys(st, keys[..i + 1], now) + keys[i + 1..] ==
            if Lapsed(Held(st, keys[i]), now) then Without(LiveKeys(st, keys[..i], now) + keys[i..], keys[i])
            else LiveKeys(st, keys[..i], now) + keys[i..]
  {
    hide NoDup, Lapsed, Held, LiveKeys, Without;
    SweepOne(st, keys, i, now);
    LiveStep(st, keys, i, now);
  }

  lemma PrefixGrows(keys: seq<string>, i: nat)
    requires i < |keys|
    ensures forall k :: k in keys[..i + 1] <==> k in keys[..i] || k == keys[i]
  {
    assert keys[..i + 1] == keys[..i] + [keys[i]];
  }

  lemma LiveStep(st: State, keys: seq<string>, i: nat, now: int)
    requires i < |keys|
    ensures LiveKeys(st, keys[..i + 1], now) ==
            LiveKeys(st, keys[..i], now) + (if Lapsed(Held(st, keys[i]), now) then [] else [keys[i]])
  {
    assert keys[..i + 1][..i] == keys[..i];
  }

  lemma NextStart(st: State, keys: seq<string>, now: int)
    ensures NextOver(st, keys[..0], now) == None
  {}

  lemma NextStep(st: State, keys: seq<string>, i: nat, now: int, next: Option<int>)
    requires i < |keys| && next == NextOver(st, keys[..i], now)
    ensures NextOver(st, keys[..i + 1], now) == NextAfter(Held(st, keys[i]), now, next)
  {
    assert keys[..i + 1][..i] == keys[..i];
  }

  lemma ThinDone(st: State, before: Table<SecretState>, after: Table<SecretState>, now: int)
    requires Thinned(st, before, after, before.keys, |before.keys|, now)
    requires st.secrets == Table(before.keys, map s | s in before.at :: before.at[s].id)
    ensures Table(after.keys, map s | s in after.at :: after.at[s].id) == Walk(st, now).secrets
    ensures after.Valid() && forall k :: k in after.at ==> k in before.at && after.at[k] == before.at[k]
  {
    hide NoDup, Lapsed, LiveKeys;
    assert before.keys[..|before.keys|] == before.keys;
    assert forall k :: k in before.at <==> k in before.keys;
  }

  lemma NotDue(st: State, now: int)
    requires st.nextSweep.None? || now < st.nextSweep.value
    ensures M.Sweep(st, now) == st
  {}

  lemma IsWalk(st: State, now: int)
    requires !(st.nextSweep.None? || now < st.nextSweep.value)
    ensures M.Sweep(st, now) == Walk(st, now)
  {}

  lemma EmitAfterWalk(o: Options, st: State, now: int)
    requires st.secrets.Valid()
    ensures M.Emit(o, Walk(st, now), now) == Walk(st, now)
  {
    hide Walk;
    WalkIsOver(st, now);
  }

  lemma Walked(st: State, st': State, now: int)
    requires st' == st.(secrets := Walk(st, now).secrets, nextSweep := NextOver(st, st.secrets.keys, now), sweptAt := Some(now))
    ensures st' == Walk(st, now)
  {}

  /** One turn on the keys. */
  lemma SweepOne(st: State, keys: seq<string>, i: nat, now: int)
    requires NoDup(keys) && i < |keys|
    ensures keys[..i + 1][..i] == keys[..i] && keys[..i + 1] == keys[..i] + [keys[i]] && keys[i..] == [keys[i]] + keys[i + 1..]
    ensures keys[i] !in keys[..i]
    ensures var live := LiveKeys(st, keys[..i], now);
            Without(live + keys[i..], keys[i]) == live + keys[i + 1..]
  {
    var live := LiveKeys(st, keys[..i], now);
    assert keys[i..] == [keys[i]] + keys[i + 1..];
    assert keys[i] !in keys[i + 1..];
    WithoutMiddle(live, keys[i], keys[i + 1..]);
    assert live + keys[i..] == live + [keys[i]] + keys[i + 1..];
  }

  lemma {:induction false} WithoutMiddle(a: seq<string>, x: string, b: seq<string>)
    requires x !in a && x !in b
    ensures Without(a + [x] + b, x) == a + b
  {
    if b == [] {
      assert (a + [x] + b)[..|a|] == a;
      WithoutAbsent(a, x);
      assert a + b == a;
    } else {
      var front, y := b[..|b| - 1], b[|b| - 1];
      WithoutMiddle(a, x, front);
      var whole := a + [x] + b;
      assert whole[..|whole| - 1] == a + [x] + front;
      assert a + b == a + front + [y];
    }
  }

  lemma WalkIsOver(st: State, now: int)
    requires st.secrets.Valid()
    ensures var next := Walk(st, now).nextSweep; next.Some? ==> now < next.value
    ensures M.Sweep(Walk(st, now), now) == Walk(st, now)
  {
    BunkerSweep.WalkTimely(st, now);
  }
}
