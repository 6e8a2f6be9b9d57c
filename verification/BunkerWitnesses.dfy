/**
 * Runs from start-up that show what the conditions of the other modules are for: each ends in an
 * export no process restores, or with two connected clients on one secret.
 */
module BunkerWitnesses {
  import opened Common
  import opened JsMap
  import opened BunkerModel
  import opened BunkerInvariants
  import opened BunkerRuns
  import opened BunkerBindings

  const ROOMY := Options(2, 2, 1, 0, false, true, "key", "bunker", [], x => true)

  const START := Init(ROOMY, 0)

  function Key(c: char): string { seq(64, i => c) }

  lemma KeyKept(c: char)
    requires 'a' <= c <= 'f'
    ensures WellKeyed(Key(c))
  {
    assert Lower(Key(c)) == Key(c);
  }

  lemma OneRelay(url: string)
    ensures Dedupe([url]) == [url]
  {
    DedupeOfNoDup([url]);
  }

  lemma FirstPut<V>(t: Table<V>, k: string, v: V)
    requires t == Empty()
    ensures t.Put(k, v) == Table([k], map[k := v]) && t.Size() == 0 && k !in t.at
  {}

  /** A state but for who listens where and when it last swept, which no step below depends on. */
  function Bare(st: State): State {
    st.(hosts := [], subs := map[], sweptAt := None)
  }

  function World(secrets: Table<nat>, recs: map<nat, Rec>, nextId: nat, clients: Table<Client>,
                 inflight: map<nat, Flight>, nextFlight: nat, approvals: int, admissions: map<string, int>, nextSweep: Option<int>): State {
    State(secrets, recs, nextId, clients, inflight, nextFlight, approvals, admissions, 0, nextSweep, None, [], map[], false, false)
  }

  /** The one secret `s`, held by record `id`. */
  function Held1(id: nat): Table<nat> { Table(["s"], map["s" := id]) }

  function Client1(c: string, url: string): Table<Client> { Table([c], map[c := Client("s", [url], 0)]) }

  // ── Single steps of an unobserved server ──

  function Minted(st: State, url: string, due: Option<int>): State {
    st.(secrets := Held1(st.nextId), recs := st.recs[st.nextId := Rec([url], None, false, 0, true, due)], nextId := st.nextId + 1,
        nextSweep := if due.Some? then Earlier(due.value, st.nextSweep) else st.nextSweep)
  }

  lemma MintsNew(st: State, url: string, life: int, now: int)
    requires st.secrets == Empty()
    ensures MintOn(ROOMY, st, "s", [url], life, now) == (Minted(st, url, if life > 0 then Some(now + life) else None), Done)
  {
    hide Held, Table.Put, Table.Size, Earlier;
    FirstPut(st.secrets, "s", st.nextId);
  }

  lemma Mints(st: State, url: string, ttl: Option<int>, now: int)
    requires Sweep(st, now).secrets == Empty()
    ensures var due := if ttl.Some? && ttl.value > 0 then Some(now + ttl.value) else None;
            var (st', out) := Step(ROOMY, st, Mint("s", [url], ttl), now);
            out == Done && Bare(st') == Minted(Bare(Sweep(st, now)), url, due)
  {
    hide AddHosts, Dedupe, MintOn, Sweep, Earlier;
    OneRelay(url);
    var st0 := Sweep(st, now);
    AddHostsSame(st0, [url]);
    MintsNew(AddHosts(st0, [url]), url, if ttl.Some? then ttl.value else 0, now);
  }

  lemma Connects(st: State, c: string, now: int)
    requires WellKeyed(c) && "s" in st.secrets.at && st.secrets.at["s"] in st.recs
    requires !Lapsed(Held(st, "s"), now) && !OverCeiling(ROOMY, st, c) && Takable(st, "s", c)
    ensures var id := st.secrets.at["s"];
            var r := st.recs[id];
            Step(ROOMY, st, BeginConnect(c, "s"), now) ==
            (BeginApproval(SetRec(st, id, r.(client := Some(c), pending := r.pending + 1)), c, "s", id, r.relays, false), Waiting(st.nextFlight))
  {
    hide Hex64, Lower, OverCeiling, BeginApproval;
  }

  lemma Scans(st: State, c: string, url: string, now: int)
    requires WellKeyed(c) && "s" in st.secrets.at && st.secrets.at["s"] in st.recs
    requires !Lapsed(Held(st, "s"), now) && !OverCeiling(ROOMY, st, c) && Takable(st, "s", c)
    ensures var id := st.secrets.at["s"];
            var r := st.recs[id];
            Step(ROOMY, st, BeginScan(c, "s", [url]), now) ==
            (BeginApproval(SetRec(st, id, r.(client := Some(c), pending := r.pending + 1)), c, "s", id, [url], true), Waiting(st.nextFlight))
  {
    hide Hex64, Lower, OverCeiling, BeginApproval, Dedupe;
    OneRelay(url);
  }

  lemma Approves(st: State, flight: nat, now: int)
    requires flight in st.inflight
    requires var f := st.inflight[flight]; StillHeld(st, f.secret, f.rid) && RoomFor(ROOMY, st, f.client)
    ensures var f := st.inflight[flight];
            var (st', out) := Step(ROOMY, st, Settle(flight, true), now);
            var st1 := Confirm(EndApproval(st, flight), f);
            && out == Admitted(f.client, f.secret, f.rid)
            && Bare(st') == Bare(st1).(clients := st1.clients.Put(f.client, Client(f.secret, Dedupe(f.relays), now)))
  {
    hide Dedupe, ClaimAll, ReleaseAll, Unbind, Unbump;
  }

  lemma Exports(st: State, now: int)
    requires st.nextSweep.None? || now < st.nextSweep.value
    ensures Step(ROOMY, st, Export, now) == (st, Exported(Sign(ROOMY, Snapshot(ROOMY, st))))
  {
    hide Snapshot;
  }

  /** The export of a state that holds `s`, bound to `c`, and at most `c` as a client. */
  lemma Snapshots(st: State, url: string, c: string, confirmed: bool, expiresAt: Option<int>, its: Option<string>)
    requires exists id :: st.secrets == Held1(id) && id in st.recs && st.recs[id] == Record(url, c, confirmed, expiresAt).(pending := st.recs[id].pending)
    requires st.clients == if its.Some? then Client1(c, its.value) else Empty()
    requires st.generation == 0
    ensures Sign(ROOMY, Snapshot(ROOMY, st)) ==
            Saved(Wrote(url, c, confirmed, expiresAt), if its.Some? then [WroteClient(its.value, c)] else [])
  {
    assert ["s"][..0] == [] && [c][..0] == [];
    assert ExportSecrets(st, []) == [] && ExportClients(st, []) == [];
    assert ExportSecrets(st, ["s"]) == [Wrote(url, c, confirmed, expiresAt)];
    if its.Some? { assert ExportClients(st, [c]) == [WroteClient(its.value, c)]; }
  }

  // ── What a process makes of one secret and at most one client ──

  function Wrote(url: string, c: string, confirmed: bool, expiresAt: Option<int>): SecretRecord {
    SecretRecord("s", true, [url], Some(c), confirmed, expiresAt)
  }

  function WroteClient(url: string, c: string): ClientRecord {
    ClientRecord(c, [url], Some("s"), 0)
  }

  function Saved(secret: SecretRecord, clients: seq<ClientRecord>): Blob {
    Sign(ROOMY, Content("bunker", 0, [secret], clients))
  }

  function Record(url: string, c: string, confirmed: bool, expiresAt: Option<int>): Rec {
    Rec([url], Some(c), confirmed, 0, true, expiresAt)
  }

  lemma FirstChecked(url: string, c: string, confirmed: bool, expiresAt: Option<int>, now: int)
    requires WellKeyed(c) && (confirmed || (expiresAt.Some? && now < expiresAt.value))
    ensures CheckSecret(ROOMY, Wrote(url, c, confirmed, expiresAt), Empty(), now) ==
            Good(Table(["s"], map["s" := Record(url, c, confirmed, expiresAt)]))
  {
    hide Dedupe, Hex64, Lower, Table.Put, Empty;
    OneRelay(url);
    FirstPut(Empty<Rec>(), "s", Record(url, c, confirmed, expiresAt));
  }

  lemma OneSecretChecked(url: string, c: string, confirmed: bool, expiresAt: Option<int>, now: int)
    requires WellKeyed(c) && (confirmed || (expiresAt.Some? && now < expiresAt.value))
    ensures CheckSecrets(ROOMY, [Wrote(url, c, confirmed, expiresAt)], now) ==
            Good(Table(["s"], map["s" := Record(url, c, confirmed, expiresAt)]))
  {
    hide CheckSecret;
    var b := Wrote(url, c, confirmed, expiresAt);
    assert [b][..0] == [] && CheckSecrets(ROOMY, [], now) == Good(Empty());
    FirstChecked(url, c, confirmed, expiresAt, now);
  }

  lemma OneClientChecked(url: string, c: string, confirmed: bool, expiresAt: Option<int>, its: string)
    requires WellKeyed(c)
    ensures CheckClients(ROOMY, [WroteClient(its, c)], Table(["s"], map["s" := Record(url, c, confirmed, expiresAt)])) ==
            if !confirmed then Bad(UnbackedClient) else if its != url then Bad(RelaysDiffer) else Good(Client1(c, its))
  {
    hide Dedupe, Hex64, Lower;
    OneRelay(its);
    var one := [WroteClient(its, c)];
    assert one[..0] == [];
    assert Empty<Client>().Put(c, Client("s", [its], 0)) == Client1(c, its);
    SameRelay(url, its);
  }

  lemma SameRelay(a: string, b: string)
    ensures SameRelays([a], [b]) <==> a == b
  {
    assert [a][0] in [b] <==> a == b;
  }

  /** What a restore answers to such a state in a server that fits it. */
  lemma Judged(st: State, url: string, c: string, confirmed: bool, expiresAt: Option<int>, its: Option<string>, now: int)
    requires WellKeyed(c) && (confirmed || (expiresAt.Some? && now < expiresAt.value))
    requires st.approvals == 0 && st.generation == 0
    ensures var clients := if its.Some? then [WroteClient(its.value, c)] else [];
            var plan := Plan(Table(["s"], map["s" := Record(url, c, confirmed, expiresAt)]), if its.Some? then Client1(c, its.value) else Empty());
            Judge(ROOMY, st, Saved(Wrote(url, c, confirmed, expiresAt), clients), false, now) ==
            if its.Some? && !confirmed then Bad(UnbackedClient)
            else if its.Some? && its.value != url then Bad(RelaysDiffer)
            else Fit(ROOMY, st, plan)
  {
    hide Fit, CheckSecrets, CheckClients;
    OneSecretChecked(url, c, confirmed, expiresAt, now);
    if its.Some? { OneClientChecked(url, c, confirmed, expiresAt, its.value); } else { NoClientsChecked(Table(["s"], map["s" := Record(url, c, confirmed, expiresAt)])); }
  }

  lemma NoClientsChecked(secrets: Table<Rec>)
    ensures CheckClients(ROOMY, [], secrets) == Good(Empty())
  {}

  // ── A scan over a `connect` ──

  const ALICE := Key('a')
  const BOB := Key('b')

  function Minted1(): State { World(Held1(0), map[0 := Rec(["r1"], None, false, 0, true, None)], 1, Empty(), map[], 0, 0, map[], None) }

  function ByLink(): Flight { Flight(ALICE, "s", 0, ["r1"], true, false) }

  function ByScan(): Flight { Flight(ALICE, "s", 0, ["r2"], true, true) }

  function Connecting(): State {
    World(Held1(0), map[0 := Rec(["r1"], Some(ALICE), false, 1, true, None)], 1, Empty(), map[0 := ByLink()], 1, 1, map[ALICE := 1], None)
  }

  function BothPending(): State {
    World(Held1(0), map[0 := Rec(["r1"], Some(ALICE), false, 2, true, None)], 1, Empty(),
          map[0 := ByLink(), 1 := ByScan()], 2, 2, map[ALICE := 2], None)
  }

  function Scanned(): State {
    World(Held1(0), map[0 := Rec(["r2"], Some(ALICE), true, 1, true, None)], 1, Client1(ALICE, "r2"),
          map[0 := ByLink()], 2, 1, map[ALICE := 1], None)
  }

  function Clashed(): State {
    World(Held1(0), map[0 := Rec(["r2"], Some(ALICE), true, 0, true, None)], 1, Client1(ALICE, "r1"), map[], 2, 0, map[], None)
  }

  lemma MintStep(st: State)
    requires Bare(st) == START
    ensures Bare(Step(ROOMY, st, Mint("s", ["r1"], None), 0).0) == Minted1()
  {
    hide Step;
    Mints(st, "r1", None, 0);
  }

  lemma ConnectStep(st: State)
    requires Bare(st) == Minted1()
    ensures Bare(Step(ROOMY, st, BeginConnect(ALICE, "s"), 0).0) == Connecting()
  {
    hide Step, WellKeyed, Key;
    KeyKept('a');
    Connects(st, ALICE, 0);
  }

  lemma ScanStep(st: State)
    requires Bare(st) == Connecting()
    ensures Bare(Step(ROOMY, st, BeginScan(ALICE, "s", ["r2"]), 0).0) == BothPending()
  {
    hide Step, WellKeyed, Key;
    KeyKept('a');
    Scans(st, ALICE, "r2", 0);
  }

  lemma ApproveScanStep(st: State)
    requires Bare(st) == BothPending()
    ensures Step(ROOMY, st, Settle(1, true), 0).1.Admitted?
    ensures Bare(Step(ROOMY, st, Settle(1, true), 0).0) == Scanned()
  {
    hide Step, Key;
    Approves(st, 1, 0);
    OneRelay("r2");
    assert Bare(Confirm(EndApproval(st, 1), ByScan())) == Scanned().(clients := Empty());
    assert Empty<Client>().Put(ALICE, Client("s", ["r2"], 0)) == Client1(ALICE, "r2");
  }

  lemma ApproveLinkStep(st: State)
    requires Bare(st) == Scanned()
    ensures Step(ROOMY, st, Settle(0, true), 0).1.Admitted?
    ensures Bare(Step(ROOMY, st, Settle(0, true), 0).0) == Clashed()
  {
    hide Step, Key;
    Approves(st, 0, 0);
    OneRelay("r1");
    assert Bare(Confirm(EndApproval(st, 0), ByLink())) == Clashed().(clients := Client1(ALICE, "r2"));
    assert Client1(ALICE, "r2").Put(ALICE, Client("s", ["r1"], 0)) == Client1(ALICE, "r1");
  }

  /** A secret minted on one relay; a `connect` and a scan of another relay, approved scan first; an export; another process. */
  const SCAN_RUN: seq<Timed> := [
    Timed(Mint("s", ["r1"], None), 0), Timed(BeginConnect(ALICE, "s"), 0), Timed(BeginScan(ALICE, "s", ["r2"]), 0),
    Timed(Settle(1, true), 0), Timed(Settle(0, true), 0), Timed(Export, 0), Timed(Restart, 0),
    Timed(Restore(Saved(Wrote("r2", ALICE, true, None), [WroteClient("r1", ALICE)]), false), 0)]

  lemma ScanRunStates()
    ensures Bare(Before(ROOMY, START, SCAN_RUN, 5)) == Clashed()
    ensures Answer(ROOMY, START, SCAN_RUN, 3).Admitted? && Answer(ROOMY, START, SCAN_RUN, 4).Admitted?
  {
    hide Step, Before, Bare, Key;
    ZeroPrefix(ROOMY, START, SCAN_RUN);
    BareStart();
    forall i | 0 <= i < 5
      ensures Before(ROOMY, START, SCAN_RUN, i + 1) == Step(ROOMY, Before(ROOMY, START, SCAN_RUN, i), SCAN_RUN[i].event, SCAN_RUN[i].now).0 {
      NextState(ROOMY, START, SCAN_RUN, i);
    }
    MintStep(Before(ROOMY, START, SCAN_RUN, 0));
    ConnectStep(Before(ROOMY, START, SCAN_RUN, 1));
    ScanStep(Before(ROOMY, START, SCAN_RUN, 2));
    ApproveScanStep(Before(ROOMY, START, SCAN_RUN, 3));
    ApproveLinkStep(Before(ROOMY, START, SCAN_RUN, 4));
  }

  lemma BareStart()
    ensures Bare(START) == START
  {}

  lemma ClashedExport(st: State)
    requires Bare(st) == Clashed()
    ensures Step(ROOMY, st, Export, 0) == (st, Exported(SCAN_RUN[7].event.blob)) && st.generation == 0
  {
    hide Key, Step, Snapshot, Sign;
    Exports(st, 0);
    assert st.secrets == Held1(0) && 0 in st.recs;
    Snapshots(st, "r2", ALICE, true, None, Some("r1"));
  }

  lemma RestartStep(st: State)
    requires st.generation == 0
    ensures Step(ROOMY, st, Restart, 0).0 == START
  {}

  lemma RefusedStep(st: State, b: Blob, why: Reason)
    requires Judge(ROOMY, st, b, false, 0) == Bad(why)
    ensures Step(ROOMY, st, Restore(b, false), 0) == (st, Refused(why))
  {
    hide Judge;
  }

  /** Both approvals admit the client, and the export they leave is refused by a fresh process. */
  lemma ScanOverConnectIsRefused()
    ensures Answer(ROOMY, START, SCAN_RUN, 3).Admitted? && Answer(ROOMY, START, SCAN_RUN, 4).Admitted?
    ensures Answer(ROOMY, START, SCAN_RUN, 5) == Exported(SCAN_RUN[7].event.blob)
    ensures Answer(ROOMY, START, SCAN_RUN, 7) == Refused(RelaysDiffer)
  {
    hide Before, Judge, Step, Key, Bare, Saved, Wrote, WroteClient, Fit;
    ScanRunStates();
    ClashedExport(Before(ROOMY, START, SCAN_RUN, 5));
    NextState(ROOMY, START, SCAN_RUN, 5);
    RestartStep(Before(ROOMY, START, SCAN_RUN, 6));
    NextState(ROOMY, START, SCAN_RUN, 6);
    KeyKept('a');
    StartIsQuiet();
    Judged(START, "r2", ALICE, true, None, Some("r1"), 0);
    RefusedStep(START, SCAN_RUN[7].event.blob, RelaysDiffer);
  }

  lemma StartIsQuiet()
    ensures START.approvals == 0 && START.generation == 0
  {}

  // ── Restoring twice ──

  function Plan1(url: string, c: string, confirmed: bool, expiresAt: Option<int>, its: Option<string>): Plan {
    Plan(Table(["s"], map["s" := Record(url, c, confirmed, expiresAt)]), if its.Some? then Client1(c, its.value) else Empty())
  }

  /** A fresh process that restored the secret alone. */
  function Took(url: string, c: string, confirmed: bool, expiresAt: Option<int>, clients: Table<Client>): State {
    World(Held1(0), map[0 := Record(url, c, confirmed, expiresAt)], 1, clients, map[], 0, 0, map[], if confirmed then None else expiresAt)
  }

  lemma FitsStart(url: string, c: string, confirmed: bool, expiresAt: Option<int>)
    ensures Fit(ROOMY, START, Plan1(url, c, confirmed, expiresAt, None)) == Good(Plan1(url, c, confirmed, expiresAt, None))
    ensures Fresh(START, ["s"]) == ["s"]
  {
    hide Table.Size, Clashes, Fresh, Absent, Held, Record;
    StartHoldsNothing();
    OneFresh(START);
    NoneAbsent(START);
    var plan := Plan1(url, c, confirmed, expiresAt, None);
    assert !Clashes(START, plan, "s") by { NoClash(plan); }
    var newKeys := set k | k in Fresh(START, plan.secrets.keys) && k !in START.secrets.at;
    assert newKeys == {"s"};
    StartHasRoom();
  }

  lemma OneFresh(st: State)
    ensures Fresh(st, ["s"]) == if Held(st, "s").client.None? then ["s"] else []
  {
    hide Held;
    assert ["s"][..0] == [] && Fresh(st, []) == [];
  }

  lemma NoneAbsent(st: State)
    ensures Absent(st, []) == []
  {}

  lemma NoClash(plan: Plan)
    ensures !Clashes(START, plan, "s")
  {}

  lemma StartHoldsNothing()
    ensures Held(START, "s").client == None
  {}

  lemma StartHasRoom()
    ensures START.secrets.Size() == 0 && START.clients.Size() == 0 && START.secrets.at == map[] && |START.admissions| == 0
  {}

  lemma TakesFirst(url: string, c: string, confirmed: bool, expiresAt: Option<int>)
    requires WellKeyed(c) && (confirmed || (expiresAt.Some? && 0 < expiresAt.value))
    ensures var (st', out) := Step(ROOMY, START, Restore(Saved(Wrote(url, c, confirmed, expiresAt), []), false), 0);
            out == Restored && Bare(st') == Took(url, c, confirmed, expiresAt, Empty()) && st'.generation == 0
  {
    hide Judge, WellKeyed, Fit, Stored, Fresh, Absent, Schedule, PutSecrets, AdmitAll;
    StartIsQuiet();
    Judged(START, url, c, confirmed, expiresAt, None, 0);
    FitsStart(url, c, confirmed, expiresAt);
    PutsFirst(url, c, confirmed, expiresAt);
    NoneAbsent(START);
    NobodyAdmitted(Took(url, c, confirmed, expiresAt, Empty()), Plan1(url, c, confirmed, expiresAt, None));
  }

  lemma NobodyAdmitted(st: State, plan: Plan)
    ensures AdmitAll(ROOMY, st, plan, [], 0) == st
  {}

  lemma PutsFirst(url: string, c: string, confirmed: bool, expiresAt: Option<int>)
    ensures PutSecrets(START, Plan1(url, c, confirmed, expiresAt, None), ["s"]) == Took(url, c, confirmed, expiresAt, Empty())
  {
    hide Table.Put;
    var plan := Plan1(url, c, confirmed, expiresAt, None);
    assert ["s"][..0] == [] && PutSecrets(START, plan, []) == START;
    FirstPut(START.secrets, "s", START.nextId);
  }

  lemma FitsHeld(st: State, url: string, c: string, confirmed: bool, expiresAt: Option<int>, its: string)
    requires "s" in st.secrets.at && |st.secrets.at| == 1 && Held(st, "s").client == Some(c) && st.clients == Empty() && st.admissions == map[]
    ensures Fit(ROOMY, st, Plan1(url, c, confirmed, expiresAt, Some(its))) == Good(Plan1(url, c, confirmed, expiresAt, Some(its)))
    ensures Fresh(st, ["s"]) == [] && Absent(st, [c]) == [c]
  {
    hide Held;
    OneFresh(st);
    assert [c][..0] == [] && Absent(st, []) == [];
    var newKeys := set k | k in Fresh(st, ["s"]) && k !in st.secrets.at;
    assert newKeys == {};
  }

  /** A second restore keeps memory's secret and seats the state's client. */
  lemma TakesSecond(st: State, url: string, c: string)
    requires WellKeyed(c) && "s" in st.secrets.at && |st.secrets.at| == 1 && Held(st, "s").client == Some(c)
    requires st.clients == Empty() && st.admissions == map[] && st.approvals == 0 && st.generation == 0
    ensures var (st', out) := Step(ROOMY, st, Restore(Saved(Wrote(url, c, true, None), [WroteClient(url, c)]), false), 0);
            out == Restored && Bare(st') == Bare(st).(clients := Client1(c, url))
  {
    hide Judge, WellKeyed, Fit, Held, Dedupe, ClaimAll, ReleaseAll;
    Judged(st, url, c, true, None, Some(url), 0);
    FitsHeld(st, url, c, true, None, url);
    OneRelay(url);
    var plan := Plan1(url, c, true, None, Some(url));
    assert [c][..0] == [] && AdmitAll(ROOMY, st, plan, [], 0) == st;
    assert Empty<Client>().Put(c, Client("s", [url], 0)) == Client1(c, url);
  }

  // ── A client restored over a secret that memory holds with other relays ──

  function Paired(): State {
    World(Held1(0), map[0 := Record("r1", ALICE, true, None)], 1, Client1(ALICE, "r1"), map[], 1, 0, map[], None)
  }

  function Rescanning(): State {
    World(Held1(0), map[0 := Record("r1", ALICE, true, None).(pending := 1)], 1, Empty(), map[1 := ByScan()], 2, 1, map[ALICE := 1], None)
  }

  function Rescanned(): State {
    World(Held1(0), map[0 := Record("r2", ALICE, true, None)], 1, Client1(ALICE, "r2"), map[], 2, 0, map[], None)
  }

  lemma PairStep(st: State)
    requires Bare(st) == Connecting()
    ensures Bare(Step(ROOMY, st, Settle(0, true), 0).0) == Paired()
  {
    hide Step, Key;
    Approves(st, 0, 0);
    OneRelay("r1");
    assert Bare(Confirm(EndApproval(st, 0), ByLink())) == Paired().(clients := Empty());
    assert Empty<Client>().Put(ALICE, Client("s", ["r1"], 0)) == Client1(ALICE, "r1");
  }

  lemma LeaveStep(st: State)
    requires Bare(st) == Paired()
    ensures Bare(Step(ROOMY, st, Disconnect(ALICE), 0).0) == Paired().(clients := Empty())
  {
    hide Key, ReleaseAll;
    assert [ALICE][..0] == [];
    assert Without([ALICE], ALICE) == [];
    assert Client1(ALICE, "r1").Delete(ALICE) == Empty();
  }

  lemma RescanStep(st: State)
    requires Bare(st) == Paired().(clients := Empty())
    ensures Bare(Step(ROOMY, st, BeginScan(ALICE, "s", ["r2"]), 0).0) == Rescanning()
  {
    hide Step, WellKeyed, Key;
    KeyKept('a');
    Scans(st, ALICE, "r2", 0);
  }

  lemma RescannedStep(st: State)
    requires Bare(st) == Rescanning()
    ensures Bare(Step(ROOMY, st, Settle(1, true), 0).0) == Rescanned()
  {
    hide Step, Key;
    Approves(st, 1, 0);
    OneRelay("r2");
    assert Bare(Confirm(EndApproval(st, 1), ByScan())) == Rescanned().(clients := Empty());
    assert Empty<Client>().Put(ALICE, Client("s", ["r2"], 0)) == Client1(ALICE, "r2");
  }

  /** What an idle server exports and what a restart makes of it. */
  lemma ExportStep(st: State, url: string, c: string, confirmed: bool, expiresAt: Option<int>, its: Option<string>)
    requires exists id :: st.secrets == Held1(id) && id in st.recs && st.recs[id] == Record(url, c, confirmed, expiresAt).(pending := st.recs[id].pending)
    requires st.clients == if its.Some? then Client1(c, its.value) else Empty()
    requires st.generation == 0 && (st.nextSweep.None? || 0 < st.nextSweep.value)
    ensures Step(ROOMY, st, Export, 0) ==
            (st, Exported(Saved(Wrote(url, c, confirmed, expiresAt), if its.Some? then [WroteClient(its.value, c)] else [])))
  {
    hide Step, Snapshot, Sign;
    Exports(st, 0);
    Snapshots(st, url, c, confirmed, expiresAt, its);
  }

  /**
   * A pairing is exported after its client left, and again after the client came back by a scan of
   * another relay. A second process restores the one and then the other, and exports; a third is given that.
   */
  const TWICE_RUN: seq<Timed> := [
    Timed(Mint("s", ["r1"], None), 0), Timed(BeginConnect(ALICE, "s"), 0), Timed(Settle(0, true), 0),
    Timed(Disconnect(ALICE), 0), Timed(Export, 0),
    Timed(BeginScan(ALICE, "s", ["r2"]), 0), Timed(Settle(1, true), 0), Timed(Export, 0),
    Timed(Restart, 0), Timed(Restore(Saved(Wrote("r1", ALICE, true, None), []), false), 0),
    Timed(Restore(Saved(Wrote("r2", ALICE, true, None), [WroteClient("r2", ALICE)]), false), 0), Timed(Export, 0),
    Timed(Restart, 0), Timed(Restore(Saved(Wrote("r1", ALICE, true, None), [WroteClient("r2", ALICE)]), false), 0)]

  lemma RunOn(run: seq<Timed>, n: nat)
    requires n <= |run|
    ensures Before(ROOMY, START, run, 0) == START
    ensures forall i :: 0 <= i < n ==> Before(ROOMY, START, run, i + 1) == Step(ROOMY, Before(ROOMY, START, run, i), run[i].event, run[i].now).0
  {
    hide Before, Step;
    ZeroPrefix(ROOMY, START, run);
    forall i | 0 <= i < n ensures Before(ROOMY, START, run, i + 1) == Step(ROOMY, Before(ROOMY, START, run, i), run[i].event, run[i].now).0 {
      NextState(ROOMY, START, run, i);
    }
  }

  lemma LeftExport(st: State)
    requires Bare(st) == Paired().(clients := Empty())
    ensures Step(ROOMY, st, Export, 0) == (st, Exported(Saved(Wrote("r1", ALICE, true, None), [])))
  {
    hide Step, Key, Saved;
    assert st.secrets == Held1(0) && 0 in st.recs;
    ExportStep(st, "r1", ALICE, true, None, None);
  }

  lemma RescannedExport(st: State)
    requires Bare(st) == Rescanned()
    ensures Step(ROOMY, st, Export, 0) == (st, Exported(Saved(Wrote("r2", ALICE, true, None), [WroteClient("r2", ALICE)])))
    ensures st.generation == 0
  {
    hide Step, Key, Saved;
    assert st.secrets == Held1(0) && 0 in st.recs;
    ExportStep(st, "r2", ALICE, true, None, Some("r2"));
  }

  lemma TwiceBegun()
    ensures Bare(Before(ROOMY, START, TWICE_RUN, 5)) == Paired().(clients := Empty())
    ensures Answer(ROOMY, START, TWICE_RUN, 4) == Exported(TWICE_RUN[9].event.blob)
  {
    hide Step, Before, Bare, Key, Saved, Wrote, WroteClient, Paired, Connecting, Minted1;
    RunOn(TWICE_RUN, 5);
    BareStart();
    MintStep(Before(ROOMY, START, TWICE_RUN, 0));
    ConnectStep(Before(ROOMY, START, TWICE_RUN, 1));
    PairStep(Before(ROOMY, START, TWICE_RUN, 2));
    LeaveStep(Before(ROOMY, START, TWICE_RUN, 3));
    LeftExport(Before(ROOMY, START, TWICE_RUN, 4));
  }

  lemma TwiceFirst()
    ensures Before(ROOMY, START, TWICE_RUN, 8).generation == 0
    ensures Answer(ROOMY, START, TWICE_RUN, 4) == Exported(TWICE_RUN[9].event.blob)
    ensures Answer(ROOMY, START, TWICE_RUN, 7) == Exported(TWICE_RUN[10].event.blob)
  {
    hide Step, Before, Bare, Key, Saved, Wrote, WroteClient, Paired, Rescanned, Rescanning;
    TwiceBegun();
    RunOn(TWICE_RUN, 8);
    RescanStep(Before(ROOMY, START, TWICE_RUN, 5));
    RescannedStep(Before(ROOMY, START, TWICE_RUN, 6));
    RescannedExport(Before(ROOMY, START, TWICE_RUN, 7));
  }

  lemma TwiceSecond()
    ensures Answer(ROOMY, START, TWICE_RUN, 9) == Restored && Answer(ROOMY, START, TWICE_RUN, 10) == Restored
    ensures Answer(ROOMY, START, TWICE_RUN, 11) == Exported(TWICE_RUN[13].event.blob)
    ensures Bare(Before(ROOMY, START, TWICE_RUN, 11)) == Took("r1", ALICE, true, None, Client1(ALICE, "r2"))
    ensures Before(ROOMY, START, TWICE_RUN, 12) == Before(ROOMY, START, TWICE_RUN, 11)
  {
    hide Step, Before, Key, WellKeyed, Saved, Wrote, WroteClient;
    TwiceFirst();
    RunOn(TWICE_RUN, 12);
    KeyKept('a');
    RestartStep(Before(ROOMY, START, TWICE_RUN, 8));
    TakesFirst("r1", ALICE, true, None);
    var st := Before(ROOMY, START, TWICE_RUN, 10);
    assert st.secrets == Held1(0);
    TakesSecond(st, "r2", ALICE);
    var later := Before(ROOMY, START, TWICE_RUN, 11);
    assert later.secrets == Held1(0) && 0 in later.recs;
    ExportStep(later, "r1", ALICE, true, None, Some("r2"));
  }

  /** Every export of the run is genuine and both restores are accepted; what the second process then exports is refused. */
  lemma RestoreOverBoundIsRefused()
    ensures Answer(ROOMY, START, TWICE_RUN, 4) == Exported(TWICE_RUN[9].event.blob)
    ensures Answer(ROOMY, START, TWICE_RUN, 7) == Exported(TWICE_RUN[10].event.blob)
    ensures Answer(ROOMY, START, TWICE_RUN, 9) == Restored && Answer(ROOMY, START, TWICE_RUN, 10) == Restored
    ensures Answer(ROOMY, START, TWICE_RUN, 11) == Exported(TWICE_RUN[13].event.blob)
    ensures Answer(ROOMY, START, TWICE_RUN, 13) == Refused(RelaysDiffer)
  {
    hide Before, Judge, Step, Key, Saved, Wrote, WroteClient, Fit;
    TwiceFirst();
    TwiceSecond();
    RestartStep(Before(ROOMY, START, TWICE_RUN, 12));
    NextState(ROOMY, START, TWICE_RUN, 12);
    KeyKept('a');
    StartIsQuiet();
    Judged(START, "r1", ALICE, true, None, Some("r2"), 0);
    RefusedStep(START, TWICE_RUN[13].event.blob, RelaysDiffer);
  }

  // ── A client restored over a half-bound secret, and what it comes to ──

  function MintedBriefly(): State {
    World(Held1(0), map[0 := Rec(["r1"], None, false, 0, true, Some(10))], 1, Empty(), map[], 0, 0, map[], Some(10))
  }

  function ConnectingBriefly(): State {
    World(Held1(0), map[0 := Record("r1", ALICE, false, Some(10)).(pending := 1)], 1, Empty(), map[0 := ByLink()], 1, 1, map[ALICE := 1], Some(10))
  }

  function PairedBriefly(): State {
    Paired().(nextSweep := Some(10))
  }

  /** ALICE is connected over a secret that is bound to her and not confirmed. */
  function HalfBound(): State { Took("r1", ALICE, false, Some(10), Client1(ALICE, "r1")) }

  function Reminted(): State {
    World(Held1(1), map[0 := Record("r1", ALICE, false, Some(10)), 1 := Rec(["r1"], None, false, 0, true, None)], 2,
          Client1(ALICE, "r1"), map[], 0, 0, map[], None)
  }

  function ByBob(): Flight { Flight(BOB, "s", 1, ["r1"], true, false) }

  function BobConnecting(): State {
    World(Held1(1), map[0 := Record("r1", ALICE, false, Some(10)), 1 := Record("r1", BOB, false, None).(pending := 1)], 2,
          Client1(ALICE, "r1"), map[0 := ByBob()], 1, 1, map[BOB := 1], None)
  }

  lemma BriefMintStep(st: State)
    requires Bare(st) == START
    ensures Bare(Step(ROOMY, st, Mint("s", ["r1"], Some(10)), 0).0) == MintedBriefly()
  {
    hide Step;
    Mints(st, "r1", Some(10), 0);
  }

  lemma BriefConnectStep(st: State)
    requires Bare(st) == MintedBriefly()
    ensures Bare(Step(ROOMY, st, BeginConnect(ALICE, "s"), 0).0) == ConnectingBriefly()
  {
    hide Step, WellKeyed, Key;
    KeyKept('a');
    Connects(st, ALICE, 0);
  }

  lemma BriefPairStep(st: State)
    requires Bare(st) == ConnectingBriefly()
    ensures Bare(Step(ROOMY, st, Settle(0, true), 0).0) == PairedBriefly()
  {
    hide Step, Key;
    Approves(st, 0, 0);
    OneRelay("r1");
    assert Bare(Confirm(EndApproval(st, 0), ByLink())) == PairedBriefly().(clients := Empty());
    assert Empty<Client>().Put(ALICE, Client("s", ["r1"], 0)) == Client1(ALICE, "r1");
  }

  lemma LapsedSweep(st: State)
    requires Bare(st) == HalfBound()
    ensures var st' := Sweep(st, 20);
            st'.secrets == Empty() && Bare(st') == HalfBound().(secrets := Empty(), nextSweep := None)
  {
    hide Key;
    assert ["s"][..0] == [];
    assert LiveKeys(st, [], 20) == [] && NextOver(st, [], 20) == None;
    assert Lapsed(Held(st, "s"), 20);
    assert LiveKeys(st, ["s"], 20) == [] && NextOver(st, ["s"], 20) == None;
  }

  lemma RemintStep(st: State)
    requires Bare(st) == HalfBound()
    ensures Bare(Step(ROOMY, st, Mint("s", ["r1"], None), 20).0) == Reminted()
  {
    hide Step, Key, Sweep;
    LapsedSweep(st);
    Mints(st, "r1", None, 20);
  }

  lemma BobConnectStep(st: State)
    requires Bare(st) == Reminted()
    ensures Bare(Step(ROOMY, st, BeginConnect(BOB, "s"), 20).0) == BobConnecting()
  {
    hide Step, WellKeyed, Key;
    KeyKept('b');
    TwoKeys();
    Connects(st, BOB, 20);
  }

  lemma TwoKeys()
    ensures ALICE != BOB
  {
    assert ALICE[0] != BOB[0];
  }

  lemma BobPairStep(st: State)
    requires Bare(st) == BobConnecting()
    ensures Step(ROOMY, st, Settle(0, true), 20).1 == Admitted(BOB, "s", 1)
    ensures Step(ROOMY, st, Settle(0, true), 20).0.clients.at == map[ALICE := Client("s", ["r1"], 0), BOB := Client("s", ["r1"], 20)]
  {
    hide Step, Key;
    TwoKeys();
    Approves(st, 0, 20);
    OneRelay("r1");
  }

  /**
   * A secret with a short life is exported while its approval is pending, and again once its client is
   * paired. A second process restores the one and then the other. Later the secret lapses, is minted
   * again, and another client pairs with it.
   */
  const HALF_RUN: seq<Timed> := [
    Timed(Mint("s", ["r1"], Some(10)), 0), Timed(BeginConnect(ALICE, "s"), 0), Timed(Export, 0), Timed(Settle(0, true), 0), Timed(Export, 0),
    Timed(Restart, 0), Timed(Restore(Saved(Wrote("r1", ALICE, false, Some(10)), []), false), 0),
    Timed(Restore(Saved(Wrote("r1", ALICE, true, None), [WroteClient("r1", ALICE)]), false), 0),
    Timed(Mint("s", ["r1"], None), 20), Timed(BeginConnect(BOB, "s"), 20), Timed(Settle(0, true), 20)]

  lemma PendingExport(st: State)
    requires Bare(st) == ConnectingBriefly()
    ensures Step(ROOMY, st, Export, 0) == (st, Exported(Saved(Wrote("r1", ALICE, false, Some(10)), [])))
  {
    hide Step, Key, Saved;
    assert st.secrets == Held1(0) && 0 in st.recs;
    ExportStep(st, "r1", ALICE, false, Some(10), None);
  }

  lemma PairedExport(st: State)
    requires Bare(st) == PairedBriefly()
    ensures Step(ROOMY, st, Export, 0) == (st, Exported(Saved(Wrote("r1", ALICE, true, None), [WroteClient("r1", ALICE)])))
    ensures st.generation == 0
  {
    hide Step, Key, Saved;
    assert st.secrets == Held1(0) && 0 in st.recs;
    ExportStep(st, "r1", ALICE, true, None, Some("r1"));
  }

  lemma HalfFirst()
    ensures Before(ROOMY, START, HALF_RUN, 5).generation == 0
    ensures Answer(ROOMY, START, HALF_RUN, 2) == Exported(HALF_RUN[6].event.blob)
    ensures Answer(ROOMY, START, HALF_RUN, 4) == Exported(HALF_RUN[7].event.blob)
  {
    hide Step, Before, Bare, Key, Saved, Wrote, WroteClient, MintedBriefly, ConnectingBriefly, PairedBriefly;
    RunOn(HALF_RUN, 5);
    BareStart();
    BriefMintStep(Before(ROOMY, START, HALF_RUN, 0));
    BriefConnectStep(Before(ROOMY, START, HALF_RUN, 1));
    PendingExport(Before(ROOMY, START, HALF_RUN, 2));
    BriefPairStep(Before(ROOMY, START, HALF_RUN, 3));
    PairedExport(Before(ROOMY, START, HALF_RUN, 4));
  }

  lemma HalfSecond()
    ensures Answer(ROOMY, START, HALF_RUN, 6) == Restored && Answer(ROOMY, START, HALF_RUN, 7) == Restored
    ensures Bare(Before(ROOMY, START, HALF_RUN, 8)) == HalfBound()
  {
    hide Step, Before, Key, WellKeyed, Saved, Wrote, WroteClient;
    HalfFirst();
    RunOn(HALF_RUN, 8);
    KeyKept('a');
    RestartStep(Before(ROOMY, START, HALF_RUN, 5));
    TakesFirst("r1", ALICE, false, Some(10));
    var st := Before(ROOMY, START, HALF_RUN, 7);
    assert st.secrets == Held1(0);
    TakesSecond(st, "r1", ALICE);
  }

  lemma HalfBoundUnbacked(st: State)
    requires Bare(st) == HalfBound()
    ensures !Backed(st)
  {
    hide Key;
    assert ALICE in st.clients.at;
  }

  /** Both exports are genuine and both restores are accepted, and the client connected then is not backed by her secret. */
  lemma HalfBoundRestoreUnbacks()
    ensures Answer(ROOMY, START, HALF_RUN, 2) == Exported(HALF_RUN[6].event.blob)
    ensures Answer(ROOMY, START, HALF_RUN, 4) == Exported(HALF_RUN[7].event.blob)
    ensures Answer(ROOMY, START, HALF_RUN, 6) == Restored && Answer(ROOMY, START, HALF_RUN, 7) == Restored
    ensures !Backed(Before(ROOMY, START, HALF_RUN, 8))
  {
    hide Before, Step, Key, Backed, Bare;
    HalfFirst();
    HalfSecond();
    HalfBoundUnbacked(Before(ROOMY, START, HALF_RUN, 8));
  }

  /** From there on, two clients come to be connected over one secret. */
  lemma TwoClientsOneSecret()
    ensures var st := Before(ROOMY, START, HALF_RUN, 11);
            && ALICE != BOB && ALICE in st.clients.at && BOB in st.clients.at
            && st.clients.at[ALICE].secret == st.clients.at[BOB].secret == "s"
  {
    hide Before, Step, Key, Bare;
    HalfSecond();
    TwoKeys();
    RunOn(HALF_RUN, 11);
    RemintStep(Before(ROOMY, START, HALF_RUN, 8));
    BobConnectStep(Before(ROOMY, START, HALF_RUN, 9));
    BobPairStep(Before(ROOMY, START, HALF_RUN, 10));
  }
}
