/**
 * A confirmed secret outlasts everything but its own revocation. What that means for a scan by a key
 * that is no point of the curve: its record blocks every export until someone revokes it.
 */
module BunkerFirm {
  import opened Common
  import opened JsMap
  import opened BunkerModel
  import opened BunkerInvariants
  import opened BunkerRestore
  import opened BunkerRuns
  import opened BunkerBindings
  import opened BunkerRoundTrip

  /** If `s` was confirmed, it is still held by the same record, and confirmed. */
  ghost predicate Firm(st: State, st': State, s: string) {
    s in st.secrets.at && Held(st, s).confirmed ==> StillHeld(st', s, st.secrets.at[s]) && Held(st', s).confirmed
  }

  lemma FirmTransitive(a: State, b: State, c: State, s: string)
    requires Firm(a, b, s) && Firm(b, c, s)
    ensures Firm(a, c, s)
  {}

  lemma SameFirm(st: State, st': State, s: string)
    requires st'.secrets == st.secrets && st'.recs == st.recs
    ensures Firm(st, st', s)
  {}

  lemma ForgetsFirm(st: State, st': State, s: string)
    requires Forgets(st, st')
    ensures Firm(st, st', s)
  {
    hide NoDup;
  }

  lemma EmitFirm(o: Options, st: State, now: int, s: string)
    requires st.secrets.Valid()
    ensures Firm(st, Emit(o, st, now), s)
  {
    hide Emit, Forgets, Firm;
    EmitForgets(o, st, now);
    ForgetsFirm(st, Emit(o, st, now), s);
  }

  lemma SetRecFirm(st: State, id: nat, r: Rec, s: string)
    requires RecOf(st, id).confirmed ==> r.confirmed
    ensures Firm(st, SetRec(st, id, r), s)
  {}

  lemma StoredFirm(st: State, secret: string, r: Rec, s: string)
    requires Shape(st) && secret !in st.secrets.at
    ensures Firm(st, Stored(st, secret, r), s)
  {
    hide NoDup;
  }

  lemma MintFirm(o: Options, st: State, secret: string, urls: seq<string>, life: int, now: int, s: string)
    requires Core(o, st, None)
    ensures Firm(st, MintOn(o, st, secret, urls, life, now).0, s)
  {
    hide Core, Firm, Emit, Stored, SetRec, Follows, Later;
    SameFirm(st, st, s);
    if secret in st.secrets.at {
      SetRecFirm(st, st.secrets.at[secret], Held(st, secret).(relays := urls), s);
      var st1 := Redisplayed(st, secret, urls);
      RedisplayedValid(o, st, secret, urls);
      EmitFirm(o, st1, now, s);
      FirmTransitive(st, st1, Emit(o, st1, now), s);
    } else if st.secrets.Size() < o.maxSecrets {
      NewFirm(o, st, secret, urls, life, now, s);
    }
  }

  lemma RedisplayedValid(o: Options, st: State, secret: string, urls: seq<string>)
    requires Core(o, st, None) && secret in st.secrets.at
    ensures Redisplayed(st, secret, urls).secrets.Valid()
  {}

  lemma NewFirm(o: Options, st: State, secret: string, urls: seq<string>, life: int, now: int, s: string)
    requires Core(o, st, None) && secret !in st.secrets.at && st.secrets.Size() < o.maxSecrets
    ensures Firm(st, MintOn(o, st, secret, urls, life, now).0, s)
  {
    hide PendingExact, SlotsExact, FlightsBound, ConfirmedBound, WithinCeilings, Firm, Emit, Stored, NoDup;
    var due := if life > 0 then Some(now + life) else None;
    var st1 := if due.Some? then Schedule(st, due.value) else st;
    SameFirm(st, st1, s);
    var r := Rec(urls, None, false, 0, true, due);
    StoredFirm(st1, secret, r, s);
    var st2 := Stored(st1, secret, r);
    StoredValid(st1, secret, r);
    EmitFirm(o, st2, now, s);
    FirmTransitive(st, st1, st2, s);
    FirmTransitive(st, st2, Emit(o, st2, now), s);
  }

  lemma StoredValid(st: State, secret: string, r: Rec)
    requires st.secrets.Valid()
    ensures Stored(st, secret, r).secrets.Valid()
  {}

  lemma BindFirm(o: Options, st: State, secret: string, client: string, relays: seq<string>, now: int, s: string)
    requires Core(o, st, None) && (secret in st.secrets.at || st.secrets.Size() < o.maxSecrets)
    ensures Firm(st, Bind(o, st, secret, client, relays, now), s)
  {
    hide PendingExact, SlotsExact, FlightsBound, ConfirmedBound, WithinCeilings, Firm, Emit, Stored, SetRec, NoDup;
    var fresh_ := Rec(relays, None, false, 0, false, None);
    var st1 := Readied(st, secret, relays);
    SameFirm(st, st, s);
    if secret !in st.secrets.at {
      StoredFirm(st, secret, fresh_, s);
      StoredValid(st, secret, fresh_);
    }
    BindIsSet(o, st, secret, client, relays, now);
    var id := BindId(st, secret);
    var r := RecOf(st1, id).(client := Some(client), pending := RecOf(st1, id).pending + 1);
    SetRecFirm(st1, id, r, s);
    var st2 := SetRec(st1, id, r);
    SetRecValid(st1, id, r);
    EmitFirm(o, st2, now, s);
    FirmTransitive(st, st1, st2, s);
    FirmTransitive(st, st2, Emit(o, st2, now), s);
  }

  lemma SetRecValid(st: State, id: nat, r: Rec)
    ensures SetRec(st, id, r).secrets == st.secrets
  {}

  lemma BindIsSet(o: Options, st: State, secret: string, client: string, relays: seq<string>, now: int)
    ensures var st1, id := Readied(st, secret, relays), BindId(st, secret);
            Bind(o, st, secret, client, relays, now) ==
            Emit(o, SetRec(st1, id, RecOf(st1, id).(client := Some(client), pending := RecOf(st1, id).pending + 1)), now)
  {
    hide Emit;
  }

  lemma BeginFirm(o: Options, st: State, e: Event, now: int, s: string)
    requires Core(o, st, None) && (e.BeginConnect? || e.BeginScan?)
    ensures Firm(st, Step(o, st, e, now).0, s)
  {
    hide Core, Firm, DropIfLapsed, Bind, Follows, Hex64, Lower, OverCeiling, Takable, Dedupe, Forgets;
    DropIfLapsedKeeps(o, st, e.secret, now);
    CoreValid(o, st, None);
    DropIfLapsedForgets(o, st, e.secret, now);
    var st1 := DropIfLapsed(o, st, e.secret, now);
    ForgetsFirm(st, st1, s);
    SameFirm(st, st, s);
    var (st', out) := Step(o, st, e, now);
    if out.Waiting? {
      var relays := if e.BeginScan? then Dedupe(e.relays) else [];
      BindFirm(o, st1, e.secret, e.client, relays, now, s);
      var st2 := Bind(o, st1, e.secret, e.client, relays, now);
      SameFirm(st2, st', s);
      FirmTransitive(st, st1, st2, s);
      FirmTransitive(st, st2, st', s);
    }
  }

  lemma UnbindFirm(o: Options, st: State, secret: string, id: nat, now: int, s: string)
    requires st.secrets.Valid()
    ensures Firm(st, Unbind(o, st, secret, id, now), s)
  {
    hide Firm, Emit, Freed, SetRec, NoDup;
    UnbindIsFreed(o, st, secret, id, now);
    var r := RecOf(st, id);
    SetRecFirm(st, id, r.(pending := r.pending - 1), s);
    if r.pending - 1 <= 0 && !r.confirmed {
      FreedFirm(st, secret, id, s);
      EmitFirm(o, Freed(st, secret, id), now, s);
      FirmTransitive(st, Freed(st, secret, id), Emit(o, Freed(st, secret, id), now), s);
    }
  }

  lemma FreedFirm(st: State, secret: string, id: nat, s: string)
    requires st.secrets.Valid() && !RecOf(st, id).confirmed
    ensures Firm(st, Freed(st, secret, id), s) && Freed(st, secret, id).secrets.Valid()
  {
    hide NoDup;
  }

  lemma ConfirmFirm(st: State, f: Flight, s: string)
    ensures Firm(st, Confirm(st, f), s) && Confirm(st, f).secrets == st.secrets
  {}

  lemma SettleFirm(o: Options, st: State, flight: nat, approved: bool, now: int, s: string)
    requires Core(o, st, None)
    ensures Firm(st, SettleFlight(o, st, flight, approved, now).0, s)
  {
    hide Core, Firm, Unbind, Admit, Confirm, SetRec, Unbump, RoomFor, RecOf;
    SameFirm(st, st, s);
    if flight in st.inflight {
      var f := st.inflight[flight];
      var st1 := EndApproval(st, flight);
      SameFirm(st, st1, s);
      CoreValid(o, st, None);
      UnbindFirm(o, st1, f.secret, f.rid, now, s);
      FirmTransitive(st, st1, Unbind(o, st1, f.secret, f.rid, now), s);
      var r := RecOf(st1, f.rid);
      SetRecFirm(st1, f.rid, r.(pending := r.pending - 1), s);
      FirmTransitive(st, st1, SetRec(st1, f.rid, r.(pending := r.pending - 1)), s);
      var st2 := Confirm(st1, f);
      ConfirmFirm(st1, f, s);
      FirmTransitive(st, st1, st2, s);
      AdmitFirm(o, st2, f.client, f.secret, f.relays, now, s);
      FirmTransitive(st, st2, Admit(o, st2, f.client, f.secret, f.relays, now, now, false), s);
    }
  }

  lemma AdmitFirm(o: Options, st: State, client: string, secret: string, raw: seq<string>, now: int, s: string)
    requires st.secrets.Valid()
    ensures Firm(st, Admit(o, st, client, secret, raw, now, now, false), s)
  {
    hide Firm, Emit, Dedupe, ReleaseAll, ClaimAll;
    var st1 := Seated(st, client, secret, raw, now);
    SameFirm(st, st1, s);
    EmitFirm(o, st1, now, s);
    FirmTransitive(st, st1, Emit(o, st1, now), s);
    SameFirm(Emit(o, st1, now), Admit(o, st, client, secret, raw, now, now, false), s);
    FirmTransitive(st, Emit(o, st1, now), Admit(o, st, client, secret, raw, now, now, false), s);
  }

  lemma DropFirm(o: Options, st: State, client: string, now: int, s: string)
    requires st.secrets.Valid()
    ensures Firm(st, Drop(o, st, client, now), s)
  {
    hide Firm, Emit, ReleaseAll;
    SameFirm(st, st, s);
    if client in st.clients.at {
      var st1 := Left(st, client);
      SameFirm(st, st1, s);
      EmitFirm(o, st1, now, s);
      FirmTransitive(st, st1, Emit(o, st1, now), s);
    }
  }

  lemma RevokeFirm(o: Options, st: State, secret: string, now: int, s: string)
    requires st.secrets.Valid() && secret != s
    ensures Firm(st, RevokeSecret(o, st, secret, now).0, s)
  {
    hide Firm, Emit, ReleaseAll;
    SameFirm(st, st, s);
    if secret in st.secrets.at {
      RevokeIsPurge(o, st, secret, now);
      PurgedFirm(st, secret, s);
      EmitFirm(o, Purged(st, secret), now, s);
      FirmTransitive(st, Purged(st, secret), Emit(o, Purged(st, secret), now), s);
    }
  }

  lemma PurgedFirm(st: State, secret: string, s: string)
    requires st.secrets.Valid() && secret != s
    ensures Firm(st, Purged(st, secret), s) && Purged(st, secret).secrets.Valid()
  {
    hide ReleaseAll, NoDup;
  }

  lemma RestoreFirm(o: Options, st: State, b: Blob, allowUnsigned: bool, now: int, s: string)
    requires Core(o, st, None)
    ensures Firm(st, RestoreState(o, st, b, allowUnsigned, now).0, s)
  {
    hide Core, Later, Follows, Judge, Emit, Fit, PutSecrets, AdmitAll, Applied, RecOf;
    var verdict := Judge(o, st, b, allowUnsigned, now);
    if verdict.Good? && s in st.secrets.at && Held(st, s).confirmed {
      JudgedSound(o, st, b, allowUnsigned, now);
      AppliedParts(o, st, verdict.value, StateGeneration(b), now);
      AppliedKeepsMemory(o, st, verdict.value, StateGeneration(b), now);
      var st1 := Applied(o, st, verdict.value, StateGeneration(b), now);
      CoreValid(o, st1, None);
      CoreHeld(o, st, None, s);
      HeldIs(st, s);
      ConfirmedHeld(o, st, None, st.secrets.at[s]);
      EmitFirm(o, st1, now, s);
      AppliedIs(o, st, b, allowUnsigned, now);
    }
  }

  lemma HeldIs(st: State, s: string)
    requires s in st.secrets.at && st.secrets.at[s] in st.recs
    ensures Held(st, s) == st.recs[st.secrets.at[s]]
  {}

  lemma AppliedIs(o: Options, st: State, b: Blob, allowUnsigned: bool, now: int)
    requires Judge(o, st, b, allowUnsigned, now).Good?
    ensures RestoreState(o, st, b, allowUnsigned, now).0 ==
            Emit(o, Applied(o, st, Judge(o, st, b, allowUnsigned, now).value, StateGeneration(b), now), now)
  {
    hide Judge, Emit, PutSecrets, AdmitAll;
  }

  /** No event but the revocation of `s` takes a confirmed `s` away. */
  lemma StepFirm(o: Options, st: State, e: Event, now: int, s: string)
    requires Core(o, st, None) && !e.Restart? && e != Revoke(s)
    ensures Firm(st, Step(o, st, e, now).0, s)
  {
    hide Core, Firm, MintOn, AddHosts, Sweep, Connect, Scan, SettleFlight, RevokeSecret, Drop, RestoreState, ClaimAll, Snapshot, Claim, Dedupe, Follows, Forgets;
    CoreValid(o, st, None);
    match e
    case Mint(secret, relays, ttl) =>
      MintRoom(o, st, secret, relays, ttl, now);
      SweepForgets(st, now);
      var st0 := Sweep(st, now);
      ForgetsFirm(st, st0, s);
      var urls := Dedupe(if relays == [] then st0.hosts else relays);
      AddHostsSame(st0, urls);
      var st1 := AddHosts(st0, urls);
      SameFirm(st0, st1, s);
      FirmTransitive(st, st0, st1, s);
      MintFirm(o, st1, secret, urls, if ttl.Some? then ttl.value else o.secretTtl, now, s);
      FirmTransitive(st, st1, Step(o, st, e, now).0, s);
    case BeginConnect(_, _) => BeginFirm(o, st, e, now, s);
    case BeginScan(_, _, _) => BeginFirm(o, st, e, now, s);
    case Settle(flight, approved) => SettleFirm(o, st, flight, approved, now, s);
    case Revoke(secret) => RevokeFirm(o, st, secret, now, s);
    case Disconnect(client) => DropFirm(o, st, client, now, s);
    case Restore(b, allowUnsigned) => RestoreFirm(o, st, b, allowUnsigned, now, s);
    case Export => SweepForgets(st, now); ForgetsFirm(st, Sweep(st, now), s);
    case AddRelay(url) => SameFirm(st, AddHost(st, url), s);
    case Start => SameFirm(st, Step(o, st, e, now).0, s);
    case Stop => SameFirm(st, Step(o, st, e, now).0, s);
  }

  /**
   * In any run of one process: a confirmed secret stays held by the same record, confirmed and bound
   * to the same client, for as long as it is not revoked.
   */
  lemma {:induction false} ConfirmedStays(o: Options, st: State, run: seq<Timed>, i: nat, j: nat, s: string)
    requires Core(o, st, None) && OneProcess(run) && i <= j <= |run|
    requires s in Before(o, st, run, i).secrets.at && Held(Before(o, st, run, i), s).confirmed
    requires forall k :: i <= k < j ==> run[k].event != Revoke(s)
    ensures var a, b := Before(o, st, run, i), Before(o, st, run, j);
            StillHeld(b, s, a.secrets.at[s]) && Held(b, s).confirmed && Held(b, s).client == Held(a, s).client
    decreases j
  {
    hide Core, Step, Later;
    if i < j {
      ConfirmedStays(o, st, run, i, j - 1, s);
      var before := Before(o, st, run, j - 1);
      RunKeepsCore(o, st, run, j - 1);
      NextState(o, st, run, j - 1);
      var e, now := run[j - 1].event, run[j - 1].now;
      StepFirm(o, before, e, now, s);
      StepKeeps(o, before, e, now);
      CoreHeld(o, before, None, s);
      LaterClient(before, Step(o, before, e, now).0, s);
    }
  }

  lemma LaterClient(st: State, st': State, s: string)
    requires Later(st, st') && s in st.secrets.at && st.secrets.at[s] in st.recs && Held(st, s).confirmed
    requires StillHeld(st', s, st.secrets.at[s])
    ensures Held(st', s).client == Held(st, s).client
  {}

  // ── A scan by a key off the curve ──

  /** All that a restore asks of a state, but for the key `secret` is bound to. */
  ghost predicate PortableBut(o: Options, st: State, secret: string) {
    && (forall s :: s in st.secrets.at && s != secret ==> GoodRecord(o, s, Held(st, s)))
    && (secret in st.secrets.at ==> GoodRecord(o, secret, Held(st, secret).(client := None)))
    && (forall c :: c in st.clients.at ==> GoodClient(o, st, c))
  }

  lemma ScanBinds(o: Options, st: State, client: string, secret: string, raw: seq<string>, now: int)
    requires Core(o, st, None) && Scan(o, st, client, secret, raw, now).1.Waiting?
    ensures var st' := Scan(o, st, client, secret, raw, now).0;
            secret in st'.secrets.at && Held(st', secret).client == Some(client) && WellKeyed(client)
  {
    hide Core, Follows, DropIfLapsed, Bind, Hex64, Lower, OverCeiling, Dedupe;
    DropIfLapsedKeeps(o, st, secret, now);
    BindKeeps(o, DropIfLapsed(o, st, secret, now), secret, client, Dedupe(raw), now);
  }

  lemma StickyKeyed(st: State, st': State)
    requires Keyed(st) && Sticky(st, st')
    ensures Keyed(st')
  {
    hide WellKeyed;
  }

  /**
   * While a scan waits for its approval, the server's export is restorable if and only if the rest of
   * it is and the scanned key is a point of the curve.
   */
  lemma ScanNeedsCurve(o: Options, st: State, client: string, secret: string, raw: seq<string>, now: int, later: int)
    requires Core(o, st, None) && Backed(st) && Keyed(st) && st.generation >= 0
    requires Scan(o, st, client, secret, raw, now).1.Waiting?
    ensures var st' := Scan(o, st, client, secret, raw, now).0;
            RestoreState(o, Init(o, st'.generation), Sign(o, Snapshot(o, st')), false, later).1 == Restored <==>
            PortableBut(o, st', secret) && o.onCurve(client)
  {
    hide Core, Backed, Keyed, Scan, Sticky, Follows, Later, RestoreState, Snapshot, Judge, Validate, GoodClient, Portable, PortableBut;
    ScanBinds(o, st, client, secret, raw, now);
    var st' := Scan(o, st, client, secret, raw, now).0;
    ScanKeeps(o, st, client, secret, raw, now);
    FollowsBacked(st, st');
    BeginSticky(o, st, BeginScan(client, secret, raw), now);
    StickyKeyed(st, st');
    ApprovalGeneration(o, st, BeginScan(client, secret, raw), now);
    PortableByKey(o, st', secret, client);
    ExportIsAccepted(o, st', later);
  }

  lemma PortableByKey(o: Options, st: State, secret: string, client: string)
    requires secret in st.secrets.at && Held(st, secret).client == Some(client)
    ensures Portable(o, st) <==> PortableBut(o, st, secret) && o.onCurve(client)
  {
    hide Held, GoodClient, Dedupe;
    assert GoodRecord(o, secret, Held(st, secret)) <==>
           GoodRecord(o, secret, Held(st, secret).(client := None)) && o.onCurve(client);
  }

  lemma {:induction false} OffCurveIsBad(o: Options, list: seq<SecretRecord>, i: nat, now: int)
    requires i < |list| && list[i].client.Some? && !o.onCurve(Lower(list[i].client.value))
    ensures CheckSecrets(o, list, now).Bad?
  {
    hide Dedupe, Hex64, Lower;
    if i < |list| - 1 { OffCurveIsBad(o, list[..|list| - 1], i, now); }
  }

  lemma {:induction false} WrittenAt(st: State, keys: seq<string>, i: nat)
    requires i < |keys|
    ensures ExportSecrets(st, keys)[i] == Written(keys[i], Held(st, keys[i]))
  {
    if i < |keys| - 1 { WrittenAt(st, keys[..|keys| - 1], i); }
  }

  /** A state that holds a secret bound to a key off the curve is refused by every process, whatever it holds. */
  lemma OffCurveIsRefused(o: Options, st: State, s: string, st0: State, now: int)
    requires st.secrets.Valid() && s in st.secrets.at && Held(st, s).client.Some?
    requires WellKeyed(Held(st, s).client.value) && !o.onCurve(Held(st, s).client.value)
    ensures RestoreState(o, st0, Sign(o, Snapshot(o, st)), false, now).0 == st0
    ensures RestoreState(o, st0, Sign(o, Snapshot(o, st)), false, now).1.Refused?
  {
    hide ExportSecrets, ExportClients, CheckSecrets, CheckClients, Fit, Hex64, NoDup, Held;
    var i :| 0 <= i < |st.secrets.keys| && st.secrets.keys[i] == s;
    WrittenAt(st, st.secrets.keys, i);
    OffCurveIsBad(o, ExportSecrets(st, st.secrets.keys), i, now);
  }

  /** The approval of such a scan confirms the record before it fails to seat the client. */
  lemma OffCurveApproval(o: Options, st: State, flight: nat, now: int)
    requires Core(o, st, None) && flight in st.inflight && SettleFlight(o, st, flight, true, now).1 == Unreachable
    ensures var f := st.inflight[flight];
            var st' := SettleFlight(o, st, flight, true, now).0;
            && !o.onCurve(f.client) && f.client !in st'.clients.at
            && f.secret in st'.secrets.at && Held(st', f.secret).confirmed && Held(st', f.secret).client == Some(f.client)
  {
    hide Core, Follows, Unbind, Admit, RoomFor, Unbump;
    var f := st.inflight[flight];
    EndApprovalKeeps(o, st, flight);
    ConfirmKeeps(o, EndApproval(st, flight), f);
  }

  /**
   * Once a scan by a key off the curve is approved, no export of the server is restored anywhere, at
   * any later point of its run, until that one secret is revoked.
   */
  lemma OffCurveBlocksExports(o: Options, st: State, run: seq<Timed>, i: nat, j: nat, f: Flight, st0: State, now: int)
    requires Core(o, st, None) && OneProcess(run) && i < j <= |run|
    requires run[i].event.Settle? && run[i].event.approved && Answer(o, st, run, i) == Unreachable
    requires run[i].event.flight in Before(o, st, run, i).inflight && f == Before(o, st, run, i).inflight[run[i].event.flight]
    requires WellKeyed(f.client) && forall k :: i < k < j ==> run[k].event != Revoke(f.secret)
    ensures RestoreState(o, st0, Sign(o, Snapshot(o, Before(o, st, run, j))), false, now).0 == st0
    ensures RestoreState(o, st0, Sign(o, Snapshot(o, Before(o, st, run, j))), false, now).1.Refused?
  {
    hide Core, Before, Later, SettleFlight, RestoreState, Snapshot, Sign, WellKeyed, Held;
    RunKeepsCore(o, st, run, i);
    NextState(o, st, run, i);
    OffCurveApproval(o, Before(o, st, run, i), run[i].event.flight, run[i].now);
    ConfirmedStays(o, st, run, i + 1, j, f.secret);
    RunKeepsCore(o, st, run, j);
    CoreValid(o, Before(o, st, run, j), None);
    OffCurveIsRefused(o, Before(o, st, run, j), f.secret, st0, now);
  }

  /** The scan of a key off the curve, and its approval, as the first two events of a server. */
  function OffCurveRun(client: string, secret: string, relays: seq<string>, now: int): seq<Timed> {
    [Timed(BeginScan(client, secret, relays), now), Timed(Settle(0, true), now)]
  }

  /** Any server with room takes such a scan, and its export is refused from then on, before the approval and after it. */
  lemma OffCurveScan(o: Options, generation: int, client: string, secret: string, relays: seq<string>, now: int, st0: State, later: int)
    requires WellKeyed(client) && !o.onCurve(client) && secret != "" && 1 <= |Dedupe(relays)| <= o.maxRelays
    requires o.maxSecrets >= 1 && o.maxClients >= 1
    ensures var run := OffCurveRun(client, secret, relays, now);
            && Answer(o, Init(o, generation), run, 0) == Waiting(0) && Answer(o, Init(o, generation), run, 1) == Unreachable
            && (forall i :: 1 <= i <= 2 ==>
                  RestoreState(o, st0, Sign(o, Snapshot(o, Before(o, Init(o, generation), run, i))), false, later).1.Refused?)
  {
    hide WellKeyed, RestoreState, Snapshot, Sign, Dedupe, Before, Answer, Later, Core, Init, OffCurveRun;
    var run, st := OffCurveRun(client, secret, relays, now), Init(o, generation);
    FreshStart(o, generation);
    OffCurveStates(o, generation, client, secret, relays, now);
    var st1 := Before(o, st, run, 1);
    RunKeepsCore(o, st, run, 1);
    CoreValid(o, st1, None);
    OffCurveIsRefused(o, st1, secret, st0, later);
    OffCurveBlocksExports(o, st, run, 1, 2, st1.inflight[0], st0, later);
  }

  lemma OffCurveStates(o: Options, generation: int, client: string, secret: string, relays: seq<string>, now: int)
    requires WellKeyed(client) && !o.onCurve(client) && secret != "" && 1 <= |Dedupe(relays)| <= o.maxRelays
    requires o.maxSecrets >= 1 && o.maxClients >= 1
    ensures var run := OffCurveRun(client, secret, relays, now);
            var st1 := Before(o, Init(o, generation), run, 1);
            && |run| == 2 && OneProcess(run) && run[1].event == Settle(0, true)
            && Answer(o, Init(o, generation), run, 0) == Waiting(0) && Answer(o, Init(o, generation), run, 1) == Unreachable
            && 0 in st1.inflight && st1.inflight[0].client == client && st1.inflight[0].secret == secret
            && secret in st1.secrets.at && Held(st1, secret).client == Some(client)
  {
    hide WellKeyed, Dedupe, Before, Step, SettleFlight, Scan, Init;
    var run, st := OffCurveRun(client, secret, relays, now), Init(o, generation);
    ZeroPrefix(o, st, run);
    NextState(o, st, run, 0);
    OffCurveFirst(o, generation, client, secret, relays, now);
    var st1 := Before(o, st, run, 1);
    OffCurveSecond(o, st1, now);
    SettleStep(o, st1, now);
  }

  lemma SettleStep(o: Options, st: State, now: int)
    ensures Step(o, st, Settle(0, true), now) == SettleFlight(o, st, 0, true, now)
  {}

  lemma OffCurveFirst(o: Options, generation: int, client: string, secret: string, relays: seq<string>, now: int)
    requires WellKeyed(client) && secret != "" && 1 <= |Dedupe(relays)| <= o.maxRelays && o.maxSecrets >= 1 && o.maxClients >= 1
    ensures var (st', out) := Step(o, Init(o, generation), BeginScan(client, secret, relays), now);
            && out == Waiting(0) && st'.clients == Empty()
            && 0 in st'.inflight && st'.inflight[0] == Flight(client, secret, 0, Dedupe(relays), true, true)
            && StillHeld(st', secret, 0) && Held(st', secret).client == Some(client)
  {
    hide Hex64, Lower, Dedupe;
  }

  lemma OffCurveSecond(o: Options, st: State, now: int)
    requires 0 in st.inflight && StillHeld(st, st.inflight[0].secret, st.inflight[0].rid) && !o.onCurve(st.inflight[0].client)
    requires st.clients == Empty() && o.maxClients >= 1
    ensures SettleFlight(o, st, 0, true, now).1 == Unreachable
  {
    hide Unbind, Admit, Unbump;
  }
}
