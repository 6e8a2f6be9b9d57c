/** When a binding is let go, and what `connect` and the scan will take. */
module BunkerBindings {
  import opened Common
  import opened BunkerModel
  import opened BunkerInvariants
  import opened BunkerRestore

  /** A client key in the one spelling the server stores: 64 lowercase hex characters. */
  ghost predicate WellKeyed(client: string) {
    Hex64(client) && Lower(client) == client
  }

  /** Records stay, a bound one stays bound to the same client, and new bindings are to well-spelled keys. */
  ghost predicate Sticky(st: State, st': State) {
    && (forall r :: r in st.recs ==> r in st'.recs && (st.recs[r].client.Some? ==> st'.recs[r].client == st.recs[r].client))
    && (forall r :: r in st'.recs && st'.recs[r].client.Some? ==>
          WellKeyed(st'.recs[r].client.value) || (r in st.recs && st.recs[r].client == st'.recs[r].client))
  }

  lemma StickyTransitive(a: State, b: State, c: State)
    requires Sticky(a, b) && Sticky(b, c)
    ensures Sticky(a, c)
  {}

  lemma SameRecsSticky(st: State, st': State)
    requires st'.recs == st.recs
    ensures Sticky(st, st')
  {}

  lemma SetRecSticky(st: State, id: nat, r: Rec)
    requires id in st.recs && (st.recs[id].client.Some? ==> r.client == st.recs[id].client)
    requires r.client == st.recs[id].client || (r.client.Some? && WellKeyed(r.client.value))
    ensures Sticky(st, SetRec(st, id, r))
  {}

  lemma StoredSticky(o: Options, st: State, secret: string, r: Rec)
    requires Core(o, st, None) && (r.client.Some? ==> WellKeyed(r.client.value))
    ensures Sticky(st, Stored(st, secret, r))
  {
    hide NoDup, PendingExact, SlotsExact, FlightsBound, ConfirmedBound;
  }

  lemma EmitSticky(o: Options, st: State, now: int)
    ensures Sticky(st, Emit(o, st, now))
  {
    hide Emit, Sticky;
    EmitLeaves(o, st, now);
    SameRecsSticky(st, Emit(o, st, now));
  }

  lemma MintSticky(o: Options, st: State, secret: string, urls: seq<string>, life: int, now: int)
    requires Core(o, st, None)
    ensures Sticky(st, MintOn(o, st, secret, urls, life, now).0)
  {
    hide Core, Sticky, Emit, Stored, Sheds, Follows;
    SameRecsSticky(st, st);
    if secret in st.secrets.at {
      CoreHeld(o, st, None, secret);
      if Held(st, secret).client.None? {
        SetRecSticky(st, st.secrets.at[secret], Held(st, secret).(relays := urls));
      }
      var st1 := Redisplayed(st, secret, urls);
      EmitSticky(o, st1, now);
      StickyTransitive(st, st1, Emit(o, st1, now));
    } else {
      var due := if life > 0 then Some(now + life) else None;
      var st1 := if due.Some? then Schedule(st, due.value) else st;
      SameRecsSticky(st, st1);
      if due.Some? { ScheduleKeeps(o, st, due.value); }
      var st2 := Stored(st1, secret, Rec(urls, None, false, 0, true, due));
      StoredSticky(o, st1, secret, Rec(urls, None, false, 0, true, due));
      EmitSticky(o, st2, now);
      StickyTransitive(st, st1, st2);
      StickyTransitive(st, st2, Emit(o, st2, now));
    }
  }

  lemma BindSticky(o: Options, st: State, secret: string, client: string, relays: seq<string>, now: int)
    requires Core(o, st, None) && Takable(st, secret, client) && WellKeyed(client)
    requires secret in st.secrets.at || st.secrets.Size() < o.maxSecrets
    ensures Sticky(st, Bind(o, st, secret, client, relays, now))
  {
    hide Core, Sticky, Emit, Follows;
    ReadiedKeeps(o, st, secret, relays);
    var st1 := Readied(st, secret, relays);
    SameRecsSticky(st, st);
    if secret !in st.secrets.at { StoredSticky(o, st, secret, Rec(relays, None, false, 0, false, None)); }
    var id := BindId(st, secret);
    var r := st1.recs[id].(client := Some(client), pending := st1.recs[id].pending + 1);
    SetRecSticky(st1, id, r);
    var st2 := SetRec(st1, id, r);
    EmitSticky(o, st2, now);
    StickyTransitive(st, st1, st2);
    StickyTransitive(st, st2, Emit(o, st2, now));
  }

  lemma DropIfLapsedSticky(o: Options, st: State, secret: string, now: int)
    ensures Sticky(st, DropIfLapsed(o, st, secret, now))
  {
    hide Sticky, Emit;
    SameRecsSticky(st, st);
    if secret in st.secrets.at && Lapsed(Held(st, secret), now) {
      var st1 := st.(secrets := st.secrets.Delete(secret));
      SameRecsSticky(st, st1);
      EmitSticky(o, st1, now);
      StickyTransitive(st, st1, Emit(o, st1, now));
    }
  }

  lemma BeginSticky(o: Options, st: State, e: Event, now: int)
    requires Core(o, st, None) && (e.BeginConnect? || e.BeginScan?)
    ensures Sticky(st, Step(o, st, e, now).0)
  {
    hide Core, Sticky, DropIfLapsed, Bind, BeginApproval, OverCeiling, Takable, Hex64, Held, Dedupe, Follows;
    SameRecsSticky(st, st);
    var s := e.secret;
    DropIfLapsedSticky(o, st, s, now);
    DropIfLapsedKeeps(o, st, s, now);
    var st1 := DropIfLapsed(o, st, s, now);
    if Step(o, st, e, now).1.Waiting? {
      assert WellKeyed(e.client);
      var relays := if e.BeginScan? then Dedupe(e.relays) else [];
      BindSticky(o, st1, s, e.client, relays, now);
      var st2 := Bind(o, st1, s, e.client, relays, now);
      BeginRecs(st2, e.client, s, if s in st1.secrets.at then st1.secrets.at[s] else st1.nextId,
                if e.BeginScan? then relays else Held(st1, s).relays, e.BeginScan?);
      SameRecsSticky(st2, Step(o, st, e, now).0);
      StickyTransitive(st, st1, st2);
      StickyTransitive(st, st2, Step(o, st, e, now).0);
    }
  }

  lemma BeginRecs(st: State, client: string, secret: string, rid: nat, relays: seq<string>, scan: bool)
    ensures BeginApproval(st, client, secret, rid, relays, scan).recs == st.recs
  {}

  lemma RevokeSticky(o: Options, st: State, secret: string, now: int)
    ensures Sticky(st, RevokeSecret(o, st, secret, now).0)
  {
    hide Sticky, Emit, ReleaseAll;
    SameRecsSticky(st, st);
    if secret in st.secrets.at {
      var st1 := Purged(st, secret);
      SameRecsSticky(st, st1);
      EmitSticky(o, st1, now);
      StickyTransitive(st, st1, Emit(o, st1, now));
    }
  }

  lemma DropSticky(o: Options, st: State, client: string, now: int)
    ensures Sticky(st, Drop(o, st, client, now))
  {
    hide Sticky, Emit, ReleaseAll;
    SameRecsSticky(st, st);
    if client in st.clients.at {
      SameRecsSticky(st, Left(st, client));
      EmitSticky(o, Left(st, client), now);
      StickyTransitive(st, Left(st, client), Emit(o, Left(st, client), now));
    }
  }

  lemma RestoreSticky(o: Options, st: State, b: Blob, allowUnsigned: bool, now: int)
    requires Core(o, st, None)
    ensures Sticky(st, RestoreState(o, st, b, allowUnsigned, now).0)
  {
    hide Core, Sticky, Judge, Emit, Fit, PutSecrets, AdmitAll, Follows, Later;
    SameRecsSticky(st, st);
    var verdict := Judge(o, st, b, allowUnsigned, now);
    if verdict.Good? {
      JudgedSound(o, st, b, allowUnsigned, now);
      AppliedParts(o, st, verdict.value, StateGeneration(b), now);
      var plan := verdict.value;
      var st1 := PutSecrets(st, plan, Fresh(st, plan.secrets.keys));
      JudgedKeyed(o, st, b, allowUnsigned, now);
      PutSticky(st, st1, plan, Fresh(st, plan.secrets.keys));
      var st' := Applied(o, st, plan, StateGeneration(b), now);
      SameRecsSticky(st1, st');
      EmitSticky(o, st', now);
      StickyTransitive(st, st1, st');
      StickyTransitive(st, st', Emit(o, st', now));
    }
  }

  ghost predicate PlanKeyed(plan: Plan) {
    forall k :: k in plan.secrets.at && plan.secrets.at[k].client.Some? ==> WellKeyed(plan.secrets.at[k].client.value)
  }

  lemma {:induction false} LowerTwice(s: string)
    ensures Lower(Lower(s)) == Lower(s)
  {
    if s != "" { LowerTwice(s[1..]); }
  }

  lemma LowerKeyed(s: string)
    requires Hex64(s)
    ensures WellKeyed(Lower(s))
  {
    LowerTwice(s);
    forall i | 0 <= i < 64
      ensures '0' <= LowerChar(Lower(s)[i]) <= '9' || 'a' <= LowerChar(Lower(s)[i]) <= 'f' {
      assert LowerChar(LowerChar(s[i])) == LowerChar(s[i]);
    }
  }

  lemma {:induction false} CheckSecretsKeyed(o: Options, list: seq<SecretRecord>, now: int)
    requires CheckSecrets(o, list, now).Good?
    ensures var t := CheckSecrets(o, list, now).value;
            forall k :: k in t.at && t.at[k].client.Some? ==> WellKeyed(t.at[k].client.value)
  {
    hide Dedupe, NoDup, WellKeyed, Lower, Hex64;
    if list != [] {
      CheckSecretsKeyed(o, list[..|list| - 1], now);
      var b := list[|list| - 1];
      if b.client.Some? && Hex64(b.client.value) { LowerKeyed(b.client.value); }
    }
  }

  lemma JudgedKeyed(o: Options, st: State, b: Blob, allowUnsigned: bool, now: int)
    requires Judge(o, st, b, allowUnsigned, now).Good?
    ensures PlanKeyed(Judge(o, st, b, allowUnsigned, now).value)
  {
    hide CheckSecrets, CheckClients, Fit, WellKeyed;
    CheckSecretsKeyed(o, b.content.secrets, now);
    FitIsPlan(o, st, Validate(o, b.content, now).value);
  }

  lemma PutSticky(st: State, st': State, plan: Plan, keys: seq<string>)
    requires PutDone(st, st', plan, keys) && PlanKeyed(plan) && forall k :: k in keys ==> k in plan.secrets.at
    ensures Sticky(st, st')
  {
    hide WellKeyed;
    forall r | r in st'.recs && st'.recs[r].client.Some?
      ensures WellKeyed(st'.recs[r].client.value) || (r in st.recs && st.recs[r].client == st'.recs[r].client) {
    }
  }

  lemma OthersSticky(o: Options, st: State, e: Event, now: int)
    requires Core(o, st, None) && !e.Settle? && !e.Restart?
    ensures Sticky(st, Step(o, st, e, now).0)
  {
    hide Core, Sticky, MintOn, AddHosts, Sweep, Connect, Scan, RevokeSecret, Drop, RestoreState, ClaimAll, Snapshot, Claim, Dedupe, Follows;
    match e
    case Mint(secret, relays, ttl) =>
      MintRoom(o, st, secret, relays, ttl, now);
      var st0 := Sweep(st, now);
      SweepRecs(st, now);
      var urls := Dedupe(if relays == [] then st0.hosts else relays);
      AddHostsSame(st0, urls);
      var st1 := AddHosts(st0, urls);
      SameRecsSticky(st, st1);
      MintSticky(o, st1, secret, urls, if ttl.Some? then ttl.value else o.secretTtl, now);
      StickyTransitive(st, st1, Step(o, st, e, now).0);
    case BeginConnect(_, _) => BeginSticky(o, st, e, now);
    case BeginScan(_, _, _) => BeginSticky(o, st, e, now);
    case Revoke(secret) => RevokeSticky(o, st, secret, now);
    case Disconnect(client) => DropSticky(o, st, client, now);
    case Restore(b, allowUnsigned) => RestoreSticky(o, st, b, allowUnsigned, now);
    case Export => SweepRecs(st, now); SameRecsSticky(st, Sweep(st, now));
    case AddRelay(url) => SameRecsSticky(st, AddHost(st, url));
    case Start => SameRecsSticky(st, Step(o, st, e, now).0);
    case Stop => SameRecsSticky(st, Step(o, st, e, now).0);
  }

  lemma SweepRecs(st: State, now: int)
    ensures Sweep(st, now).recs == st.recs
  {}

  lemma UnbindRecs(o: Options, st: State, secret: string, id: nat, now: int)
    requires id in st.recs
    ensures var st' := Unbind(o, st, secret, id, now);
            && st'.recs.Keys == st.recs.Keys
            && (forall r :: r in st.recs && r != id ==> st'.recs[r] == st.recs[r])
            && st'.recs[id].client == (if st.recs[id].pending - 1 <= 0 && !st.recs[id].confirmed then None else st.recs[id].client)
  {
    hide Emit, Freed, SetRec;
    UnbindIsFreed(o, st, secret, id, now);
    FreedRecs(st, secret, id);
    EmitLeaves(o, Freed(st, secret, id), now);
    SetRecRecs(st, id, st.recs[id].(pending := st.recs[id].pending - 1));
  }

  lemma SetRecRecs(st: State, id: nat, r: Rec)
    ensures SetRec(st, id, r).recs == st.recs[id := r]
  {}

  lemma FreedRecs(st: State, secret: string, id: nat)
    ensures Freed(st, secret, id).recs == st.recs[id := RecOf(st, id).(pending := 0, client := None)]
  {}

  lemma SettleRelease(o: Options, st: State, flight: nat, approved: bool, now: int, r: nat)
    requires Core(o, st, None) && r in st.recs && st.recs[r].client.Some?
    ensures var (st', out) := SettleFlight(o, st, flight, approved, now);
            && r in st'.recs
            && (st'.recs[r].client == st.recs[r].client || st'.recs[r].client == None)
            && (st'.recs[r].client == None <==>
                  flight in st.inflight && st.inflight[flight].rid == r && !st.recs[r].confirmed
                  && Riders(st.inflight, r) == {flight} && (out == Rejected || out == NoRoom))
  {
    hide Shape, WithinCeilings, SlotsExact, FlightsBound, ConfirmedBound, Unbind, Admit, RoomFor, Unbump, Follows;
    if flight in st.inflight {
      var f := st.inflight[flight];
      var st1 := EndApproval(st, flight);
      EndApprovalKeeps(o, st, flight);
      assert st1.recs == st.recs;
      UnbindRecs(o, st1, f.secret, f.rid, now);
      AdmitLeavesRecs(o, Confirm(st1, f), f.client, f.secret, f.relays, now, now, false);
      RidersLast(st, flight);
    }
  }

  lemma RidersLast(st: State, flight: nat)
    requires PendingExact(st, None) && flight in st.inflight && st.inflight[flight].rid in st.recs
    ensures st.recs[st.inflight[flight].rid].pending <= 1 <==> Riders(st.inflight, st.inflight[flight].rid) == {flight}
  {
    var all := Riders(st.inflight, st.inflight[flight].rid);
    assert flight in all;
    assert all == {flight} + (all - {flight});
    if |all| <= 1 { assert |all - {flight}| == 0; }
  }

  /**
   * A binding is let go in exactly one way: the approval being settled is the last one in flight on
   * an unconfirmed record, and it is rejected (or finds no room). No other event frees a record.
   */
  lemma BindingIsReleased(o: Options, st: State, e: Event, now: int, r: nat)
    requires Core(o, st, None) && !e.Restart? && r in st.recs && st.recs[r].client.Some?
    ensures var (st', out) := Step(o, st, e, now);
            && r in st'.recs && (st'.recs[r].client == st.recs[r].client || st'.recs[r].client == None)
            && (st'.recs[r].client == None <==>
                  e.Settle? && e.flight in st.inflight && st.inflight[e.flight].rid == r && !st.recs[r].confirmed
                  && Riders(st.inflight, r) == {e.flight} && (out == Rejected || out == NoRoom))
  {
    hide Core, MintSecret, Connect, Scan, RevokeSecret, Drop, RestoreState, ClaimAll, Snapshot, Claim, SettleFlight, Sweep;
    if e.Settle? {
      SettleRelease(o, st, e.flight, e.approved, now, r);
    } else {
      OthersSticky(o, st, e, now);
    }
  }

  /** `connect` waits on the handler only for a secret that has not lapsed and that no other client holds. */
  lemma ConnectTakesLiveSecrets(o: Options, st: State, client: string, secret: string, now: int)
    requires Core(o, st, None) && Connect(o, st, client, secret, now).1.Waiting?
    ensures secret in st.secrets.at && !Lapsed(Held(st, secret), now)
    ensures Held(st, secret).client.None? || Held(st, secret).client == Some(client)
  {
    hide Core, Bind, BeginApproval, OverCeiling, Hex64, Emit;
    if secret in st.secrets.at && Lapsed(Held(st, secret), now) {
      CoreValid(o, st, None);
      EmitForgets(o, st.(secrets := st.secrets.Delete(secret)), now);
    }
  }
}
