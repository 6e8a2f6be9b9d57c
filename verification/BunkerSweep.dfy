/** The constant-time sweep against the full scan it stands for. */
module BunkerSweep {
  import opened Common
  import opened BunkerModel
  import opened BunkerInvariants
  import opened BunkerRestore
  import opened BunkerRuns

  /** How late the next walk may be for a secret expiring at `e`: one second after the last walk. */
  function Deadline(sweptAt: Option<int>, e: int): int {
    if sweptAt.Some? then Max(e, sweptAt.value + 1000) else e
  }

  predicate NoLaterThan(next: Option<int>, t: int) {
    next.Some? && next.value <= t
  }

  ghost predicate Unclaimed(r: Rec) {
    !r.confirmed && r.expiresAt.Some?
  }

  /** Every unclaimed secret will be looked at in time. */
  ghost predicate Timely(st: State) {
    forall s :: s in st.secrets.at && Unclaimed(Held(st, s)) ==>
      NoLaterThan(st.nextSweep, Deadline(st.sweptAt, Held(st, s).expiresAt.value))
  }

  lemma {:induction false} NextOverBound(st: State, keys: seq<string>, now: int)
    ensures var next := NextOver(st, keys, now);
            && (next.Some? ==> next.value > now)
            && (forall k :: k in keys && Unclaimed(Held(st, k)) && !Lapsed(Held(st, k), now) ==>
                  NoLaterThan(next, Max(Held(st, k).expiresAt.value, now + 1000)))
  {
    if keys != [] {
      NextOverBound(st, keys[..|keys| - 1], now);
      assert keys == keys[..|keys| - 1] + [keys[|keys| - 1]];
    }
  }

  lemma WalkTimely(st: State, now: int)
    requires st.secrets.Valid()
    ensures Timely(Walk(st, now))
    ensures Walk(st, now).nextSweep.Some? ==> Walk(st, now).nextSweep.value > now
  {
    hide NextOver, LiveKeys, NoDup;
    NextOverBound(st, st.secrets.keys, now);
    var st' := Walk(st, now);
    assert forall s :: s in st'.secrets.at ==> s in st.secrets.keys && Held(st', s) == Held(st, s);
  }

  /** Sweeping twice at one moment is sweeping once: the walk a sweep's own announcement triggers does nothing. */
  lemma SweepReentryIsNoOp(st: State, now: int)
    requires st.secrets.Valid()
    ensures Sweep(Sweep(st, now), now) == Sweep(st, now)
  {
    hide Walk;
    WalkTimely(st, now);
  }

  /**
   * The refinement. Once a second has passed since the last walk, the constant-time sweep drops
   * exactly what a full scan would: no unclaimed secret survives a sweep run at or after both its
   * expiry and that moment.
   */
  lemma SweepIsFullScan(st: State, now: int)
    requires st.secrets.Valid() && Timely(st)
    requires st.sweptAt.Some? ==> st.sweptAt.value + 1000 <= now
    ensures forall s :: s in Sweep(st, now).secrets.at <==> s in st.secrets.at && !Lapsed(Held(st, s), now)
  {
    hide NextOver, LiveKeys, NoDup;
    if st.nextSweep.None? || now < st.nextSweep.value {
      forall s | s in st.secrets.at ensures !Lapsed(Held(st, s), now) {
        if Unclaimed(Held(st, s)) {
          assert NoLaterThan(st.nextSweep, Deadline(st.sweptAt, Held(st, s).expiresAt.value));
        }
      }
    }
  }

  // ── Timeliness is kept ──

  /** `st'` moves no sweep later, and every unclaimed secret it holds is old or newly scheduled. */
  ghost predicate Punctual(st: State, st': State) {
    && st'.sweptAt == st.sweptAt
    && (st.nextSweep.Some? ==> NoLaterThan(st'.nextSweep, st.nextSweep.value))
    && (forall s :: s in st'.secrets.at && Unclaimed(Held(st', s)) ==>
          || (s in st.secrets.at && Unclaimed(Held(st, s)) && Held(st', s).expiresAt == Held(st, s).expiresAt)
          || NoLaterThan(st'.nextSweep, Held(st', s).expiresAt.value))
  }

  lemma PunctualKeeps(st: State, st': State)
    requires Timely(st) && Punctual(st, st')
    ensures Timely(st')
  {
    forall s | s in st'.secrets.at && Unclaimed(Held(st', s))
      ensures NoLaterThan(st'.nextSweep, Deadline(st'.sweptAt, Held(st', s).expiresAt.value)) {}
  }

  lemma ShedPunctual(st: State, st': State)
    requires Sheds(st, st') && st'.sweptAt == st.sweptAt
    requires st.nextSweep.Some? ==> NoLaterThan(st'.nextSweep, st.nextSweep.value)
    ensures Punctual(st, st')
  {
    assert forall s :: s in st'.secrets.at ==> Held(st', s) == Held(st, s);
  }

  lemma SweepTimely(st: State, now: int)
    requires st.secrets.Valid() && Timely(st)
    ensures Timely(Sweep(st, now))
  {
    hide Walk;
    WalkTimely(st, now);
  }

  lemma EmitTimely(o: Options, st: State, now: int)
    requires st.secrets.Valid() && Timely(st)
    ensures Timely(Emit(o, st, now))
  {
    hide Sweep, Timely;
    SweepTimely(st, now);
  }

  lemma SetRecTimely(st: State, id: nat, r: Rec)
    requires Timely(st) && id in st.recs && (r.confirmed || (r.expiresAt == st.recs[id].expiresAt && r.confirmed == st.recs[id].confirmed))
    ensures Timely(SetRec(st, id, r))
  {
    assert forall s :: s in st.secrets.at && st.secrets.at[s] != id ==> Held(SetRec(st, id, r), s) == Held(st, s);
  }

  lemma StoredTimely(o: Options, st: State, secret: string, r: Rec)
    requires Core(o, st, None) && Timely(st)
    requires Unclaimed(r) ==> NoLaterThan(st.nextSweep, r.expiresAt.value)
    ensures Timely(Stored(st, secret, r))
  {
    hide NoDup, PendingExact, SlotsExact, FlightsBound, ConfirmedBound;
    var st' := Stored(st, secret, r);
    assert forall s :: s in st.secrets.at && s != secret ==> Held(st', s) == Held(st, s);
    assert Punctual(st, st');
    PunctualKeeps(st, st');
  }

  lemma DropIfLapsedTimely(o: Options, st: State, secret: string, now: int)
    requires st.secrets.Valid() && Timely(st)
    ensures Timely(DropIfLapsed(o, st, secret, now))
  {
    hide Timely, Emit, NoDup;
    if secret in st.secrets.at && Lapsed(Held(st, secret), now) {
      var st1 := st.(secrets := st.secrets.Delete(secret));
      ShedPunctual(st, st1);
      PunctualKeeps(st, st1);
      EmitTimely(o, st1, now);
    }
  }

  lemma MintTimely(o: Options, st: State, secret: string, urls: seq<string>, life: int, now: int)
    requires Core(o, st, None) && Timely(st)
    ensures Timely(MintOn(o, st, secret, urls, life, now).0)
  {
    hide Core, Timely, Emit, Stored, Follows, Sheds;
    if secret in st.secrets.at {
      CoreHeld(o, st, None, secret);
      if Held(st, secret).client.None? {
        SetRecTimely(st, st.secrets.at[secret], Held(st, secret).(relays := urls));
      }
      CoreValid(o, st, None);
      EmitTimely(o, Redisplayed(st, secret, urls), now);
    } else if st.secrets.Size() < o.maxSecrets {
      var due := if life > 0 then Some(now + life) else None;
      var st1 := if due.Some? then Schedule(st, due.value) else st;
      var r := Rec(urls, None, false, 0, true, due);
      if due.Some? {
        ScheduleKeeps(o, st, due.value);
        CoreValid(o, st, None);
        ScheduleTimely(st, due.value);
      }
      StoredTimely(o, st1, secret, r);
      StoredKeeps(o, st1, secret, r);
      CoreValid(o, Stored(st1, secret, r), None);
      EmitTimely(o, Stored(st1, secret, r), now);
    }
  }

  lemma ScheduleTimely(st: State, e: int)
    requires Timely(st) && st.secrets.Valid()
    ensures Timely(Schedule(st, e)) && NoLaterThan(Schedule(st, e).nextSweep, e)
  {
    hide NoDup;
    var st' := Schedule(st, e);
    assert forall s :: s in st.secrets.at ==> Held(st', s) == Held(st, s);
    assert Punctual(st, st');
    PunctualKeeps(st, st');
  }

  lemma BindTimely(o: Options, st: State, secret: string, client: string, relays: seq<string>, now: int)
    requires Core(o, st, None) && Timely(st) && Takable(st, secret, client)
    requires secret in st.secrets.at || st.secrets.Size() < o.maxSecrets
    ensures Timely(Bind(o, st, secret, client, relays, now))
  {
    hide Core, Timely, Emit, Follows;
    ReadiedKeeps(o, st, secret, relays);
    var st1 := Readied(st, secret, relays);
    if secret !in st.secrets.at { StoredTimely(o, st, secret, Rec(relays, None, false, 0, false, None)); }
    var id := BindId(st, secret);
    var r := st1.recs[id].(client := Some(client), pending := st1.recs[id].pending + 1);
    SetRecTimely(st1, id, r);
    CoreValid(o, st1, None);
    EmitTimely(o, SetRec(st1, id, r), now);
  }

  lemma SamePartsTimely(st: State, st': State)
    requires Timely(st) && st'.secrets == st.secrets && st'.recs == st.recs && st'.nextSweep == st.nextSweep && st'.sweptAt == st.sweptAt
    ensures Timely(st')
  {
    assert forall s :: Held(st', s) == Held(st, s);
  }

  lemma BeginTimely(o: Options, st: State, e: Event, now: int)
    requires Core(o, st, None) && Timely(st) && (e.BeginConnect? || e.BeginScan?)
    ensures Timely(Step(o, st, e, now).0)
  {
    hide Core, Timely, DropIfLapsed, Bind, OverCeiling, Takable, Hex64, Held, Dedupe, Follows, Bump;
    CoreValid(o, st, None);
    var s := e.secret;
    DropIfLapsedTimely(o, st, s, now);
    DropIfLapsedKeeps(o, st, s, now);
    var st1 := DropIfLapsed(o, st, s, now);
    if Step(o, st, e, now).1.Waiting? {
      var relays := if e.BeginScan? then Dedupe(e.relays) else [];
      BindTimely(o, st1, s, e.client, relays, now);
      SamePartsTimely(Bind(o, st1, s, e.client, relays, now), Step(o, st, e, now).0);
    }
  }

  lemma FreedTimely(o: Options, st: State, secret: string, id: nat)
    requires st.secrets.Valid() && Timely(st) && id in st.recs
    ensures Timely(Freed(st, secret, id)) && Freed(st, secret, id).secrets.Valid()
  {
    hide Timely, NoDup;
    var r := st.recs[id].(pending := 0, client := None);
    SetRecTimely(st, id, r);
    ShedPunctual(SetRec(st, id, r), Freed(st, secret, id));
    PunctualKeeps(SetRec(st, id, r), Freed(st, secret, id));
  }

  lemma SettleTimely(o: Options, st: State, flight: nat, approved: bool, now: int)
    requires Core(o, st, None) && Timely(st)
    ensures Timely(SettleFlight(o, st, flight, approved, now).0)
  {
    hide Core, Timely, Emit, Follows, RoomFor, Unbump, Dedupe, ReleaseAll, ClaimAll;
    if flight in st.inflight {
      var f := st.inflight[flight];
      var st1 := EndApproval(st, flight);
      EndApprovalKeeps(o, st, flight);
      SamePartsTimely(st, st1);
      CoreValid(o, st1, Some(f.rid));
      FreedTimely(o, st1, f.secret, f.rid);
      EmitTimely(o, Freed(st1, f.secret, f.rid), now);
      var r := st1.recs[f.rid];
      SetRecTimely(st1, f.rid, r.(pending := r.pending - 1));
      var confirmed := r.(pending := r.pending - 1, confirmed := true, expiresAt := None, relays := if f.scan then f.relays else r.relays);
      SetRecTimely(st1, f.rid, confirmed);
      var st2 := Confirm(st1, f);
      var st3 := Seated(st2, f.client, f.secret, f.relays, now);
      SamePartsTimely(st2, st3);
      EmitTimely(o, st3, now);
      SamePartsTimely(Emit(o, st3, now), Admit(o, st2, f.client, f.secret, f.relays, now, now, false));
    }
  }

  lemma DropTimely(o: Options, st: State, client: string, now: int)
    requires st.secrets.Valid() && Timely(st)
    ensures Timely(Drop(o, st, client, now))
  {
    hide Timely, Emit, ReleaseAll, NoDup;
    if client in st.clients.at {
      SamePartsTimely(st, Left(st, client));
      EmitTimely(o, Left(st, client), now);
    }
  }

  lemma RevokeTimely(o: Options, st: State, secret: string, now: int)
    requires Core(o, st, None) && Timely(st)
    ensures Timely(RevokeSecret(o, st, secret, now).0)
  {
    hide Core, Timely, Emit, ReleaseAll, NoDup;
    if secret in st.secrets.at {
      CoreValid(o, st, None);
      var st1 := Struck(st, secret);
      ShedPunctual(st, st1);
      PunctualKeeps(st, st1);
      var st2 := Purged(st, secret);
      SamePartsTimely(st1, st2);
      EmitTimely(o, st1, now);
      EmitTimely(o, st2, now);
      RevokeIsPurge(o, st, secret, now);
    }
  }

  lemma {:induction false} PutTimely(o: Options, st: State, plan: Plan, keys: seq<string>)
    requires Core(o, st, None) && PlanSound(plan) && NoDup(keys) && Timely(st)
    requires forall k :: k in keys ==> k in plan.secrets.at && Held(st, k).client.None?
    requires st.secrets.Size() + |NewKeys(st, keys)| <= o.maxSecrets
    ensures Timely(PutSecrets(st, plan, keys))
  {
    hide Core, Timely, Follows, PutDone, Stored, NewKeys;
    if keys != [] {
      var front, k := keys[..|keys| - 1], keys[|keys| - 1];
      assert keys == front + [k];
      FrontNewKeys(o, st, front, k);
      PutTimely(o, st, plan, front);
      PutSecretsKeeps(o, st, plan, front);
      PutOneTimely(o, st, plan, front, k);
    }
  }

  /** The record is stored first and scheduled after; between the two its secret is not yet timely. */
  lemma PutOneTimely(o: Options, st: State, plan: Plan, front: seq<string>, k: string)
    requires var st1 := PutSecrets(st, plan, front); Core(o, st1, None) && Timely(st1)
    requires k in plan.secrets.at
    ensures Timely(PutSecrets(st, plan, front + [k]))
  {
    hide Core, Timely, PutSecrets, Stored, Schedule, Follows;
    var st1 := PutSecrets(st, plan, front);
    var r := plan.secrets.at[k];
    if r.expiresAt.Some? && !r.confirmed {
      CoreValid(o, st1, None);
      ScheduleTimely(st1, r.expiresAt.value);
      ScheduleKeeps(o, st1, r.expiresAt.value);
      StoredTimely(o, Schedule(st1, r.expiresAt.value), k, r);
      ScheduleCommutes(st1, k, r, r.expiresAt.value);
      PutLast(st, plan, front, k);
    } else {
      StoredTimely(o, st1, k, r);
      PutLast(st, plan, front, k);
    }
  }

  lemma ScheduleCommutes(st: State, k: string, r: Rec, e: int)
    ensures Schedule(Stored(st, k, r), e) == Stored(Schedule(st, e), k, r)
  {}

  lemma PutLast(st: State, plan: Plan, front: seq<string>, k: string)
    requires k in plan.secrets.at
    ensures var st2 := Stored(PutSecrets(st, plan, front), k, plan.secrets.at[k]);
            var r := plan.secrets.at[k];
            PutSecrets(st, plan, front + [k]) == (if r.expiresAt.Some? && !r.confirmed then Schedule(st2, r.expiresAt.value) else st2)
  {
    assert (front + [k])[..|front|] == front;
  }

  lemma RestoreTimely(o: Options, st: State, b: Blob, allowUnsigned: bool, now: int)
    requires Core(o, st, None) && Timely(st)
    ensures Timely(RestoreState(o, st, b, allowUnsigned, now).0)
  {
    hide Core, Timely, Judge, Emit, Fit, PutSecrets, AdmitAll, Follows, Later, PutDone;
    var verdict := Judge(o, st, b, allowUnsigned, now);
    if verdict.Good? {
      JudgedSound(o, st, b, allowUnsigned, now);
      var plan := verdict.value;
      AppliedParts(o, st, plan, StateGeneration(b), now);
      var loose := Fresh(st, plan.secrets.keys);
      FitRoom(o, st, plan);
      PutTimely(o, st, plan, loose);
      var st1 := PutSecrets(st, plan, loose);
      var st' := Applied(o, st, plan, StateGeneration(b), now);
      SamePartsTimely(st1, st');
      CoreValid(o, st', None);
      EmitTimely(o, st', now);
    }
  }

  lemma StepTimely(o: Options, st: State, e: Event, now: int)
    requires Core(o, st, None) && Timely(st)
    ensures Timely(Step(o, st, e, now).0)
  {
    hide Core, Timely, MintOn, AddHosts, Sweep, Connect, Scan, SettleFlight, RevokeSecret, Drop, RestoreState, ClaimAll, Snapshot, Claim, Dedupe, Follows;
    CoreValid(o, st, None);
    match e
    case Mint(secret, relays, ttl) =>
      MintRoom(o, st, secret, relays, ttl, now);
      SweepTimely(st, now);
      var st0 := Sweep(st, now);
      var urls := Dedupe(if relays == [] then st0.hosts else relays);
      AddHostsSame(st0, urls);
      SamePartsTimely(st0, AddHosts(st0, urls));
      MintTimely(o, AddHosts(st0, urls), secret, urls, if ttl.Some? then ttl.value else o.secretTtl, now);
    case BeginConnect(_, _) => BeginTimely(o, st, e, now);
    case BeginScan(_, _, _) => BeginTimely(o, st, e, now);
    case Settle(flight, approved) => SettleTimely(o, st, flight, approved, now);
    case Revoke(secret) => RevokeTimely(o, st, secret, now);
    case Disconnect(client) => DropTimely(o, st, client, now);
    case Restore(b, allowUnsigned) => RestoreTimely(o, st, b, allowUnsigned, now);
    case Export => SweepTimely(st, now);
    case AddRelay(url) => SamePartsTimely(st, AddHost(st, url));
    case Start => SamePartsTimely(st, Step(o, st, e, now).0);
    case Stop => SamePartsTimely(st, Step(o, st, e, now).0);
    case Restart => InitTimely(o, st.generation);
  }

  lemma InitTimely(o: Options, generation: int)
    ensures Timely(Init(o, generation))
  {}

  /** In every reachable state the sweep is timely, so the refinement above applies throughout. */
  lemma {:induction false} RunIsTimely(o: Options, generation: int, run: seq<Timed>, i: nat)
    requires i <= |run|
    ensures Timely(Before(o, Init(o, generation), run, i))
  {
    hide Core, Timely, Step, Init;
    if i == 0 {
      assert run[..0] == [];
      InitTimely(o, generation);
    } else {
      RunIsTimely(o, generation, run, i - 1);
      FreshStart(o, generation);
      RunKeepsCore(o, Init(o, generation), run, i - 1);
      NextState(o, Init(o, generation), run, i - 1);
      StepTimely(o, Before(o, Init(o, generation), run, i - 1), run[i - 1].event, run[i - 1].now);
    }
  }
}
