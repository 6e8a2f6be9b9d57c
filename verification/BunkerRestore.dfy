/**
 * Restoring a persisted state: what an accepted restore keeps, what it must not be asked to do,
 * and the step lemma that puts every event of the machine together.
 */
module BunkerRestore {
  import opened Common
  import opened JsMap
  import opened BunkerModel
  import opened BunkerInvariants

  ghost predicate PlanSound(plan: Plan) {
    && plan.secrets.Valid() && plan.clients.Valid()
    && (forall k :: k in plan.secrets.at ==>
          plan.secrets.at[k].pending == 0 && (plan.secrets.at[k].confirmed ==> plan.secrets.at[k].client.Some?))
    && (forall c :: c in plan.clients.at ==> Claims(plan, c))
  }

  /** The plan's client `c` names a secret of the plan that is confirmed and bound to it. */
  ghost predicate Claims(plan: Plan, c: string) {
    && c in plan.clients.at && plan.clients.at[c].secret in plan.secrets.at
    && plan.secrets.at[plan.clients.at[c].secret].confirmed
    && plan.secrets.at[plan.clients.at[c].secret].client == Some(c)
  }

  lemma {:induction false} CheckSecretsSound(o: Options, list: seq<SecretRecord>, now: int)
    requires CheckSecrets(o, list, now).Good?
    ensures var t := CheckSecrets(o, list, now).value;
            t.Valid() && forall k :: k in t.at ==> t.at[k].pending == 0 && (t.at[k].confirmed ==> t.at[k].client.Some?)
  {
    hide Dedupe, NoDup, Hex64;
    if list != [] {
      CheckSecretsSound(o, list[..|list| - 1], now);
    }
  }

  lemma {:induction false} CheckClientsSound(o: Options, list: seq<ClientRecord>, secrets: Table<Rec>)
    requires CheckClients(o, list, secrets).Good?
    ensures var t := CheckClients(o, list, secrets).value;
            t.Valid() && forall c :: c in t.at ==>
              t.at[c].secret in secrets.at && secrets.at[t.at[c].secret].confirmed && secrets.at[t.at[c].secret].client == Some(c)
  {
    hide Dedupe, NoDup, Hex64;
    if list != [] {
      CheckClientsSound(o, list[..|list| - 1], secrets);
    }
  }

  lemma FitIsPlan(o: Options, st: State, plan: Plan)
    ensures Fit(o, st, plan).Good? ==> Fit(o, st, plan).value == plan
  {}

  lemma JudgedSound(o: Options, st: State, b: Blob, allowUnsigned: bool, now: int)
    requires Judge(o, st, b, allowUnsigned, now).Good?
    ensures var plan := Judge(o, st, b, allowUnsigned, now).value;
            PlanSound(plan) && Fit(o, st, plan).Good? && st.approvals <= 0
    ensures b.content.pubkey == o.pubkey && StateGeneration(b) >= st.generation
    ensures b.version == Some(2) ==> Verifies(o, b)
    ensures b.version != Some(2) ==> allowUnsigned && o.explicitGeneration
  {
    hide CheckSecrets, CheckClients, Fit;
    var c := b.content;
    var secrets := CheckSecrets(o, c.secrets, now).value;
    CheckSecretsSound(o, c.secrets, now);
    CheckClientsSound(o, c.clients, secrets);
    FitIsPlan(o, st, Validate(o, c, now).value);
  }

  // ── Applying the plan's secrets ──

  ghost predicate PutDone(st: State, st': State, plan: Plan, keys: seq<string>) {
    && st' == st.(recs := st'.recs, secrets := st'.secrets, nextId := st'.nextId, nextSweep := st'.nextSweep)
    && (forall s :: s in st'.secrets.at <==> s in st.secrets.at || s in keys)
    && (forall s :: s in st.secrets.at && s !in keys ==> st'.secrets.at[s] == st.secrets.at[s])
    && (forall s :: s in keys && s in plan.secrets.at ==> Held(st', s) == plan.secrets.at[s])
    && (forall r :: r in st.recs ==> r in st'.recs && st'.recs[r] == st.recs[r])
    && (forall r :: r in st'.recs && r !in st.recs ==> FromPlan(plan, keys, st'.recs[r]))
  }

  ghost predicate FromPlan(plan: Plan, keys: seq<string>, r: Rec) {
    exists k :: k in keys && k in plan.secrets.at && r == plan.secrets.at[k]
  }

  lemma FromPlanGrows(plan: Plan, keys: seq<string>, k: string, r: Rec)
    requires FromPlan(plan, keys, r) || (k in plan.secrets.at && r == plan.secrets.at[k])
    ensures FromPlan(plan, keys + [k], r)
  {
    if FromPlan(plan, keys, r) {
      var j :| j in keys && j in plan.secrets.at && r == plan.secrets.at[j];
      assert j in keys + [k];
    } else {
      assert k in keys + [k];
    }
  }

  lemma PutOne(st: State, st1: State, plan: Plan, keys: seq<string>, k: string)
    requires PutDone(st, st1, plan, keys) && Shape(st1) && k in plan.secrets.at && k !in keys
    ensures PutDone(st, Stored(st1, k, plan.secrets.at[k]), plan, keys + [k])
  {
    hide NoDup, FromPlan;
    var st2 := Stored(st1, k, plan.secrets.at[k]);
    StoredHeld(st1, k, plan.secrets.at[k]);
    hide Held, Shape;
    forall r | r in st2.recs && r !in st.recs ensures FromPlan(plan, keys + [k], st2.recs[r]) {
      FromPlanGrows(plan, keys, k, st2.recs[r]);
    }
    assert st2.secrets.at.Keys == st1.secrets.at.Keys + {k};
  }

  lemma StoredHeld(st: State, k: string, r: Rec)
    requires Shape(st)
    ensures var st' := Stored(st, k, r);
            && Held(st', k) == r
            && (forall s :: s in st.secrets.at && s != k ==> Held(st', s) == Held(st, s))
            && (forall i :: i in st.recs ==> i in st'.recs && st'.recs[i] == st.recs[i])
  {
    hide NoDup;
  }

  lemma PutDoneSchedule(st: State, st1: State, plan: Plan, keys: seq<string>, e: int)
    requires PutDone(st, st1, plan, keys)
    ensures PutDone(st, Schedule(st1, e), plan, keys)
  {
    assert forall s :: Held(Schedule(st1, e), s) == Held(st1, s);
  }

  lemma ScheduleKeeps(o: Options, st: State, e: int)
    requires Core(o, st, None)
    ensures Core(o, Schedule(st, e), None) && Follows(st, Schedule(st, e))
  {
    hide Core, Follows;
    CoreValid(o, st, None);
    ShedsCore(o, st, Schedule(st, e), None);
    ForgetsFollows(st, Schedule(st, e));
  }

  lemma PutDoneRefl(st: State, plan: Plan)
    ensures PutDone(st, st, plan, [])
  {}

  ghost function NewKeys(st: State, keys: seq<string>): set<string> {
    set k | k in keys && k !in st.secrets.at
  }

  lemma PutRoom(o: Options, st: State, st1: State, plan: Plan, front: seq<string>, k: string)
    requires PutDone(st, st1, plan, front) && k !in front && k !in st1.secrets.at
    requires st.secrets.Size() + |NewKeys(st, front + [k])| <= o.maxSecrets
    ensures st1.secrets.Size() < o.maxSecrets
  {
    hide PutDone, NewKeys;
    PutKeys(st, st1, plan, front);
    NewKeysGrow(st, front, k);
    assert k !in st1.secrets.at.Keys;
    assert |st1.secrets.at.Keys| == |st.secrets.at.Keys| + |NewKeys(st, front)|;
  }

  lemma NewKeysGrow(st: State, front: seq<string>, k: string)
    requires k !in st.secrets.at
    ensures NewKeys(st, front + [k]) == NewKeys(st, front) + {k}
  {}

  lemma PutKeys(st: State, st1: State, plan: Plan, front: seq<string>)
    requires PutDone(st, st1, plan, front)
    ensures st1.secrets.at.Keys == st.secrets.at.Keys + NewKeys(st, front)
    ensures st.secrets.at.Keys !! NewKeys(st, front)
  {
    hide FromPlan, Held;
  }

  lemma PutUnbound(st: State, st1: State, plan: Plan, front: seq<string>, k: string)
    requires PutDone(st, st1, plan, front) && k !in front && Held(st, k).client.None? && Shape(st)
    ensures Held(st1, k).client.None?
  {
    hide NoDup;
  }

  lemma FrontNewKeys(o: Options, st: State, front: seq<string>, k: string)
    requires st.secrets.Size() + |NewKeys(st, front + [k])| <= o.maxSecrets
    ensures st.secrets.Size() + |NewKeys(st, front)| <= o.maxSecrets
  {
    var big, small := NewKeys(st, front + [k]), NewKeys(st, front);
    assert big == small + (big - small);
  }

  lemma {:induction false} PutSecretsKeeps(o: Options, st: State, plan: Plan, keys: seq<string>)
    requires Core(o, st, None) && PlanSound(plan) && NoDup(keys)
    requires forall k :: k in keys ==> k in plan.secrets.at && Held(st, k).client.None?
    requires st.secrets.Size() + |NewKeys(st, keys)| <= o.maxSecrets
    ensures var st' := PutSecrets(st, plan, keys); Core(o, st', None) && Follows(st, st') && PutDone(st, st', plan, keys)
  {
    hide Follows, PutDone, Schedule, Stored, NewKeys, PendingExact, SlotsExact, FlightsBound, ConfirmedBound, WithinCeilings;
    if keys == [] {
      FollowsReflexive(st);
      PutDoneRefl(st, plan);
    } else {
      var front, k := keys[..|keys| - 1], keys[|keys| - 1];
      assert keys == front + [k];
      FrontNewKeys(o, st, front, k);
      PutSecretsKeeps(o, st, plan, front);
      var st1 := PutSecrets(st, plan, front);
      var r := plan.secrets.at[k];
      PutUnbound(st, st1, plan, front, k);
      if k !in st1.secrets.at { PutRoom(o, st, st1, plan, front, k); }
      StoredKeeps(o, st1, k, r);
      PutOne(st, st1, plan, front, k);
      var st2 := Stored(st1, k, r);
      FollowsTransitive(st, st1, st2);
      if r.expiresAt.Some? && !r.confirmed {
        ScheduleKeeps(o, st2, r.expiresAt.value);
        PutDoneSchedule(st, st2, plan, keys, r.expiresAt.value);
        FollowsTransitive(st, st2, Schedule(st2, r.expiresAt.value));
      }
    }
  }

  // ── Applying the plan's clients ──

  ghost predicate AdmitDone(st: State, st': State, plan: Plan, keys: seq<string>) {
    && st' == st.(clients := st'.clients, subs := st'.subs)
    && (forall c :: c in st'.clients.at <==> c in st.clients.at || c in keys)
    && (forall c :: c in st.clients.at && c !in keys ==> st'.clients.at[c] == st.clients.at[c])
    && (forall c :: c in keys && c in plan.clients.at ==>
          st'.clients.at[c] == plan.clients.at[c].(relays := Dedupe(plan.clients.at[c].relays)))
  }

  lemma AdmitOne(o: Options, st: State, st1: State, plan: Plan, keys: seq<string>, k: string, now: int)
    requires AdmitDone(st, st1, plan, keys) && k in plan.clients.at && k !in keys && k !in st1.clients.at
    ensures var c := plan.clients.at[k];
            AdmitDone(st, Admit(o, st1, k, c.secret, c.relays, c.connectedAt, now, true), plan, keys + [k])
  {
    hide Table.Valid;
    var c := plan.clients.at[k];
    var st2 := Admit(o, st1, k, c.secret, c.relays, c.connectedAt, now, true);
    assert st2.clients.at == st1.clients.at[k := Client(c.secret, Dedupe(c.relays), c.connectedAt)];
  }

  lemma AdmitDoneRefl(st: State, plan: Plan)
    ensures AdmitDone(st, st, plan, [])
  {}

  lemma AdmitSize(st: State, st1: State, plan: Plan, keys: seq<string>)
    requires AdmitDone(st, st1, plan, keys) && NoDup(keys) && forall k :: k in keys ==> k !in st.clients.at
    ensures st1.clients.Size() == st.clients.Size() + |keys|
  {
    NoDupCardinality(keys);
    assert st1.clients.at.Keys == st.clients.at.Keys + (set k | k in keys);
  }

  lemma {:induction false} AdmitAllKeeps(o: Options, st: State, plan: Plan, keys: seq<string>, now: int)
    requires Core(o, st, None) && NoDup(keys)
    requires forall k :: k in keys ==> k in plan.clients.at && k !in st.clients.at
    requires st.clients.Size() + |keys| <= o.maxClients
    ensures var st' := AdmitAll(o, st, plan, keys, now); Core(o, st', None) && Later(st, st') && AdmitDone(st, st', plan, keys)
  {
    hide Core, AdmitDone, Follows, Admit, Later;
    if keys == [] {
      LaterReflexive(st);
      AdmitDoneRefl(st, plan);
    } else {
      var front, k := keys[..|keys| - 1], keys[|keys| - 1];
      assert keys == front + [k];
      AdmitAllKeeps(o, st, plan, front, now);
      var st1 := AdmitAll(o, st, plan, front, now);
      AdmitSize(st, st1, plan, front);
      AdmitAbsent(st, st1, plan, front, k);
      var c := plan.clients.at[k];
      AdmitKeeps(o, st1, k, c.secret, c.relays, c.connectedAt, now, true);
      AdmitOne(o, st, st1, plan, front, k, now);
      LaterTransitive(st, st1, AdmitAll(o, st, plan, keys, now));
    }
  }

  lemma AdmitAbsent(st: State, st1: State, plan: Plan, keys: seq<string>, k: string)
    requires AdmitDone(st, st1, plan, keys) && k !in keys && k !in st.clients.at
    ensures k !in st1.clients.at
  {}

  lemma LaterReflexive(st: State)
    ensures Later(st, st)
  {}

  // ── The restore itself ──

  /** The state a restore has built when it is about to announce itself. */
  function Applied(o: Options, st: State, plan: Plan, generation: int, now: int): State {
    var st2 := AdmitAll(o, PutSecrets(st, plan, Fresh(st, plan.secrets.keys)), plan, Absent(st, plan.clients.keys), now);
    st2.(generation := Max(st2.generation, generation))
  }

  /**
   * No client the plan would newly admit has its secret bound in memory but not confirmed.
   * A caller can read this off the server and the state before restoring.
   */
  ghost predicate NoHalfBound(st: State, plan: Plan) {
    forall c :: c in plan.clients.at && c !in st.clients.at ==>
      Held(st, plan.clients.at[c].secret).client.None? || Held(st, plan.clients.at[c].secret).confirmed
  }

  lemma FitRoom(o: Options, st: State, plan: Plan)
    requires Fit(o, st, plan).Good? && plan.secrets.Valid()
    ensures st.secrets.Size() + |NewKeys(st, Fresh(st, plan.secrets.keys))| <= o.maxSecrets
    ensures st.clients.Size() + |Absent(st, plan.clients.keys)| <= o.maxClients
    ensures forall k :: k in plan.secrets.at ==> !Clashes(st, plan, k)
  {
    forall k | k in plan.secrets.at ensures !Clashes(st, plan, k) {
      assert k in plan.secrets.keys;
    }
  }

  lemma AppliedParts(o: Options, st: State, plan: Plan, generation: int, now: int)
    requires Core(o, st, None) && PlanSound(plan) && Fit(o, st, plan).Good?
    ensures var st1 := PutSecrets(st, plan, Fresh(st, plan.secrets.keys));
            var st' := Applied(o, st, plan, generation, now);
            && Core(o, st', None) && Later(st, st') && Follows(st, st1)
            && PutDone(st, st1, plan, Fresh(st, plan.secrets.keys))
            && AdmitDone(st1, st'.(generation := st1.generation), plan, Absent(st, plan.clients.keys))
  {
    hide Core, Later, Backed, Fit, PutDone, AdmitDone, PutSecrets, AdmitAll;
    CoreValid(o, st, None);
    FitRoom(o, st, plan);
    var loose, absent := Fresh(st, plan.secrets.keys), Absent(st, plan.clients.keys);
    PutSecretsKeeps(o, st, plan, loose);
    var st1 := PutSecrets(st, plan, loose);
    PutLeavesClients(st, st1, plan, loose);
    AdmitAllKeeps(o, st1, plan, absent, now);
    var st2 := AdmitAll(o, st1, plan, absent, now);
    LaterTransitive(st, st1, st2);
    var st3 := st2.(generation := Max(st2.generation, generation));
    GenerationOnly(o, st2, st3.generation);
    LaterTransitive(st, st2, st3);
    AdmitLeavesGeneration(st1, st2, plan, absent);
    assert st3.(generation := st1.generation) == st2;
  }

  lemma AdmitLeavesGeneration(st: State, st': State, plan: Plan, keys: seq<string>)
    requires AdmitDone(st, st', plan, keys)
    ensures st'.generation == st.generation
  {}

  lemma GenerationOnly(o: Options, st: State, g: int)
    requires Core(o, st, None)
    ensures Core(o, st.(generation := g), None) && Later(st, st.(generation := g))
  {
    hide Core, Later;
    CoreValid(o, st, None);
    ShedsCore(o, st, st.(generation := g), None);
    ShedsLater(st, st.(generation := g));
  }

  lemma PutLeavesClients(st: State, st': State, plan: Plan, keys: seq<string>)
    requires PutDone(st, st', plan, keys)
    ensures st'.clients == st.clients
  {}

  /** Whose secret is it after the plan was applied? Its own, exactly when memory did not hold it half bound. */
  lemma AppliedOwned(o: Options, st: State, plan: Plan, generation: int, now: int, c: string)
    requires Core(o, st, None) && PlanSound(plan) && Fit(o, st, plan).Good?
    requires c in plan.clients.at && c !in st.clients.at
    ensures var st' := Applied(o, st, plan, generation, now);
            var s := plan.clients.at[c].secret;
            && c in st'.clients.at && st'.clients.at[c].secret == s
            && (Owned(st', s, c) <==> Held(st, s).client.None? || Held(st, s).confirmed)
  {
    hide Core, Later, Follows, Fit, PutSecrets, AdmitAll, Applied;
    CoreValid(o, st, None);
    AppliedParts(o, st, plan, generation, now);
    FitRoom(o, st, plan);
    assert Claims(plan, c);
    var s := plan.clients.at[c].secret;
    assert s in plan.secrets.keys && c in plan.clients.keys;
    var loose := Fresh(st, plan.secrets.keys);
    var st1 := PutSecrets(st, plan, loose);
    var st' := Applied(o, st, plan, generation, now);
    assert Held(st', s) == Held(st1, s);
    if Held(st, s).client.Some? {
      assert s in st.secrets.at && s !in loose;
      CoreHeld(o, st, None, s);
      assert Held(st1, s) == Held(st, s);
      assert !Clashes(st, plan, s);
    }
  }

  /** An accepted restore never replaces a client memory has, nor a record memory holds bound. */
  lemma AppliedKeepsMemory(o: Options, st: State, plan: Plan, generation: int, now: int)
    requires Core(o, st, None) && PlanSound(plan) && Fit(o, st, plan).Good?
    ensures var st' := Applied(o, st, plan, generation, now);
            && (forall c :: c in st.clients.at ==> c in st'.clients.at && st'.clients.at[c] == st.clients.at[c])
            && (forall s :: s in st.secrets.at && Held(st, s).client.Some? ==>
                  s in st'.secrets.at && st'.secrets.at[s] == st.secrets.at[s] && Held(st', s) == Held(st, s))
  {
    hide Core, Later, Follows, Fit, PutSecrets, AdmitAll, Applied;
    AppliedParts(o, st, plan, generation, now);
    var st' := Applied(o, st, plan, generation, now);
    var loose := Fresh(st, plan.secrets.keys);
    forall s | s in st.secrets.at && Held(st, s).client.Some?
      ensures s in st'.secrets.at && st'.secrets.at[s] == st.secrets.at[s] && Held(st', s) == Held(st, s) {
      assert s !in loose;
      CoreHeld(o, st, None, s);
    }
  }

  /** After applying a plan every client is backed if and only if none was admitted over a half-bound secret. */
  lemma AppliedBacked(o: Options, st: State, plan: Plan, generation: int, now: int)
    requires Core(o, st, None) && Backed(st) && PlanSound(plan) && Fit(o, st, plan).Good?
    ensures Backed(Applied(o, st, plan, generation, now)) <==> NoHalfBound(st, plan)
  {
    hide Core, Later, Fit, PutSecrets, AdmitAll, Applied;
    var st' := Applied(o, st, plan, generation, now);
    AppliedKeepsMemory(o, st, plan, generation, now);
    forall c | c in plan.clients.at && c !in st.clients.at
      ensures Owned(st', plan.clients.at[c].secret, c) <==>
              Held(st, plan.clients.at[c].secret).client.None? || Held(st, plan.clients.at[c].secret).confirmed
      ensures c in st'.clients.at && st'.clients.at[c].secret == plan.clients.at[c].secret
    {
      AppliedOwned(o, st, plan, generation, now, c);
    }
    AppliedClients(o, st, plan, generation, now);
    if Backed(st') {
      forall c | c in plan.clients.at && c !in st.clients.at
        ensures Held(st, plan.clients.at[c].secret).client.None? || Held(st, plan.clients.at[c].secret).confirmed {
        assert Owned(st', plan.clients.at[c].secret, c);
      }
    }
    if NoHalfBound(st, plan) {
      forall c | c in st'.clients.at ensures Owned(st', st'.clients.at[c].secret, c) {
        if c in st.clients.at {
          assert Held(st, st.clients.at[c].secret).client.Some?;
        } else {
          assert c in plan.clients.at;
        }
      }
    }
  }

  lemma AppliedClients(o: Options, st: State, plan: Plan, generation: int, now: int)
    requires Core(o, st, None) && PlanSound(plan) && Fit(o, st, plan).Good?
    ensures var st' := Applied(o, st, plan, generation, now);
            forall c :: c in st'.clients.at <==> c in st.clients.at || c in plan.clients.at
  {
    hide Core, Later, Follows, Fit, PutSecrets, AdmitAll, Applied;
    AppliedParts(o, st, plan, generation, now);
    assert forall c :: c in plan.clients.at <==> c in plan.clients.keys;
    PutLeavesClients(st, PutSecrets(st, plan, Fresh(st, plan.secrets.keys)), plan, Fresh(st, plan.secrets.keys));
  }

  /** Sweeping never costs, and never repairs, the backing of a client. */
  lemma ForgetsBackedBoth(st: State, st': State)
    requires Forgets(st, st')
    ensures Backed(st) <==> Backed(st')
  {
    assert forall s :: s in st'.secrets.at ==> Held(st', s) == Held(st, s);
    if Backed(st') {
      forall c | c in st.clients.at ensures Owned(st, st.clients.at[c].secret, c) {
        assert c in st'.clients.at;
      }
    }
  }

  lemma RestoreKeeps(o: Options, st: State, b: Blob, allowUnsigned: bool, now: int)
    requires Core(o, st, None)
    ensures var st' := RestoreState(o, st, b, allowUnsigned, now).0; Core(o, st', None) && Later(st, st')
  {
    hide Core, Later, Judge, Emit, Follows, Fit, PutSecrets, AdmitAll;
    LaterReflexive(st);
    var verdict := Judge(o, st, b, allowUnsigned, now);
    if verdict.Good? {
      JudgedSound(o, st, b, allowUnsigned, now);
      AppliedParts(o, st, verdict.value, StateGeneration(b), now);
      var st1 := Applied(o, st, verdict.value, StateGeneration(b), now);
      EmitKeeps(o, st1, now, None);
      FollowsLater(st1, Emit(o, st1, now));
      LaterTransitive(st, st1, Emit(o, st1, now));
    }
  }

  lemma FollowsLater(st: State, st': State)
    requires Follows(st, st')
    ensures Later(st, st')
  {}

  lemma EmitKeepsLive(o: Options, st: State, s: string, now: int)
    requires st.secrets.Valid() && s in st.secrets.at && !Lapsed(Held(st, s), now)
    ensures s in Emit(o, st, now).secrets.at
  {}

  /**
   * All or nothing. A refused restore changes nothing. An accepted one keeps every client memory
   * has and every binding that has not lapsed, and leaves each connected client backed by its own confirmed
   * secret if and only if it admitted none over a secret memory held bound but unconfirmed.
   */
  lemma RestoreIsAtomic(o: Options, st: State, b: Blob, allowUnsigned: bool, now: int)
    requires Core(o, st, None) && Backed(st)
    ensures var (st', out) := RestoreState(o, st, b, allowUnsigned, now);
            && (out.Refused? ==> st' == st)
            && (out == Restored ==>
                  && (forall c :: c in st.clients.at ==> c in st'.clients.at && st'.clients.at[c] == st.clients.at[c])
                  && (forall s :: s in st.secrets.at && Held(st, s).client.Some? && !Lapsed(Held(st, s), now) ==>
                        s in st'.secrets.at && st'.secrets.at[s] == st.secrets.at[s] && Held(st', s) == Held(st, s))
                  && (Backed(st') <==> NoHalfBound(st, Judge(o, st, b, allowUnsigned, now).value)))
  {
    hide Shape, WithinCeilings, PendingExact, SlotsExact, FlightsBound, Later, Judge, Emit, Follows, Fit, PutSecrets, AdmitAll, Backed, NoHalfBound;
    var verdict := Judge(o, st, b, allowUnsigned, now);
    if verdict.Good? {
      var plan := verdict.value;
      JudgedSound(o, st, b, allowUnsigned, now);
      AppliedParts(o, st, plan, StateGeneration(b), now);
      AppliedKeepsMemory(o, st, plan, StateGeneration(b), now);
      AppliedBacked(o, st, plan, StateGeneration(b), now);
      var st1 := Applied(o, st, plan, StateGeneration(b), now);
      var st' := Emit(o, st1, now);
      CoreValid(o, st1, None);
      EmitForgets(o, st1, now);
      ForgetsBackedBoth(st1, st');
      forall s | s in st.secrets.at && Held(st, s).client.Some? && !Lapsed(Held(st, s), now)
        ensures s in st'.secrets.at && st'.secrets.at[s] == st.secrets.at[s] && Held(st', s) == Held(st, s) {
        assert Held(st1, s) == Held(st, s);
        EmitKeepsLive(o, st1, s, now);
      }
    }
  }

  // ── Every event ──

  lemma FreshStart(o: Options, generation: int)
    ensures Core(o, Init(o, generation), None) && Backed(Init(o, generation))
  {}

  lemma StepKeeps(o: Options, st: State, e: Event, now: int)
    requires Core(o, st, None)
    ensures Core(o, Step(o, st, e, now).0, None)
    ensures !e.Restart? ==> Later(st, Step(o, st, e, now).0)
    ensures !e.Restart? && !e.Restore? ==> Follows(st, Step(o, st, e, now).0)
  {
    hide Core, Later, Backed, MintSecret, AddHost, Connect, Scan, SettleFlight, RevokeSecret, Drop, Sweep, RestoreState, Init, ClaimAll, Snapshot, Sheds;
    FollowsReflexive(st);
    CoreValid(o, st, None);
    match e
    case Mint(secret, relays, ttl) => MintKeeps(o, st, secret, relays, ttl, now);
    case AddRelay(url) => AddHostKeeps(o, st, url);
    case BeginConnect(client, secret) => ConnectKeeps(o, st, client, secret, now);
    case BeginScan(client, secret, relays) => ScanKeeps(o, st, client, secret, relays, now);
    case Settle(flight, approved) => SettleKeeps(o, st, flight, approved, now);
    case Revoke(secret) => RevokeKeeps(o, st, secret, now);
    case Disconnect(client) => DropKeeps(o, st, client, now);
    case Export =>
      SweepForgets(st, now);
      ForgetsSheds(st, Sweep(st, now));
      ShedsCore(o, st, Sweep(st, now), None);
      ForgetsFollows(st, Sweep(st, now));
    case Restore(blob, allowUnsigned) => RestoreKeeps(o, st, blob, allowUnsigned, now);
    case Start => StartStopKeeps(o, st, st.(started := true, subs := ClaimAll(st.subs, st.hosts, Host)));
    case Stop => StartStopKeeps(o, st, st.(stopped := true, subs := map[]));
    case Restart => FreshStart(o, st.generation);
  }

  lemma ForgetsSheds(st: State, st': State)
    requires Forgets(st, st')
    ensures Sheds(st, st')
  {}

  lemma AddHostKeeps(o: Options, st: State, url: string)
    requires Core(o, st, None)
    ensures Core(o, AddHost(st, url), None) && Follows(st, AddHost(st, url))
  {
    hide Core, Follows, Claim;
    CoreValid(o, st, None);
    ShedsCore(o, st, AddHost(st, url), None);
    ForgetsFollows(st, AddHost(st, url));
  }

  lemma StartStopKeeps(o: Options, st: State, st': State)
    requires Core(o, st, None) && st' == st.(started := st'.started, stopped := st'.stopped, subs := st'.subs)
    ensures Core(o, st', None) && Follows(st, st')
  {
    hide Core, Follows;
    CoreValid(o, st, None);
    ShedsCore(o, st, st', None);
    ForgetsFollows(st, st');
  }
}
