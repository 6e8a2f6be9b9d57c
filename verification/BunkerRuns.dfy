/** Safety of whole runs: any interleaving of pairing events, from any state that keeps the invariant. */
module BunkerRuns {
  import opened Common
  import opened BunkerModel
  import opened BunkerInvariants
  import opened BunkerRestore

  datatype Timed = Timed(event: Event, now: int)

  function Run(o: Options, st: State, run: seq<Timed>): State {
    if run == [] then st
    else Step(o, Run(o, st, run[..|run| - 1]), run[|run| - 1].event, run[|run| - 1].now).0
  }

  /** The state in which the `i`-th event happens, and what the event answers. */
  function Before(o: Options, st: State, run: seq<Timed>, i: nat): State
    requires i <= |run|
  {
    Run(o, st, run[..i])
  }

  function Answer(o: Options, st: State, run: seq<Timed>, i: nat): Outcome
    requires i < |run|
  {
    Step(o, Before(o, st, run, i), run[i].event, run[i].now).1
  }

  lemma NextState(o: Options, st: State, run: seq<Timed>, i: nat)
    requires i < |run|
    ensures Before(o, st, run, i + 1) == Step(o, Before(o, st, run, i), run[i].event, run[i].now).0
  {
    hide Step;
    assert run[..i + 1][..i] == run[..i];
  }

  /** A run of one process. */
  ghost predicate OneProcess(run: seq<Timed>) {
    forall i :: 0 <= i < |run| ==> !run[i].event.Restart?
  }

  // ── The invariant over runs ──

  lemma {:induction false} RunKeepsCore(o: Options, st: State, run: seq<Timed>, i: nat)
    requires Core(o, st, None) && i <= |run|
    ensures Core(o, Before(o, st, run, i), None)
  {
    hide Core, Step;
    if i == 0 {
      assert run[..0] == [];
    } else {
      RunKeepsCore(o, st, run, i - 1);
      NextState(o, st, run, i - 1);
      StepKeeps(o, Before(o, st, run, i - 1), run[i - 1].event, run[i - 1].now);
    }
  }

  lemma {:induction false} RunGoesForward(o: Options, st: State, run: seq<Timed>, i: nat, j: nat)
    requires Core(o, st, None) && OneProcess(run) && i <= j <= |run|
    ensures Later(Before(o, st, run, i), Before(o, st, run, j))
  {
    hide Core, Step, Later;
    if i == j {
      LaterReflexive(Before(o, st, run, i));
    } else {
      RunGoesForward(o, st, run, i, j - 1);
      RunKeepsCore(o, st, run, j - 1);
      NextState(o, st, run, j - 1);
      StepKeeps(o, Before(o, st, run, j - 1), run[j - 1].event, run[j - 1].now);
      LaterTransitive(Before(o, st, run, i), Before(o, st, run, j - 1), Before(o, st, run, j));
    }
  }

  /** Every accepted restore of the run leaves half-bound secrets alone. */
  ghost predicate CarefulRestores(o: Options, st: State, run: seq<Timed>) {
    forall i :: 0 <= i < |run| && run[i].event.Restore? ==> CarefulRestore(o, Before(o, st, run, i), run[i])
  }

  ghost predicate CarefulRestore(o: Options, st: State, t: Timed)
    requires t.event.Restore?
  {
    var verdict := Judge(o, st, t.event.blob, t.event.allowUnsigned, t.now);
    verdict.Good? ==> NoHalfBound(st, verdict.value)
  }

  lemma CarefulStepKeepsBacked(o: Options, st: State, t: Timed)
    requires Core(o, st, None) && Backed(st)
    requires t.event.Restore? ==> CarefulRestore(o, st, t)
    ensures Backed(Step(o, st, t.event, t.now).0)
  {
    hide Core, Backed, MintSecret, AddHost, Connect, Scan, SettleFlight, RevokeSecret, Drop, Sweep, Judge, Later,
         PutSecrets, AdmitAll, Emit, NoHalfBound, Snapshot, ClaimAll, Init;
    if t.event.Restore? {
      RestoreIsAtomic(o, st, t.event.blob, t.event.allowUnsigned, t.now);
    } else if t.event.Restart? {
      FreshStart(o, st.generation);
    } else {
      StepKeeps(o, st, t.event, t.now);
    }
  }

  lemma {:induction false} RunKeepsBacked(o: Options, st: State, run: seq<Timed>, i: nat)
    requires Core(o, st, None) && Backed(st) && CarefulRestores(o, st, run) && i <= |run|
    ensures Backed(Before(o, st, run, i))
  {
    hide Core, Backed, Step, CarefulRestore;
    if i == 0 {
      assert run[..0] == [];
    } else {
      RunKeepsBacked(o, st, run, i - 1);
      RunKeepsCore(o, st, run, i - 1);
      NextState(o, st, run, i - 1);
      CarefulStepKeepsBacked(o, Before(o, st, run, i - 1), run[i - 1]);
    }
  }

  /**
   * From start-up on, in every run whose restores are careful: the ceilings hold, every counter
   * equals the approvals it counts, and two connected clients never hold the same secret; each one's
   * secret is still live, confirmed, and bound to it.
   */
  lemma ReachableStates(o: Options, generation: int, run: seq<Timed>, i: nat)
    requires i <= |run| && CarefulRestores(o, Init(o, generation), run)
    ensures var st := Before(o, Init(o, generation), run, i);
            && |st.clients.at| <= o.maxClients && |st.secrets.at| <= o.maxSecrets
            && st.approvals == |st.inflight|
            && (forall r :: r in st.recs ==> st.recs[r].pending == |Riders(st.inflight, r)|)
            && (forall c :: c in st.admissions <==> Slots(st.inflight, c) != {})
            && (forall c :: c in st.admissions ==> st.admissions[c] == |Slots(st.inflight, c)|)
            && (forall c :: c in st.clients.at ==> Owned(st, st.clients.at[c].secret, c))
            && (forall c, d :: c in st.clients.at && d in st.clients.at && st.clients.at[c].secret == st.clients.at[d].secret ==> c == d)
  {
    hide Before, CarefulRestores, Init, NoDup, FlightsBound, ConfirmedBound;
    FreshStart(o, generation);
    RunKeepsCore(o, Init(o, generation), run, i);
    RunKeepsBacked(o, Init(o, generation), run, i);
    var st := Before(o, Init(o, generation), run, i);
    assert forall c :: c in st.clients.at ==> Owned(st, st.clients.at[c].secret, c);
  }

  // ── One secret, one client ──

  /** An admission confirms the very record it came through, for the client it names. */
  lemma AdmissionConfirms(o: Options, st: State, e: Event, now: int)
    requires Core(o, st, None) && Step(o, st, e, now).1.Admitted?
    ensures var (st', out) := Step(o, st, e, now);
            && e.Settle? && e.flight in st.inflight && st.inflight[e.flight].rid == out.rid
            && out.rid in st.recs && StillHeld(st, out.secret, out.rid)
            && out.rid in st'.recs && st'.recs[out.rid].confirmed && st'.recs[out.rid].client == Some(out.client)
  {
    hide Core, MintSecret, AddHost, Connect, Scan, RevokeSecret, Drop, Sweep, RestoreState, Init, ClaimAll, Snapshot, Admit, Confirm, Unbind, RoomFor, Later, Backed;
    AdmissionIsSettle(o, st, e, now);
    var f := st.inflight[e.flight];
    var st1 := EndApproval(st, e.flight);
    EndApprovalKeeps(o, st, e.flight);
    ConfirmKeeps(o, st1, f);
    AdmitLeavesRecs(o, Confirm(st1, f), f.client, f.secret, f.relays, now, now, false);
    assert st1.recs == st.recs;
    ConfirmRecs(st1, f);
  }

  lemma ConfirmRecs(st: State, f: Flight)
    ensures f.rid in Confirm(st, f).recs
  {}

  lemma AdmissionIsSettle(o: Options, st: State, e: Event, now: int)
    requires Step(o, st, e, now).1.Admitted?
    ensures e.Settle? && e.flight in st.inflight
  {
    hide AddHost, Drop, Sweep, Judge, PutSecrets, AdmitAll, Init, ClaimAll, Snapshot, Admit, Confirm, Unbind, RoomFor,
         DropIfLapsed, Bind, BeginApproval, Takable, OverCeiling, AddHosts, Hex64, Emit, Stored, Redisplayed, Schedule;
  }

  /** All admissions through one secret record, in any run of one process, name the same client. */
  lemma OneSecretOneClient(o: Options, st: State, run: seq<Timed>, i: nat, j: nat)
    requires Core(o, st, None) && OneProcess(run) && i < j < |run|
    requires Answer(o, st, run, i).Admitted? && Answer(o, st, run, j).Admitted?
    requires Answer(o, st, run, i).rid == Answer(o, st, run, j).rid
    ensures Answer(o, st, run, i).client == Answer(o, st, run, j).client
  {
    hide Core, Step, Before;
    RunKeepsCore(o, st, run, i);
    RunKeepsCore(o, st, run, j);
    AdmissionConfirms(o, Before(o, st, run, i), run[i].event, run[i].now);
    AdmissionConfirms(o, Before(o, st, run, j), run[j].event, run[j].now);
    NextState(o, st, run, i);
    NextState(o, st, run, j);
    RunGoesForward(o, st, run, i + 1, j + 1);
  }

  // ── Revocation is final for what was in flight ──

  lemma PurgedClients(st: State, secret: string)
    requires Backed(st) && secret in st.secrets.at
    ensures var st' := Purged(st, secret);
            && (forall c :: c in st'.clients.at ==> st'.clients.at[c].secret != secret)
            && (forall c :: c in st.clients.at && st.clients.at[c].secret != secret ==> c in st'.clients.at && st'.clients.at[c] == st.clients.at[c])
            && secret !in st'.secrets.at && st'.generation == st.generation + 1
  {
    hide Left, NoDup;
    var owner := Held(st, secret).client;
    if owner.Some? && owner.value in st.clients.at { LeftLeaves(Struck(st, secret), owner.value); }
  }

  /** What a revocation does at once: the secret is gone, and so is the client connected through it. */
  lemma RevocationStrikes(o: Options, st: State, secret: string, now: int)
    requires Core(o, st, None) && Backed(st) && secret in st.secrets.at
    ensures var (st', out) := RevokeSecret(o, st, secret, now);
            && out == Revoked && st'.generation == st.generation + 1
            && secret !in st'.secrets.at
            && (forall c :: c in st'.clients.at ==> st'.clients.at[c].secret != secret)
            && (forall c :: c in st.clients.at && st.clients.at[c].secret != secret ==> c in st'.clients.at && st'.clients.at[c] == st.clients.at[c])
  {
    hide Core, Backed, Purged, Emit;
    PurgedClients(st, secret);
    PurgedValid(o, st, secret);
    EmitForgets(o, Purged(st, secret), now);
    EmitLeaves(o, Purged(st, secret), now);
    RevokeIsPurge(o, st, secret, now);
  }

  lemma RevokeIsPurge(o: Options, st: State, secret: string, now: int)
    requires secret in st.secrets.at
    ensures RevokeSecret(o, st, secret, now) == (Emit(o, Purged(st, secret), now), Revoked)
  {
    hide Emit, ReleaseAll;
  }

  lemma PurgedValid(o: Options, st: State, secret: string)
    requires Core(o, st, None) && secret in st.secrets.at
    ensures Purged(st, secret).secrets.Valid()
  {
    hide Core, Purged;
    PurgedKeeps(o, st, secret);
    CoreValid(o, Purged(st, secret), None);
  }

  /** After a step that drops record `r` from the secrets, `r` names no secret in any later state. */
  lemma DroppedForGood(st: State, st': State, r: nat)
    requires Later(st, st') && r < st.nextId && forall s :: s in st.secrets.at ==> st.secrets.at[s] != r
    ensures forall s :: s in st'.secrets.at ==> st'.secrets.at[s] != r
  {}

  lemma CoreIds(o: Options, st: State, secret: string)
    requires Core(o, st, None) && secret in st.secrets.at
    ensures st.secrets.at[secret] in st.recs && st.secrets.at[secret] < st.nextId
  {}

  lemma RevocationSheds(o: Options, st: State, secret: string, now: int)
    requires Core(o, st, None) && secret in st.secrets.at
    ensures var st' := RevokeSecret(o, st, secret, now).0;
            st'.nextId == st.nextId && forall s :: s in st'.secrets.at ==> st'.secrets.at[s] != st.secrets.at[secret]
  {
    hide Core, Purged, Emit, RevokeSecret, NoDup;
    PurgedValid(o, st, secret);
    PurgedSheds(o, st, secret);
    RevokeIsPurge(o, st, secret, now);
    EmitForgets(o, Purged(st, secret), now);
    EmitLeaves(o, Purged(st, secret), now);
  }

  lemma PurgedSheds(o: Options, st: State, secret: string)
    requires Core(o, st, None) && secret in st.secrets.at
    ensures var st1 := Purged(st, secret);
            st1.nextId == st.nextId && forall s :: s in st1.secrets.at ==> st1.secrets.at[s] != st.secrets.at[secret]
  {
    hide WithinCeilings, PendingExact, SlotsExact, FlightsBound, ConfirmedBound, Left, NoDup;
    var owner := Held(st, secret).client;
    if owner.Some? && owner.value in st.clients.at { LeftLeaves(Struck(st, secret), owner.value); }
  }

  /**
   * An approval that was pending when its secret was revoked never admits anyone, whatever happens
   * afterwards: not even when the same secret string is minted or restored again.
   */
  lemma RevocationIsFinal(o: Options, st: State, run: seq<Timed>, i: nat, j: nat)
    requires Core(o, st, None) && OneProcess(run) && i < j < |run|
    requires run[i].event.Revoke? && run[i].event.secret in Before(o, st, run, i).secrets.at
    ensures Answer(o, st, run, j).Admitted? ==> Answer(o, st, run, j).rid != Before(o, st, run, i).secrets.at[run[i].event.secret]
  {
    hide Core, Before, Later, RevokeSecret, MintSecret, AddHost, Connect, Scan, SettleFlight, Drop, Sweep, RestoreState, Init, ClaimAll, Snapshot;
    var s, now := run[i].event.secret, run[i].now;
    var sti := Before(o, st, run, i);
    RunKeepsCore(o, st, run, i);
    RunKeepsCore(o, st, run, j);
    CoreIds(o, sti, s);
    RevocationSheds(o, sti, s, now);
    NextState(o, st, run, i);
    RunGoesForward(o, st, run, i + 1, j);
    DroppedForGood(Before(o, st, run, i + 1), Before(o, st, run, j), sti.secrets.at[s]);
    if Answer(o, st, run, j).Admitted? {
      AdmissionConfirms(o, Before(o, st, run, j), run[j].event, run[j].now);
    }
  }

  // ── Generations ──

  lemma SweepGeneration(st: State, now: int)
    ensures Sweep(st, now).generation == st.generation && Sweep(st, now).hosts == st.hosts
  {}

  lemma MintOnGeneration(o: Options, st: State, secret: string, urls: seq<string>, life: int, now: int)
    ensures MintOn(o, st, secret, urls, life, now).0.generation == st.generation
    ensures var out := MintOn(o, st, secret, urls, life, now).1; !out.Revoked? && !out.Exported? && !out.Restored?
  {
    hide Emit;
    if secret in st.secrets.at {
      EmitLeaves(o, Redisplayed(st, secret, urls), now);
    } else {
      var due := if life > 0 then Some(now + life) else None;
      EmitLeaves(o, Stored(if due.Some? then Schedule(st, due.value) else st, secret, Rec(urls, None, false, 0, true, due)), now);
    }
  }

  lemma MintGeneration(o: Options, st: State, secret: string, relays: seq<string>, ttl: Option<int>, now: int)
    ensures MintSecret(o, st, secret, relays, ttl, now).0.generation == st.generation
    ensures var out := MintSecret(o, st, secret, relays, ttl, now).1; !out.Revoked? && !out.Exported? && !out.Restored?
  {
    hide Sweep, Dedupe, AddHosts, MintOn;
    SweepGeneration(st, now);
    var st0 := Sweep(st, now);
    var urls := Dedupe(if relays == [] then st0.hosts else relays);
    AddHostsSame(st0, urls);
    MintOnGeneration(o, AddHosts(st0, urls), secret, urls, if ttl.Some? then ttl.value else o.secretTtl, now);
  }

  lemma DropIfLapsedGeneration(o: Options, st: State, secret: string, now: int)
    ensures DropIfLapsed(o, st, secret, now).generation == st.generation
  {
    hide Emit;
    EmitLeaves(o, st.(secrets := st.secrets.Delete(secret)), now);
  }

  lemma BindGeneration(o: Options, st: State, secret: string, client: string, relays: seq<string>, now: int)
    ensures Bind(o, st, secret, client, relays, now).generation == st.generation
  {
    hide Emit;
    var st1 := Readied(st, secret, relays);
    var id := st1.secrets.at[secret];
    var r := RecOf(st1, id);
    EmitLeaves(o, SetRec(st1, id, r.(client := Some(client), pending := r.pending + 1)), now);
  }

  lemma UnbindGeneration(o: Options, st: State, secret: string, id: nat, now: int)
    ensures Unbind(o, st, secret, id, now).generation == st.generation
  {
    hide Emit, Unbind, Freed, RecOf;
    UnbindIsFreed(o, st, secret, id, now);
    FreedGeneration(st, secret, id);
    EmitLeaves(o, Freed(st, secret, id), now);
  }

  lemma FreedGeneration(st: State, secret: string, id: nat)
    ensures Freed(st, secret, id).generation == st.generation
  {
    hide RecOf;
  }

  lemma AdmitGeneration(o: Options, st: State, client: string, secret: string, raw: seq<string>, at: int, now: int, muted: bool)
    ensures Admit(o, st, client, secret, raw, at, now, muted).generation == st.generation
  {
    hide Emit, Dedupe, ClaimAll, ReleaseAll;
    EmitLeaves(o, Seated(st, client, secret, raw, at), now);
  }

  lemma ApprovalGeneration(o: Options, st: State, e: Event, now: int)
    requires e.BeginConnect? || e.BeginScan? || e.Settle?
    ensures Step(o, st, e, now).0.generation == st.generation
    ensures var out := Step(o, st, e, now).1; !out.Revoked? && !out.Exported? && !out.Restored?
  {
    hide DropIfLapsed, Bind, Unbind, Admit, Dedupe, Hex64, Bump, Unbump, Held, OverCeiling, Takable, RoomFor;
    match e
    case BeginConnect(client, secret) =>
      DropIfLapsedGeneration(o, st, secret, now);
      BindGeneration(o, DropIfLapsed(o, st, secret, now), secret, client, [], now);
    case BeginScan(client, secret, raw) =>
      DropIfLapsedGeneration(o, st, secret, now);
      BindGeneration(o, DropIfLapsed(o, st, secret, now), secret, client, Dedupe(raw), now);
    case Settle(flight, approved) =>
      if flight in st.inflight {
        var f := st.inflight[flight];
        var st1 := EndApproval(st, flight);
        UnbindGeneration(o, st1, f.secret, f.rid, now);
        AdmitGeneration(o, Confirm(st1, f), f.client, f.secret, f.relays, now, now, false);
      }
  }

  lemma DropGeneration(o: Options, st: State, client: string, now: int)
    ensures Drop(o, st, client, now).generation == st.generation
  {
    hide Emit, ReleaseAll;
    if client in st.clients.at { EmitLeaves(o, Left(st, client), now); }
  }

  lemma RevokeGeneration(o: Options, st: State, secret: string, now: int)
    ensures var (st', out) := RevokeSecret(o, st, secret, now);
            st'.generation == (if out.Revoked? then st.generation + 1 else st.generation) && !out.Exported? && !out.Restored?
  {
    hide Emit, Drop;
    if secret in st.secrets.at {
      var st1 := Struck(st, secret);
      EmitLeaves(o, st1, now);
      var c := Held(st, secret).client;
      if c.Some? { DropGeneration(o, st1, c.value, now); }
    }
  }

  lemma RestoreGeneration(o: Options, st: State, b: Blob, allowUnsigned: bool, now: int)
    requires Core(o, st, None)
    ensures var (st', out) := RestoreState(o, st, b, allowUnsigned, now);
            st'.generation == (if out.Restored? then StateGeneration(b) else st.generation) && !out.Revoked?
            && (out.Restored? ==> StateGeneration(b) >= st.generation)
  {
    hide Core, Judge, Walk, PutSecrets, AdmitAll, Fit, Later, Follows;
    var verdict := Judge(o, st, b, allowUnsigned, now);
    if verdict.Good? {
      JudgedSound(o, st, b, allowUnsigned, now);
      AppliedParts(o, st, verdict.value, StateGeneration(b), now);
      var plan := verdict.value;
      var st1 := PutSecrets(st, plan, Fresh(st, plan.secrets.keys));
      AppliedGeneration(o, st, plan, StateGeneration(b), now);
      EmitLeaves(o, Applied(o, st, plan, StateGeneration(b), now), now);
    }
  }

  lemma AppliedGeneration(o: Options, st: State, plan: Plan, generation: int, now: int)
    requires Core(o, st, None) && PlanSound(plan) && Fit(o, st, plan).Good?
    ensures Applied(o, st, plan, generation, now).generation == Max(st.generation, generation)
  {
    hide Core, PutSecrets, AdmitAll, Later, Follows, PutDone, AdmitDone, Fit;
    CoreValid(o, st, None);
    var loose, absent := Fresh(st, plan.secrets.keys), Absent(st, plan.clients.keys);
    FitRoom(o, st, plan);
    PutSecretsKeeps(o, st, plan, loose);
    var st1 := PutSecrets(st, plan, loose);
    PutLeaves(st, st1, plan, loose);
    AdmitAllKeeps(o, st1, plan, absent, now);
    AdmitLeavesGeneration(st1, AdmitAll(o, st1, plan, absent, now), plan, absent);
  }

  lemma PutLeaves(st: State, st': State, plan: Plan, keys: seq<string>)
    requires PutDone(st, st', plan, keys)
    ensures st'.clients == st.clients && st'.generation == st.generation
  {}

  /** The generation never decreases, not even across restarts; a revocation moves it on by one. */
  lemma GenerationStep(o: Options, st: State, e: Event, now: int)
    requires Core(o, st, None)
    ensures Step(o, st, e, now).0.generation >= st.generation
    ensures Step(o, st, e, now).1.Revoked? ==> Step(o, st, e, now).0.generation == st.generation + 1
    ensures Step(o, st, e, now).1.Exported? ==>
              Step(o, st, e, now).1.blob.content.generation == st.generation && Step(o, st, e, now).1.blob.version == Some(2)
    ensures Step(o, st, e, now).1.Restored? ==> e.Restore? && StateGeneration(e.blob) >= st.generation
  {
    hide Core, MintSecret, Connect, Scan, SettleFlight, RestoreState, RevokeSecret, Sweep, Drop, ClaimAll, StateGeneration;
    match e
    case Mint(secret, relays, ttl) => MintGeneration(o, st, secret, relays, ttl, now);
    case BeginConnect(_, _) => ApprovalGeneration(o, st, e, now);
    case BeginScan(_, _, _) => ApprovalGeneration(o, st, e, now);
    case Settle(_, _) => ApprovalGeneration(o, st, e, now);
    case Restore(b, allowUnsigned) => RestoreGeneration(o, st, b, allowUnsigned, now); RestoreAnswers(o, st, b, allowUnsigned, now);
    case Revoke(secret) => RevokeGeneration(o, st, secret, now);
    case Disconnect(c) => DropGeneration(o, st, c, now);
    case AddRelay(_) =>
    case Export => SweepGeneration(st, now);
    case Start =>
    case Stop =>
    case Restart =>
  }

  lemma RestoreAnswers(o: Options, st: State, b: Blob, allowUnsigned: bool, now: int)
    ensures var out := RestoreState(o, st, b, allowUnsigned, now).1; !out.Exported?
  {
    hide Judge, PutSecrets, AdmitAll, Emit;
  }

  lemma {:induction false} GenerationOverRun(o: Options, st: State, run: seq<Timed>, i: nat, j: nat)
    requires Core(o, st, None) && i <= j <= |run|
    ensures Before(o, st, run, i).generation <= Before(o, st, run, j).generation
  {
    hide Core, Step;
    if i < j {
      GenerationOverRun(o, st, run, i, j - 1);
      RunKeepsCore(o, st, run, j - 1);
      NextState(o, st, run, j - 1);
      GenerationStep(o, Before(o, st, run, j - 1), run[j - 1].event, run[j - 1].now);
    }
  }

  /** The MAC cannot be forged: a state that verifies was exported earlier in the run under this key. */
  ghost predicate Unforged(o: Options, st: State, run: seq<Timed>) {
    forall k :: 0 <= k < |run| && run[k].event.Restore? && Verifies(o, run[k].event.blob) ==> WasExported(o, st, run, k)
  }

  ghost predicate WasExported(o: Options, st: State, run: seq<Timed>, k: nat)
    requires k < |run| && run[k].event.Restore?
  {
    exists i :: 0 <= i < k && ExportedAt(o, st, run, i, run[k].event.blob.content)
  }

  ghost predicate ExportedAt(o: Options, st: State, run: seq<Timed>, i: nat, c: Content)
    requires i < |run|
  {
    Answer(o, st, run, i).Exported? && Answer(o, st, run, i).blob.content == c
  }

  /**
   * Over any sequence of runs and restarts in which the host keeps its counter: a state exported
   * before a revocation is refused after it.
   */
  lemma StaleStateIsRefused(o: Options, st: State, run: seq<Timed>, i: nat, j: nat, k: nat)
    requires Core(o, st, None) && st.generation >= 0 && i < j < k < |run| && run[k].event.Restore?
    requires ExportedAt(o, st, run, i, run[k].event.blob.content)
    requires Answer(o, st, run, j).Revoked?
    ensures !Answer(o, st, run, k).Restored?
  {
    hide Core, Step, Before;
    RunKeepsCore(o, st, run, i);
    RunKeepsCore(o, st, run, j);
    RunKeepsCore(o, st, run, k);
    GenerationStep(o, Before(o, st, run, i), run[i].event, run[i].now);
    GenerationStep(o, Before(o, st, run, j), run[j].event, run[j].now);
    GenerationStep(o, Before(o, st, run, k), run[k].event, run[k].now);
    NextState(o, st, run, j);
    GenerationOverRun(o, st, run, i, j);
    GenerationOverRun(o, st, run, j + 1, k);
    ZeroPrefix(o, st, run);
    GenerationOverRun(o, st, run, 0, j);
  }

  lemma ZeroPrefix(o: Options, st: State, run: seq<Timed>)
    ensures Before(o, st, run, 0) == st
  {
    assert run[..0] == [];
  }

  lemma RestoredVerifies(o: Options, st: State, b: Blob, allowUnsigned: bool, now: int)
    requires RestoreState(o, st, b, allowUnsigned, now).1.Restored?
    ensures b.version == Some(2) ==> Verifies(o, b)
  {
    hide PutSecrets, AdmitAll, Emit, JudgeGenuine;
  }

  /** Whatever is restored after a revocation was exported after that revocation. */
  lemma RevokedStaysRevoked(o: Options, st: State, run: seq<Timed>, j: nat, k: nat)
    requires Core(o, st, None) && st.generation >= 0 && Unforged(o, st, run) && j < k < |run|
    requires Answer(o, st, run, j).Revoked? && Answer(o, st, run, k).Restored?
    ensures run[k].event.Restore?
    ensures exists i :: j < i < k && ExportedAt(o, st, run, i, run[k].event.blob.content)
  {
    hide Core, Before, MintSecret, Connect, Scan, SettleFlight, RestoreState, Walk, Drop, ClaimAll, Verifies;
    RunKeepsCore(o, st, run, j);
    RunKeepsCore(o, st, run, k);
    GenerationStep(o, Before(o, st, run, j), run[j].event, run[j].now);
    GenerationStep(o, Before(o, st, run, k), run[k].event, run[k].now);
    NextState(o, st, run, j);
    GenerationOverRun(o, st, run, j + 1, k);
    ZeroPrefix(o, st, run);
    GenerationOverRun(o, st, run, 0, j);
    var b := run[k].event.blob;
    assert b.version == Some(2) && b.content.generation >= 1;
    RestoredVerifies(o, Before(o, st, run, k), b, run[k].event.allowUnsigned, run[k].now);
    assert WasExported(o, st, run, k);
    var i :| 0 <= i < k && ExportedAt(o, st, run, i, b.content);
    if i < j { StaleStateIsRefused(o, st, run, i, j, k); }
  }
}
