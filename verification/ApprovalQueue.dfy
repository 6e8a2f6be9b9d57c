/** The approval queue: requests wait under caps, and each is settled exactly once by whatever comes first. */
module ApprovalQueue {
  import opened Common
  import opened JsMap

  datatype Kind = Approval | Unlock | Remote

  datatype Entry = Entry(id: string, origin: string, kind: Kind, account: string, queuedAt: int)

  datatype Code = Shutdown | InvalidRequest | TooManyPending | TimedOut | Rejected | AccountSwitched | WorkFailed(error: string)

  datatype Outcome = Resolved(value: string) | Failed(code: Code)

  /** One accepted request: what the caller was told, once it was, and whether its work was told to stop. */
  datatype Job = Job(entry: Entry, outcome: Option<Outcome>, aborted: bool)

  datatype Limits = Limits(pendingPerOrigin: nat, inFlightPerOrigin: nat, inFlightGlobal: nat)

  datatype State = State(entries: Table<nat>, jobs: map<nat, Job>, nextJob: nat, disposed: bool)

  /** What a `track` call answers at once. */
  datatype Reply = Refused(code: Code) | Accepted(job: nat)

  const INITIAL := State(Empty(), map[], 0, false)

  function KindName(kind: Kind): string {
    match kind
    case Approval => "approval"
    case Unlock => "unlock"
    case Remote => "remote"
  }

  function Key(e: Entry): string {
    e.origin + ['\0'] + KindName(e.kind) + ['\0'] + e.id
  }

  function JobAt(st: State, key: string): Job {
    if key in st.entries.at && st.entries.at[key] in st.jobs then st.jobs[st.entries.at[key]]
    else Job(Entry("", "", Unlock, "", 0), None, false)
  }

  // ── The caps' counts ──

  /** The keys of the prompts an origin has open. */
  function Prompts(st: State, origin: string): set<string> {
    set k | k in st.entries.at && JobAt(st, k).entry.kind.Approval? && JobAt(st, k).entry.origin == origin
  }

  function InFlight(st: State, origin: string): set<string> {
    set k | k in st.entries.at && JobAt(st, k).entry.origin == origin
  }

  // ── Steps ──

  /** `settle`: nothing at all for a request that was settled already. */
  function Settle(st: State, job: nat, outcome: Outcome, abort: bool): State {
    if job !in st.jobs || st.jobs[job].outcome.Some? then st
    else st.(jobs := st.jobs[job := st.jobs[job].(outcome := Some(outcome), aborted := abort)],
             entries := st.entries.Delete(Key(st.jobs[job].entry)))
  }

  /** `track`; `thrown` is set when the work throws as it is started. */
  function Track(o: Limits, st: State, e: Entry, thrown: Option<string>): (State, Reply) {
    if st.disposed then (st, Refused(Shutdown))
    else if Key(e) in st.entries.at then (st, Refused(InvalidRequest))
    else if e.kind.Approval? && |Prompts(st, e.origin)| >= o.pendingPerOrigin then (st, Refused(TooManyPending))
    else if st.entries.Size() >= o.inFlightGlobal || |InFlight(st, e.origin)| >= o.inFlightPerOrigin then (st, Refused(TooManyPending))
    else
      var st1 := st.(jobs := st.jobs[st.nextJob := Job(e, None, false)], entries := st.entries.Put(Key(e), st.nextJob), nextJob := st.nextJob + 1);
      (if thrown.Some? then Settle(st1, st.nextJob, Failed(WorkFailed(thrown.value)), false) else st1, Accepted(st.nextJob))
  }

  datatype Event =
    | Tracked(entry: Entry, thrown: Option<string>)
    | Finished(job: nat, outcome: Outcome)
    | Timeout(job: nat)
    | RejectRequest(origin: string, id: string)
    | SwitchAccount(account: string)
    | RejectOrigin(origin: string)
    | Dispose

  /** Which waiting entries an event rejects. */
  predicate Selects(ev: Event, e: Entry) {
    match ev
    case RejectRequest(origin, id) => e.origin == origin && e.id == id
    case SwitchAccount(account) => account != "" && e.account == account
    case RejectOrigin(origin) => origin != "" && e.origin == origin
    case Dispose => true
    case _ => false
  }

  function CodeOf(ev: Event): Code {
    match ev
    case SwitchAccount(_) => AccountSwitched
    case Dispose => Shutdown
    case _ => Rejected
  }

  /** The snapshot `#rejectWhere` walks: the selected jobs, in order of arrival. */
  function Selected(st: State, keys: seq<string>, ev: Event): seq<nat> {
    if keys == [] then []
    else
      var front, k := Selected(st, keys[..|keys| - 1], ev), keys[|keys| - 1];
      if k in st.entries.at && Selects(ev, JobAt(st, k).entry) then front + [st.entries.at[k]] else front
  }

  function FailAll(st: State, jobs: seq<nat>, code: Code): State {
    if jobs == [] then st else Settle(FailAll(st, jobs[..|jobs| - 1], code), jobs[|jobs| - 1], Failed(code), true)
  }

  function Step(o: Limits, st: State, ev: Event): State {
    match ev
    case Tracked(e, thrown) => Track(o, st, e, thrown).0
    case Finished(job, outcome) => Settle(st, job, outcome, false)
    case Timeout(job) => Settle(st, job, Failed(TimedOut), true)
    case Dispose => FailAll(st.(disposed := true), Selected(st, st.entries.keys, ev), Shutdown)
    case _ => FailAll(st, Selected(st, st.entries.keys, ev), CodeOf(ev))
  }

  function Run(o: Limits, st: State, run: seq<Event>): State {
    if run == [] then st else Step(o, Run(o, st, run[..|run| - 1]), run[|run| - 1])
  }

  // ── What every step keeps ──

  /** A request waits exactly while it is not settled, under its own key. */
  ghost predicate Waiting(st: State) {
    && st.entries.Valid()
    && (forall k :: k in st.entries.at ==>
          st.entries.at[k] in st.jobs && st.jobs[st.entries.at[k]].outcome.None? && Key(st.jobs[st.entries.at[k]].entry) == k)
    && (forall j :: j in st.jobs && st.jobs[j].outcome.None? ==>
          Key(st.jobs[j].entry) in st.entries.at && st.entries.at[Key(st.jobs[j].entry)] == j)
    && (forall j :: j in st.jobs ==> j < st.nextJob)
  }

  ghost predicate WithinCaps(o: Limits, st: State) {
    && st.entries.Size() <= o.inFlightGlobal
    && (forall origin :: |Prompts(st, origin)| <= o.pendingPerOrigin && |InFlight(st, origin)| <= o.inFlightPerOrigin)
  }

  ghost predicate Orderly(o: Limits, st: State) {
    Waiting(st) && WithinCaps(o, st)
  }

  ghost predicate Kept(o: Limits, st: State) {
    Orderly(o, st) && (st.disposed ==> st.entries.at == map[])
  }

  /** What the caller was told is never told again, or differently. */
  ghost predicate Later(st: State, st': State) {
    && st.nextJob <= st'.nextJob && (st.disposed ==> st'.disposed)
    && (forall j :: j in st.jobs ==> j in st'.jobs && st'.jobs[j].entry == st.jobs[j].entry)
    && (forall j :: j in st.jobs && st.jobs[j].outcome.Some? ==> st'.jobs[j] == st.jobs[j])
    && (forall j :: j in st'.jobs && j < st.nextJob ==> j in st.jobs)
  }

  lemma LaterTransitive(a: State, b: State, c: State)
    requires Later(a, b) && Later(b, c)
    ensures Later(a, c)
  {}

  lemma SettleWaiting(st: State, job: nat, outcome: Outcome, abort: bool)
    requires Waiting(st)
    ensures Waiting(Settle(st, job, outcome, abort)) && Later(st, Settle(st, job, outcome, abort))
  {
    hide Key, NoDup;
    SettleLater(st, job, outcome, abort);
    hide Later;
  }

  lemma SettleLater(st: State, job: nat, outcome: Outcome, abort: bool)
    ensures Later(st, Settle(st, job, outcome, abort))
  {}

  lemma SettleCaps(o: Limits, st: State, job: nat, outcome: Outcome, abort: bool)
    requires Waiting(st) && WithinCaps(o, st)
    ensures WithinCaps(o, Settle(st, job, outcome, abort))
  {
    hide Key, Table.Valid;
    var st' := Settle(st, job, outcome, abort);
    assert st'.entries.at.Keys <= st.entries.at.Keys;
    SmallerSet(st'.entries.at.Keys, st.entries.at.Keys);
    forall k | k in st'.entries.at ensures JobAt(st', k).entry == JobAt(st, k).entry {}
    forall origin ensures |Prompts(st', origin)| <= o.pendingPerOrigin && |InFlight(st', origin)| <= o.inFlightPerOrigin {
      SmallerSet(Prompts(st', origin), Prompts(st, origin));
      SmallerSet(InFlight(st', origin), InFlight(st, origin));
    }
  }

  lemma SmallerSet(a: set<string>, b: set<string>)
    requires a <= b
    ensures |a| <= |b|
  {
    assert b == a + (b - a);
  }

  lemma SettleKeeps(o: Limits, st: State, job: nat, outcome: Outcome, abort: bool)
    requires Orderly(o, st)
    ensures var st' := Settle(st, job, outcome, abort);
            && Orderly(o, st') && (Kept(o, st) ==> Kept(o, st')) && Later(st, st') && st'.disposed == st.disposed && st'.nextJob == st.nextJob
            && (forall k :: k in st'.entries.at ==> k in st.entries.at && st'.entries.at[k] == st.entries.at[k])
  {
    hide Key, NoDup, Waiting, WithinCaps, Later;
    SettleWaiting(st, job, outcome, abort);
    SettleCaps(o, st, job, outcome, abort);
  }

  function Queued(st: State, e: Entry): State {
    st.(jobs := st.jobs[st.nextJob := Job(e, None, false)], entries := st.entries.Put(Key(e), st.nextJob), nextJob := st.nextJob + 1)
  }

  lemma QueuedWaiting(st: State, e: Entry)
    requires Waiting(st) && Key(e) !in st.entries.at
    ensures Waiting(Queued(st, e)) && Later(st, Queued(st, e))
  {
    hide Key, NoDup;
  }

  lemma QueuedCaps(o: Limits, st: State, e: Entry)
    requires Waiting(st) && WithinCaps(o, st) && Key(e) !in st.entries.at
    requires e.kind.Approval? ==> |Prompts(st, e.origin)| < o.pendingPerOrigin
    requires st.entries.Size() < o.inFlightGlobal && |InFlight(st, e.origin)| < o.inFlightPerOrigin
    ensures WithinCaps(o, Queued(st, e))
  {
    hide Key, Table.Valid;
    var st' := Queued(st, e);
    assert st'.entries.at.Keys == st.entries.at.Keys + {Key(e)};
    hide Prompts, InFlight, Waiting;
    forall origin ensures |Prompts(st', origin)| <= o.pendingPerOrigin && |InFlight(st', origin)| <= o.inFlightPerOrigin {
      QueuedCounts(st, e, origin);
    }
  }

  lemma QueuedJobs(st: State, e: Entry, k: string)
    requires Waiting(st) && k in Queued(st, e).entries.at
    ensures JobAt(Queued(st, e), k) == if k == Key(e) then Job(e, None, false) else JobAt(st, k)
  {
    hide Key, Table.Valid;
  }

  lemma QueuedPrompts(st: State, e: Entry, origin: string)
    requires Waiting(st) && Key(e) !in st.entries.at
    ensures Prompts(Queued(st, e), origin) == Prompts(st, origin) + (if e.kind.Approval? && e.origin == origin then {Key(e)} else {})
    ensures Key(e) !in Prompts(st, origin)
  {
    hide Key, Table.Valid, JobAt, Waiting;
    var st' := Queued(st, e);
    var more := if e.kind.Approval? && e.origin == origin then {Key(e)} else {};
    forall k ensures k in Prompts(st', origin) <==> k in Prompts(st, origin) || k in more {
      if k in st'.entries.at { QueuedJobs(st, e, k); }
    }
  }

  lemma QueuedInFlight(st: State, e: Entry, origin: string)
    requires Waiting(st) && Key(e) !in st.entries.at
    ensures InFlight(Queued(st, e), origin) == InFlight(st, origin) + (if e.origin == origin then {Key(e)} else {})
    ensures Key(e) !in InFlight(st, origin)
  {
    hide Key, Table.Valid, JobAt, Waiting;
    var st' := Queued(st, e);
    var more := if e.origin == origin then {Key(e)} else {};
    forall k ensures k in InFlight(st', origin) <==> k in InFlight(st, origin) || k in more {
      if k in st'.entries.at { QueuedJobs(st, e, k); }
    }
  }

  lemma QueuedCounts(st: State, e: Entry, origin: string)
    requires Waiting(st) && Key(e) !in st.entries.at
    ensures var st' := Queued(st, e);
            && |Prompts(st', origin)| == |Prompts(st, origin)| + (if e.kind.Approval? && e.origin == origin then 1 else 0)
            && |InFlight(st', origin)| == |InFlight(st, origin)| + (if e.origin == origin then 1 else 0)
  {
    hide Key, Waiting, Prompts, InFlight, Queued;
    QueuedPrompts(st, e, origin);
    QueuedInFlight(st, e, origin);
    assert Prompts(st, origin) + {} == Prompts(st, origin) && InFlight(st, origin) + {} == InFlight(st, origin);
  }

  lemma TrackKeeps(o: Limits, st: State, e: Entry, thrown: Option<string>)
    requires Kept(o, st)
    ensures Kept(o, Track(o, st, e, thrown).0) && Later(st, Track(o, st, e, thrown).0)
  {
    hide Key, Waiting, WithinCaps, Later, Prompts, InFlight, Settle;
    LaterSelf(st);
    if Track(o, st, e, thrown).1.Accepted? {
      QueuedWaiting(st, e);
      QueuedCaps(o, st, e);
      var st1 := Queued(st, e);
      if thrown.Some? {
        SettleKeeps(o, st1, st.nextJob, Failed(WorkFailed(thrown.value)), false);
        LaterTransitive(st, st1, Track(o, st, e, thrown).0);
      }
    }
  }

  lemma LaterSelf(st: State)
    ensures Later(st, st)
  {}

  lemma {:induction false} FailAllKeeps(o: Limits, st: State, jobs: seq<nat>, code: Code)
    requires Orderly(o, st)
    ensures var st' := FailAll(st, jobs, code);
            && Orderly(o, st') && (Kept(o, st) ==> Kept(o, st')) && Later(st, st') && st'.disposed == st.disposed && st'.nextJob == st.nextJob
            && (forall k :: k in st'.entries.at ==> k in st.entries.at && st'.entries.at[k] == st.entries.at[k])
  {
    hide Kept, Orderly, Later, Settle;
    if jobs == [] {
      LaterSelf(st);
    } else {
      var front := jobs[..|jobs| - 1];
      FailAllKeeps(o, st, front, code);
      SettleKeeps(o, FailAll(st, front, code), jobs[|jobs| - 1], Failed(code), true);
      LaterTransitive(st, FailAll(st, front, code), FailAll(st, jobs, code));
    }
  }

  /** Every job in the list ends up settled, and every other job is untouched. */
  lemma {:induction false} FailAllSettles(st: State, jobs: seq<nat>, code: Code, j: nat)
    requires j in st.jobs
    ensures var st' := FailAll(st, jobs, code);
            && st'.jobs.Keys == st.jobs.Keys
            && st'.jobs[j] == (if j in jobs && st.jobs[j].outcome.None?
                               then st.jobs[j].(outcome := Some(Failed(code)), aborted := true) else st.jobs[j])
  {
    hide Key;
    if jobs != [] {
      var front, last := jobs[..|jobs| - 1], jobs[|jobs| - 1];
      assert jobs == front + [last];
      FailAllSettles(st, front, code, j);
    }
  }

  lemma {:induction false} SelectedAre(st: State, keys: seq<string>, ev: Event, j: nat)
    ensures j in Selected(st, keys, ev) <==> exists k :: k in keys && k in st.entries.at && st.entries.at[k] == j && Selects(ev, JobAt(st, k).entry)
  {
    hide Selects, JobAt;
    if keys != [] {
      var front, last := keys[..|keys| - 1], keys[|keys| - 1];
      assert keys == front + [last];
      SelectedAre(st, front, ev, j);
    }
  }

  /** What a rejecting event does: exactly the waiting requests it selects fail, with its code, and their work is told to stop. */
  lemma RejectsExactly(o: Limits, st: State, ev: Event, j: nat)
    requires Kept(o, st) && j in st.jobs && (ev.RejectRequest? || ev.SwitchAccount? || ev.RejectOrigin? || ev.Dispose?)
    ensures var st' := Step(o, st, ev);
            && j in st'.jobs
            && st'.jobs[j] == (if st.jobs[j].outcome.None? && Selects(ev, st.jobs[j].entry)
                               then st.jobs[j].(outcome := Some(Failed(CodeOf(ev))), aborted := true) else st.jobs[j])
  {
    hide Key, FailAll, Selected, Selects, WithinCaps, NoDup;
    var begun := if ev.Dispose? then st.(disposed := true) else st;
    SelectedAre(st, st.entries.keys, ev, j);
    FailAllSettles(begun, Selected(st, st.entries.keys, ev), CodeOf(ev), j);
  }

  /** Disposing leaves nothing waiting. */
  lemma DisposeEmpties(o: Limits, st: State)
    requires Kept(o, st)
    ensures Kept(o, Step(o, st, Dispose)) && Step(o, st, Dispose).entries.at == map[] && Later(st, Step(o, st, Dispose))
  {
    hide Key, FailAll, Selected, NoDup, WithinCaps;
    KeptOrderly(o, st);
    var jobs := Selected(st, st.entries.keys, Dispose);
    FailAllKeeps(o, st, jobs, Shutdown);
    DisposedAlike(st, jobs, Shutdown);
    DisposedOrderly(o, FailAll(st, jobs, Shutdown));
    var st' := Step(o, st, Dispose);
    forall k | k in st'.entries.at ensures false {
      var j := st'.entries.at[k];
      assert j in st'.jobs && st'.jobs[j].outcome.None?;
      RejectsExactly(o, st, Dispose, j);
      assert false;
    }
  }

  lemma {:induction false} DisposedAlike(st: State, jobs: seq<nat>, code: Code)
    ensures FailAll(st.(disposed := true), jobs, code) == FailAll(st, jobs, code).(disposed := true)
  {
    hide Key;
    if jobs != [] { DisposedAlike(st, jobs[..|jobs| - 1], code); }
  }

  /** Every step keeps the queue within its caps and in order, and changes nothing a caller was told. */
  lemma StepKeeps(o: Limits, st: State, ev: Event)
    requires Kept(o, st)
    ensures Kept(o, Step(o, st, ev)) && Later(st, Step(o, st, ev))
  {
    hide Kept, Orderly, Later, Track, Settle, FailAll, Selected;
    KeptOrderly(o, st);
    match ev
    case Tracked(e, thrown) => TrackKeeps(o, st, e, thrown);
    case Finished(job, outcome) => SettleKeeps(o, st, job, outcome, false);
    case Timeout(job) => SettleKeeps(o, st, job, Failed(TimedOut), true);
    case Dispose => DisposeEmpties(o, st);
    case _ => FailAllKeeps(o, st, Selected(st, st.entries.keys, ev), CodeOf(ev));
  }

  lemma KeptOrderly(o: Limits, st: State)
    requires Kept(o, st)
    ensures Orderly(o, st)
  {
    hide Orderly;
  }

  lemma InitialKept(o: Limits)
    ensures Kept(o, INITIAL)
  {
    forall origin ensures Prompts(INITIAL, origin) == {} && InFlight(INITIAL, origin) == {} {}
  }

  lemma {:induction false} RunKeeps(o: Limits, run: seq<Event>, i: nat)
    requires i <= |run|
    ensures Kept(o, Run(o, INITIAL, run[..i]))
  {
    hide Kept, Step, Later;
    if i == 0 {
      InitialKept(o);
    } else {
      RunKeeps(o, run, i - 1);
      assert run[..i][..i - 1] == run[..i - 1];
      StepKeeps(o, Run(o, INITIAL, run[..i - 1]), run[i - 1]);
    }
  }

  lemma {:induction false} RunGoesOn(o: Limits, run: seq<Event>, i: nat, j: nat)
    requires i <= j <= |run|
    ensures Later(Run(o, INITIAL, run[..i]), Run(o, INITIAL, run[..j]))
    decreases j
  {
    hide Kept, Step, Later;
    if i == j {
      LaterSelf(Run(o, INITIAL, run[..i]));
    } else {
      RunGoesOn(o, run, i, j - 1);
      RunKeeps(o, run, j - 1);
      assert run[..j][..j - 1] == run[..j - 1];
      StepKeeps(o, Run(o, INITIAL, run[..j - 1]), run[j - 1]);
      LaterTransitive(Run(o, INITIAL, run[..i]), Run(o, INITIAL, run[..j - 1]), Run(o, INITIAL, run[..j]));
    }
  }

  /**
   * In any interleaving: the first settlement of a request is the only one. Once it has an outcome it
   * keeps it, and every request that has none is waiting under its own key.
   */
  lemma FirstSettlementWins(o: Limits, run: seq<Event>, i: nat, j: nat, job: nat)
    requires i <= j <= |run| && job in Run(o, INITIAL, run[..i]).jobs
    ensures var a, b := Run(o, INITIAL, run[..i]), Run(o, INITIAL, run[..j]);
            && job in b.jobs && b.jobs[job].entry == a.jobs[job].entry
            && (a.jobs[job].outcome.Some? ==> b.jobs[job].outcome == a.jobs[job].outcome)
            && (b.jobs[job].outcome.None? <==>
                  Key(b.jobs[job].entry) in b.entries.at && b.entries.at[Key(b.jobs[job].entry)] == job)
  {
    hide Step, Run, Key, NoDup, WithinCaps;
    RunGoesOn(o, run, i, j);
    RunKeeps(o, run, j);
  }

  /** A late result or timer of a settled request does nothing, even while a newer request waits under the same key. */
  lemma LateResultsAreDropped(o: Limits, st: State, job: nat, outcome: Outcome)
    requires job in st.jobs && st.jobs[job].outcome.Some?
    ensures Step(o, st, Finished(job, outcome)) == st && Step(o, st, Timeout(job)) == st
  {}

  // ── The queue object ──

  class Queue {
    const o: Limits
    var entries: Table<nat>
    var jobs: map<nat, Job>
    var nextJob: nat
    var disposed: bool

    ghost predicate Valid()
      reads this
    {
      Kept(o, Abs())
    }

    function Abs(): State
      reads this
    {
      State(entries, jobs, nextJob, disposed)
    }

    constructor (o: Limits)
      ensures this.o == o && Valid() && Abs() == INITIAL
    {
      this.o, entries, jobs, nextJob, disposed := o, Empty(), map[], 0, false;
      new;
      InitialKept(o);
    }

    /** How many waiting entries of an origin, or how many of its prompts. */
    method Count(origin: string, promptsOnly: bool) returns (n: nat)
      requires Valid()
      ensures n == |if promptsOnly then Prompts(Abs(), origin) else InFlight(Abs(), origin)|
    {
      hide WithinCaps;
      ghost var counted: set<string> := {};
      n := 0;
      var i := 0;
      while i < |entries.keys|
        invariant 0 <= i <= |entries.keys| && n == |counted|
        invariant forall k :: k in counted <==>
          k in entries.keys[..i] && JobAt(Abs(), k).entry.origin == origin && (promptsOnly ==> JobAt(Abs(), k).entry.kind.Approval?)
      {
        var k := entries.keys[i];
        assert entries.keys[..i + 1] == entries.keys[..i] + [k];
        var e := JobAt(Abs(), k).entry;
        if e.origin == origin && (!promptsOnly || e.kind.Approval?) {
          assert k !in counted;
          counted := counted + {k};
          n := n + 1;
        }
        i := i + 1;
      }
      assert entries.keys[..i] == entries.keys;
      assert counted == if promptsOnly then Prompts(Abs(), origin) else InFlight(Abs(), origin);
    }

    method SettleJob(job: nat, outcome: Outcome, abort: bool)
      requires Orderly(o, Abs())
      modifies this`entries, this`jobs
      ensures Orderly(o, Abs()) && (old(Valid()) ==> Valid()) && Abs() == Settle(old(Abs()), job, outcome, abort)
    {
      hide Kept, Orderly, Key;
      SettleKeeps(o, Abs(), job, outcome, abort);
      if job !in jobs || jobs[job].outcome.Some? { return; }
      entries := entries.Delete(Key(jobs[job].entry));
      jobs := jobs[job := jobs[job].(outcome := Some(outcome), aborted := abort)];
    }

    method TrackRequest(e: Entry, thrown: Option<string>) returns (reply: Reply)
      requires Valid()
      modifies this`entries, this`jobs, this`nextJob
      ensures Valid() && (Abs(), reply) == Track(o, old(Abs()), e, thrown)
    {
      hide Kept, Orderly, Key, Prompts, InFlight, Settle;
      TrackKeeps(o, Abs(), e, None);
      KeptOrderly(o, Track(o, Abs(), e, None).0);
      if disposed { return Refused(Shutdown); }
      if Key(e) in entries.at { return Refused(InvalidRequest); }
      if e.kind.Approval? {
        var prompts := Count(e.origin, true);
        if prompts >= o.pendingPerOrigin { return Refused(TooManyPending); }
      }
      var inFlight := Count(e.origin, false);
      if |entries.at| >= o.inFlightGlobal || inFlight >= o.inFlightPerOrigin { return Refused(TooManyPending); }
      var job := nextJob;
      entries, jobs, nextJob := entries.Put(Key(e), job), jobs[job := Job(e, None, false)], nextJob + 1;
      if thrown.Some? { SettleJob(job, Failed(WorkFailed(thrown.value)), false); }
      reply := Accepted(job);
    }

    /** `#rejectWhere`: the snapshot first, then each of it failed in turn. */
    method RejectWhere(ev: Event) returns (count: nat)
      requires Orderly(o, Abs()) && !ev.Tracked? && !ev.Finished? && !ev.Timeout?
      modifies this`entries, this`jobs
      ensures Orderly(o, Abs()) && (old(Valid()) ==> Valid())
      ensures Abs() == FailAll(old(Abs()), Selected(old(Abs()), old(entries.keys), ev), CodeOf(ev))
      ensures count == |Selected(old(Abs()), old(entries.keys), ev)|
    {
      hide Kept, Orderly, Key, Selects, Settle;
      ghost var st := Abs();
      var matching: seq<nat>, i := [], 0;
      while i < |entries.keys|
        modifies {}
        invariant 0 <= i <= |entries.keys| && matching == Selected(st, entries.keys[..i], ev)
      {
        var k := entries.keys[i];
        assert entries.keys[..i + 1][..i] == entries.keys[..i];
        if k in entries.at && Selects(ev, JobAt(Abs(), k).entry) { matching := matching + [entries.at[k]]; }
        i := i + 1;
      }
      assert entries.keys[..i] == entries.keys;
      count := |matching|;
      i := 0;
      while i < |matching|
        invariant 0 <= i <= |matching| && Orderly(o, Abs()) && (old(Valid()) ==> Valid()) && Abs() == FailAll(st, matching[..i], CodeOf(ev))
      {
        assert matching[..i + 1][..i] == matching[..i];
        SettleJob(matching[i], Failed(CodeOf(ev)), true);
        i := i + 1;
      }
      assert matching[..i] == matching;
    }

    /** Refuse further work, then reject everything. */
    method DisposeQueue()
      requires Valid()
      modifies this`entries, this`jobs, this`disposed
      ensures Valid() && Abs() == Step(o, old(Abs()), Dispose) && entries.at == map[]
    {
      hide Kept, Orderly, FailAll, Selected;
      DisposeEmpties(o, Abs());
      KeptOrderly(o, Abs());
      DisposedOrderly(o, Abs());
      SelectedAlike(Abs(), entries.keys, Dispose);
      disposed := true;
      var _ := RejectWhere(Dispose);
    }
  }

  lemma DisposedOrderly(o: Limits, st: State)
    requires Orderly(o, st)
    ensures Orderly(o, st.(disposed := true))
  {
    hide Key, NoDup;
    var st' := st.(disposed := true);
    forall k ensures JobAt(st', k) == JobAt(st, k) {}
    forall origin ensures Prompts(st', origin) == Prompts(st, origin) && InFlight(st', origin) == InFlight(st, origin) {}
  }

  lemma {:induction false} SelectedAlike(st: State, keys: seq<string>, ev: Event)
    ensures Selected(st.(disposed := true), keys, ev) == Selected(st, keys, ev)
  {
    hide Selects;
    if keys != [] { SelectedAlike(st, keys[..|keys| - 1], ev); }
  }
}
