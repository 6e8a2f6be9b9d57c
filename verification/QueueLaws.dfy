/** Who may wait, and what each event tells whom, read off the requests themselves. */
module QueueLaws {
  import opened Common
  import opened Text
  import opened JsMap
  import opened ApprovalQueue

  // ── Who may wait ──

  /** The requests nobody has been answered about. */
  function Open(st: State): (open: set<nat>) {
    set j | j in st.jobs && st.jobs[j].outcome.None?
  }

  function OpenFrom(st: State, origin: string): set<nat> {
    set j | j in st.jobs && st.jobs[j].outcome.None? && st.jobs[j].entry.origin == origin
  }

  function OpenPrompts(st: State, origin: string): set<nat> {
    set j | j in st.jobs && st.jobs[j].outcome.None? && st.jobs[j].entry.origin == origin && st.jobs[j].entry.kind == Approval
  }

  ghost predicate SameRequest(a: Entry, b: Entry) {
    a.origin == b.origin && a.kind == b.kind && a.id == b.id
  }

  ghost predicate NulFree(origin: string) { '\0' !in origin }

  /** Two requests have one key when they agree in origin, kind and id; and only then, unless an origin holds a NUL. */
  lemma KeysTell(a: Entry, b: Entry)
    ensures SameRequest(a, b) ==> Key(a) == Key(b)
    ensures NulFree(a.origin) && NulFree(b.origin) && Key(a) == Key(b) ==> SameRequest(a, b)
  {
    if NulFree(a.origin) && NulFree(b.origin) && Key(a) == Key(b) {
      KeySplits(a);
      KeySplits(b);
      KindsTell(a.kind, b.kind);
    }
  }

  lemma KeySplits(e: Entry)
    requires NulFree(e.origin)
    ensures IndexOf(Key(e), '\0') == |e.origin| < |Key(e)|
    ensures var k := Key(e); var n := |e.origin|; var m := IndexOf(k[n + 1..], '\0');
            k[..n] == e.origin && m < |k[n + 1..]| && k[n + 1..][..m] == KindName(e.kind) && k[n + 1..][m + 1..] == e.id
  {
    var k, name := Key(e), KindName(e.kind);
    var rest := name + ['\0'] + e.id;
    assert k == e.origin + ['\0'] + rest;
    IndexOfFirst(e.origin, '\0', rest);
    assert k[|e.origin| + 1..] == rest && k[..|e.origin|] == e.origin;
    NamesNulFree(e.kind);
    IndexOfFirst(name, '\0', e.id);
    assert rest[|name| + 1..] == e.id && rest[..|name|] == name;
  }

  lemma NamesNulFree(kind: Kind)
    ensures '\0' !in KindName(kind)
  {}

  lemma KindsTell(a: Kind, b: Kind)
    ensures KindName(a) == KindName(b) ==> a == b
  {
    assert KindName(Approval)[0] == 'a' && KindName(Unlock)[0] == 'u' && KindName(Remote)[0] == 'r';
  }

  /** With a NUL in an origin, one caller's request can stand in the way of another's. */
  lemma NulCollides()
    ensures var a := Entry("y", "a\0approval\0x", Approval, "", 0);
            var b := Entry("x\0approval\0y", "a", Approval, "", 0);
            Key(a) == Key(b) && !SameRequest(a, b)
  {
    var a, b := Entry("y", "a\0approval\0x", Approval, "", 0), Entry("x\0approval\0y", "a", Approval, "", 0);
    assert Key(a) == "a\0approval\0x" + ['\0'] + "approval" + ['\0'] + "y" == "a\0approval\0x\0approval\0y";
    assert Key(b) == "a" + ['\0'] + "approval" + ['\0'] + "x\0approval\0y" == "a\0approval\0x\0approval\0y";
  }

  lemma {:induction false} ImageSize(m: map<string, nat>, keys: set<string>, image: set<nat>)
    requires keys <= m.Keys && image == set k | k in keys :: m[k]
    requires forall a, b :: a in keys && b in keys && m[a] == m[b] ==> a == b
    ensures |image| == |keys|
    decreases |keys|
  {
    if keys != {} {
      var k :| k in keys;
      assert image - {m[k]} == set x | x in keys - {k} :: m[x];
      ImageSize(m, keys - {k}, image - {m[k]});
      assert m[k] in image;
    } else {
      assert image == {};
    }
  }

  /** The counts behind the caps are counts of open requests. */
  lemma Counts(o: Limits, st: State, origin: string)
    requires Kept(o, st)
    ensures st.entries.Size() == |Open(st)| && |InFlight(st, origin)| == |OpenFrom(st, origin)| && |Prompts(st, origin)| == |OpenPrompts(st, origin)|
  {
    hide Key, WithinCaps, Table.Valid;
    OpenHeld(st);
    var m := st.entries.at;
    assert Open(st) == set k | k in m.Keys :: m[k];
    assert OpenFrom(st, origin) == set k | k in InFlight(st, origin) :: m[k];
    assert OpenPrompts(st, origin) == set k | k in Prompts(st, origin) :: m[k];
    ImageSize(m, m.Keys, Open(st));
    ImageSize(m, InFlight(st, origin), OpenFrom(st, origin));
    ImageSize(m, Prompts(st, origin), OpenPrompts(st, origin));
    assert |m| == |m.Keys|;
  }

  lemma OpenHeld(st: State)
    requires Waiting(st)
    ensures forall j :: j in st.jobs && st.jobs[j].outcome.None? ==> Key(st.jobs[j].entry) in st.entries.at && st.entries.at[Key(st.jobs[j].entry)] == j
    ensures forall k :: k in st.entries.at ==> st.entries.at[k] in st.jobs && st.jobs[st.entries.at[k]].outcome.None? && Key(st.jobs[st.entries.at[k]].entry) == k
  {
    hide Key;
  }

  /**
   * What a request is told at once: refused after disposal, while the same one is open, or at one of the
   * three caps, of which the tightest counts only prompts; otherwise it waits.
   */
  lemma TrackAnswers(o: Limits, st: State, e: Entry, thrown: Option<string>)
    requires Kept(o, st) && NulFree(e.origin) && forall j :: j in Open(st) ==> NulFree(st.jobs[j].entry.origin)
    ensures Track(o, st, e, thrown).1 ==
            if st.disposed then Refused(Shutdown)
            else if exists j :: j in Open(st) && SameRequest(st.jobs[j].entry, e) then Refused(InvalidRequest)
            else if (e.kind == Approval && |OpenPrompts(st, e.origin)| >= o.pendingPerOrigin)
                    || |Open(st)| >= o.inFlightGlobal || |OpenFrom(st, e.origin)| >= o.inFlightPerOrigin then Refused(TooManyPending)
            else Accepted(st.nextJob)
  {
    hide Key, WithinCaps, Table.Valid, Prompts, InFlight, OpenPrompts, OpenFrom;
    Counts(o, st, e.origin);
    OpenHeld(st);
    if Key(e) in st.entries.at {
      var j := st.entries.at[Key(e)];
      KeysTell(st.jobs[j].entry, e);
      assert j in Open(st);
    }
    if j :| j in Open(st) && SameRequest(st.jobs[j].entry, e) { KeysTell(st.jobs[j].entry, e); }
  }

  /** What it leaves: a refused one nothing, an accepted one itself, failed at once if its work throws. */
  lemma TrackLeaves(o: Limits, st: State, e: Entry, thrown: Option<string>)
    ensures var (st', reply) := Track(o, st, e, thrown);
            && (reply.Refused? ==> st' == st)
            && (reply.Accepted? ==>
                  && st'.disposed == st.disposed && st'.nextJob == st.nextJob + 1
                  && st'.jobs == st.jobs[st.nextJob := Job(e, if thrown.Some? then Some(Failed(WorkFailed(thrown.value))) else None, false)])
  {
    hide Key, Prompts, InFlight;
  }

  // ── What each event tells whom ──

  /** What an event tells a request that is open, and whether its work is told to stop. */
  ghost function Told(ev: Event, j: nat, e: Entry): Option<(Outcome, bool)> {
    match ev
    case Tracked(_, _) => None
    case Finished(job, outcome) => if job == j then Some((outcome, false)) else None
    case Timeout(job) => if job == j then Some((Failed(TimedOut), true)) else None
    case RejectRequest(origin, id) => if e.origin == origin && e.id == id then Some((Failed(Rejected), true)) else None
    case SwitchAccount(account) => if account != "" && e.account == account then Some((Failed(AccountSwitched), true)) else None
    case RejectOrigin(origin) => if origin != "" && e.origin == origin then Some((Failed(Rejected), true)) else None
    case Dispose => Some((Failed(Shutdown), true))
  }

  /** Every event, every request: an open one is told what the event has to say to it, if anything; a settled one is told nothing more. */
  lemma EveryOutcome(o: Limits, st: State, ev: Event, j: nat)
    requires Kept(o, st) && j in st.jobs
    ensures var job, st' := st.jobs[j], Step(o, st, ev);
            && j in st'.jobs
            && st'.jobs[j] == if job.outcome.Some? || Told(ev, j, job.entry).None? then job
                              else Job(job.entry, Some(Told(ev, j, job.entry).value.0), Told(ev, j, job.entry).value.1)
    ensures Step(o, st, ev).disposed <==> st.disposed || ev.Dispose?
  {
    hide Key, WithinCaps, Selected, NoDup, Track, Table.Valid, Waiting;
    match ev
    case Tracked(e, thrown) =>
      TrackLeaves(o, st, e, thrown);
      JobsBelow(st, j);
    case Finished(_, _) =>
    case Timeout(_) =>
    case _ =>
      RejectsExactly(o, st, ev, j);
      FailAllDisposed(st, Selected(st, st.entries.keys, ev), CodeOf(ev));
      FailAllDisposed(st.(disposed := true), Selected(st, st.entries.keys, ev), CodeOf(ev));
  }

  lemma JobsBelow(st: State, j: nat)
    requires Waiting(st) && j in st.jobs
    ensures j < st.nextJob
  {
    hide Key;
  }

  lemma {:induction false} FailAllDisposed(st: State, jobs: seq<nat>, code: Code)
    ensures FailAll(st, jobs, code).disposed == st.disposed
  {
    if jobs != [] { FailAllDisposed(st, jobs[..|jobs| - 1], code); }
  }
}
