/**
 A pass of a reconciler as a run of the finalizer protocol. A pass is summed up by how far it got; `Performs` says
 what that leaves in the API server and whether the remote object exists, and `PassIsRun` that the protocol takes
 these steps. The reconcilers are proved to perform one of these passes, whatever fails and whatever users do
 to the resource meanwhile.
 */
module PassRuns {
  import opened Wrappers
  import opened Resources
  import opened FinalizerProtocol

  /**
   How a pass ended: it could not see the remote object; the finalizer could not be stored; `done` stages of the
   creation branch were completed; there was no finalizer to release; the drop failed; or the release was attempted.
   The edits are those of users before the pass's writes.
   */
  datatype PassEnd =
    | Blind
    | Refused(gate: seq<Edit>)
    | Worked(gate: seq<Edit>, done: nat, status: seq<Edit>)
    | Absent
    | Undropped
    | Dropped(release: seq<Edit>, ok: bool)

  /** The pass's copy of the resource once the finalizer is in place, and the versions then. */
  function GatedCopy(copy: Obj, h: History, gate: seq<Edit>): Obj {
    if copy.finalizer then copy else copy.(finalizer := true, version := |EditedAll(h, gate)|)
  }

  function GatedHistory(copy: Obj, h: History, gate: seq<Edit>): History {
    if copy.finalizer then h else Append(EditedAll(h, gate), copy.(finalizer := true))
  }

  /** The versions after `done` stages; the status is written only if it is not set. */
  function AfterWork(kind: Kind, o: Obj, h: History, done: nat, status: seq<Edit>): History {
    if done < StatusAt(kind) || o.succeeded then h
    else if done == StatusAt(kind) then EditedAll(h, status)
    else Append(EditedAll(h, status), o.(succeeded := true))
  }

  function HistoryAfter(kind: Kind, copy: Obj, h: History, end: PassEnd): History {
    match end
    case Blind => h
    case Absent => h
    case Undropped => h
    case Refused(gate) => EditedAll(h, gate)
    case Worked(gate, done, status) =>
      AfterWork(kind, GatedCopy(copy, h, gate), GatedHistory(copy, h, gate), done, status)
    case Dropped(release, ok) =>
      if ok then Append(EditedAll(h, release), copy.(finalizer := false)) else EditedAll(h, release)
  }

  predicate PresentAfter(copy: Obj, present: bool, end: PassEnd) {
    match end
    case Worked(_, done, _) => present || done > 0
    case Dropped(_, _) => present && copy.keep
    case _ => present
  }

  /** What the branches of a pass allow; a write succeeds only on the latest version. */
  predicate Legal(kind: Kind, copy: Obj, h: History, present: bool, end: PassEnd) {
    match end
    case Blind => true
    case Absent => copy.deleting && !copy.finalizer
    case Refused(_) => !copy.deleting && !copy.finalizer
    case Undropped => copy.deleting && copy.finalizer && !copy.keep && present
    case Dropped(release, ok) =>
      copy.deleting && copy.finalizer && (ok ==> IsLatest(EditedAll(h, release), copy.version))
    case Worked(gate, done, status) =>
      && !copy.deleting && done <= |Plan(kind)|
      && (if copy.finalizer then gate == [] else IsLatest(EditedAll(h, gate), copy.version))
      && (copy.succeeded ==> status == [])
      && (done > StatusAt(kind) && !copy.succeeded ==>
            IsLatest(EditedAll(GatedHistory(copy, h, gate), status), GatedCopy(copy, h, gate).version))
  }

  /** From versions `h` and presence `present`, a pass that read `copy` ends in `h'` and `present'`. */
  predicate Performs(kind: Kind, copy: Obj, h: History, present: bool, end: PassEnd, h': History, present': bool) {
    && Legal(kind, copy, h, present, end)
    && h' == HistoryAfter(kind, copy, h, end) && present' == PresentAfter(copy, present, end)
  }

  /** What `done` stages from version `o` leave in the API server, and that the status was written on the latest. */
  predicate StatusWritten(kind: Kind, o: Obj, h: History, done: nat, status: seq<Edit>, h': History) {
    && h' == AfterWork(kind, o, h, done, status) && (o.succeeded ==> status == [])
    && (done > StatusAt(kind) && !o.succeeded ==> IsLatest(EditedAll(h, status), o.version))
  }

  /** Before the status stage nothing is written; after it the status is there. */
  lemma StatusStages(kind: Kind, o: Obj, h: History, done: nat, status: seq<Edit>, h': History)
    requires o.succeeded ==> status == []
    requires done < StatusAt(kind) ==> h' == h
    requires done >= StatusAt(kind) ==>
               h' == if o.succeeded then h
                     else if done == StatusAt(kind) then EditedAll(h, status)
                     else Append(EditedAll(h, status), o.(succeeded := true))
    requires done > StatusAt(kind) && !o.succeeded ==> IsLatest(EditedAll(h, status), o.version)
    ensures StatusWritten(kind, o, h, done, status, h')
  {
  }

  /** The pass came to its regular end. */
  predicate Completed(kind: Kind, end: PassEnd) {
    || end.Absent? || (end.Dropped? && end.ok) || (end.Worked? && end.done == |Plan(kind)|)
  }

  lemma GateHolds(o: Obj, h: History, gate: seq<Edit>)
    ensures var held := GatedCopy(o, h, gate); held.finalizer && held.succeeded == o.succeeded
  {
  }

  lemma PerformsEarly(kind: Kind, copy: Obj, h: History, present: bool, gate: seq<Edit>)
    ensures Performs(kind, copy, h, present, Blind, h, present) && !Completed(kind, Blind)
    ensures !copy.deleting && !copy.finalizer ==>
              Performs(kind, copy, h, present, Refused(gate), EditedAll(h, gate), present)
              && !Completed(kind, Refused(gate))
  {
  }

  lemma PerformsWork(kind: Kind, copy: Obj, h: History, present: bool, gate: seq<Edit>, done: nat, status: seq<Edit>,
                     h': History)
    requires !copy.deleting && done <= |Plan(kind)|
    requires if copy.finalizer then gate == [] else IsLatest(EditedAll(h, gate), copy.version)
    requires StatusWritten(kind, GatedCopy(copy, h, gate), GatedHistory(copy, h, gate), done, status, h')
    ensures Performs(kind, copy, h, present, Worked(gate, done, status), h', present || done > 0)
    ensures Completed(kind, Worked(gate, done, status)) <==> done == |Plan(kind)|
  {
    hide EditedAll, IsLatest, Append;
  }

  // ----- the steps the protocol takes -----

  function Users(es: seq<Edit>): seq<Action> {
    if es == [] then [] else [User(es[0])] + Users(es[1..])
  }

  function WorkTrace(kind: Kind, at: nat, done: nat, status: seq<Edit>): seq<Action>
    decreases |Plan(kind)| - at
  {
    if at >= |Plan(kind)| then [Progress(Done)]
    else
      (if at == StatusAt(kind) then Users(status) else []) +
      (if at < done then [Progress(Done)] + WorkTrace(kind, at + 1, done, status) else [Progress(Failed)])
  }

  function Trace(kind: Kind, copy: Obj, end: PassEnd): seq<Action> {
    match end
    case Blind => [Observe(Failed)]
    case Absent => [Observe(Done), Gate(Done)]
    case Undropped => [Observe(Done), Gate(Done), Remove(Failed)]
    case Refused(gate) => [Observe(Done)] + Users(gate) + [Gate(Failed)]
    case Dropped(release, ok) =>
      [Observe(Done), Gate(Done), Remove(Done)] + Users(release) + [Release(if ok then Done else Failed)]
    case Worked(gate, done, status) => [Observe(Done)] + Users(gate) + [Gate(Done)] + WorkTrace(kind, 0, done, status)
  }

  lemma {:induction false} RunConcat(s: State, p: seq<Action>, q: seq<Action>)
    ensures Run(s, p + q) == Run(Run(s, p), q)
    decreases |p|
  {
    hide Next;
    if p == [] {
      assert p + q == q;
    } else {
      assert (p + q)[1..] == p[1..] + q;
      RunConcat(Next(s, p[0]), p[1..], q);
    }
  }

  lemma RunOne(s: State, a: Action)
    ensures Run(s, [a]) == Next(s, a)
  {
    hide Next;
    assert Run(Next(s, a), []) == Next(s, a);
  }

  lemma {:induction false} RunUsers(s: State, es: seq<Edit>)
    ensures Run(s, Users(es)) == s.(history := EditedAll(s.history, es))
    decreases |es|
  {
    hide Edited;
    if es != [] {
      var next := ByUser(s, es[0]);
      assert Users(es)[0] == User(es[0]) && Users(es)[1..] == Users(es[1..]);
      RunUsers(next, es[1..]);
    }
  }

  /** One completed stage. */
  lemma StageDone(s: State)
    requires s.pc.Working? && s.pc.at < |Plan(s.kind)|
    requires s.pc.at == 0 && !s.pc.found ==> !s.present
    requires s.pc.at == StatusAt(s.kind) && !s.pc.snap.succeeded ==> IsCurrent(s, s.pc.snap)
    ensures var t, snap := Next(s, Progress(Done)), s.pc.snap;
            && t.kind == s.kind && t.cursor == s.cursor && t.present == (s.present || (s.pc.at == 0 && !s.pc.found))
            && t.pc.Working? && t.pc.found == s.pc.found && t.pc.at == s.pc.at + 1
            && (if s.pc.at == StatusAt(s.kind) && !snap.succeeded then
                  t.history == Append(s.history, snap.(succeeded := true)) && t.pc.snap.succeeded
                else t.history == s.history && t.pc.snap == snap)
  {
  }

  lemma StageFailed(s: State)
    requires s.pc.Working?
    ensures var t := Next(s, Progress(Failed));
            t.kind == s.kind && t.cursor == s.cursor && t.present == s.present && t.pc.Idle? && t.history == s.history
  {
  }

  /** The stages from `at` on. */
  lemma {:induction false} WorkRuns(s: State, done: nat, status: seq<Edit>)
    requires s.pc.Working? && s.pc.at <= done <= |Plan(s.kind)|
    requires if s.pc.at == 0 then s.pc.found == s.present else s.present
    requires s.pc.at <= StatusAt(s.kind) ==>
               && (s.pc.snap.succeeded ==> status == [])
               && (done > StatusAt(s.kind) && !s.pc.snap.succeeded ==>
                    IsLatest(EditedAll(s.history, status), s.pc.snap.version))
    ensures var t := Run(s, WorkTrace(s.kind, s.pc.at, done, status));
            && t.kind == s.kind && t.cursor == s.cursor && t.pc.Idle? && t.present == (s.present || done > 0)
            && t.history == if s.pc.at > StatusAt(s.kind) then s.history
                            else AfterWork(s.kind, s.pc.snap, s.history, done, status)
    decreases |Plan(s.kind)| - s.pc.at
  {
    hide Next, EditedAll, Append, IsLatest, IsCurrent;
    var at, kind := s.pc.at, s.kind;
    if at >= |Plan(kind)| {
      RunOne(s, Progress(Done));
      PlanEnds(s);
    } else {
      var edits := if at == StatusAt(kind) then Users(status) else [];
      var rest := if at < done then [Progress(Done)] + WorkTrace(kind, at + 1, done, status) else [Progress(Failed)];
      RunConcat(s, edits, rest);
      RunUsers(s, status);
      var now := Run(s, edits);
      assert now == if at == StatusAt(kind) then s.(history := EditedAll(s.history, status)) else s;
      if at < done {
        LatestIsCurrent(now, now.pc.snap);
        NoEdits(s.history);
        StageDone(now);
        RunConcat(now, [Progress(Done)], WorkTrace(kind, at + 1, done, status));
        RunOne(now, Progress(Done));
        WorkRuns(Next(now, Progress(Done)), done, status);
      } else {
        NoEdits(s.history);
        StageFailed(now);
        RunOne(now, Progress(Failed));
      }
    }
  }

  lemma PlanEnds(s: State)
    requires s.pc.Working? && s.pc.at >= |Plan(s.kind)|
    ensures Next(s, Progress(Done)) == Stop(s) && s.pc.at > StatusAt(s.kind)
  {
  }

  lemma LatestIsCurrent(s: State, snap: Obj)
    ensures IsCurrent(s, snap) == IsLatest(s.history, snap.version)
  {
  }

  lemma NoEdits(h: History)
    ensures EditedAll(h, []) == h
  {
  }

  // ----- the whole pass -----

  /** The pass has read version `copy` of the resource. */
  predicate Begins(s: State, kind: Kind, copy: Obj, h: History, present: bool) {
    s.kind == kind && s.pc == Loaded(copy) && s.history == h && s.present == present
  }

  predicate Ends(s: State, t: State, h': History, present': bool) {
    t.kind == s.kind && t.cursor == s.cursor && t.pc.Idle? && t.history == h' && t.present == present'
  }

  lemma Observes(s: State)
    requires s.pc.Loaded?
    ensures Next(s, Observe(Done)) == s.(pc := Observed(s.pc.snap, s.present))
    ensures Next(s, Observe(Failed)) == Stop(s)
  {
  }

  lemma Gates(s: State)
    requires s.pc.Observed?
    ensures var snap, t, f := s.pc.snap, Next(s, Gate(Done)), Next(s, Gate(Failed));
            && (snap.deleting && snap.finalizer ==> t == s.(pc := Removing(snap, s.pc.found)))
            && (snap.deleting && !snap.finalizer ==> t == Stop(s))
            && (!snap.deleting && !snap.finalizer ==> f == Stop(s))
  {
  }

  lemma GateStores(s: State)
    requires s.pc.Observed? && !s.pc.snap.deleting && (s.pc.snap.finalizer || IsCurrent(s, s.pc.snap))
    ensures var snap, t := s.pc.snap, Next(s, Gate(Done));
            && t.kind == s.kind && t.cursor == s.cursor && t.present == s.present
            && (snap.finalizer ==> t.history == s.history && t.pc == Working(snap, s.pc.found, 0))
            && (!snap.finalizer ==>
                 && t.history == Append(s.history, snap.(finalizer := true))
                 && t.pc == Working(snap.(finalizer := true, version := |s.history|), s.pc.found, 0))
  {
  }

  lemma Removes(s: State)
    requires s.pc.Removing? && s.pc.found == s.present
    ensures Next(s, Remove(Done)) == s.(present := s.present && s.pc.snap.keep, pc := Releasing(s.pc.snap))
    ensures s.present && !s.pc.snap.keep ==> Next(s, Remove(Failed)) == Stop(s)
  {
  }

  lemma Releases(s: State, ok: bool)
    requires s.pc.Releasing? && (ok ==> IsCurrent(s, s.pc.snap))
    ensures var t := Next(s, Release(if ok then Done else Failed));
            && t.kind == s.kind && t.cursor == s.cursor && t.present == s.present && t.pc.Idle?
            && t.history == if ok then Append(s.history, s.pc.snap.(finalizer := false)) else s.history
  {
  }

  lemma WorkedIsRun(s: State, copy: Obj, gate: seq<Edit>, done: nat, status: seq<Edit>)
    requires s.pc == Loaded(copy) && Legal(s.kind, copy, s.history, s.present, Worked(gate, done, status))
    ensures var end := Worked(gate, done, status);
            Ends(s, Run(s, Trace(s.kind, copy, end)), HistoryAfter(s.kind, copy, s.history, end), s.present || done > 0)
  {
    hide Next, EditedAll, Append, IsLatest, IsCurrent, WorkTrace, AfterWork;
    var work := WorkTrace(s.kind, 0, done, status);
    var seen := s.(pc := Observed(copy, s.present));
    Observes(s);
    RunOne(s, Observe(Done));
    RunConcat(s, [Observe(Done)] + Users(gate) + [Gate(Done)], work);
    RunConcat(s, [Observe(Done)] + Users(gate), [Gate(Done)]);
    RunConcat(s, [Observe(Done)], Users(gate));
    RunUsers(seen, gate);
    NoEdits(s.history);
    var edited := seen.(history := EditedAll(s.history, gate));
    LatestIsCurrent(edited, copy);
    GateStores(edited);
    RunOne(edited, Gate(Done));
    WorkRuns(Next(edited, Gate(Done)), done, status);
  }

  lemma DroppedIsRun(s: State, copy: Obj, release: seq<Edit>, ok: bool)
    requires s.pc == Loaded(copy) && Legal(s.kind, copy, s.history, s.present, Dropped(release, ok))
    ensures var end := Dropped(release, ok);
            Ends(s, Run(s, Trace(s.kind, copy, end)), HistoryAfter(s.kind, copy, s.history, end),
                 s.present && copy.keep)
  {
    hide Next, EditedAll, Append, IsLatest, IsCurrent;
    var last := [Release(if ok then Done else Failed)];
    var before := [Observe(Done), Gate(Done), Remove(Done)];
    RunConcat(s, before + Users(release), last);
    RunConcat(s, before, Users(release));
    RemovedState(s, copy, Done);
    var released := s.(present := s.present && copy.keep, pc := Releasing(copy));
    RunUsers(released, release);
    var edited := released.(history := EditedAll(s.history, release));
    LatestIsCurrent(edited, copy);
    Releases(edited, ok);
    RunOne(edited, last[0]);
  }

  lemma RemovedState(s: State, copy: Obj, r: Result)
    requires s.pc == Loaded(copy) && copy.deleting && copy.finalizer && r != Lost
    requires r == Failed ==> s.present && !copy.keep
    ensures Run(s, [Observe(Done), Gate(Done), Remove(r)]) ==
              if r == Done then s.(present := s.present && copy.keep, pc := Releasing(copy)) else Stop(s)
  {
    hide Next;
    var seen := s.(pc := Observed(copy, s.present));
    var removing := s.(pc := Removing(copy, s.present));
    Observes(s);
    Gates(seen);
    Removes(removing);
    assert [Observe(Done), Gate(Done), Remove(r)] == [Observe(Done)] + [Gate(Done)] + [Remove(r)];
    RunConcat(s, [Observe(Done)] + [Gate(Done)], [Remove(r)]);
    RunConcat(s, [Observe(Done)], [Gate(Done)]);
    RunOne(s, Observe(Done));
    RunOne(seen, Gate(Done));
    RunOne(removing, Remove(r));
  }

  lemma StoppedIsRun(s: State, copy: Obj, end: PassEnd)
    requires s.pc == Loaded(copy) && Legal(s.kind, copy, s.history, s.present, end) && !end.Worked? && !end.Dropped?
    ensures Ends(s, Run(s, Trace(s.kind, copy, end)), HistoryAfter(s.kind, copy, s.history, end), s.present)
  {
    hide Next, EditedAll;
    var seen := s.(pc := Observed(copy, s.present));
    Observes(s);
    Gates(seen);
    match end
    case Blind => RunOne(s, Observe(Failed));
    case Undropped => RemovedState(s, copy, Failed);
    case Absent =>
      assert [Observe(Done), Gate(Done)] == [Observe(Done)] + [Gate(Done)];
      RunConcat(s, [Observe(Done)], [Gate(Done)]);
      RunOne(s, Observe(Done));
      RunOne(seen, Gate(Done));
    case Refused(gate) =>
      RunConcat(s, [Observe(Done)] + Users(gate), [Gate(Failed)]);
      RunConcat(s, [Observe(Done)], Users(gate));
      RunOne(s, Observe(Done));
      RunUsers(seen, gate);
      var edited := seen.(history := EditedAll(s.history, gate));
      Gates(edited);
      RunOne(edited, Gate(Failed));
    case _ =>
  }

  /** Whatever a reconciler is proved to perform is a run of the protocol, from any state that read this version. */
  lemma PassIsRun(s: State, kind: Kind, copy: Obj, h: History, present: bool, end: PassEnd, h': History, present': bool)
    requires Begins(s, kind, copy, h, present) && Performs(kind, copy, h, present, end, h', present')
    ensures Ends(s, Run(s, Trace(kind, copy, end)), h', present')
  {
    hide Legal, HistoryAfter, Trace;
    match end
    case Worked(gate, done, status) => WorkedIsRun(s, copy, gate, done, status);
    case Dropped(release, ok) => DroppedIsRun(s, copy, release, ok);
    case _ => StoppedIsRun(s, copy, end);
  }

  /**
   So the promises of the protocol hold of the code: after a pass in any state some run reaches, an object the
   operator created and did not release exists only while the stored resource holds the finalizer, and the versions
   and the presence are those the reconciler left.
   */
  lemma PassKeepsPromises(kind: Kind, acts: seq<Action>, copy: Obj, end: PassEnd, h': History, present': bool)
    requires var s := Run(Init(kind), acts);
             s.pc == Loaded(copy) && Performs(kind, copy, s.history, s.present, end, h', present')
    ensures var t := Run(Run(Init(kind), acts), Trace(kind, copy, end));
            && t == Run(Init(kind), acts + Trace(kind, copy, end))
            && t.history == h' && t.present == present' && t.pc.Idle?
            && (present' && t.ours && !t.released ==> Latest(h').Some? && Latest(h').value.finalizer)
  {
    hide Next, Performs, Trace;
    var s := Run(Init(kind), acts);
    RunKind(Init(kind), acts);
    PassIsRun(s, kind, copy, s.history, s.present, end, h', present');
    RunConcat(Init(kind), acts, Trace(kind, copy, end));
    NeverAnOrphan(kind, acts + Trace(kind, copy, end));
  }
}
