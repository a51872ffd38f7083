/**
 The finalizer protocol of all three reconcilers, as a state machine over one resource and the database, role or
 schema it stands for. Every outside call is one step; between steps users edit or delete the
 resource, others may create or drop the remote object, and the operator may crash. Reads of the
 resource may return any version not older than the last one read; writes carry the version they were based on
 and fail when it is not the current one.
 */
module FinalizerProtocol {
  import opened Wrappers
  import opened Resources

  /** The stages of the creation branch after the finalizer is in place. */
  datatype Work = Make | Own | Extend | Share | Join | Store | Status

  function Plan(kind: Kind): seq<Work> {
    match kind
    case DatabaseKind => [Make, Own, Extend, Share, Status]
    case RoleKind => [Make, Join, Store, Status]
    case SchemaKind => [Make, Own, Status, Share]
  }

  /** Databases and roles report success last; schemas before their privileges. */
  function StatusAt(kind: Kind): nat {
    match kind
    case DatabaseKind => 4
    case RoleKind => 3
    case SchemaKind => 2
  }

  /** Where the pass is, with the resource version and the remote observation it holds. */
  datatype Pc =
    | Idle
    | Loaded(snap: Obj)
    | Observed(snap: Obj, found: bool)
    | Working(snap: Obj, found: bool, at: nat)
    | Removing(snap: Obj, found: bool)
    | Releasing(snap: Obj)

  /**
   `history` holds every version, None while the resource does not exist; `cursor` is the last version read.
   `present`: the remote object exists; `ours`: the operator created it; `released`: a pass that read
   keepOnDelete let it go. `reached` is the furthest stage any pass over a resource completed.
   */
  datatype State = State(
    kind: Kind, history: History, cursor: nat,
    present: bool, ours: bool, released: bool, pc: Pc, reached: map<nat, nat>)

  /** A call succeeds, takes effect but reports an error, or fails without effect. */
  datatype Result = Done | Lost | Failed

  datatype Action =
    | User(edit: Edit) | OutsideCreate | OutsideDrop
    | Start(version: nat) | Observe(result: Result) | Gate(result: Result)
    | Progress(result: Result) | Remove(result: Result) | Release(result: Result) | Crash

  function Init(kind: Kind): State { State(kind, [None], 0, false, false, false, Idle, map[]) }

  function Current(s: State): Option<Obj> { Latest(s.history) }

  /** Stores the next version of the resource. */
  function Stored(s: State, o: Obj): State { s.(history := Append(s.history, o)) }

  function Stop(s: State): State { s.(pc := Idle) }

  /** Moves on to stage `at` and records it for the resource. */
  function Reach(s: State, snap: Obj, found: bool, at: nat): State {
    s.(pc := Working(snap, found, at),
       reached := s.reached[
         snap.uid := if snap.uid in s.reached && s.reached[snap.uid] > at then s.reached[snap.uid] else at])
  }

  // ----- users and others -----

  function ByUser(s: State, e: Edit): State { s.(history := Edited(s.history, e)) }

  function ByOthers(s: State, a: Action): State {
    match a
    case OutsideCreate => if s.present then s else s.(present := true, ours := false, released := false)
    case OutsideDrop => s.(present := false)
    case _ => s
  }

  // ----- the operator -----

  function DoStart(s: State, version: nat): State {
    if !s.pc.Idle? || !(s.cursor <= version < |s.history|) then s
    else
      match s.history[version]
      case None => s.(cursor := version)
      case Some(o) => s.(cursor := version, pc := Loaded(o))
  }

  /** Everything read before the finalizer is looked at: the remote object, and for roles the password. */
  function DoObserve(s: State, r: Result): State {
    if !s.pc.Loaded? then s
    else if r != Done then Stop(s)
    else s.(pc := Observed(s.pc.snap, s.present))
  }

  predicate IsCurrent(s: State, snap: Obj) { IsLatest(s.history, snap.version) }

  function DoGate(s: State, r: Result): State {
    if !s.pc.Observed? then s
    else
      var snap, found := s.pc.snap, s.pc.found;
      if snap.deleting then
        if snap.finalizer then s.(pc := Removing(snap, found)) else Stop(s)
      else if snap.finalizer then Reach(s, snap, found, 0)
      else if r == Failed || !IsCurrent(s, snap) then Stop(s)
      else
        var o := snap.(finalizer := true, version := |s.history|);
        if r == Lost then Stop(Stored(s, o)) else Reach(Stored(s, o), o, found, 0)
  }

  /** One stage of the creation branch. */
  function DoProgress(s: State, r: Result): State {
    if !s.pc.Working? then s
    else
      var snap, found, at := s.pc.snap, s.pc.found, s.pc.at;
      if at >= |Plan(s.kind)| then Stop(s)
      else if Plan(s.kind)[at] == Make && !found then
        if r == Failed || s.present then Stop(s)
        else
          var made := s.(present := true, ours := true, released := false);
          if r == Lost then Stop(made) else Reach(made, snap, found, at + 1)
      else if Plan(s.kind)[at] == Status && !snap.succeeded then
        if r == Failed || !IsCurrent(s, snap) then Stop(s)
        else
          var o := snap.(succeeded := true, version := |s.history|);
          if r == Lost then Stop(Stored(s, o)) else Reach(Stored(s, o), o, found, at + 1)
      else if r == Done then Reach(s, snap, found, at + 1)
      else Stop(s)
  }

  /** reconcileOnDeletion: nothing to drop, kept, or dropped. */
  function DoRemove(s: State, r: Result): State {
    if !s.pc.Removing? then s
    else if !s.pc.found || s.pc.snap.keep then s.(pc := Releasing(s.pc.snap))
    else if r == Failed || !s.present then Stop(s)
    else if r == Lost then Stop(s.(present := false))
    else s.(present := false, pc := Releasing(s.pc.snap))
  }

  function DoRelease(s: State, r: Result): State {
    if !s.pc.Releasing? then s
    else if r == Failed || !IsCurrent(s, s.pc.snap) then Stop(s)
    else Stop(Stored(s, s.pc.snap.(finalizer := false)).(released := s.released || s.pc.snap.keep))
  }

  function Next(s: State, a: Action): State {
    match a
    case User(e) => ByUser(s, e)
    case OutsideCreate => ByOthers(s, a)
    case OutsideDrop => ByOthers(s, a)
    case Start(v) => DoStart(s, v)
    case Observe(r) => DoObserve(s, r)
    case Gate(r) => DoGate(s, r)
    case Progress(r) => DoProgress(s, r)
    case Remove(r) => DoRemove(s, r)
    case Release(r) => DoRelease(s, r)
    case Crash => Stop(s)
  }

  function Run(s: State, actions: seq<Action>): State
    decreases |actions|
  {
    if actions == [] then s else Run(Next(s, actions[0]), actions[1..])
  }

  // ----- the invariant -----

  ghost predicate Holding(x: Option<Obj>, deleting: bool) {
    x.Some? && x.value.finalizer && (deleting ==> x.value.deleting)
  }

  /** From version i on the resource has kept our finalizer, and stayed in deletion if it was. */
  ghost predicate HeldFrom(h: History, i: nat)
    requires i < |h| && h[i].Some?
  {
    forall j :: i <= j < |h| ==> Holding(h[j], h[i].value.deleting)
  }

  ghost predicate Versioned(s: State) {
    && s.cursor < |s.history|
    && forall i :: 0 <= i < |s.history| && s.history[i].Some? ==> s.history[i].value.version == i
  }

  ghost predicate Ours(s: State) { s.present && s.ours }

  /**
   Unread versions with our finalizer still hold it. The version last read does too, unless it was in deletion
   and its pass has let go: then it said keep, or nothing of ours is left.
   */
  ghost predicate Protected(s: State)
    requires Versioned(s)
  {
    && (forall i :: s.cursor < i < |s.history| && s.history[i].Some? && s.history[i].value.finalizer ==>
          HeldFrom(s.history, i))
    && var r := s.history[s.cursor];
       (r.Some? && r.value.finalizer ==>
         HeldFrom(s.history, s.cursor) || (r.value.deleting && (r.value.keep || !Ours(s))))
  }

  ghost predicate PcFits(s: State)
    requires Versioned(s)
  {
    match s.pc
    case Idle => true
    case Loaded(snap) => s.history[s.cursor] == Some(snap)
    case Observed(snap, found) => s.history[s.cursor] == Some(snap) && (!found ==> !Ours(s))
    case Working(snap, found, at) =>
      && s.history[s.cursor].Some? && !s.history[s.cursor].value.deleting
      && s.cursor <= snap.version < |s.history| && s.history[snap.version] == Some(snap)
      && snap.finalizer && !snap.deleting
    case Removing(snap, found) =>
      s.history[s.cursor] == Some(snap) && snap.deleting && snap.finalizer && (!found ==> !Ours(s))
    case Releasing(snap) =>
      s.history[s.cursor] == Some(snap) && snap.deleting && snap.finalizer && (snap.keep || !Ours(s))
  }

  /** What the operator created exists only while the resource holds the finalizer, or after a release. */
  ghost predicate NoOrphan(s: State) {
    s.present && s.ours && !s.released ==> Current(s).Some? && Current(s).value.finalizer
  }

  ghost predicate Inv(s: State) {
    Versioned(s) && Protected(s) && PcFits(s) && NoOrphan(s)
  }

  // ----- every step keeps it -----

  /** Appending a version that keeps our finalizer, and the deletion mark, if the current version has them. */
  lemma Grows(s: State, s': State, x: Option<Obj>)
    requires Inv(s) && s' == s.(history := s.history + [x])
    requires x.Some? ==> x.value.version == |s.history|
    requires Holding(Current(s), false) ==> Holding(x, Current(s).value.deleting)
    ensures Inv(s')
  {
    var h, h' := s.history, s'.history;
    assert forall i :: 0 <= i < |h| ==> h'[i] == h[i];
    assert h'[|h|] == x && Current(s') == x;
    forall i | 0 <= i < |h| && h[i].Some? && h[i].value.finalizer && HeldFrom(h, i) ensures HeldFrom(h', i) {
      assert Holding(h[|h| - 1], h[i].value.deleting);
    }
    if x.Some? && x.value.finalizer { assert HeldFrom(h', |h|); }
  }

  lemma StoredGrows(s: State, o: Obj)
    requires Inv(s) && Current(s).Some? && o.finalizer == Current(s).value.finalizer
    requires Current(s).value.deleting ==> o.deleting
    ensures Inv(Stored(s, o))
  {
    var x := if o.deleting && !o.finalizer && !o.foreign then None else Some(o.(version := |s.history|));
    Grows(s, Stored(s, o), x);
  }

  lemma UserKeeps(s: State, e: Edit)
    requires Inv(s)
    ensures Inv(ByUser(s, e))
  {
    hide Inv;
    match Current(s)
    case None =>
      if e.NewResource? {
        var o := Obj(0, |s.history|, false, e.foreign, false, e.keep, false);
        Grows(s, Stored(s, o), Some(o.(version := |s.history|)));
      }
    case Some(o) =>
      match e
      case NewResource(_, _) =>
      case NewSpec(keep) => StoredGrows(s, o.(keep := keep));
      case DeletionRequest => StoredGrows(s, o.(deleting := true));
      case ForeignRelease => StoredGrows(s, o.(foreign := false));
  }

  lemma OthersKeep(s: State, a: Action)
    requires Inv(s)
    ensures Inv(ByOthers(s, a))
  {
  }

  lemma StopKeeps(s: State)
    requires Inv(s)
    ensures Inv(Stop(s))
  {
  }

  lemma StartKeeps(s: State, v: nat)
    requires Inv(s)
    ensures Inv(DoStart(s, v))
  {
  }

  lemma ObserveKeeps(s: State, r: Result)
    requires Inv(s)
    ensures Inv(DoObserve(s, r))
  {
  }

  /** Adding the finalizer: the version it was based on is current. */
  lemma AddsFinalizer(s: State)
    requires Inv(s) && s.pc.Observed? && IsCurrent(s, s.pc.snap) && !s.pc.snap.deleting
    ensures var o := s.pc.snap.(finalizer := true, version := |s.history|);
            Inv(Stop(Stored(s, o))) && Inv(Reach(Stored(s, o), o, s.pc.found, 0))
  {
    var snap := s.pc.snap;
    var o := snap.(finalizer := true, version := |s.history|);
    assert Current(s).value == snap by { assert s.history[snap.version] == Current(s); }
    Grows(s, Stored(s, o), Some(o));
  }

  lemma GateReads(s: State)
    requires Inv(s) && s.pc.Observed?
    ensures var snap, found := s.pc.snap, s.pc.found;
            && (snap.deleting && snap.finalizer ==> Inv(s.(pc := Removing(snap, found))))
            && (!snap.deleting && snap.finalizer ==> Inv(Reach(s, snap, found, 0)))
  {
  }

  lemma GateKeeps(s: State, r: Result)
    requires Inv(s)
    ensures Inv(DoGate(s, r))
  {
    hide Inv, Reach, Stored, Stop, IsCurrent;
    StopKeeps(s);
    if s.pc.Observed? {
      GateReads(s);
      if IsCurrent(s, s.pc.snap) && !s.pc.snap.deleting { AddsFinalizer(s); }
    }
  }

  /** While a pass works on the resource, the resource holds the finalizer. */
  lemma WorkingIsHeld(s: State)
    requires Inv(s) && s.pc.Working?
    ensures Holding(Current(s), false)
    ensures IsCurrent(s, s.pc.snap) ==> Current(s) == Some(s.pc.snap)
  {
    var w := s.pc.snap.version;
    if w > s.cursor { assert HeldFrom(s.history, w); }
  }

  lemma MakeKeeps(s: State, at: nat)
    requires Inv(s) && s.pc.Working?
    ensures var made := s.(present := true, ours := true, released := false);
            Inv(Stop(made)) && Inv(Reach(made, s.pc.snap, s.pc.found, at))
  {
    WorkingIsHeld(s);
  }

  lemma MarkKeeps(s: State, at: nat)
    requires Inv(s) && s.pc.Working? && IsCurrent(s, s.pc.snap)
    ensures var o := s.pc.snap.(succeeded := true, version := |s.history|);
            Inv(Stop(Stored(s, o))) && Inv(Reach(Stored(s, o), o, s.pc.found, at))
  {
    WorkingIsHeld(s);
    var o := s.pc.snap.(succeeded := true, version := |s.history|);
    Grows(s, Stored(s, o), Some(o));
  }

  lemma ReachKeeps(s: State, at: nat)
    requires Inv(s) && s.pc.Working?
    ensures Inv(Reach(s, s.pc.snap, s.pc.found, at))
  {
  }

  lemma ProgressKeeps(s: State, r: Result)
    requires Inv(s)
    ensures Inv(DoProgress(s, r))
  {
    hide Inv, Reach, Stored, Plan;
    StopKeeps(s);
    if s.pc.Working? {
      MakeKeeps(s, s.pc.at + 1);
      ReachKeeps(s, s.pc.at + 1);
      if IsCurrent(s, s.pc.snap) { MarkKeeps(s, s.pc.at + 1); }
    }
  }

  lemma RemoveKeeps(s: State, r: Result)
    requires Inv(s)
    ensures Inv(DoRemove(s, r))
  {
  }

  lemma ReleaseKeeps(s: State, r: Result)
    requires Inv(s)
    ensures Inv(DoRelease(s, r))
  {
    if s.pc.Releasing? && r != Failed && IsCurrent(s, s.pc.snap) {
      var h, h' := s.history, DoRelease(s, r).history;
      assert s.cursor == |h| - 1;
      assert forall i :: 0 <= i < |h| ==> h'[i] == h[i];
    }
  }

  lemma NextKeeps(s: State, a: Action)
    requires Inv(s)
    ensures Inv(Next(s, a))
  {
    hide Inv, ByUser, ByOthers, DoStart, DoObserve, DoGate, DoProgress, DoRemove, DoRelease, Stop;
    match a
    case User(e) => UserKeeps(s, e);
    case OutsideCreate => OthersKeep(s, a);
    case OutsideDrop => OthersKeep(s, a);
    case Start(v) => StartKeeps(s, v);
    case Observe(r) => ObserveKeeps(s, r);
    case Gate(r) => GateKeeps(s, r);
    case Progress(r) => ProgressKeeps(s, r);
    case Remove(r) => RemoveKeeps(s, r);
    case Release(r) => ReleaseKeeps(s, r);
    case Crash => StopKeeps(s);
  }

  lemma {:induction false} RunKeeps(s: State, actions: seq<Action>)
    requires Inv(s)
    ensures Inv(Run(s, actions))
    decreases |actions|
  {
    hide Inv, Next;
    if actions != [] {
      NextKeeps(s, actions[0]);
      RunKeeps(Next(s, actions[0]), actions[1..]);
    }
  }

  // ----- the promises -----

  /**
   No orphans, in any run: with edits, deletions, re-creation under the same name, stale reads, lost
   replies, failures and crashes after any call, what the operator created exists only while the resource holds the
   finalizer, or was released by a pass that read keepOnDelete.
   */
  lemma NeverAnOrphan(kind: Kind, actions: seq<Action>)
    ensures NoOrphan(Run(Init(kind), actions))
  {
    hide Next;
    RunKeeps(Init(kind), actions);
  }

  /** The action drops the remote object. */
  predicate Drops(s: State, a: Action) {
    a.Remove? && s.pc.Removing? && s.present && !Next(s, a).present
  }

  /**
   What the operator created is dropped only while the current version of the resource is being deleted and
   still holds the finalizer, however stale the version that was read.
   */
  lemma DropsOnlyInDeletion(kind: Kind, actions: seq<Action>, a: Action)
    ensures var s := Run(Init(kind), actions);
            Drops(s, a) && s.ours ==> Holding(Current(s), true)
  {
    hide Next;
    RunKeeps(Init(kind), actions);
    var s := Run(Init(kind), actions);
    if Drops(s, a) && s.ours {
      DropStep(s, a);
      assert HeldFrom(s.history, s.cursor);
    }
  }

  lemma DropStep(s: State, a: Action)
    requires Drops(s, a)
    ensures !s.pc.snap.keep && s.pc.found
  {
  }

  lemma {:induction false} RunSnoc(s: State, acts: seq<Action>, a: Action)
    ensures Run(s, acts + [a]) == Next(Run(s, acts), a)
    decreases |acts|
  {
    hide Next;
    if acts == [] {
      assert [] + [a] == [a] && [a][1..] == [];
    } else {
      assert (acts + [a])[1..] == acts[1..] + [a];
      RunSnoc(Next(s, acts[0]), acts[1..], a);
    }
  }

  /** A state some run of a database resource reaches. */
  ghost predicate Reachable(s: State) {
    exists acts :: Run(Init(DatabaseKind), acts) == s
  }

  lemma Reaches(s: State, a: Action)
    requires Reachable(s)
    ensures Reachable(Next(s, a))
  {
    hide Next;
    var acts :| Run(Init(DatabaseKind), acts) == s;
    RunSnoc(Init(DatabaseKind), acts, a);
  }

  /** A resource that got its finalizer, was read again in deletion, and is gone. */
  lemma GoneAfterDeletion(made: Obj, held: Obj, dying: Obj) returns (s: State)
    requires made == Obj(1, 1, false, false, false, false, false)
    requires held == made.(finalizer := true, version := 2) && dying == held.(deleting := true, version := 3)
    ensures Reachable(s)
    ensures s == State(DatabaseKind, [None, Some(made), Some(held), Some(dying), None], 3, false, false, false,
                       Idle, map[1 := 0])
  {
    s := ReadInDeletion(made, held, dying);
    hide Reachable;
    Reaches(s, Gate(Done));
    s := s.(pc := Removing(dying, false));
    Reaches(s, Remove(Done));
    s := s.(pc := Releasing(dying));
    Reaches(s, Release(Done));
    var t := s.(pc := Idle, history := s.history + [None]);
    assert t.history == [None, Some(made), Some(held), Some(dying), None];
    assert IsCurrent(s, dying);
    s := t;
  }

  lemma ReadInDeletion(made: Obj, held: Obj, dying: Obj) returns (s: State)
    requires made == Obj(1, 1, false, false, false, false, false)
    requires held == made.(finalizer := true, version := 2) && dying == held.(deleting := true, version := 3)
    ensures Reachable(s)
    ensures s == State(DatabaseKind, [None, Some(made), Some(held), Some(dying)], 3, false, false, false,
                       Observed(dying, false), map[1 := 0])
  {
    s := HeldThenDying(made, held, dying);
    hide Reachable;
    Reaches(s, Start(3));
    s := s.(cursor := 3, pc := Loaded(dying));
    Reaches(s, Observe(Done));
    s := s.(pc := Observed(dying, false));
  }

  lemma HeldThenDying(made: Obj, held: Obj, dying: Obj) returns (s: State)
    requires made == Obj(1, 1, false, false, false, false, false)
    requires held == made.(finalizer := true, version := 2) && dying == held.(deleting := true, version := 3)
    ensures Reachable(s)
    ensures s == State(DatabaseKind, [None, Some(made), Some(held), Some(dying)], 1, false, false, false,
                       Idle, map[1 := 0])
  {
    s := FirstGate(made, held);
    hide Reachable;
    Reaches(s, Crash);
    s := s.(pc := Idle);
    Reaches(s, User(DeletionRequest));
    var t := s.(history := s.history + [Some(dying)]);
    assert t.history == [None, Some(made), Some(held), Some(dying)];
    s := t;
  }

  lemma FirstGate(made: Obj, held: Obj) returns (s: State)
    requires made == Obj(1, 1, false, false, false, false, false) && held == made.(finalizer := true, version := 2)
    ensures Reachable(s)
    ensures s == State(DatabaseKind, [None, Some(made), Some(held)], 1, false, false, false,
                       Working(held, false, 0), map[1 := 0])
  {
    s := Init(DatabaseKind);
    assert Run(s, []) == s;
    hide Reachable;
    Reaches(s, User(NewResource(false, false)));
    s := s.(history := s.history + [Some(made)]);
    assert s.history == [None, Some(made)];
    Reaches(s, Start(1));
    s := s.(cursor := 1, pc := Loaded(made));
    Reaches(s, Observe(Done));
    s := s.(pc := Observed(made, false));
    Reaches(s, Gate(Done));
    var t := Next(s, Gate(Done));
    assert t.history == [None, Some(made), Some(held)];
    assert t.reached == map[1 := 0];
    s := t;
  }

  /** The deleted resource is back under the same name, and someone else has created the remote object. */
  lemma CreatedElsewhere(made: Obj, held: Obj, dying: Obj, live: Obj) returns (s: State)
    requires made == Obj(1, 1, false, false, false, false, false)
    requires held == made.(finalizer := true, version := 2) && dying == held.(deleting := true, version := 3)
    requires live == Obj(5, 5, false, false, false, false, false)
    ensures Reachable(s)
    ensures s == State(DatabaseKind, [None, Some(made), Some(held), Some(dying), None, Some(live)], 3,
                       true, false, false, Idle, map[1 := 0])
  {
    s := GoneAfterDeletion(made, held, dying);
    hide Reachable;
    Reaches(s, User(NewResource(false, false)));
    var t := s.(history := s.history + [Some(live)]);
    assert t.history == [None, Some(made), Some(held), Some(dying), None, Some(live)];
    assert Next(s, User(NewResource(false, false))) == t;
    Reaches(t, OutsideCreate);
    s := t.(present := true);
  }

  /** The next pass reads the old version once more, and then finds the foreign object. */
  lemma ReadStale(made: Obj, held: Obj, dying: Obj, live: Obj) returns (s: State)
    requires made == Obj(1, 1, false, false, false, false, false)
    requires held == made.(finalizer := true, version := 2) && dying == held.(deleting := true, version := 3)
    requires live == Obj(5, 5, false, false, false, false, false)
    ensures Reachable(s)
    ensures s == State(DatabaseKind, [None, Some(made), Some(held), Some(dying), None, Some(live)], 3,
                       true, false, false, Observed(dying, true), map[1 := 0])
  {
    s := CreatedElsewhere(made, held, dying, live);
    hide Reachable;
    Reaches(s, Start(3));
    s := s.(pc := Loaded(dying));
    Reaches(s, Observe(Done));
    s := s.(pc := Observed(dying, true));
  }

  /**
   The restriction to objects of the operator's own making is needed: a stale read of the deleted resource drops what
   someone else created under that name, while the new resource is live.
   */
  lemma StaleReadDropsForeign() returns (s: State)
    ensures Reachable(s) && Drops(s, Remove(Done)) && !s.ours
    ensures Current(s).Some? && !Current(s).value.deleting
  {
    var made := Obj(1, 1, false, false, false, false, false);
    var held := made.(finalizer := true, version := 2);
    var dying := held.(deleting := true, version := 3);
    s := ReadStale(made, held, dying, Obj(5, 5, false, false, false, false, false));
    hide Reachable;
    Reaches(s, Gate(Done));
    s := s.(pc := Removing(dying, true));
  }

  // ----- status -----

  /** What the finished status of a stored version vouches for: every stage before it was completed. */
  ghost predicate Vouched(s: State, uid: nat) {
    uid in s.reached && s.reached[uid] >= StatusAt(s.kind)
  }

  /** Later versions of a resource that succeeded have succeeded. */
  ghost predicate SuccessSticks(h: History) {
    forall i, j :: 0 <= i < j < |h| && h[i].Some? && h[j].Some? && h[i].value.uid == h[j].value.uid ==>
      (h[i].value.succeeded ==> h[j].value.succeeded)
  }

  /** A deletion is never taken back. */
  ghost predicate DeletionSticks(h: History) {
    forall i, j :: 0 <= i < j < |h| && h[i].Some? && h[j].Some? && h[i].value.uid == h[j].value.uid ==>
      (h[i].value.deleting ==> h[j].value.deleting)
  }

  ghost predicate Reported(s: State) {
    && (forall i :: 0 <= i < |s.history| && s.history[i].Some? ==>
          s.history[i].value.uid <= i && (s.history[i].value.succeeded ==> Vouched(s, s.history[i].value.uid)))
    && SuccessSticks(s.history) && DeletionSticks(s.history)
    && (s.pc.Working? ==> s.pc.snap.uid in s.reached && s.reached[s.pc.snap.uid] >= s.pc.at)
  }

  /** Appending a version of the current resource, or of a new one. */
  lemma ReportGrows(s: State, s': State, x: Option<Obj>)
    requires Reported(s) && s' == s.(history := s.history + [x])
    requires x.Some? ==>
               var o := x.value;
               (o.succeeded ==> Vouched(s, o.uid)) &&
               if Current(s).Some? then
                 && o.uid == Current(s).value.uid && (Current(s).value.succeeded ==> o.succeeded)
                 && (Current(s).value.deleting ==> o.deleting)
               else o.uid == |s.history|
    ensures Reported(s')
  {
    var h, h' := s.history, s'.history;
    assert forall i :: 0 <= i < |h| ==> h'[i] == h[i];
    assert h'[|h|] == x;
    if Current(s).Some? {
      assert h[|h| - 1] == Current(s);
    }
  }

  lemma ReportPc(s: State, pc: Pc)
    requires Reported(s) && !pc.Working?
    ensures Reported(s.(pc := pc))
  {
  }

  lemma ReportReach(s: State, snap: Obj, found: bool, at: nat)
    requires Reported(s)
    ensures Reported(Reach(s, snap, found, at))
  {
  }

  lemma StoredReports(s: State, o: Obj)
    requires Reported(s) && Current(s).Some? && o.uid == Current(s).value.uid
    requires (Current(s).value.succeeded ==> o.succeeded) && (Current(s).value.deleting ==> o.deleting)
    requires o.succeeded ==> Vouched(s, o.uid)
    ensures Reported(Stored(s, o))
  {
    var x := if o.deleting && !o.finalizer && !o.foreign then None else Some(o.(version := |s.history|));
    ReportGrows(s, Stored(s, o), x);
  }

  lemma CurrentVouched(s: State)
    requires Reported(s) && Current(s).Some? && Current(s).value.succeeded
    ensures Vouched(s, Current(s).value.uid)
  {
  }

  lemma UserReports(s: State, e: Edit)
    requires Reported(s)
    ensures Reported(ByUser(s, e))
  {
    hide Reported, Vouched;
    match Current(s)
    case None =>
      if e.NewResource? {
        var o := Obj(0, |s.history|, false, e.foreign, false, e.keep, false);
        ReportGrows(s, Stored(s, o), Some(o.(version := |s.history|)));
      }
    case Some(o) =>
      if o.succeeded { CurrentVouched(s); }
      match e
      case NewResource(_, _) =>
      case NewSpec(keep) => StoredReports(s, o.(keep := keep));
      case DeletionRequest => StoredReports(s, o.(deleting := true));
      case ForeignRelease => StoredReports(s, o.(foreign := false));
  }

  lemma OthersReport(s: State, a: Action)
    requires Reported(s)
    ensures Reported(ByOthers(s, a))
  {
  }

  lemma StartReports(s: State, v: nat)
    requires Reported(s)
    ensures Reported(DoStart(s, v))
  {
  }

  /** A version a pass writes back: it is the current one but for the finalizer or the status. */
  lemma WritesCurrent(s: State)
    requires Inv(s) && !s.pc.Idle? && !s.pc.Loaded? && IsCurrent(s, s.pc.snap)
    ensures Current(s) == Some(s.pc.snap)
  {
  }

  lemma GateReports(s: State, r: Result)
    requires Inv(s) && Reported(s)
    ensures Reported(DoGate(s, r))
  {
    hide Inv, Reported, Vouched;
    if s.pc.Observed? {
      var snap, found := s.pc.snap, s.pc.found;
      ReportPc(s, Idle);
      ReportPc(s, Removing(snap, found));
      ReportReach(s, snap, found, 0);
      if IsCurrent(s, snap) {
        WritesCurrent(s);
        var o := snap.(finalizer := true, version := |s.history|);
        if snap.succeeded { CurrentVouched(s); }
        StoredReports(s, o);
        ReportPc(Stored(s, o), Idle);
        ReportReach(Stored(s, o), o, found, 0);
      }
    }
  }

  lemma StatusStage(kind: Kind, at: nat)
    requires at < |Plan(kind)| && Plan(kind)[at] == Status
    ensures at == StatusAt(kind)
  {
  }

  lemma WorkVouches(s: State)
    requires Reported(s) && s.pc.Working? && s.pc.at == StatusAt(s.kind)
    ensures Vouched(s, s.pc.snap.uid)
  {
  }

  lemma RemoteReports(s: State, present: bool, ours: bool, released: bool)
    requires Reported(s)
    ensures Reported(s.(present := present, ours := ours, released := released))
  {
  }

  lemma ProgressReports(s: State, r: Result)
    requires Inv(s) && Reported(s)
    ensures Reported(DoProgress(s, r))
  {
    hide Inv, Reported, Vouched, Plan, Reach, Stored, IsCurrent;
    if s.pc.Working? {
      var snap, found, at := s.pc.snap, s.pc.found, s.pc.at;
      ReportPc(s, Idle);
      ReportReach(s, snap, found, at + 1);
      RemoteReports(s, true, true, false);
      var made := s.(present := true, ours := true, released := false);
      ReportPc(made, Idle);
      ReportReach(made, snap, found, at + 1);
      if at < |Plan(s.kind)| && Plan(s.kind)[at] == Status && IsCurrent(s, snap) {
        WritesCurrent(s);
        StatusStage(s.kind, at);
        WorkVouches(s);
        var o := snap.(succeeded := true, version := |s.history|);
        StoredReports(s, o);
        ReportPc(Stored(s, o), Idle);
        ReportReach(Stored(s, o), o, found, at + 1);
      }
    }
  }

  lemma RemoveReports(s: State, r: Result)
    requires Reported(s)
    ensures Reported(DoRemove(s, r)) && Reported(DoObserve(s, r)) && Reported(Stop(s))
  {
    hide Reported;
    ReportPc(s, Idle);
    if s.pc.Loaded? { ReportPc(s, Observed(s.pc.snap, s.present)); }
    if s.pc.Removing? {
      ReportPc(s, Releasing(s.pc.snap));
      RemoteReports(s, false, s.ours, s.released);
      var t := s.(present := false, ours := s.ours, released := s.released);
      assert t == s.(present := false);
      ReportPc(t, Idle);
      ReportPc(t, Releasing(s.pc.snap));
    }
  }

  lemma ReleaseReports(s: State, r: Result)
    requires Inv(s) && Reported(s)
    ensures Reported(DoRelease(s, r))
  {
    hide Inv, Reported, Vouched, Stored, IsCurrent;
    ReportPc(s, Idle);
    if s.pc.Releasing? && IsCurrent(s, s.pc.snap) {
      var o := s.pc.snap.(finalizer := false);
      WritesCurrent(s);
      if o.succeeded { CurrentVouched(s); }
      StoredReports(s, o);
      var t := Stored(s, o);
      RemoteReports(t, t.present, t.ours, s.released || s.pc.snap.keep);
      ReportPc(t.(released := s.released || s.pc.snap.keep), Idle);
    }
  }

  lemma NextReports(s: State, a: Action)
    requires Inv(s) && Reported(s)
    ensures Reported(Next(s, a))
  {
    hide Inv, Reported, ByUser, ByOthers, DoStart, DoObserve, DoGate, DoProgress, DoRemove, DoRelease, Stop;
    match a
    case User(e) => UserReports(s, e);
    case OutsideCreate => OthersReport(s, a);
    case OutsideDrop => OthersReport(s, a);
    case Start(v) => StartReports(s, v);
    case Observe(r) => RemoveReports(s, r);
    case Gate(r) => GateReports(s, r);
    case Progress(r) => ProgressReports(s, r);
    case Remove(r) => RemoveReports(s, r);
    case Release(r) => ReleaseReports(s, r);
    case Crash => RemoveReports(s, Done);
  }

  lemma {:induction false} RunReports(s: State, actions: seq<Action>)
    requires Inv(s) && Reported(s)
    ensures Reported(Run(s, actions))
    decreases |actions|
  {
    hide Inv, Next, Reported;
    if actions != [] {
      NextKeeps(s, actions[0]);
      NextReports(s, actions[0]);
      RunReports(Next(s, actions[0]), actions[1..]);
    }
  }

  /**
   In any run, Succeeded is never unset once set on a resource, and it means that passes over this resource
   completed every stage before it: all the others for databases and roles, creation and ownership for schemas.
   */
  lemma StatusHistory(kind: Kind, actions: seq<Action>)
    ensures var s := Run(Init(kind), actions);
            && SuccessSticks(s.history)
            && forall i :: 0 <= i < |s.history| && s.history[i].Some? && s.history[i].value.succeeded ==>
                 var uid := s.history[i].value.uid;
                 uid in s.reached && s.reached[uid] >= if kind.SchemaKind? then 2 else |Plan(kind)| - 1
  {
    hide Next, SuccessSticks, DeletionSticks, Inv;
    InitReports(kind);
    RunReports(Init(kind), actions);
    RunKind(Init(kind), actions);
  }

  lemma InitReports(kind: Kind)
    ensures Inv(Init(kind)) && Reported(Init(kind))
  {
  }

  lemma NextKind(s: State, a: Action)
    ensures Next(s, a).kind == s.kind
  {
    hide IsCurrent, Plan;
  }

  lemma {:induction false} RunKind(s: State, actions: seq<Action>)
    ensures Run(s, actions).kind == s.kind
    decreases |actions|
  {
    hide Next;
    if actions != [] {
      NextKind(s, actions[0]);
      RunKind(Next(s, actions[0]), actions[1..]);
    }
  }

  // ----- drops -----

  /** The resource that was read is still there, and in deletion. */
  predicate StillDeleting(s: State, snap: Obj) {
    Current(s).Some? && Current(s).value.uid == snap.uid && Current(s).value.deleting
  }

  lemma DropReads(s: State, a: Action)
    requires Inv(s) && Drops(s, a)
    ensures s.history[s.cursor] == Some(s.pc.snap) && s.pc.snap.deleting && s.pc.snap.finalizer
  {
  }

  /**
   Every drop, whoever made the object: the resource that was read is still there and in deletion exactly when the
   current resource carries its uid, and a drop on a current read is always one of a resource in deletion that
   holds the finalizer. So what a drop takes from a live resource was read under another uid, and was not the
   operator's.
   */
  lemma DropsExactly(kind: Kind, actions: seq<Action>, a: Action)
    ensures var s := Run(Init(kind), actions);
            Drops(s, a) ==>
              && (StillDeleting(s, s.pc.snap) <==> Current(s).Some? && Current(s).value.uid == s.pc.snap.uid)
              && (IsCurrent(s, s.pc.snap) ==> Holding(Current(s), true))
              && (Current(s).Some? && !Current(s).value.deleting ==> Current(s).value.uid != s.pc.snap.uid && !s.ours)
  {
    hide Next, HeldFrom;
    var s := Run(Init(kind), actions);
    InitReports(kind);
    RunKeeps(Init(kind), actions);
    RunReports(Init(kind), actions);
    DropsOnlyInDeletion(kind, actions, a);
    if Drops(s, a) { DropReads(s, a); }
  }
}
