/** A role pass is a pass of the finalizer protocol, whatever fails and whatever users do to the resource. */
module RoleProtocol {
  import opened Wrappers
  import opened Outside
  import opened Resources
  import opened RoleStatements
  import opened RolePasses
  import opened RoleRuns
  import RoleIdempotence
  import RoleDeletion
  import SetReconciliation
  import FinalizerProtocol
  import P = PassRuns

  ghost function WorkEnd(e: Env, s: Setup, r: Resource, gate: seq<Edit>, operator: Role, existing: Option<Role>,
                         d: Role, c: Choices, fails: nat -> bool): P.PassEnd
  {
    var made := OnCreation(e, operator, existing, d, fails);
    if !made.ok then P.Worked(gate, 0, [])
    else
      var joined := OnMembership(made.env, d.name, r.spec.memberOf, c.groups, fails);
      if !joined.ok then P.Worked(gate, 1, [])
      else
        var kept := OnSecret(joined.env, s, r.name.namespace, r.spec, d, fails);
        if !kept.ok then P.Worked(gate, 2, [])
        else
          var marked := OnResource(kept.env, s, r.name, r.copy.(succeeded := true), !r.copy.succeeded, fails);
          P.Worked(gate, if marked.ok then 4 else 3, if r.copy.succeeded then [] else s.edits(kept.env.calls))
  }

  ghost function ActEnd(e: Env, s: Setup, r: Resource, operator: Role, existing: Option<Role>, d: Role, c: Choices,
                        fails: nat -> bool): P.PassEnd
  {
    if r.copy.deleting then
      if !r.copy.finalizer then P.Absent
      else
        var gone := OnDeletion(e, s.database, r.spec, c.databases, fails);
        if !gone.ok then P.Undropped
        else P.Dropped(s.edits(gone.env.calls),
                       OnResource(gone.env, s, r.name, r.copy.(finalizer := false), true, fails).ok)
    else
      var gate := if r.copy.finalizer then [] else s.edits(e.calls);
      var held := OnGate(e, s, r, fails);
      if !held.ok then P.Refused(gate) else WorkEnd(held.env, s, Held(e, s, r), gate, operator, existing, d, c, fails)
  }

  /** How far the pass got. */
  ghost function RoleEnd(e: Env, s: Setup, r: Resource, c: Choices, fails: nat -> bool): P.PassEnd {
    var fetched := FetchPassword(e, r.name.namespace, r.spec, c.generated, fails);
    if fetched.password.None? then P.Blind
    else
      var e1 := fetched.env;
      if fails(e1.calls) || fails(e1.calls + 1) || e1.pg.operator !in e1.pg.roles then P.Blind
      else
        ActEnd(Asked(Asked(e1)), s, r, Seen(e1.pg, e1.pg.operator).value, Seen(e1.pg, r.spec.name),
               Desired(r.spec, fetched.password.value), c, fails)
  }

  ghost predicate Steps(e: Env, e': Env, r: Resource, end: P.PassEnd) {
    P.Performs(RoleKind, r.copy, HistoryOf(e.resources, r.name), r.spec.name in e.pg.roles, end,
               HistoryOf(e'.resources, r.name), r.spec.name in e'.pg.roles)
  }

  // ----- the creation branch -----

  lemma CreationPresents(e: Env, d: Role, fails: nat -> bool)
    requires Sound(e.pg)
    ensures var made := Creation(e, d, fails);
            && made.env.resources == e.resources
            && (made.ok ==> d.name in made.env.pg.roles) && (!made.ok ==> made.env.pg == e.pg)
  {
    hide MayChange, Created, Altered;
  }

  lemma StagesKeep(e: Env, s: Setup, r: Resource, d: Role, c: Choices, fails: nat -> bool)
    ensures var joined := OnMembership(e, d.name, r.spec.memberOf, c.groups, fails).env;
            joined.resources == e.resources && joined.pg.roles == e.pg.roles
    ensures var kept := OnSecret(e, s, r.name.namespace, r.spec, d, fails).env;
            kept.resources == e.resources && kept.pg.roles == e.pg.roles
  {
    hide DesiredData, Repaired, SetReconciliation.Execute;
  }

  lemma MarkWrites(e: Env, s: Setup, r: Resource, fails: nat -> bool)
    ensures var marked := OnResource(e, s, r.name, r.copy.(succeeded := true), !r.copy.succeeded, fails);
            var status := if r.copy.succeeded then [] else s.edits(e.calls);
            && marked.env.pg == e.pg
            && P.StatusWritten(RoleKind, r.copy, HistoryOf(e.resources, r.name), if marked.ok then 4 else 3, status,
                               HistoryOf(marked.env.resources, r.name))
  {
    hide EditedAll, IsLatest, Append;
  }

  lemma NotYetWritten(o: Obj, h: History, done: nat)
    requires done < 3
    ensures P.StatusWritten(RoleKind, o, h, done, [], h)
  {
  }

  lemma WorkSteps(e: Env, s: Setup, r: Resource, gate: seq<Edit>, d: Role, c: Choices, fails: nat -> bool)
    requires Sound(e.pg) && d.name == r.spec.name
    ensures var operator, existing := Seen(e.pg, e.pg.operator).value, Seen(e.pg, d.name);
            var end, out := WorkEnd(e, s, r, gate, operator, existing, d, c, fails),
                            Converge(e, s, r, operator, existing, d, c, fails);
            && end.Worked? && end.gate == gate && end.done <= 4 && (out.ok <==> end.done == 4)
            && (r.spec.name in out.env.pg.roles <==> r.spec.name in e.pg.roles || end.done > 0)
            && P.StatusWritten(RoleKind, r.copy, HistoryOf(e.resources, r.name), end.done, end.status,
                               HistoryOf(out.env.resources, r.name))
  {
    hide OnCreation, OnMembership, OnSecret, OnResource, P.StatusWritten;
    CreationPresents(e, d, fails);
    var h := HistoryOf(e.resources, r.name);
    NotYetWritten(r.copy, h, 0);
    NotYetWritten(r.copy, h, 1);
    NotYetWritten(r.copy, h, 2);
    var made := Creation(e, d, fails);
    if made.ok {
      StagesKeep(made.env, s, r, d, c, fails);
      var joined := OnMembership(made.env, d.name, r.spec.memberOf, c.groups, fails);
      StagesKeep(joined.env, s, r, d, c, fails);
      MarkWrites(OnSecret(joined.env, s, r.name.namespace, r.spec, d, fails).env, s, r, fails);
    }
  }

  lemma GateSteps(e: Env, s: Setup, r: Resource, fails: nat -> bool)
    requires !r.copy.deleting
    ensures var gate := if r.copy.finalizer then [] else s.edits(e.calls);
            var held, h := OnGate(e, s, r, fails), HistoryOf(e.resources, r.name);
            && held.env.pg == e.pg && Held(e, s, r).spec == r.spec && Held(e, s, r).name == r.name
            && Held(e, s, r).copy == P.GatedCopy(r.copy, h, gate)
            && (if held.ok then
                  && HistoryOf(held.env.resources, r.name) == P.GatedHistory(r.copy, h, gate)
                  && (!r.copy.finalizer ==> IsLatest(EditedAll(h, gate), r.copy.version))
                else !r.copy.finalizer && HistoryOf(held.env.resources, r.name) == EditedAll(h, gate))
  {
    hide EditedAll, IsLatest, Append;
  }

  lemma RolePlan()
    ensures |FinalizerProtocol.Plan(RoleKind)| == 4
  {
  }

  lemma CreationSteps(e: Env, s: Setup, r: Resource, d: Role, c: Choices, fails: nat -> bool)
    requires Sound(e.pg) && d.name == r.spec.name && !r.copy.deleting
    ensures var operator, existing := Seen(e.pg, e.pg.operator).value, Seen(e.pg, d.name);
            var end := ActEnd(e, s, r, operator, existing, d, c, fails);
            var out := Act(e, s, r, operator, existing, d, c, fails);
            Steps(e, out.env, r, end) && (out.ok <==> P.Completed(RoleKind, end))
  {
    hide OnGate, Held, Converge, WorkEnd, P.Performs, P.Completed, P.StatusWritten, P.GatedCopy, P.GatedHistory;
    hide EditedAll, IsLatest;
    var gate := if r.copy.finalizer then [] else s.edits(e.calls);
    var h, present := HistoryOf(e.resources, r.name), r.spec.name in e.pg.roles;
    var held := OnGate(e, s, r, fails);
    GateSteps(e, s, r, fails);
    P.PerformsEarly(RoleKind, r.copy, h, present, gate);
    if held.ok {
      WorkSteps(held.env, s, Held(e, s, r), gate, d, c, fails);
      var operator, existing := Seen(e.pg, e.pg.operator).value, Seen(e.pg, d.name);
      var end := WorkEnd(held.env, s, Held(e, s, r), gate, operator, existing, d, c, fails);
      var out := Act(e, s, r, operator, existing, d, c, fails).env;
      RolePlan();
      P.PerformsWork(RoleKind, r.copy, h, present, gate, end.done, end.status, HistoryOf(out.resources, r.name));
    }
  }

  // ----- the deletion branch -----

  /** A deletion that fails has left a role that was to be dropped; one that succeeds leaves only a kept role. */
  lemma DeletionPresents(e: Env, s: Setup, spec: RoleSpec, databases: seq<string>, fails: nat -> bool)
    requires Sound(e.pg)
    ensures var out, present := OnDeletion(e, s.database, spec, databases, fails), spec.name in e.pg.roles;
            && out.env.resources == e.resources
            && (!out.ok ==> present && !spec.keepOnDelete)
            && (spec.name in out.env.pg.roles <==> present && (spec.keepOnDelete || !out.ok))
  {
    hide RoleDeletion.Sent, RoleDeletion.ReassignEach, OwnsSomething, RoleDeletion.HandedOver, RoleDeletion.Dropped;
    if spec.name in e.pg.roles && !spec.keepOnDelete {
      var start := RoleDeletion.Deletion(e.pg, e.pools, e.calls, e.writes, true);
      if spec.reassignOwnedTo == "" {
        DropSubmitted(start, s.database, spec.name, fails);
        DroppedRoles(e.pg, spec.name);
      } else {
        RoleDeletion.HandsOverThenDrops(start, s.database, spec.name, spec.reassignOwnedTo, databases, fails);
        var dbs := RoleDeletion.HandedOver(e.pg.databases, SetReconciliation.Elements(databases), spec.name,
                                           spec.reassignOwnedTo);
        DroppedRoles(e.pg.(databases := dbs), spec.name);
      }
    }
  }

  lemma ReleaseWrites(e: Env, s: Setup, r: Resource, fails: nat -> bool)
    ensures var out := OnResource(e, s, r.name, r.copy.(finalizer := false), true, fails);
            var h := EditedAll(HistoryOf(e.resources, r.name), s.edits(e.calls));
            && out.env.pg == e.pg && (out.ok ==> IsLatest(h, r.copy.version))
            && HistoryOf(out.env.resources, r.name) == if out.ok then Append(h, r.copy.(finalizer := false)) else h
  {
    hide EditedAll, IsLatest, Append;
  }

  lemma DeletionSteps(e: Env, s: Setup, r: Resource, d: Role, c: Choices, fails: nat -> bool)
    requires Sound(e.pg) && d.name == r.spec.name && r.copy.deleting && r.copy.keep == r.spec.keepOnDelete
    ensures var operator, existing := Seen(e.pg, e.pg.operator).value, Seen(e.pg, d.name);
            var end := ActEnd(e, s, r, operator, existing, d, c, fails);
            var out := Act(e, s, r, operator, existing, d, c, fails);
            Steps(e, out.env, r, end) && (out.ok <==> P.Completed(RoleKind, end))
  {
    hide OnDeletion, OnResource, EditedAll, IsLatest, Append;
    DeletionPresents(e, s, r.spec, c.databases, fails);
    ReleaseWrites(OnDeletion(e, s.database, r.spec, c.databases, fails).env, s, r, fails);
  }

  // ----- the pass -----

  lemma NothingSeen(e: Env, e': Env, r: Resource)
    requires e'.pg == e.pg && e'.resources == e.resources
    ensures Steps(e, e', r, P.Blind) && !P.Completed(RoleKind, P.Blind)
  {
  }

  /**
   Whatever fails and whatever users do to the resource meanwhile, a role pass performs a pass of the finalizer
   protocol: it stores the finalizer before it creates the role, and releases it only once the role is gone or kept.
   */
  lemma RolePassPerforms(e: Env, s: Setup, r: Resource, c: Choices, fails: nat -> bool)
    requires Sound(e.pg) && r.copy.keep == r.spec.keepOnDelete
    ensures var out, end := RolePass(e, s, r, c, fails), RoleEnd(e, s, r, c, fails);
            Steps(e, out.env, r, end) && (out.ok <==> P.Completed(RoleKind, end))
  {
    hide FetchPassword, Act, ActEnd, P.Performs, P.Completed;
    RoleIdempotence.FetchAsks(e, r.name.namespace, r.spec, c.generated, fails);
    var fetched := FetchPassword(e, r.name.namespace, r.spec, c.generated, fails);
    var e1 := fetched.env;
    NothingSeen(e, e1, r);
    NothingSeen(e, Asked(e1), r);
    NothingSeen(e, Asked(Asked(e1)), r);
    if fetched.password.Some? {
      var d := Desired(r.spec, fetched.password.value);
      if r.copy.deleting {
        DeletionSteps(Asked(Asked(e1)), s, r, d, c, fails);
      } else {
        CreationSteps(Asked(Asked(e1)), s, r, d, c, fails);
      }
    }
  }
}
