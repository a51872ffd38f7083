/** What a role pass leaves alone, and the order in which it changes things, whatever fails. */
module RoleFrames {
  import opened Wrappers
  import opened Statements
  import opened Outside
  import opened Resources
  import opened Memberships
  import opened RoleStatements
  import opened RolePasses
  import opened RoleRuns
  import opened RoleIdempotence
  import SetReconciliation
  import RoleDeletion
  import RoleProgress

  // ----- a pass of deletion -----

  ghost predicate SameMemory(e: Env, e': Env) { e'.secrets == e.secrets && e'.cache == e.cache }

  /** The server's state without a role: its row and its memberships are gone. */
  function WithoutRole(pg: Pg, name: string): Pg {
    pg.(roles := pg.roles - {name}, members := set m | m in pg.members && m.group != name && m.member != name)
  }

  lemma StepBefore(e: Env, s: Setup, r: Resource, c: Choices, fails: nat -> bool)
    ensures var e1 := FetchPassword(e, r.name.namespace, r.spec, c.generated, fails).env;
            var out := RolePass(e, s, r, c, fails);
            var e2 := Asked(Asked(e1));
            && OnlyAsked(e, e1)
            && (OnlyAsked(e, out.env) ||
                (e2.pg.operator in e2.pg.roles
                 && FetchPassword(e, r.name.namespace, r.spec, c.generated, fails).password.Some?
                 && out == Act(e2, s, r, Seen(e2.pg, e2.pg.operator).value, Seen(e2.pg, r.spec.name),
                               DesiredOf(e, r, c, fails), c, fails)))
  {
    hide FetchPassword, Act;
    FetchAsks(e, r.name.namespace, r.spec, c.generated, fails);
  }

  lemma DeletionKeeps(e: Env, at: string, spec: RoleSpec, databases: seq<string>, fails: nat -> bool)
    ensures var out := OnDeletion(e, at, spec, databases, fails).env;
            && SameMemory(e, out)
            && (spec.name !in e.pg.roles || spec.keepOnDelete ==> out == e)
            && (spec.reassignOwnedTo == "" ==> out.pools == e.pools)
  {
    hide RoleDeletion.ReassignEach, Submit;
  }

  lemma PlainDrop(e: Env, at: string, spec: RoleSpec, databases: seq<string>, fails: nat -> bool)
    requires Sound(e.pg) && spec.name in e.pg.roles && !spec.keepOnDelete && spec.reassignOwnedTo == ""
    ensures var out := OnDeletion(e, at, spec, databases, fails);
            out.env.pg == if out.ok then WithoutRole(e.pg, spec.name) else e.pg
  {
    hide Submit, RoleDeletion.ReassignEach, RoleDeletion.Sent, OwnsSomething;
    var d := RoleDeletion.Deletion(e.pg, e.pools, e.calls, e.writes, true);
    RoleDeletion.DropOutcome(d, at, spec.name, fails);
  }

  /**
   A role that is kept, that is not there, or whose resource has no finalizer is not touched by a pass of deletion, and
   neither is anything it owns; without reassignOwnedTo the role and its memberships are all that can go.
   */
  lemma KeptRoleStays(e: Env, s: Setup, r: Resource, c: Choices, fails: nat -> bool)
    requires Sound(e.pg) && r.copy.deleting
    ensures var out := RolePass(e, s, r, c, fails).env;
            && SameMemory(e, out)
            && (r.spec.keepOnDelete || !r.copy.finalizer || r.spec.name !in e.pg.roles ==>
                 out.pg == e.pg && out.pools == e.pools)
            && (r.spec.reassignOwnedTo == "" ==>
                 out.pools == e.pools && out.pg in {e.pg, WithoutRole(e.pg, r.spec.name)})
  {
    hide FetchPassword, RolePass, OnDeletion, OnResource, WithoutRole;
    StepBefore(e, s, r, c, fails);
    var e2 := Asked(Asked(FetchPassword(e, r.name.namespace, r.spec, c.generated, fails).env));
    DeletionKeeps(e2, s.database, r.spec, c.databases, fails);
    var gone := OnDeletion(e2, s.database, r.spec, c.databases, fails).env;
    ResourceKeeps(gone, s, r, fails);
    if r.spec.reassignOwnedTo == "" && !r.spec.keepOnDelete && r.spec.name in e.pg.roles {
      PlainDrop(e2, s.database, r.spec, c.databases, fails);
    }
  }

  lemma ResourceKeeps(e: Env, s: Setup, r: Resource, fails: nat -> bool)
    ensures forall o: Obj, needed ::
              var out := OnResource(e, s, r.name, o, needed, fails).env;
              out.pg == e.pg && out.pools == e.pools && SameMemory(e, out)
  {
    hide EditedAll, IsLatest, Append;
  }

  /**
   When a pass of deletion without faults succeeds: exactly when the password can be read and the role is gone, kept or
   droppable; or when there is no finalizer to release.
   */
  lemma DeletionPassSucceeds(e: Env, s: Setup, r: Resource, c: Choices, fails: nat -> bool)
    requires Sound(e.pg) && (forall n :: !fails(n)) && (forall n :: s.edits(n) == [])
    requires r.copy.deleting && IsLatest(HistoryOf(e.resources, r.name), r.copy.version) && Fits(e, s, r, c, fails)
    ensures RolePass(e, s, r, c, fails).ok <==>
              RoleProgress.HasPassword(e, r) &&
              (!r.copy.finalizer || r.spec.keepOnDelete || r.spec.name !in e.pg.roles ||
               RoleDeletion.Droppable(e.pg, e.pools, r.spec.name, r.spec.reassignOwnedTo))
  {
    hide FetchPassword, RoleDeletion.Deleted, RoleDeletion.Droppable, OnResource, Generated, RoleProgress.HasPassword;
    RoleProgress.FetchSucceeds(e, r, c.generated, fails);
    FetchAsks(e, r.name.namespace, r.spec, c.generated, fails);
    var e2 := Asked(Asked(FetchPassword(e, r.name.namespace, r.spec, c.generated, fails).env));
    if RoleProgress.HasPassword(e, r) && r.copy.finalizer {
      DeletionSucceeds(e2, s.database, r.spec, c.databases, fails);
      ReleaseSucceeds(OnDeletion(e2, s.database, r.spec, c.databases, fails).env, s, r, fails);
    }
  }

  lemma DeletionSucceeds(e: Env, at: string, spec: RoleSpec, databases: seq<string>, fails: nat -> bool)
    requires Sound(e.pg) && (forall n :: !fails(n)) && DatabasesFit(e, spec, databases, fails)
    ensures var out := OnDeletion(e, at, spec, databases, fails);
            && out.env.resources == e.resources
            && (out.ok <==> spec.name !in e.pg.roles || spec.keepOnDelete ||
                            RoleDeletion.Droppable(e.pg, e.pools, spec.name, spec.reassignOwnedTo))
  {
    hide RoleDeletion.Deleted, RoleDeletion.Droppable;
    var d := RoleDeletion.Deletion(e.pg, e.pools, e.calls, e.writes, true);
    RoleDeletion.DeletionSucceedsExactly(d, at, spec.name, spec.keepOnDelete, spec.reassignOwnedTo, databases, fails);
    if spec.name !in e.pg.roles { hide *; NothingToDelete(d, at, spec, databases, fails); }
  }

  lemma NothingToDelete(d: RoleDeletion.Deletion, at: string, spec: RoleSpec, databases: seq<string>,
                        fails: nat -> bool)
    ensures forall n :: RoleDeletion.Deleted(d, at, n, false, spec.keepOnDelete, spec.reassignOwnedTo, databases, fails)
                        == d
  {
  }

  lemma ReleaseSucceeds(e: Env, s: Setup, r: Resource, fails: nat -> bool)
    requires (forall n :: !fails(n)) && (forall n :: s.edits(n) == [])
    requires IsLatest(HistoryOf(e.resources, r.name), r.copy.version)
    ensures OnResource(e, s, r.name, r.copy.(finalizer := false), true, fails).ok
  {
  }

  // ----- a pass of creation -----

  /** Databases, what they hold, grants and pools are as before; of the memberships, only groups of the role differ. */
  ghost predicate OnlyThisRole(e: Env, e': Env, name: string) {
    && e'.pg.(roles := e.pg.roles, members := e.pg.members) == e.pg && e'.pools == e.pools
    && (forall n :: n != name ==> (n in e.pg.roles <==> n in e'.pg.roles))
    && (forall n :: n != name && n in e.pg.roles ==> e'.pg.roles[n] == e.pg.roles[n])
    && (forall m: Member :: m.member != name ==> (m in e.pg.members ==> m in e'.pg.members))
    && (forall m: Member :: m.member != name && m in e'.pg.members && m !in e.pg.members ==>
          m == Member(name, e.pg.operator) && name !in e.pg.roles)
  }

  /** The role is there with these attributes, and the cache and the server have the password. */
  ghost predicate Fashioned(e: Env, existed: bool, name: string, attributes: set<Attribute>, password: string) {
    && name in e.pg.roles && Cached(e.cache, name) == password
    && (password != "" ==> e.pg.roles[name].password == password)
    && e.pg.roles[name].attributes == if existed then attributes else attributes + {Inherit}
  }

  lemma CreationFrames(e: Env, d: Role, fails: nat -> bool)
    requires Sound(e.pg) && CacheAgrees(e)
    ensures var made := Creation(e, d, fails);
            && OnlyThisRole(e, made.env, d.name) && made.env.secrets == e.secrets
            && Groups(made.env.pg.members, d.name) == Groups(e.pg.members, d.name)
            && (made.ok ==> Fashioned(made.env, d.name in e.pg.roles, d.name, d.attributes, d.password))
  {
    hide OnCreation, Groups, Fashioned, OnlyThisRole;
    RowFrames(e, d, fails);
    CreationKeepsGroups(e, d, fails);
    if Creation(e, d, fails).ok { MadeIsFashioned(e, d, fails); }
  }

  lemma RowFrames(e: Env, d: Role, fails: nat -> bool)
    requires Sound(e.pg)
    ensures var made := Creation(e, d, fails).env; OnlyThisRole(e, made, d.name) && made.secrets == e.secrets
  {
    hide MayChange, AfterCreate, AfterAlter, Blank, Cached, OnlyThisRole;
    var operator := Seen(e.pg, e.pg.operator).value;
    NothingChanged(e, d.name);
    CreateFrames(e, operator, d);
    if d.name in e.pg.roles { AlterFrames(e, Seen(e.pg, d.name).value, d); }
  }

  lemma CreateFrames(e: Env, operator: Role, d: Role)
    requires operator.name == e.pg.operator
    ensures var after := AfterCreate(e.pg, operator, d);
            after.Some? ==>
              forall e2: Env :: e2.pg == after.value && e2.pools == e.pools ==> OnlyThisRole(e, e2, d.name)
  {
    hide Created;
  }

  lemma AlterFrames(e: Env, row: Role, d: Role)
    ensures var after := AfterAlter(e.pg, row, d);
            after.Some? ==>
              forall e2: Env :: e2.pg == after.value && e2.pools == e.pools ==> OnlyThisRole(e, e2, d.name)
  {
    hide Altered;
  }

  lemma MadeIsFashioned(e: Env, d: Role, fails: nat -> bool)
    requires Sound(e.pg) && CacheAgrees(e) && Creation(e, d, fails).ok
    ensures Fashioned(Creation(e, d, fails).env, d.name in e.pg.roles, d.name, d.attributes, d.password)
  {
    hide OnCreation;
    CreationOutcome(e, d, fails);
  }

  lemma MembershipFrames(e: Env, role: string, desired: seq<string>, listing: seq<string>, fails: nat -> bool)
    ensures var out := OnMembership(e, role, desired, listing, fails).env;
            OnlyThisRole(e, out, role) && out.secrets == e.secrets && out.cache == e.cache && out.pg.roles == e.pg.roles
  {
    hide SetReconciliation.Execute, SetReconciliation.DropFirst, MembershipRules, Groups;
  }

  lemma SecretFrames(e: Env, s: Setup, namespace: string, spec: RoleSpec, d: Role, fails: nat -> bool)
    ensures var out := OnSecret(e, s, namespace, spec, d, fails).env;
            out.pg == e.pg && out.cache == e.cache && out.pools == e.pools
  {
    hide DesiredData, Repaired;
  }

  lemma FramesThrough(a: Env, b: Env, c: Env, name: string)
    requires OnlyThisRole(a, b, name) && OnlyThisRole(b, c, name)
    requires b.pg.roles == c.pg.roles && (name in b.pg.roles || b.pg.members == c.pg.members)
    ensures OnlyThisRole(a, c, name)
  {
  }

  /** The order of the stages, in terms of what they change. */
  ghost predicate InOrder(e: Env, e': Env, spec: RoleSpec, password: string, groups: seq<string>) {
    var had, now, existed := Groups(e.pg.members, spec.name), Groups(e'.pg.members, spec.name), spec.name in e.pg.roles;
    && (now != had ==> Fashioned(e', existed, spec.name, spec.attributes, password))
    && (e'.secrets != e.secrets ==>
         Fashioned(e', existed, spec.name, spec.attributes, password) && now == Regrouped(had, groups, spec.memberOf))
  }

  lemma ConvergeInOrder(e: Env, s: Setup, r: Resource, d: Role, c: Choices, fails: nat -> bool)
    requires Sound(e.pg) && CacheAgrees(e) && d == Role(r.spec.name, r.spec.attributes, d.password)
    ensures var out := Converge(e, s, r, Seen(e.pg, e.pg.operator).value, Seen(e.pg, d.name), d, c, fails).env;
            OnlyThisRole(e, out, d.name) && InOrder(e, out, r.spec, d.password, c.groups)
  {
    hide OnCreation, OnMembership, OnSecret, OnResource, OnlyThisRole, Groups, Fashioned;
    CreationFrames(e, d, fails);
    var made := Creation(e, d, fails);
    if made.ok {
      MembershipFrames(made.env, d.name, r.spec.memberOf, c.groups, fails);
      var joined := OnMembership(made.env, d.name, r.spec.memberOf, c.groups, fails);
      StillFashioned(made.env, joined.env, d.name in e.pg.roles, d);
      FramesThrough(e, made.env, joined.env, d.name);
      if joined.ok {
        JoinOutcome(made.env, s, d.name, r.spec.memberOf, c.groups, fails);
        SecretFrames(joined.env, s, r.name.namespace, r.spec, d, fails);
        var kept := OnSecret(joined.env, s, r.name.namespace, r.spec, d, fails).env;
        StillFashioned(joined.env, kept, d.name in e.pg.roles, d);
        ResourceKeeps(kept, s, r, fails);
        var done := OnResource(kept, s, r.name, r.copy.(succeeded := true), !r.copy.succeeded, fails).env;
        StillFashioned(kept, done, d.name in e.pg.roles, d);
        FramesSame(e, joined.env, kept, d.name);
        FramesSame(e, joined.env, done, d.name);
      }
    }
  }

  lemma StillFashioned(e: Env, e': Env, existed: bool, d: Role)
    requires Fashioned(e, existed, d.name, d.attributes, d.password)
    requires e'.pg.roles == e.pg.roles && e'.cache == e.cache
    ensures Fashioned(e', existed, d.name, d.attributes, d.password) && d.name in e.pg.roles
  {
  }

  lemma FramesSame(e: Env, a: Env, b: Env, name: string)
    requires OnlyThisRole(e, a, name) && b.pg == a.pg && b.pools == a.pools
    ensures OnlyThisRole(e, b, name)
  {
  }

  /**
   A pass of creation, whatever fails: no other role, no database, no ownership and no grant changes; groups change only
   once the role has its attributes and password; and the Secret only once the groups are done, so that it never
   shows a password the role does not have.
   */
  lemma CreationInOrder(e: Env, s: Setup, r: Resource, c: Choices, fails: nat -> bool)
    requires Sound(e.pg) && CacheAgrees(e) && !r.copy.deleting
    ensures var out := RolePass(e, s, r, c, fails).env;
            OnlyThisRole(e, out, r.spec.name) && InOrder(e, out, r.spec, DesiredOf(e, r, c, fails).password, c.groups)
  {
    hide FetchPassword, RolePass, Converge, OnlyThisRole, Groups, Fashioned, OnGate, Held;
    StepBefore(e, s, r, c, fails);
    var d := DesiredOf(e, r, c, fails);
    var e2 := Asked(Asked(FetchPassword(e, r.name.namespace, r.spec, c.generated, fails).env));
    NothingChanged(e, r.spec.name);
    GateFrames(e2, s, r, fails);
    var held := OnGate(e2, s, r, fails).env;
    ConvergeInOrder(held, s, Held(e2, s, r), d, c, fails);
    FramesFrom(e, held, Converge(held, s, Held(e2, s, r), Seen(held.pg, held.pg.operator).value, Seen(held.pg, d.name),
                                 d, c, fails).env, d.name);
  }

  lemma FramesFrom(e: Env, a: Env, b: Env, name: string)
    requires OnlyThisRole(a, b, name) && e.pg == a.pg && e.pools == a.pools
    ensures OnlyThisRole(e, b, name)
  {
  }

  lemma GateFrames(e: Env, s: Setup, r: Resource, fails: nat -> bool)
    ensures var out := OnGate(e, s, r, fails).env;
            out.pg == e.pg && out.pools == e.pools && out.cache == e.cache && out.secrets == e.secrets
    ensures Held(e, s, r).spec == r.spec
  {
    hide EditedAll, IsLatest, Append;
  }

  lemma NothingChanged(e: Env, name: string)
    ensures forall e2: Env :: e2.pg == e.pg && e2.pools == e.pools ==> OnlyThisRole(e, e2, name)
  {
  }
}
