/** When a whole role pass succeeds, how a missing role gets to its attributes, and what a deletion pass leaves. */
module RoleProgress {
  import opened Wrappers
  import opened Statements
  import opened Outside
  import opened Resources
  import opened SetReconciliation
  import opened Memberships
  import opened RoleStatements
  import opened RolePasses
  import opened RoleRuns
  import opened RoleIdempotence
  import RoleDeletion
  import SecretData

  // ----- success without faults -----

  /** The password can be read: the named Secret has the key, the generated Secret, if it exists, has PGPASSWORD. */
  predicate HasPassword(e: Env, r: Resource) {
    match r.spec.passwordFrom
    case Some((secret, key)) =>
      var name := SecretName(r.name.namespace, secret);
      name in e.secrets && key in e.secrets[name].data
    case None =>
      var name := SecretName(r.name.namespace, r.spec.secretName);
      r.spec.secretName == "" || name !in e.secrets || "PGPASSWORD" in e.secrets[name].data
  }

  /** The operator may bring the role, or a new one, to its attributes. */
  predicate Permitted(e: Env, spec: RoleSpec)
    requires e.pg.operator in e.pg.roles
  {
    var row := if spec.name in e.pg.roles then e.pg.roles[spec.name] else Blank("");
    spec.name != "" && MayChange(e.pg.roles[e.pg.operator], row, Desired(spec, ""))
  }

  /** Every group to be granted or revoked exists. */
  predicate GroupsKnown(e: Env, spec: RoleSpec, groups: seq<string>) {
    (Elements(groups) - Elements(spec.memberOf)) + (Elements(spec.memberOf) - Elements(groups))
      <= e.pg.roles.Keys + {spec.name} - {""}
  }

  lemma FetchSucceeds(e: Env, r: Resource, generated: string, fails: nat -> bool)
    requires Faultless(fails)
    ensures FetchPassword(e, r.name.namespace, r.spec, generated, fails).password.Some? <==> HasPassword(e, r)
  {
  }

  lemma CreationSucceeds(e: Env, spec: RoleSpec, p: string, fails: nat -> bool)
    requires Sound(e.pg) && Faultless(fails)
    ensures var made := Creation(e, Desired(spec, p), fails);
            && (made.ok <==> Permitted(e, spec))
            && (made.ok ==> made.env.pg.roles.Keys == e.pg.roles.Keys + {spec.name})
  {
    var d := Desired(spec, p);
    if spec.name in e.pg.roles && Settled(e, d) { assert Differs(e.pg.roles[spec.name], d) == {}; }
  }

  lemma JoinSucceeds(e: Env, s: Setup, role: string, desired: seq<string>, groups: seq<string>, fails: nat -> bool)
    requires Faultless(fails)
    ensures OnMembership(e, role, desired, groups, fails).ok <==>
              (Elements(groups) - Elements(desired)) + (Elements(desired) - Elements(groups)) <= e.pg.roles.Keys - {""}
  {
    hide Execute, Elements, Groups;
    MembershipConverges(s.keywords, e.pg, role, desired, groups, fails, e.calls + 1);
  }

  lemma SecretSucceeds(e: Env, s: Setup, namespace: string, spec: RoleSpec, d: Role, fails: nat -> bool)
    requires Faultless(fails)
    ensures var out := OnSecret(e, s, namespace, spec, d, fails); out.ok && out.env.resources == e.resources
  {
    hide DesiredData, Repaired;
  }

  /** Without edits meanwhile, a copy that is the latest version stays so through the gate. */
  lemma GateSucceeds(e: Env, s: Setup, r: Resource, fails: nat -> bool)
    requires Faultless(fails) && !r.copy.deleting && (forall n :: s.edits(n) == [])
    requires IsLatest(HistoryOf(e.resources, r.name), r.copy.version)
    ensures var out := OnGate(e, s, r, fails);
            && out.ok && out.env.pg == e.pg && out.env.secrets == e.secrets && out.env.cache == e.cache
            && IsLatest(HistoryOf(out.env.resources, r.name), Held(e, s, r).copy.version)
  {
  }

  lemma StatusSucceeds(e: Env, s: Setup, r: Resource, needed: bool, fails: nat -> bool)
    requires Faultless(fails) && (forall n :: s.edits(n) == [])
    requires IsLatest(HistoryOf(e.resources, r.name), r.copy.version)
    ensures OnResource(e, s, r.name, r.copy.(succeeded := true), needed, fails).ok
  {
  }

  lemma ResourcesKept(e: Env, s: Setup, operator: Role, existing: Option<Role>, d: Role, desired: seq<string>,
                      groups: seq<string>, fails: nat -> bool)
    ensures OnCreation(e, operator, existing, d, fails).env.resources == e.resources
    ensures OnMembership(e, d.name, desired, groups, fails).env.resources == e.resources
  {
    hide MayChange, AfterCreate, AfterAlter, Execute;
  }

  lemma ConvergeSucceeds(e: Env, s: Setup, r: Resource, p: string, c: Choices, fails: nat -> bool)
    requires Sound(e.pg) && Faultless(fails) && (forall n :: s.edits(n) == [])
    requires IsLatest(HistoryOf(e.resources, r.name), r.copy.version)
    ensures var d := Desired(r.spec, p);
            Converge(e, s, r, Seen(e.pg, e.pg.operator).value, Seen(e.pg, d.name), d, c, fails).ok <==>
              Permitted(e, r.spec) && GroupsKnown(e, r.spec, c.groups)
  {
    hide OnCreation, OnMembership, OnSecret, OnResource, Permitted, Elements, IsLatest;
    var d := Desired(r.spec, p);
    CreationSucceeds(e, r.spec, p, fails);
    var made := Creation(e, d, fails).env;
    JoinSucceeds(made, s, d.name, r.spec.memberOf, c.groups, fails);
    ResourcesKept(e, s, Seen(e.pg, e.pg.operator).value, Seen(e.pg, d.name), d, r.spec.memberOf, c.groups, fails);
    ResourcesKept(made, s, d, None, d, r.spec.memberOf, c.groups, fails);
    var joined := OnMembership(made, d.name, r.spec.memberOf, c.groups, fails).env;
    SecretSucceeds(joined, s, r.name.namespace, r.spec, d, fails);
    StatusSucceeds(OnSecret(joined, s, r.name.namespace, r.spec, d, fails).env, s, r, !r.copy.succeeded, fails);
  }

  /**
   A pass without faults over the latest version of a resource succeeds if and only if its password can be read, the
   operator may make the change of attributes, and every group to be granted or revoked exists.
   */
  lemma FaultlessPassSucceeds(e: Env, s: Setup, r: Resource, c: Choices, fails: nat -> bool)
    requires Sound(e.pg) && Faultless(fails) && !r.copy.deleting && (forall n :: s.edits(n) == [])
    requires IsLatest(HistoryOf(e.resources, r.name), r.copy.version)
    ensures RolePass(e, s, r, c, fails).ok <==>
              HasPassword(e, r) && Permitted(e, r.spec) && GroupsKnown(e, r.spec, c.groups)
  {
    hide FetchPassword, Converge, OnGate, Held, Permitted, GroupsKnown, IsLatest, HasPassword;
    FetchSucceeds(e, r, c.generated, fails);
    FetchAsks(e, r.name.namespace, r.spec, c.generated, fails);
    var fetched := FetchPassword(e, r.name.namespace, r.spec, c.generated, fails);
    if fetched.password.Some? {
      var e2 := Asked(Asked(fetched.env));
      GateSucceeds(e2, s, r, fails);
      var held := OnGate(e2, s, r, fails).env;
      HeldSpec(e2, s, r);
      ConvergeSucceeds(held, s, Held(e2, s, r), fetched.password.value, c, fails);
      SameConditions(e, held, r.spec, c.groups);
    }
  }

  lemma HeldSpec(e: Env, s: Setup, r: Resource)
    ensures Held(e, s, r).spec == r.spec && Held(e, s, r).name == r.name
  {
  }

  lemma SameConditions(e: Env, e': Env, spec: RoleSpec, groups: seq<string>)
    requires e'.pg == e.pg && e.pg.operator in e.pg.roles
    ensures Permitted(e, spec) == Permitted(e', spec) && GroupsKnown(e, spec, groups) == GroupsKnown(e', spec, groups)
  {
    hide MayChange, Elements;
  }

  // ----- a missing role without INHERIT -----

  /** A successful creating or altering stage was permitted. */
  lemma SuccessIsPermitted(e: Env, s: Setup, r: Resource, c: Choices, fails: nat -> bool)
    requires Sound(e.pg) && !r.copy.deleting && RolePass(e, s, r, c, fails).ok
    ensures Permitted(e, r.spec)
  {
    hide FetchPassword, OnMembership, OnSecret, OnResource, OnCreation, Held, OnGate;
    FetchAsks(e, r.name.namespace, r.spec, c.generated, fails);
    var e2 := Asked(Asked(FetchPassword(e, r.name.namespace, r.spec, c.generated, fails).env));
    GateLeaves(e2, s, r, fails);
    HeldSpec(e2, s, r);
    CreatedIsPermitted(OnGate(e2, s, r, fails).env, DesiredOf(e, r, c, fails), fails);
    DesiredIs(e, r, c, fails);
  }

  lemma CreatedIsPermitted(e: Env, d: Role, fails: nat -> bool)
    requires Sound(e.pg) && Creation(e, d, fails).ok
    ensures d.name != ""
    ensures MayChange(e.pg.roles[e.pg.operator], if d.name in e.pg.roles then e.pg.roles[d.name] else Blank(""), d)
  {
    if d.name in e.pg.roles && Settled(e, d) { assert Differs(e.pg.roles[d.name], d) == {}; }
  }

  /**
   A missing role is created with INHERIT whatever is declared. So after the first successful pass it has the declared
   attributes exactly when they include INHERIT; otherwise a later pass over it can succeed only if the operator holds
   INHERIT, and then it leaves the declared attributes.
   */
  lemma MissingRoleConverges(e: Env, s: Setup, r: Resource, c: Choices, fails: nat -> bool,
                             r2: Resource, c2: Choices, fails2: nat -> bool)
    requires Sound(e.pg) && CacheAgrees(e) && !r.copy.deleting && FitKeys(e, r.spec, r.name.namespace)
    requires r.spec.name !in e.pg.roles && r2.name == r.name && r2.spec == r.spec && !r2.copy.deleting
    ensures var out := RolePass(e, s, r, c, fails).env;
            var again := RolePass(out, s, r2, c2, fails2);
            RolePass(e, s, r, c, fails).ok ==>
              && r.spec.name in out.pg.roles
              && (out.pg.roles[r.spec.name].attributes == r.spec.attributes <==> Inherit in r.spec.attributes)
              && (again.ok ==>
                   && (Inherit !in r.spec.attributes ==> Inherit in e.pg.roles[e.pg.operator].attributes)
                   && r.spec.name in again.env.pg.roles
                   && again.env.pg.roles[r.spec.name].attributes == r.spec.attributes)
  {
    hide RolePass, FitKeys, Moves, MayChange, DesiredData;
    var out := RolePass(e, s, r, c, fails).env;
    if RolePass(e, s, r, c, fails).ok {
      EventKeepsCache(e, s, Pass(r, c, fails));
      StaysSound(e, s, Pass(r, c, fails));
      PassAgrees(e, s, r, c, fails);
      DesiredIs(e, r, c, fails);
      PassMoves(e, s, r, c, fails);
      assert r.spec.attributes + {Inherit} == r.spec.attributes <==> Inherit in r.spec.attributes;
      KeysStayFit(e, s, r, c, fails);
      if RolePass(out, s, r2, c2, fails2).ok {
        PassAgrees(out, s, r2, c2, fails2);
        DesiredIs(out, r2, c2, fails2);
        SuccessIsPermitted(out, s, r2, c2, fails2);
        if Inherit !in r.spec.attributes {
          MissingMoves(e, out, DesiredOf(e, r, c, fails));
          InheritIsHeld(out, r.spec);
        }
      }
    }
  }

  lemma KeysStayFit(e: Env, s: Setup, r: Resource, c: Choices, fails: nat -> bool)
    requires Sound(e.pg) && CacheAgrees(e) && !r.copy.deleting && FitKeys(e, r.spec, r.name.namespace)
    ensures RolePass(e, s, r, c, fails).ok ==> FitKeys(RolePass(e, s, r, c, fails).env, r.spec, r.name.namespace)
  {
    hide RolePass, DesiredData, SecretData.SecretKeys, Repaired;
    PassAgrees(e, s, r, c, fails);
    PassSecrets(e, s, r, c, fails);
    DesiredKeysFit(s, r.spec, DesiredOf(e, r, c, fails));
  }

  /**
   And a pass without faults over the latest version that can read its password and knows its groups succeeds after
   that first pass if and only if INHERIT is declared or the operator holds it.
   */
  lemma MissingRoleFinishes(e: Env, s: Setup, r: Resource, c: Choices, fails: nat -> bool,
                            r2: Resource, c2: Choices, fails2: nat -> bool)
    requires Sound(e.pg) && CacheAgrees(e) && !r.copy.deleting && FitKeys(e, r.spec, r.name.namespace)
    requires r.spec.name !in e.pg.roles && r2.name == r.name && r2.spec == r.spec && !r2.copy.deleting
    requires Faultless(fails2) && (forall n :: s.edits(n) == [])
    ensures var out := RolePass(e, s, r, c, fails).env;
            RolePass(e, s, r, c, fails).ok && IsLatest(HistoryOf(out.resources, r.name), r2.copy.version)
            && HasPassword(out, r2) && GroupsKnown(out, r.spec, c2.groups) ==>
              (RolePass(out, s, r2, c2, fails2).ok <==>
               Inherit in r.spec.attributes || Inherit in e.pg.roles[e.pg.operator].attributes)
  {
    hide RolePass, FitKeys, Moves, DesiredData, GroupsKnown, HasPassword, Permitted, IsLatest;
    var out := RolePass(e, s, r, c, fails).env;
    StaysSound(e, s, Pass(r, c, fails));
    if RolePass(e, s, r, c, fails).ok && IsLatest(HistoryOf(out.resources, r.name), r2.copy.version) {
      PassAgrees(e, s, r, c, fails);
      DesiredIs(e, r, c, fails);
      PassMoves(e, s, r, c, fails);
      MissingMoves(e, out, DesiredOf(e, r, c, fails));
      FaultlessPassSucceeds(out, s, r2, c2, fails2);
      InheritDecides(out, r.spec);
      SuccessIsPermitted(e, s, r, c, fails);
      PermittedNames(e, r.spec);
    }
  }

  lemma PermittedNames(e: Env, spec: RoleSpec)
    requires e.pg.operator in e.pg.roles && Permitted(e, spec)
    ensures spec.name != ""
  {
  }

  lemma InheritDecides(e: Env, spec: RoleSpec)
    requires e.pg.operator in e.pg.roles && spec.name in e.pg.roles && spec.name != ""
    requires e.pg.roles[spec.name].attributes == spec.attributes + {Inherit}
    ensures Permitted(e, spec) <==> Inherit in spec.attributes || Inherit in e.pg.roles[e.pg.operator].attributes
  {
    var row, d := e.pg.roles[spec.name], Desired(spec, "");
    assert Differs(row, d) == if Inherit in spec.attributes then {} else {Inherit};
  }

  lemma MissingMoves(e: Env, e': Env, d: Role)
    requires Sound(e.pg) && Moves(e, e', d) && d.name !in e.pg.roles
    ensures e.pg.operator == e'.pg.operator && e'.pg.operator in e'.pg.roles
    ensures e'.pg.roles[e'.pg.operator] == e.pg.roles[e.pg.operator]
  {
    hide MayChange, Created, Altered;
  }

  lemma InheritIsHeld(e: Env, spec: RoleSpec)
    requires e.pg.operator in e.pg.roles && Permitted(e, spec) && spec.name in e.pg.roles
    requires Inherit in e.pg.roles[spec.name].attributes && Inherit !in spec.attributes
    ensures Inherit in e.pg.roles[e.pg.operator].attributes
  {
    assert Inherit in Differs(e.pg.roles[spec.name], Desired(spec, ""));
  }

  // ----- deletion -----

  /**
   A deletion pass that succeeds with reassignOwnedTo set, over the listing the code makes: no object is lost, what the
   role owned belongs to the new owner, and everything else to its old one.
   */
  lemma DeletionPassConserves(e: Env, s: Setup, r: Resource, c: Choices, fails: nat -> bool)
    requires Sound(e.pg) && r.copy.deleting && r.copy.finalizer && Fits(e, s, r, c, fails)
    requires r.spec.name in e.pg.roles && !r.spec.keepOnDelete && r.spec.reassignOwnedTo != ""
    ensures var out := RolePass(e, s, r, c, fails);
            out.ok ==>
              && r.spec.name !in out.env.pg.roles && !OwnsSomething(out.env.pg, r.spec.name)
              && RoleDeletion.SameThings(e.pg.databases, out.env.pg.databases)
              && RoleDeletion.AllReowned(e.pg, out.env.pg, r.spec.name, r.spec.reassignOwnedTo)
  {
    hide FetchPassword, OnResource, OwnsSomething, RoleDeletion.Deleted, Generated;
    if RolePass(e, s, r, c, fails).ok {
      FetchAsks(e, r.name.namespace, r.spec, c.generated, fails);
      var e2 := Asked(Asked(FetchPassword(e, r.name.namespace, r.spec, c.generated, fails).env));
      var start := RoleDeletion.Deletion(e2.pg, e2.pools, e2.calls, e2.writes, true);
      ListingSucceeds(start, s.database, r.spec.name, r.spec.reassignOwnedTo, c.databases, fails);
      RoleDeletion.DeletionConserves(start, s.database, r.spec.name, r.spec.reassignOwnedTo, c.databases, fails);
      ReleaseLeaves(OnDeletion(e2, s.database, r.spec, c.databases, fails).env, s, r, fails);
    }
  }

  lemma ListingSucceeds(d: RoleDeletion.Deletion, at: string, role: string, to: string, databases: seq<string>,
                        fails: nat -> bool)
    requires d.ok && to != ""
    ensures RoleDeletion.Deleted(d, at, role, true, false, to, databases, fails).ok ==> !fails(d.calls)
  {
    hide RoleDeletion.ReassignEach, RoleDeletion.Sent;
  }

  lemma ReleaseLeaves(e: Env, s: Setup, r: Resource, fails: nat -> bool)
    ensures OnResource(e, s, r.name, r.copy.(finalizer := false), true, fails).env.pg == e.pg
  {
  }
}
