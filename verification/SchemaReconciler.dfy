/**
 The schema reconciler: its connection pool, creation and owner, the status, and only then privileges.
 Everything goes over a connection to the schema's own database.
 */
module SchemaReconciler {
  import opened Wrappers
  import opened Statements
  import opened Outside
  import opened Pools
  import opened SetReconciliation
  import opened Privileges
  import opened PrivilegePasses
  import opened Ownership
  import opened Resources
  import opened FinalizerProtocol
  import opened PassRuns
  import opened CustomResources

  datatype SchemaSpec = SchemaSpec(
    database: string, name: string, owner: string, privileges: Declared, keepOnDelete: bool)
  {
    function Target(): Securable { SchemaIn(database, name) }
  }

  type PostgresSchema = CustomResource<SchemaSpec>

  /** The name is a schema resource's, the copy agrees with the specification, and only known flags are set. */
  ghost predicate IsSchemaResource(resource: PostgresSchema)
    reads resource
  {
    resource.name.kind == SchemaKind && resource.copy.keep == resource.spec.keepOnDelete && WellFormed(resource.spec)
  }

  ghost predicate WellFormed(spec: SchemaSpec) {
    forall r, p :: r in spec.privileges && p in spec.privileges[r] ==> Applies(p, spec.Target())
  }

  /** The schema exists with the declared owner, if any. */
  predicate Standing(pg: Pg, spec: SchemaSpec) {
    OwnerOf(pg, spec.Target()).Some? && spec.owner in {"", OwnerOf(pg, spec.Target()).value}
  }

  ghost predicate Quiet(pg: Pg, spec: SchemaSpec) {
    Standing(pg, spec) && Exact(pg, spec.Target(), spec.privileges)
  }

  /** What makes a faultless pass succeed. */
  ghost predicate Ready(pg: Pg, bindings: Bindings, spec: SchemaSpec) {
    && spec.name != "" && spec.database in pg.databases && (spec.owner != "" ==> spec.owner in pg.roles)
    && (forall r :: r in spec.privileges ==> r != "" && r in pg.roles)
    && (spec.database in bindings ==> bindings[spec.database] != None)
  }

  /** Nothing differs but this schema's entry and the listed roles' own grants on it. */
  ghost predicate Framed(a: Pg, b: Pg, spec: SchemaSpec) {
    && a.operator == b.operator && a.pristine == b.pristine
    && SameElse(a, b, spec.Target(), spec.privileges.Keys)
    && a.databases.Keys == b.databases.Keys
    && forall d :: d in a.databases ==>
         && a.databases[d].(owners := map[]) == b.databases[d].(owners := map[])
         && forall t :: d != spec.database || t != SchemaNamed(spec.name) ==>
              (t in a.databases[d].owners <==> t in b.databases[d].owners)
              && (t in a.databases[d].owners ==> a.databases[d].owners[t] == b.databases[d].owners[t])
  }

  lemma StaysFramed(pg: Pg, spec: SchemaSpec)
    ensures Framed(pg, pg, spec)
  {
  }

  lemma CreationFrames(pg: Pg, mid: Pg, spec: SchemaSpec, owner: string)
    requires Framed(pg, mid, spec)
    ensures Framed(pg, Put(mid, spec.Target(), owner), spec) && Put(mid, spec.Target(), owner).grants == mid.grants
  {
  }

  lemma GrantFrames(pg: Pg, mid: Pg, after: Pg, spec: SchemaSpec)
    requires Framed(pg, mid, spec) && OnlyGrants(mid, after, spec.Target(), spec.privileges.Keys)
    ensures Framed(pg, after, spec) && (Standing(mid, spec) ==> Standing(after, spec))
  {
    assert mid.databases == after.databases && mid.roles == after.roles && mid.members == after.members;
    assert mid.operator == after.operator && mid.pristine == after.pristine && mid.public == after.public;
  }

  lemma OwnedStands(pg: Pg, spec: SchemaSpec)
    requires spec.database in pg.databases
    ensures Standing(Owned(pg, spec.Target(), spec.owner), spec)
  {
  }

  lemma ReadyGrants(before: Pg, bindings: Bindings, mid: Pg, spec: SchemaSpec)
    requires Ready(before, bindings, spec) && Framed(before, mid, spec) && Standing(mid, spec)
    ensures Grantable(mid, spec.Target(), spec.privileges)
  {
  }

  lemma GrantsKeepDatabases(a: Pg, b: Pg, spec: SchemaSpec)
    requires OnlyGrants(a, b, spec.Target(), spec.privileges.Keys)
    ensures a.databases == b.databases
  {
  }

  /**
   The creation branch over a resource read as `o` and left as `o'`, whatever failed: everything else is untouched. A
   pass that succeeds has brought the server to the declared state, and it sends nothing exactly when the server was
   there already and the resource carried finalizer and mark. The mark alone vouches for creation and ownership,
   and comes before anyone is given a privilege.
   */
  ghost predicate Creates(spec: SchemaSpec, o: Obj, o': Obj, before: Pg, after: Pg, order: seq<string>, err: bool,
                          sent: int)
  {
    && Framed(before, after, spec) && Listed(order, spec.privileges) && Distinct(order)
    && sent >= 0
    && (o.succeeded ==> o'.succeeded) && (!err ==> o'.succeeded && o'.finalizer)
    && ((o'.succeeded && !o.succeeded) || after.grants != before.grants ==> Standing(after, spec) && o'.succeeded)
    && (!err ==>
          && Elements(order) == spec.privileges.Keys
          && after == OnePass(Owned(before, spec.Target(), spec.owner), spec.Target(), order, spec.privileges)
          && (sent == 0 <==> Quiet(before, spec) && o.succeeded && o.finalizer))
    && (Quiet(before, spec) && o.succeeded && o.finalizer ==> after == before && sent == 0)
  }

  lemma CreatesNothing(spec: SchemaSpec, o: Obj, o': Obj, pg: Pg, sent: int)
    requires o'.succeeded == o.succeeded && sent >= 0 && (o.finalizer ==> sent == 0)
    ensures Creates(spec, o, o', pg, pg, [], true, sent)
  {
    hide OnePass, Quiet, Standing;
    StaysFramed(pg, spec);
  }

  /** Storing the finalizer first is one more write, needed exactly when it is missing. */
  lemma CreatesWithGate(spec: SchemaSpec, o: Obj, held: Obj, o': Obj, before: Pg, after: Pg, order: seq<string>,
                        err: bool, sent: int)
    requires held.finalizer && held.succeeded == o.succeeded
    requires Creates(spec, held, o', before, after, order, err, sent)
    ensures Creates(spec, o, o', before, after, order, err, sent + if o.finalizer then 0 else 1)
  {
    hide OnePass, Quiet, Framed, Standing, Owned;
  }

  lemma PlanLength()
    ensures |Plan(SchemaKind)| == 4
  {
  }

  // ----- the reconciler -----

  class Reconciler {
    const world: World
    const pools: PgPools

    constructor (world: World, pools: PgPools)
      ensures this.world == world && this.pools == pools
    {
      this.world, this.pools := world, pools;
    }

    /** Opens the pool of the schema's database if needed, and looks the schema up over it. */
    method Find(spec: SchemaSpec) returns (err: bool, existing: Option<string>)
      requires BoundToKeys(pools.Bindings())
      modifies pools`databases, world`calls
      ensures BoundToKeys(pools.Bindings())
      ensures !err ==> spec.database in world.pg.databases && existing == OwnerOf(world.pg, spec.Target())
      ensures Faultless(world.fails) && Ready(world.pg, old(pools.Bindings()), spec) ==> !err
    {
      existing := None;
      err := pools.EnsureExists(world, spec.database);
      if err { return; }
      var pool := pools.databases[spec.database];
      assert pool != null <==> pools.Bindings()[spec.database] != None;
      if pool == null { return true, None; }   // the entry a failed open left
      assert pools.Bindings()[spec.database] == Some(pool.config.database);
      err, existing := GetOwner(world, spec.Target());
      if spec.database !in world.pg.databases { err := true; }
    }

    /** Creation and ownership; what the status vouches for. */
    method Build(spec: SchemaSpec, existing: Option<string>) returns (err: bool, ghost done: nat)
      requires spec.database in world.pg.databases && existing == OwnerOf(world.pg, spec.Target())
      modifies world`pg, world`calls, world`writes, world`sent
      ensures Framed(old(world.pg), world.pg, spec) && world.writes >= old(world.writes)
      ensures world.pg.grants == old(world.pg).grants
      ensures OwnerOf(world.pg, spec.Target()).Some? <==> existing.Some? || done > 0
      ensures done <= 2 && (err <==> done < 2)
      ensures !err ==> world.pg == Owned(old(world.pg), spec.Target(), spec.owner) && Standing(world.pg, spec)
      ensures world.writes == old(world.writes) <==> Standing(old(world.pg), spec)
      ensures Standing(old(world.pg), spec) ==> !err && world.pg == old(world.pg)
      ensures (Faultless(world.fails) && spec.name != ""
               && (spec.owner != "" ==> spec.owner in old(world.pg).roles)) ==> !err
    {
      hide Put, Framed;
      ghost var before := world.pg;
      StaysFramed(before, spec);
      CreationFrames(before, before, spec, spec.owner);
      CreationFrames(before, before, spec, before.operator);
      OwnedStands(before, spec);
      err := ReconcileOnCreation(world, spec.database, spec.Target(), existing, spec.owner);
      done := if !err then 2 else if OwnerOf(world.pg, spec.Target()).Some? then 1 else 0;
    }

    /** Creation and ownership, and the status that vouches for them. */
    method BuildAndMark(resource: PostgresSchema, existing: Option<string>)
        returns (err: bool, ghost done: nat, ghost status: seq<Edit>)
      requires resource.spec.database in world.pg.databases && existing == OwnerOf(world.pg, resource.spec.Target())
      modifies resource`copy, world`pg, world`calls, world`writes, world`sent, world`resources, world`puts
      ensures Framed(old(world.pg), world.pg, resource.spec) && old(world.puts) <= world.puts
      ensures world.pg.grants == old(world.pg).grants
      ensures (!err || resource.copy.succeeded != old(resource.copy).succeeded) ==>
                Standing(world.pg, resource.spec)
                && world.pg == Owned(old(world.pg), resource.spec.Target(), resource.spec.owner)
      ensures old(resource.copy).succeeded || !err ==> resource.copy.succeeded
      ensures resource.copy.finalizer == old(resource.copy).finalizer && world.writes >= old(world.writes)
      ensures world.writes == old(world.writes) ==> Standing(old(world.pg), resource.spec)
      ensures !err && world.writes == old(world.writes) ==> old(resource.copy).succeeded
      ensures Standing(old(world.pg), resource.spec) ==> world.pg == old(world.pg)
      ensures Standing(old(world.pg), resource.spec) && old(resource.copy).succeeded ==>
                !err && world.writes == old(world.writes)
      ensures (Faultless(world.fails) && Unedited(world) && resource.spec.name != ""
               && (resource.spec.owner != "" ==> resource.spec.owner in old(world.pg).roles)
               && IsLatest(old(Versions(world, resource)), old(resource.copy).version)) ==> !err
      ensures done <= 3 && (err <==> done < 3)
      ensures OwnerOf(world.pg, resource.spec.Target()).Some? <==> existing.Some? || done > 0
      ensures StatusWritten(SchemaKind, old(resource.copy), old(Versions(world, resource)), done, status,
                            Versions(world, resource))
      ensures !err ==> StatusWritten(SchemaKind, old(resource.copy), old(Versions(world, resource)), 4, status,
                                     Versions(world, resource))
    {
      hide Framed, Owned, EditedAll, IsLatest, Append, Standing, StatusWritten;
      ghost var o, h := resource.copy, Versions(world, resource);
      NoEdits(h);
      StatusStages(SchemaKind, o, h, 0, [], h);
      StatusStages(SchemaKind, o, h, 1, [], h);
      status := [];
      err, done := Build(resource.spec, existing);
      if err { return; }
      err, status := MarkSucceeded(world, resource);
      done := if err then 2 else 3;
      StatusStages(SchemaKind, o, h, done, status, Versions(world, resource));
      if !err { StatusStages(SchemaKind, o, h, 4, status, Versions(world, resource)); }
    }

    /** The creation branch, once the finalizer is in place; `done` counts the completed stages. */
    method Converge(resource: PostgresSchema, existing: Option<string>, ghost bindings: Bindings)
        returns (err: bool, ghost order: seq<string>, ghost done: nat, ghost status: seq<Edit>)
      requires WellFormed(resource.spec) && resource.copy.finalizer
      requires resource.spec.database in world.pg.databases && existing == OwnerOf(world.pg, resource.spec.Target())
      modifies resource`copy, world`pg, world`calls, world`writes, world`sent, world`resources, world`puts
      ensures Creates(resource.spec, old(resource.copy), resource.copy, old(world.pg), world.pg, order, err,
                      world.writes - old(world.writes))
      ensures (Faultless(world.fails) && Unedited(world) && Ready(old(world.pg), bindings, resource.spec)
               && IsLatest(old(Versions(world, resource)), old(resource.copy).version)) ==> !err
      ensures old(world.puts) <= world.puts
      ensures done <= 4 && (err <==> done < 4)
      ensures OwnerOf(world.pg, resource.spec.Target()).Some? <==> existing.Some? || done > 0
      ensures StatusWritten(SchemaKind, old(resource.copy), old(Versions(world, resource)), done, status,
                            Versions(world, resource))
    {
      hide OnePass, Exact, Framed, Grantable, Owned, Ready, OnlyGrants, IsLatest, Standing, StatusWritten, Elements;
      var spec := resource.spec;
      ghost var before := world.pg;
      order := [];
      if Ready(before, bindings, spec) { ReadyNames(before, bindings, spec); }
      err, done, status := BuildAndMark(resource, existing);
      if err { return; }
      ghost var built := world.pg;
      if Ready(before, bindings, spec) { ReadyGrants(before, bindings, built, spec); }
      err, order := ReconcileAllPrivileges(world, spec.database, spec.Target(), spec.privileges);
      GrantFrames(before, built, world.pg, spec);
      GrantsKeepDatabases(built, world.pg, spec);
      done := if err then 3 else 4;
    }

    lemma ReadyNames(pg: Pg, bindings: Bindings, spec: SchemaSpec)
      requires Ready(pg, bindings, spec)
      ensures spec.name != "" && (spec.owner != "" ==> spec.owner in pg.roles)
    {
    }

    /** The creation branch: the finalizer is stored before anything is created. */
    method CreateAndConverge(resource: PostgresSchema, existing: Option<string>, ghost bindings: Bindings)
        returns (err: bool, ghost order: seq<string>, ghost end: PassEnd)
      requires WellFormed(resource.spec) && !resource.copy.deleting
      requires resource.spec.database in world.pg.databases && existing == OwnerOf(world.pg, resource.spec.Target())
      modifies resource`copy, world`pg, world`calls, world`writes, world`sent, world`resources, world`puts
      ensures Performs(SchemaKind, old(resource.copy), old(Versions(world, resource)), existing.Some?, end,
                       Versions(world, resource), OwnerOf(world.pg, resource.spec.Target()).Some?)
      ensures !err <==> Completed(SchemaKind, end)
      ensures !old(resource.copy).finalizer ==>
                StoredFirst(old(world.puts), world.puts, resource.name, old(world.pg), world.pg)
      ensures Creates(resource.spec, old(resource.copy), resource.copy, old(world.pg), world.pg, order, err,
                      world.writes - old(world.writes))
      ensures (Faultless(world.fails) && Unedited(world) && Ready(old(world.pg), bindings, resource.spec)
               && IsLatest(old(Versions(world, resource)), old(resource.copy).version)) ==> !err
    {
      hide Creates, Ready, EditedAll, Append, IsLatest, Performs, Completed, GatedCopy, GatedHistory;
      hide StatusWritten, Plan;
      ghost var o, h, sent, pg := resource.copy, Versions(world, resource), world.writes, world.pg;
      NoEdits(h);
      order := [];
      ghost var gate;
      err, gate := AddFinalizer(world, resource);
      end := Refused(gate);
      if err {
        PerformsEarly(SchemaKind, o, h, existing.Some?, gate);
        CreatesNothing(resource.spec, o, resource.copy, pg, world.writes - sent);
        return;
      }
      ghost var held := resource.copy;
      if gate == [] && IsLatest(h, o.version) { FinalizerIsLatest(o, h); }
      ghost var done, status;
      err, order, done, status := Converge(resource, existing, bindings);
      PlanLength();
      PerformsWork(SchemaKind, o, h, existing.Some?, gate, done, status, Versions(world, resource));
      GateHolds(o, h, gate);
      CreatesWithGate(resource.spec, o, held, resource.copy, pg, world.pg, order, err,
                      world.writes - sent - if o.finalizer then 0 else 1);
      end := Worked(gate, done, status);
    }

    /** The deletion branch. */
    method Delete(resource: PostgresSchema, existing: Option<string>) returns (err: bool, ghost end: PassEnd)
      requires resource.spec.database in world.pg.databases && existing == OwnerOf(world.pg, resource.spec.Target())
      requires resource.copy.deleting && resource.copy.keep == resource.spec.keepOnDelete
      modifies resource`copy, world`pg, world`calls, world`writes, world`sent, world`resources, world`puts,
               world`connected
      ensures Performs(SchemaKind, old(resource.copy), old(Versions(world, resource)), existing.Some?, end,
                       Versions(world, resource), OwnerOf(world.pg, resource.spec.Target()).Some?)
      ensures ReleasedLast(old(world.puts), world.puts, resource.name, world.pg)
      ensures var o := resource.copy;
              o == old(resource.copy).(finalizer := o.finalizer, version := o.version)
      ensures world.pg == old(world.pg) ||
                (old(resource.copy).finalizer && !resource.spec.keepOnDelete
                 && world.pg == Gone(old(world.pg), resource.spec.Target()))
      ensures !err <==> Completed(SchemaKind, end)
      ensures world.connected == old(world.connected)
      ensures (Faultless(world.fails) && Unedited(world) && resource.spec.name != ""
               && IsLatest(old(Versions(world, resource)), old(resource.copy).version)) ==> !err
    {
      hide Gone, EditedAll, Append, IsLatest;
      NoEdits(Versions(world, resource));
      err, end := false, Absent;
      if !resource.copy.finalizer { return; }
      var spec := resource.spec;
      err := ReconcileOnDeletion(world, spec.database, spec.Target(), existing, spec.keepOnDelete, true);
      if err { return err, Undropped; }
      ghost var release;
      err, release := ReleaseFinalizer(world, resource);
      end := Dropped(release, !err);
    }

    /** One pass, after the resource was read and found to belong to this operator instance. */
    method Reconcile(resource: PostgresSchema) returns (err: bool, ghost order: seq<string>, ghost end: PassEnd)
      requires BoundToKeys(pools.Bindings()) && IsSchemaResource(resource)
      modifies resource, pools`databases, world`pg, world`calls, world`writes, world`sent, world`resources, world`puts,
               world`connected
      ensures BoundToKeys(pools.Bindings())
      // the finalizer protocol
      ensures Performs(SchemaKind, old(resource.copy), old(Versions(world, resource)),
                       OwnerOf(old(world.pg), resource.spec.Target()).Some?, end,
                       Versions(world, resource), OwnerOf(world.pg, resource.spec.Target()).Some?)
      ensures !err <==> Completed(SchemaKind, end)
      ensures !old(resource.copy).deleting && !old(resource.copy).finalizer ==>
                StoredFirst(old(world.puts), world.puts, resource.name, old(world.pg), world.pg)
      ensures old(resource.copy).deleting ==>
                ReleasedLast(old(world.puts), world.puts, resource.name, world.pg)
      // creation
      ensures !old(resource.copy).deleting ==>
                Creates(resource.spec, old(resource.copy), resource.copy, old(world.pg), world.pg, order, err,
                        world.writes - old(world.writes))
      ensures (Faultless(world.fails) && Unedited(world)
               && IsLatest(old(Versions(world, resource)), old(resource.copy).version)
               && Ready(old(world.pg), old(pools.Bindings()), resource.spec)) ==> !err
      // deletion
      ensures world.connected == old(world.connected)
      ensures old(resource.copy).deleting ==>
                world.pg == old(world.pg) ||
                (old(resource.copy).finalizer && !resource.spec.keepOnDelete
                 && world.pg == Gone(old(world.pg), resource.spec.Target()))
    {
      hide Creates, Ready, Performs, Completed, Gone, EditedAll, IsLatest;
      order, end := [], Blind;
      ghost var o, h, pg, bindings := resource.copy, Versions(world, resource), world.pg, pools.Bindings();
      PerformsEarly(SchemaKind, o, h, OwnerOf(pg, resource.spec.Target()).Some?, []);
      CreatesNothing(resource.spec, o, o, pg, 0);
      if Ready(pg, bindings, resource.spec) { ReadyNames(pg, bindings, resource.spec); }
      var existing;
      err, existing := Find(resource.spec);
      if err { return; }
      if resource.copy.deleting {
        err, end := Delete(resource, existing);
      } else {
        err, order, end := CreateAndConverge(resource, existing, bindings);
      }
    }
  }

  // ----- convergence and idempotence -----

  lemma BuiltFrames(pg: Pg, mid: Pg, spec: SchemaSpec)
    requires Framed(pg, mid, spec)
    ensures var built := Owned(mid, spec.Target(), spec.owner);
            Framed(pg, built, spec) && built.grants == mid.grants
  {
    hide Framed, Put;
    CreationFrames(pg, mid, spec, spec.owner);
    CreationFrames(pg, mid, spec, mid.operator);
  }

  /**
   From the state any interrupted pass leaves behind (or from the start), a successful pass ends with the declared
   owner and every listed role holding exactly what it declares and what it inherited at the start, when no listed role
   inherits from another.
   */
  lemma RetryConverges(pg: Pg, mid: Pg, spec: SchemaSpec, order: seq<string>)
    requires WellFormed(spec) && Framed(pg, mid, spec) && NoCross(pg, spec.privileges.Keys)
    requires spec.database in mid.databases && WellTyped(mid, spec.Target()) && Elements(order) == spec.privileges.Keys
    ensures Listed(order, spec.privileges) &&
            var after := OnePass(Owned(mid, spec.Target(), spec.owner), spec.Target(), order, spec.privileges);
            Standing(after, spec) &&
            forall r :: r in spec.privileges ==>
              Effective(after, spec.Target(), r) == spec.privileges[r] + Inherited(pg, spec.Target(), r)
  {
    hide Effective, Inherited, Inherits, Owned, NoCross, SameElse;
    var built := Owned(mid, spec.Target(), spec.owner);
    BuiltFrames(pg, mid, spec);
    OwnedStands(mid, spec);
    RightsConverge(pg, built, spec.Target(), spec.privileges, order);
    assert OnePass(built, spec.Target(), order, spec.privileges).databases == built.databases;
  }

  /**
   Idempotence, exactly: when no listed role inherits from another, the pass after a successful one sends nothing if
   and only if what the listed roles inherit lies within what they declare.
   */
  lemma SecondPassIsQuiet(pg: Pg, spec: SchemaSpec, order: seq<string>)
    requires WellFormed(spec) && NoCross(pg, spec.privileges.Keys)
    requires spec.database in pg.databases && WellTyped(pg, spec.Target()) && Elements(order) == spec.privileges.Keys
    ensures Listed(order, spec.privileges) &&
            (Quiet(OnePass(Owned(pg, spec.Target(), spec.owner), spec.Target(), order, spec.privileges), spec) <==>
             forall r :: r in spec.privileges ==> Inherited(pg, spec.Target(), r) <= spec.privileges[r])
  {
    hide Effective, Inherited, Owned, Standing, Framed, NoCross;
    StaysFramed(pg, spec);
    RetryConverges(pg, pg, spec, order);
  }

  /** On a state that stands, building is nothing. */
  lemma StandingIsBuilt(pg: Pg, spec: SchemaSpec)
    requires Standing(pg, spec)
    ensures Owned(pg, spec.Target(), spec.owner) == pg
  {
    hide Put;
    PutOwns(pg, spec.database, spec.Target(), spec.owner);
  }

  /**
   For any inheritance between roles, any PUBLIC grants and any iteration orders: after two successful passes, from any
   state, everything stands, every listed role holds all it declares with own grants within its declaration, and a
   third pass changes nothing.
   */
  lemma TwoPassesConverge(pg: Pg, spec: SchemaSpec, first: seq<string>, second: seq<string>, third: seq<string>)
    requires spec.database in pg.databases && WellFormed(spec) && WellTyped(pg, spec.Target())
    requires Elements(first) == Elements(second) == Elements(third) == spec.privileges.Keys
    ensures var o, declared := spec.Target(), spec.privileges;
            && Listed(first, declared) && Listed(second, declared) && Listed(third, declared)
            && var one := OnePass(Owned(pg, spec.Target(), spec.owner), o, first, declared);
               var two := OnePass(Owned(one, spec.Target(), spec.owner), o, second, declared);
               && Standing(two, spec)
               && Bounded(two, o, declared, declared.Keys) && AllHeld(two, o, declared, declared.Keys)
               && OnePass(Owned(two, spec.Target(), spec.owner), o, third, declared) == two
  {
    hide Effective, Direct, OnePass, Owned, Standing, AllHeld;
    var o, declared, built := spec.Target(), spec.privileges, Owned(pg, spec.Target(), spec.owner);
    forall r | r in first || r in second || r in third ensures r in declared {
      assert r in Elements(first) || r in Elements(second) || r in Elements(third);
    }
    BuiltIsTyped(pg, spec);
    TwoPassesReachFixpoint(built, o, declared, first, second, third);
    PassBounds(built, o, first, declared, {});
    var one := OnePass(built, o, first, declared);
    StandingStays(built, one, spec);
    StandingIsBuilt(one, spec);
    PassBounds(one, o, second, declared, {});
    var two := OnePass(one, o, second, declared);
    StandingStays(one, two, spec);
    StandingIsBuilt(two, spec);
  }

  lemma BuiltIsTyped(pg: Pg, spec: SchemaSpec)
    requires spec.database in pg.databases && WellTyped(pg, spec.Target())
    ensures var built := Owned(pg, spec.Target(), spec.owner); WellTyped(built, spec.Target()) && Standing(built, spec)
  {
    hide Framed, Put;
    StaysFramed(pg, spec);
    BuiltFrames(pg, pg, spec);
    OwnedStands(pg, spec);
  }

  lemma StandingStays(a: Pg, b: Pg, spec: SchemaSpec)
    requires Standing(a, spec) && SameButGrants(a, b)
    ensures Standing(b, spec)
  {
    assert a.databases == b.databases;
  }
}
