/** The database reconciler: creation and owner, extensions, privileges, then the status. */
module DatabaseReconciler {
  import opened Wrappers
  import opened Statements
  import opened Outside
  import opened Pools
  import opened SetReconciliation
  import opened Extensions
  import opened Privileges
  import opened PrivilegePasses
  import opened Ownership
  import opened Resources
  import opened FinalizerProtocol
  import opened PassRuns
  import opened CustomResources

  datatype DatabaseSpec = DatabaseSpec(
    name: string, owner: string, extensions: seq<string>, privileges: Declared,
    keepOnDelete: bool, preserveConnections: bool)
  {
    function Target(): Securable { DatabaseItself(name) }
  }

  type PostgresDatabase = CustomResource<DatabaseSpec>

  /** The name is a database resource's, the copy agrees with the specification, and only known flags are set. */
  ghost predicate IsDatabaseResource(resource: PostgresDatabase)
    reads resource
  {
    resource.name.kind == DatabaseKind && resource.copy.keep == resource.spec.keepOnDelete && WellFormed(resource.spec)
  }

  // ----- what a pass is for -----

  ghost predicate WellFormed(spec: DatabaseSpec) {
    forall r, p :: r in spec.privileges && p in spec.privileges[r] ==> Applies(p, spec.Target())
  }

  function Installed(pg: Pg, database: string): set<string> {
    if database in pg.databases then pg.databases[database].extensions else {}
  }

  /** After creation, ownership and extensions. */
  function Built(pg: Pg, spec: DatabaseSpec): Pg {
    var made := Owned(pg, spec.Target(), spec.owner);
    if spec.name in made.databases then WithExtensions(made, spec.name, Elements(spec.extensions)) else made
  }

  /** Everything the specification asks for is so, and nothing needs to be sent. */
  ghost predicate Quiet(pg: Pg, spec: DatabaseSpec) {
    Standing(pg, spec) && Exact(pg, spec.Target(), spec.privileges)
  }

  /** The database exists with the declared owner, if any, and the declared extensions. */
  ghost predicate Standing(pg: Pg, spec: DatabaseSpec) {
    && OwnerOf(pg, spec.Target()).Some? && spec.owner in {"", OwnerOf(pg, spec.Target()).value}
    && Installed(pg, spec.name) == Elements(spec.extensions)
  }

  /** What comes before anyone is given a privilege: the declared owner, if any, and every declared extension. */
  ghost predicate Prepared(pg: Pg, spec: DatabaseSpec) {
    && OwnerOf(pg, spec.Target()).Some? && spec.owner in {"", OwnerOf(pg, spec.Target()).value}
    && Elements(spec.extensions) <= Installed(pg, spec.name)
  }

  /** Extensions change only once the owner is right, grants and mark only once the database is prepared. */
  ghost predicate InOrder(spec: DatabaseSpec, before: Pg, after: Pg, marked: bool) {
    && (spec.name in before.databases && Installed(after, spec.name) != Installed(before, spec.name) ==>
          Some(spec.owner) in {Some(""), OwnerOf(after, spec.Target())})
    && (after.grants != before.grants || marked ==> Prepared(after, spec))
  }

  /** What makes a faultless pass succeed: names the server knows, and no missing extension listed twice. */
  ghost predicate Ready(pg: Pg, bindings: Bindings, spec: DatabaseSpec) {
    && spec.name != "" && (spec.owner != "" ==> spec.owner in pg.roles)
    && (forall r :: r in spec.privileges ==> r != "" && r in pg.roles)
    && Installable(Installed(Owned(pg, spec.Target(), spec.owner), spec.name), bindings, spec)
  }

  /** The pool, if there is one, is usable, and no missing extension is listed twice. */
  ghost predicate Installable(present: set<string>, bindings: Bindings, spec: DatabaseSpec) {
    && (spec.name in bindings ==> bindings[spec.name] != None)
    && "" !in present && "" !in spec.extensions && Stuck(spec.extensions, present) == {}
  }

  ghost predicate Uncut(world: World) { forall n :: !world.cuts(n) }

  /** Other databases are untouched, and so are all grants but those of listed roles on this database. */
  ghost predicate Framed(a: Pg, b: Pg, spec: DatabaseSpec) {
    && a.operator == b.operator && a.pristine == b.pristine && a.public == b.public
    && a.roles == b.roles && a.members == b.members
    && (forall d :: d != spec.name ==> (d in a.databases <==> d in b.databases))
    && (forall d :: d != spec.name && d in a.databases ==> a.databases[d] == b.databases[d])
    && (forall g: Grant :: g.on != spec.Target() || g.role !in spec.privileges ==> (g in a.grants <==> g in b.grants))
  }

  /** The database is still there with every desired extension it had. */
  ghost predicate Preserved(a: Pg, b: Pg, spec: DatabaseSpec) {
    spec.name in a.databases ==>
      && spec.name in b.databases
      && Installed(a, spec.name) * Elements(spec.extensions) <= Installed(b, spec.name)
      && Installed(b, spec.name) <= Installed(a, spec.name) + Elements(spec.extensions)
      && b.databases[spec.name].owners == a.databases[spec.name].owners
      && b.databases[spec.name].owner in
           {a.databases[spec.name].owner} + (if spec.owner != "" then {spec.owner} else {})
  }

  /**
   The creation branch over a resource read as `o` and left as `o'`, whatever failed: other objects are untouched,
   what the database had is preserved, and the stages come in their order. With complete listings a pass that succeeds,
   or that marks the resource, has brought the server to the declared state, and it sends nothing exactly when the
   server was there already and the resource carried finalizer and mark.
   */
  ghost predicate Creates(spec: DatabaseSpec, o: Obj, o': Obj, before: Pg, after: Pg, order: seq<string>, uncut: bool,
                          err: bool, sent: int)
  {
    && Framed(before, after, spec) && Preserved(before, after, spec)
    && InOrder(spec, before, after, o'.succeeded && !o.succeeded)
    && Listed(order, spec.privileges) && Distinct(order) && sent >= 0
    && (o.succeeded ==> o'.succeeded) && (!err ==> o'.succeeded && o'.finalizer)
    && (uncut && (!err || (o'.succeeded && !o.succeeded)) ==>
          && Elements(order) == spec.privileges.Keys
          && after == OnePass(Built(before, spec), spec.Target(), order, spec.privileges))
    && (uncut && !err ==> (sent == 0 <==> Quiet(before, spec) && o.succeeded && o.finalizer))
    && (uncut && Quiet(before, spec) && o.succeeded && o.finalizer ==> after == before && sent == 0)
  }

  lemma CreatesNothing(spec: DatabaseSpec, o: Obj, o': Obj, pg: Pg, uncut: bool, sent: int)
    requires o'.succeeded == o.succeeded && sent >= 0 && (o.finalizer ==> sent == 0)
    ensures Creates(spec, o, o', pg, pg, [], uncut, true, sent)
  {
    hide OnePass, Quiet;
    StaysFramed(pg, spec);
  }

  /** Storing the finalizer first is one more write, needed exactly when it is missing. */
  lemma CreatesWithGate(spec: DatabaseSpec, o: Obj, held: Obj, o': Obj, before: Pg, after: Pg, order: seq<string>,
                        uncut: bool, err: bool, sent: int)
    requires held.finalizer && held.succeeded == o.succeeded
    requires Creates(spec, held, o', before, after, order, uncut, err, sent)
    ensures Creates(spec, o, o', before, after, order, uncut, err, sent + if o.finalizer then 0 else 1)
  {
    hide OnePass, Quiet, Framed, Preserved, Built;
  }

  // ----- extensions within a pass -----

  lemma ExtensionStep(listing: seq<string>, desired: seq<string>, installed: set<string>, fails: nat -> bool, n: nat)
    requires Distinct(listing) && Elements(listing) == installed
    ensures var r := Execute(ExtensionRules(), DropFirst(listing, desired), installed, fails, n);
            && r.calls >= n && (r.calls == n <==> installed == Elements(desired))
            && (r.calls == n ==> r.ok && r.state == installed)
            && (r.ok ==> r.state == Elements(desired))
            && (Faultless(fails) && "" !in installed && "" !in desired && Stuck(desired, installed) == {} ==> r.ok)
  {
    hide Execute, ExtensionRules, Stuck, DropFirst;
    PlanCalls(ExtensionRules(), DropFirst(listing, desired), installed, fails, n);
    NothingToSend(listing, desired);
    PassIsSafe(ExtensionRules(), listing, desired, installed, fails, n);
    if Faultless(fails) && "" !in installed && "" !in desired { PassOutcome(installed, listing, desired, fails, n); }
  }

  lemma Installs(pg: Pg, database: string)
    requires database in pg.databases
    ensures forall s :: Installed(WithExtensions(pg, database, s), database) == s
  {
  }

  /** ReconcileExtensions in the terms of a pass. */
  method InstallExtensions(world: World, pools: PgPools, spec: DatabaseSpec) returns (err: bool)
    requires BoundToKeys(pools.Bindings()) && spec.name in world.pg.databases
    modifies pools`databases, world`pg, world`calls, world`writes, world`sent
    ensures BoundToKeys(pools.Bindings())
    ensures world.writes >= old(world.writes)
    ensures exists after ::
              world.pg == WithExtensions(old(world.pg), spec.name, after) &&
              var had, want := Installed(old(world.pg), spec.name), Elements(spec.extensions);
              had * want <= after <= had + want
    ensures !err ==> Elements(spec.extensions) <= Installed(world.pg, spec.name)
    ensures Uncut(world) && !err ==> world.pg == WithExtensions(old(world.pg), spec.name, Elements(spec.extensions))
    ensures Uncut(world) && (!err || Installed(old(world.pg), spec.name) == Elements(spec.extensions)) ==>
              (world.writes == old(world.writes) <==> Installed(old(world.pg), spec.name) == Elements(spec.extensions))
    ensures Uncut(world) && Installed(old(world.pg), spec.name) == Elements(spec.extensions) ==>
              world.pg == old(world.pg)
    ensures (Uncut(world) && Faultless(world.fails)
             && Installable(Installed(old(world.pg), spec.name), old(pools.Bindings()), spec)) ==> !err
  {
    hide Execute, ExtensionRules, DropFirst, WithExtensions, Stuck, Ensured;
    ghost var before, sent := world.pg, world.writes;
    ghost var installed := before.databases[spec.name].extensions;
    Unchanged(before, spec.name);
    Installs(before, spec.name);
    ghost var listed, listing, start;
    err, listed, listing, start := ReconcileExtensions(world, pools, spec.name, spec.extensions);
    if listed {
      PassIsSafe(ExtensionRules(), listing, spec.extensions, installed, world.fails, start);
      ExecuteAdvances(ExtensionRules(), DropFirst(listing, spec.extensions), installed, world.fails, start);
      if Elements(listing) == installed { ExtensionStep(listing, spec.extensions, installed, world.fails, start); }
    }
  }

  // ----- the reconciler -----

  class Reconciler {
    const world: World
    const pools: PgPools

    constructor (world: World, pools: PgPools)
      ensures this.world == world && this.pools == pools
    {
      this.world, this.pools := world, pools;
    }

    /** Creation, ownership and extensions; `done` counts those that were completed. */
    method Build(spec: DatabaseSpec, existing: Option<string>) returns (err: bool, ghost done: nat)
      requires BoundToKeys(pools.Bindings()) && existing == OwnerOf(world.pg, spec.Target())
      modifies pools`databases, world`pg, world`calls, world`writes, world`sent
      ensures BoundToKeys(pools.Bindings()) && world.writes >= old(world.writes)
      ensures Framed(old(world.pg), world.pg, spec) && Preserved(old(world.pg), world.pg, spec)
      ensures world.pg.grants == old(world.pg).grants && InOrder(spec, old(world.pg), world.pg, !err)
      ensures (spec.name in world.pg.databases <==> existing.Some? || done > 0) && done <= 3 && (err <==> done < 3)
      ensures Uncut(world) && !err ==> world.pg == Built(old(world.pg), spec)
      ensures Uncut(world) && !err ==> (world.writes == old(world.writes) <==> Standing(old(world.pg), spec))
      ensures Uncut(world) && Standing(old(world.pg), spec) ==>
                world.pg == old(world.pg) && world.writes == old(world.writes)
      ensures Uncut(world) && Faultless(world.fails) && Ready(old(world.pg), old(pools.Bindings()), spec) ==> !err
    {
      hide Put, Framed, Preserved, WithExtensions, Installable, Owned;
      ghost var before := world.pg;
      StaysFramed(before, spec);
      CreationFrames(before, spec);
      err := ReconcileOnCreation(world, pools.default.config.database, spec.Target(), existing, spec.owner);
      done := if !err then 2 else if spec.name in world.pg.databases then 1 else 0;
      if err { return; }
      ghost var made := world.pg;
      ExtensionFrames(before, made, spec);
      err := InstallExtensions(world, pools, spec);
      done := if err then 2 else 3;
    }

    /** All stages before the status; `done` counts those that were completed. */
    method Prepare(spec: DatabaseSpec, existing: Option<string>)
        returns (err: bool, ghost order: seq<string>, ghost done: nat)
      requires BoundToKeys(pools.Bindings()) && WellFormed(spec)
      requires existing == OwnerOf(world.pg, spec.Target())
      modifies pools`databases, world`pg, world`calls, world`writes, world`sent
      ensures BoundToKeys(pools.Bindings())
      ensures Listed(order, spec.privileges) && Distinct(order) && world.writes >= old(world.writes)
      ensures Framed(old(world.pg), world.pg, spec) && Preserved(old(world.pg), world.pg, spec)
      ensures InOrder(spec, old(world.pg), world.pg, !err)
      ensures (spec.name in world.pg.databases <==> existing.Some? || done > 0) && done <= 4 && (err <==> done < 4)
      ensures Uncut(world) && !err ==>
                && Elements(order) == spec.privileges.Keys
                && world.pg == OnePass(Built(old(world.pg), spec), spec.Target(), order, spec.privileges)
      ensures Uncut(world) && !err ==> (world.writes == old(world.writes) <==> Quiet(old(world.pg), spec))
      ensures Uncut(world) && Quiet(old(world.pg), spec) ==>
                world.pg == old(world.pg) && world.writes == old(world.writes)
      ensures Uncut(world) && Faultless(world.fails) && Ready(old(world.pg), old(pools.Bindings()), spec) ==> !err
    {
      hide OnePass, Exact, Framed, Preserved, Grantable, Built, Standing, Ready, OnlyGrants;
      ghost var before, bindings := world.pg, pools.Bindings();
      order := [];
      err, done := Build(spec, existing);
      if err { return; }
      ghost var built := world.pg;
      if Ready(before, bindings, spec) { ReadyGrants(before, built, bindings, spec); }
      err, order := ReconcileAllPrivileges(world, pools.default.config.database, spec.Target(), spec.privileges);
      GrantFrames(before, built, world.pg, spec);
      GrantsKeepDatabases(built, world.pg, spec);
      done := if err then 3 else 4;
    }

    /** The creation branch, once the finalizer is in place; `done` counts the completed stages. */
    method Converge(resource: PostgresDatabase, existing: Option<string>)
        returns (err: bool, ghost order: seq<string>, ghost done: nat, ghost status: seq<Edit>)
      requires BoundToKeys(pools.Bindings()) && WellFormed(resource.spec) && resource.copy.finalizer
      requires existing == OwnerOf(world.pg, resource.spec.Target())
      modifies resource`copy, pools`databases, world`pg, world`calls, world`writes, world`sent, world`resources,
               world`puts
      ensures BoundToKeys(pools.Bindings())
      ensures Creates(resource.spec, old(resource.copy), resource.copy, old(world.pg), world.pg, order, Uncut(world),
                      err, world.writes - old(world.writes))
      ensures (Uncut(world) && Faultless(world.fails) && Unedited(world)
               && IsLatest(old(Versions(world, resource)), old(resource.copy).version)
               && Ready(old(world.pg), old(pools.Bindings()), resource.spec)) ==> !err
      ensures old(world.puts) <= world.puts
      ensures done <= 5 && (err <==> done < 5)
      ensures resource.spec.name in world.pg.databases <==> existing.Some? || done > 0
      ensures StatusWritten(DatabaseKind, old(resource.copy), old(Versions(world, resource)), done, status,
                            Versions(world, resource))
    {
      hide OnePass, Framed, Preserved, Built, Quiet, Ready, EditedAll, Append, IsLatest, Elements;
      status := [];
      NoEdits(Versions(world, resource));
      err, order, done := Prepare(resource.spec, existing);
      if err { return; }
      err, status := MarkSucceeded(world, resource);
      done := if err then 4 else 5;
    }

    /** The creation branch: the finalizer is stored before anything is created. */
    method CreateAndConverge(resource: PostgresDatabase, existing: Option<string>)
        returns (err: bool, ghost order: seq<string>, ghost end: PassEnd)
      requires BoundToKeys(pools.Bindings()) && WellFormed(resource.spec) && !resource.copy.deleting
      requires existing == OwnerOf(world.pg, resource.spec.Target())
      modifies resource`copy, pools`databases, world`pg, world`calls, world`writes, world`sent, world`resources,
               world`puts
      ensures BoundToKeys(pools.Bindings())
      ensures Performs(DatabaseKind, old(resource.copy), old(Versions(world, resource)), existing.Some?, end,
                       Versions(world, resource), OwnerOf(world.pg, resource.spec.Target()).Some?)
      ensures !err <==> Completed(DatabaseKind, end)
      ensures !old(resource.copy).finalizer ==>
                StoredFirst(old(world.puts), world.puts, resource.name, old(world.pg), world.pg)
      ensures Creates(resource.spec, old(resource.copy), resource.copy, old(world.pg), world.pg, order, Uncut(world),
                      err, world.writes - old(world.writes))
      ensures (Uncut(world) && Faultless(world.fails) && Unedited(world)
               && IsLatest(old(Versions(world, resource)), old(resource.copy).version)
               && Ready(old(world.pg), old(pools.Bindings()), resource.spec)) ==> !err
    {
      hide Creates, Ready, EditedAll, Append, IsLatest, Performs, Completed, GatedCopy, GatedHistory;
      hide StatusWritten, Plan;
      ghost var o, h, sent, pg := resource.copy, Versions(world, resource), world.writes, world.pg;
      NoEdits(h);
      order := [];
      ghost var gate;
      err, gate := AddFinalizer(world, resource);
      end := Refused(gate);
      if err {
        PerformsEarly(DatabaseKind, o, h, existing.Some?, gate);
        CreatesNothing(resource.spec, o, resource.copy, pg, Uncut(world), world.writes - sent);
        return;
      }
      ghost var held := resource.copy;
      if gate == [] && IsLatest(h, o.version) { FinalizerIsLatest(o, h); }
      ghost var done, status;
      err, order, done, status := Converge(resource, existing);
      PlanLength();
      PerformsWork(DatabaseKind, o, h, existing.Some?, gate, done, status, Versions(world, resource));
      GateHolds(o, h, gate);
      CreatesWithGate(resource.spec, o, held, resource.copy, pg, world.pg, order, Uncut(world), err,
                      world.writes - sent - if o.finalizer then 0 else 1);
      end := Worked(gate, done, status);
    }

    /** The deletion branch. */
    method Delete(resource: PostgresDatabase, existing: Option<string>) returns (err: bool, ghost end: PassEnd)
      requires existing == OwnerOf(world.pg, resource.spec.Target())
      requires resource.copy.deleting && resource.copy.keep == resource.spec.keepOnDelete
      modifies resource`copy, world`pg, world`calls, world`writes, world`sent, world`resources, world`puts,
               world`connected
      ensures Performs(DatabaseKind, old(resource.copy), old(Versions(world, resource)), existing.Some?, end,
                       Versions(world, resource), OwnerOf(world.pg, resource.spec.Target()).Some?)
      ensures ReleasedLast(old(world.puts), world.puts, resource.name, world.pg)
      ensures var o := resource.copy;
              o == old(resource.copy).(finalizer := o.finalizer, version := o.version)
      ensures world.pg == old(world.pg) ||
                (old(resource.copy).finalizer && !resource.spec.keepOnDelete
                 && world.pg == Gone(old(world.pg), resource.spec.Target()))
      ensures !err <==> Completed(DatabaseKind, end)
      ensures (!old(resource.copy).finalizer || resource.spec.keepOnDelete || resource.spec.preserveConnections
               || existing.None?) ==> world.connected == old(world.connected)
      ensures world.connected in {old(world.connected), old(world.connected) - {resource.spec.name}}
      ensures (Faultless(world.fails) && Unedited(world) && resource.spec.name != ""
               && IsLatest(old(Versions(world, resource)), old(resource.copy).version)) ==>
                (err <==> old(resource.copy).finalizer && existing.Some? && !resource.spec.keepOnDelete
                          && resource.spec.preserveConnections && resource.spec.name in old(world.connected))
    {
      hide Gone, EditedAll, Append, IsLatest;
      NoEdits(Versions(world, resource));
      err, end := false, Absent;
      if !resource.copy.finalizer { return; }
      var spec := resource.spec;
      err := ReconcileOnDeletion(world, pools.default.config.database, spec.Target(), existing, spec.keepOnDelete,
                                 spec.preserveConnections);
      if err { return err, Undropped; }
      ghost var release;
      err, release := ReleaseFinalizer(world, resource);
      end := Dropped(release, !err);
    }

    /** One pass, after the resource was read and found to belong to this operator instance. */
    method Reconcile(resource: PostgresDatabase) returns (err: bool, ghost order: seq<string>, ghost end: PassEnd)
      requires BoundToKeys(pools.Bindings()) && IsDatabaseResource(resource)
      modifies resource, pools`databases, world`pg, world`calls, world`writes, world`sent, world`resources, world`puts,
               world`connected
      ensures BoundToKeys(pools.Bindings())
      // the finalizer protocol
      ensures Performs(DatabaseKind, old(resource.copy), old(Versions(world, resource)),
                       OwnerOf(old(world.pg), resource.spec.Target()).Some?, end,
                       Versions(world, resource), OwnerOf(world.pg, resource.spec.Target()).Some?)
      ensures !err <==> Completed(DatabaseKind, end)
      ensures !old(resource.copy).deleting && !old(resource.copy).finalizer ==>
                StoredFirst(old(world.puts), world.puts, resource.name, old(world.pg), world.pg)
      ensures old(resource.copy).deleting ==>
                ReleasedLast(old(world.puts), world.puts, resource.name, world.pg)
      // creation
      ensures !old(resource.copy).deleting ==>
                Creates(resource.spec, old(resource.copy), resource.copy, old(world.pg), world.pg, order, Uncut(world),
                        err, world.writes - old(world.writes))
      ensures (!old(resource.copy).deleting && Uncut(world) && Faultless(world.fails) && Unedited(world)
               && IsLatest(old(Versions(world, resource)), old(resource.copy).version)
               && Ready(old(world.pg), old(pools.Bindings()), resource.spec)) ==> !err
      // deletion
      ensures (!old(resource.copy).deleting || !old(resource.copy).finalizer || resource.spec.keepOnDelete
               || resource.spec.preserveConnections || resource.spec.name !in old(world.pg).databases) ==>
                world.connected == old(world.connected)
      ensures world.connected in {old(world.connected), old(world.connected) - {resource.spec.name}}
      ensures old(resource.copy).deleting ==>
                world.pg == old(world.pg) ||
                (old(resource.copy).finalizer && !resource.spec.keepOnDelete
                 && world.pg == Gone(old(world.pg), resource.spec.Target()))
      ensures (old(resource.copy).deleting && Faultless(world.fails) && Unedited(world) && resource.spec.name != ""
               && IsLatest(old(Versions(world, resource)), old(resource.copy).version)) ==>
                (err <==> old(resource.copy).finalizer && resource.spec.name in old(world.pg).databases
                          && !resource.spec.keepOnDelete
                          && resource.spec.preserveConnections && resource.spec.name in old(world.connected))
    {
      hide Creates, Ready, Performs, Completed, Gone, EditedAll, IsLatest;
      order, end := [], Blind;
      ghost var o, h, pg := resource.copy, Versions(world, resource), world.pg;
      ghost var present := OwnerOf(pg, resource.spec.Target()).Some?;
      PerformsEarly(DatabaseKind, o, h, present, []);
      CreatesNothing(resource.spec, o, o, pg, Uncut(world), 0);
      var existing;
      err, existing := GetOwner(world, resource.spec.Target());
      if err { return; }
      if resource.copy.deleting {
        err, end := Delete(resource, existing);
      } else {
        err, order, end := CreateAndConverge(resource, existing);
      }
    }
  }

  lemma PlanLength()
    ensures |Plan(DatabaseKind)| == 5
  {
  }

  lemma GrantsKeepDatabases(a: Pg, b: Pg, spec: DatabaseSpec)
    requires OnlyGrants(a, b, spec.Target(), spec.privileges.Keys)
    ensures a.databases == b.databases
  {
  }

  lemma StaysFramed(pg: Pg, spec: DatabaseSpec)
    ensures Framed(pg, pg, spec) && Preserved(pg, pg, spec)
  {
  }

  lemma CreationFrames(pg: Pg, spec: DatabaseSpec)
    ensures var made := Owned(pg, spec.Target(), spec.owner);
            && Framed(pg, made, spec) && Preserved(pg, made, spec) && spec.name in made.databases
            && InOrder(spec, pg, made, false) && made.grants == pg.grants
            && spec.owner in {"", made.databases[spec.name].owner}
    ensures var made := Put(pg, spec.Target(), pg.operator);
            Framed(pg, made, spec) && made.grants == pg.grants
            && (spec.name !in pg.databases ==> Preserved(pg, made, spec) && InOrder(spec, pg, made, false))
  {
  }

  /** Extensions changed within bounds keep the frame. */
  lemma ExtensionFrames(before: Pg, made: Pg, spec: DatabaseSpec)
    requires Framed(before, made, spec) && Preserved(before, made, spec) && spec.name in made.databases
    ensures var had, want := Installed(made, spec.name), Elements(spec.extensions);
            forall after :: had * want <= after <= had + want ==>
              var now := WithExtensions(made, spec.name, after);
              Framed(before, now, spec) && Preserved(before, now, spec) && spec.name in now.databases
    ensures forall after ::
              var now := WithExtensions(made, spec.name, after);
              && Installed(now, spec.name) == after && OwnerOf(now, spec.Target()) == OwnerOf(made, spec.Target())
              && now.grants == made.grants
  {
  }

  lemma GrantFrames(before: Pg, built: Pg, after: Pg, spec: DatabaseSpec)
    requires Framed(before, built, spec) && Preserved(before, built, spec)
    requires OnlyGrants(built, after, spec.Target(), spec.privileges.Keys)
    ensures Framed(before, after, spec) && Preserved(before, after, spec)
  {
    assert built.databases == after.databases && built.roles == after.roles && built.members == after.members;
    assert built.operator == after.operator && built.pristine == after.pristine && built.public == after.public;
  }

  lemma ReadyGrants(before: Pg, built: Pg, bindings: Bindings, spec: DatabaseSpec)
    requires Ready(before, bindings, spec) && Framed(before, built, spec) && spec.name in built.databases
    ensures Grantable(built, spec.Target(), spec.privileges)
  {
  }

  // ----- convergence and idempotence -----

  lemma BuiltRights(pg: Pg, mid: Pg, spec: DatabaseSpec)
    requires Framed(pg, mid, spec)
    ensures Standing(Built(mid, spec), spec) && SameElse(pg, Built(mid, spec), spec.Target(), spec.privileges.Keys)
    ensures Built(mid, spec).grants == mid.grants
  {
  }

  lemma StandingStays(a: Pg, b: Pg, spec: DatabaseSpec)
    requires Standing(a, spec) && SameButGrants(a, b)
    ensures Standing(b, spec)
  {
    assert a.databases == b.databases;
  }

  /**
   From the state any interrupted pass leaves behind (or from the start), a successful pass ends with the declared
   owner, the declared extensions, and every listed role holding exactly what it declares and what it inherited at
   the start, when no listed role inherits from another.
   */
  lemma RetryConverges(pg: Pg, mid: Pg, spec: DatabaseSpec, order: seq<string>)
    requires WellFormed(spec) && Framed(pg, mid, spec) && NoCross(pg, spec.privileges.Keys)
    requires WellTyped(mid, spec.Target()) && Elements(order) == spec.privileges.Keys
    ensures Listed(order, spec.privileges) &&
            var after := OnePass(Built(mid, spec), spec.Target(), order, spec.privileges);
            Standing(after, spec) &&
            forall r :: r in spec.privileges ==>
              Effective(after, spec.Target(), r) == spec.privileges[r] + Inherited(pg, spec.Target(), r)
  {
    hide Effective, Inherited, Inherits, Built, Standing, Framed, NoCross, SameElse;
    BuiltRights(pg, mid, spec);
    RightsConverge(pg, Built(mid, spec), spec.Target(), spec.privileges, order);
    StandingStays(Built(mid, spec), OnePass(Built(mid, spec), spec.Target(), order, spec.privileges), spec);
  }

  /**
   Idempotence, exactly: when no listed role inherits from another, the pass after a successful one sends nothing if
   and only if what the listed roles inherit lies within what they declare.
   */
  lemma SecondPassIsQuiet(pg: Pg, spec: DatabaseSpec, order: seq<string>)
    requires WellFormed(spec) && NoCross(pg, spec.privileges.Keys)
    requires WellTyped(pg, spec.Target()) && Elements(order) == spec.privileges.Keys
    ensures Listed(order, spec.privileges) &&
            (Quiet(OnePass(Built(pg, spec), spec.Target(), order, spec.privileges), spec) <==>
             forall r :: r in spec.privileges ==> Inherited(pg, spec.Target(), r) <= spec.privileges[r])
  {
    hide Effective, Inherited, Built, Standing, Framed, NoCross;
    StaysFramed(pg, spec);
    RetryConverges(pg, pg, spec, order);
  }

  /** On a state that stands, building is nothing. */
  lemma StandingIsBuilt(pg: Pg, spec: DatabaseSpec)
    requires Standing(pg, spec)
    ensures Built(pg, spec) == pg
  {
    hide Put;
    PutOwns(pg, "", spec.Target(), spec.owner);
    Unchanged(pg, spec.name);
  }

  /**
   For any inheritance between roles, any PUBLIC grants and any iteration orders: after two successful passes, from any
   state, everything stands, every listed role holds all it declares with own grants within its declaration, and a
   third pass changes nothing.
   */
  lemma TwoPassesConverge(pg: Pg, spec: DatabaseSpec, first: seq<string>, second: seq<string>, third: seq<string>)
    requires WellFormed(spec) && WellTyped(pg, spec.Target())
    requires Elements(first) == Elements(second) == Elements(third) == spec.privileges.Keys
    ensures var o, declared := spec.Target(), spec.privileges;
            && Listed(first, declared) && Listed(second, declared) && Listed(third, declared)
            && var one := OnePass(Built(pg, spec), o, first, declared);
               var two := OnePass(Built(one, spec), o, second, declared);
               && Standing(two, spec)
               && Bounded(two, o, declared, declared.Keys) && AllHeld(two, o, declared, declared.Keys)
               && OnePass(Built(two, spec), o, third, declared) == two
  {
    hide Effective, Direct, OnePass, Built, Standing, AllHeld;
    var o, declared, built := spec.Target(), spec.privileges, Built(pg, spec);
    forall r | r in first || r in second || r in third ensures r in declared {
      assert r in Elements(first) || r in Elements(second) || r in Elements(third);
    }
    BuiltIsTyped(pg, spec);
    TwoPassesReachFixpoint(built, o, declared, first, second, third);
    PassBounds(built, o, first, declared, {});
    var one := OnePass(built, o, first, declared);
    StandingStays(built, one, spec);
    StandingIsBuilt(one, spec);
    PassBounds(one, o, second, declared, {});
    var two := OnePass(one, o, second, declared);
    StandingStays(one, two, spec);
    StandingIsBuilt(two, spec);
  }

  lemma BuiltIsTyped(pg: Pg, spec: DatabaseSpec)
    requires WellTyped(pg, spec.Target())
    ensures var built := Built(pg, spec); WellTyped(built, spec.Target()) && Standing(built, spec)
  {
    hide Framed;
    StaysFramed(pg, spec);
    BuiltRights(pg, pg, spec);
  }
}
