/**
 The lazily filled map of connection pools, one per database. A pool is bound to the database its
 configuration names; a failed open leaves an entry without a pool behind.
 */
module Pools {
  import opened Wrappers
  import opened Outside

  class ConnConfig {
    var host: string
    var port: string
    var database: string

    constructor (host: string, port: string, database: string)
      ensures this.host == host && this.port == port && this.database == database
    {
      this.host, this.port, this.database := host, port, database;
    }
  }

  class Pool {
    const config: ConnConfig

    constructor (config: ConnConfig)
      ensures this.config == config
    {
      this.config := config;
    }

    /** pgx hands out a copy of the configuration. */
    method Config() returns (copy: ConnConfig)
      ensures fresh(copy)
      ensures copy.host == config.host && copy.port == config.port && copy.database == config.database
    {
      copy := new ConnConfig(config.host, config.port, config.database);
    }
  }

  /** For each key, the database its pool is bound to, or None for a failed open. */
  type Bindings = map<string, Option<string>>

  /** One call of EnsurePGPoolExists, and whether the open it may attempt succeeds. */
  datatype Open = Open(database: string, succeeds: bool)

  function Ensured(b: Bindings, o: Open): Bindings {
    if o.database in b then b
    else b[o.database := if o.succeeds then Some(o.database) else None]
  }

  class PgPools {
    const default: Pool
    var databases: map<string, Pool?>

    /** The operator starts with its own pool under its own database. */
    constructor (default: Pool)
      ensures this.default == default
      ensures Bindings() == map[default.config.database := Some(default.config.database)] && OneServer()
    {
      this.default := default;
      databases := map[default.config.database := default];
    }

    ghost function Bindings(): Bindings
      reads this, default.config, set d | d in databases && databases[d] != null :: databases[d].config
    {
      map d | d in databases :: if databases[d] == null then None else Some(databases[d].config.database)
    }

    /** Every pool reaches the server of the operator's own connection. */
    ghost predicate OneServer()
      reads this, default.config, set d | d in databases && databases[d] != null :: databases[d].config
    {
      forall d :: d in databases && databases[d] != null ==>
        databases[d].config.host == default.config.host && databases[d].config.port == default.config.port
    }

    method EnsureExists(world: World, database: string) returns (err: bool)
      modifies this`databases, world`calls
      ensures database in old(databases) ==> world.calls == old(world.calls) && !err
      ensures database !in old(databases) ==>
                world.calls == old(world.calls) + 1 && err == world.fails(old(world.calls))
      ensures Bindings() == Ensured(old(Bindings()), Open(database, !world.fails(old(world.calls))))
      ensures database in databases
      ensures forall d :: d in old(databases) ==> d in databases && databases[d] == old(databases[d])
      ensures default.config.database == old(default.config.database)
      ensures database !in old(databases) && !err ==>
                databases[database] != null &&
                var c := databases[database].config;
                c.host == default.config.host && c.port == default.config.port && c.database == database
      ensures old(OneServer()) ==> OneServer()
    {
      if database in databases { return false; }
      var config := default.Config();
      config.database := database;
      err := world.Ask();
      if err {
        databases := databases[database := null];
      } else {
        var pool := new Pool(config);
        databases := databases[database := pool];
      }
    }
  }

  // ----- runs -----

  function EnsuredAll(b: Bindings, os: seq<Open>): Bindings
    decreases |os|
  {
    if os == [] then b else EnsuredAll(Ensured(b, os[0]), os[1..])
  }

  /** The first open of a database decides; later ones find its entry. */
  predicate FirstOpenSucceeds(os: seq<Open>, d: string)
    decreases |os|
  {
    os != [] && if os[0].database == d then os[0].succeeds else FirstOpenSucceeds(os[1..], d)
  }

  ghost predicate BoundToKeys(b: Bindings) {
    forall d :: d in b ==> b[d] in {None, Some(d)}
  }

  /**
   Over any run: an entry once present is never replaced, and a database has a usable pool exactly when
   it had one at the start or has no entry at the start and its first open succeeds. So one failed open
   makes the database unusable until the operator restarts, and without one every pool is bound to its key.
   */
  lemma {:induction false} EntriesArePermanent(b: Bindings, os: seq<Open>, d: string)
    requires BoundToKeys(b)
    ensures BoundToKeys(EnsuredAll(b, os))
    ensures d in b ==> d in EnsuredAll(b, os) && EnsuredAll(b, os)[d] == b[d]
    ensures (d in EnsuredAll(b, os) && EnsuredAll(b, os)[d] == Some(d)) <==>
            if d in b then b[d] == Some(d) else FirstOpenSucceeds(os, d)
    decreases |os|
  {
    if os != [] {
      EntriesArePermanent(Ensured(b, os[0]), os[1..], d);
    }
  }
}
