/** Databases and schemas: finding them, creating them, and giving them their owner. */
module Ownership {
  import opened Wrappers
  import opened SqlText
  import opened Statements
  import opened Outside
  import opened SetReconciliation
  import opened Privileges
  import opened StatementTexts

  function OwnerOf(pg: Pg, o: Securable): Option<string> {
    match o
    case DatabaseItself(n) => if n in pg.databases then Some(pg.databases[n].owner) else None
    case SchemaIn(d, n) =>
      if d in pg.databases && SchemaNamed(n) in pg.databases[d].owners then Some(pg.databases[d].owners[SchemaNamed(n)])
      else None
  }

  /** The object with this owner; a new database starts as the pristine one. */
  function Put(pg: Pg, o: Securable, owner: string): Pg {
    match o
    case DatabaseItself(n) =>
      SetDatabase(pg, n, (if n in pg.databases then pg.databases[n] else pg.pristine).(owner := owner))
    case SchemaIn(d, n) =>
      if d !in pg.databases then pg
      else SetDatabase(pg, d, pg.databases[d].(owners := pg.databases[d].owners[SchemaNamed(n) := owner]))
  }

  /** The object exists; a declared owner is its owner, and without one it keeps whom it had. */
  function Owned(pg: Pg, o: Securable, owner: string): Pg {
    if owner != "" then Put(pg, o, owner)
    else if OwnerOf(pg, o).None? then Put(pg, o, pg.operator)
    else pg
  }

  function CreateStatement(o: Securable): Stmt {
    match o
    case DatabaseItself(n) => CreatesDatabase(n)
    case SchemaIn(_, n) => CreatesSchema(n)
  }

  function OwnStatement(o: Securable, owner: string): Stmt {
    match o
    case DatabaseItself(n) => OwnsDatabase(n, owner)
    case SchemaIn(_, n) => OwnsSchema(n, owner)
  }

  function DropStatement(o: Securable): Stmt {
    match o
    case DatabaseItself(n) => DropsDatabase(n)
    case SchemaIn(_, n) => DropsSchema(n)
  }

  /** A connection that reaches the object: any for a database, one to its database for a schema. */
  predicate Reaches(pg: Pg, at: string, o: Securable) {
    o.SchemaIn? ==> at == o.database && at in pg.databases
  }

  lemma SayableDefinition(o: Securable, owner: string)
    ensures Sayable(CreateStatement(o)) <==> TargetName(o) != ""
    ensures Sayable(DropStatement(o)) <==> TargetName(o) != ""
    ensures Sayable(OwnStatement(o, owner)) <==> TargetName(o) != "" && owner != ""
  {
    assert Tokens(CreateStatement(o))[2] == Name(TargetName(o));
    assert Tokens(DropStatement(o))[2] == Name(TargetName(o));
    assert Tokens(OwnStatement(o, owner))[2] == Name(TargetName(o)) && Tokens(OwnStatement(o, owner))[5] == Name(owner);
  }

  /** What is left once the object is dropped. */
  function Gone(pg: Pg, o: Securable): Pg {
    match o
    case DatabaseItself(n) =>
      pg.(databases := pg.databases - {n}, grants := (set g | g in pg.grants && !Within(g.on, n)))
    case SchemaIn(d, n) =>
      if d !in pg.databases then pg
      else SetDatabase(pg, d, pg.databases[d].(owners := pg.databases[d].owners - {SchemaNamed(n)}))
           .(grants := (set g | g in pg.grants && g.on != o))
  }

  lemma DefinitionStatements(pg: Pg, at: string, o: Securable, owner: string)
    requires Reaches(pg, at, o)
    ensures Submit(pg, at, DropStatement(o)) ==
              if TargetName(o) != "" && OwnerOf(pg, o).Some? then Some(Gone(pg, o)) else None
    ensures Submit(pg, at, CreateStatement(o)) ==
              if TargetName(o) != "" && OwnerOf(pg, o).None? then Some(Put(pg, o, pg.operator)) else None
    ensures Submit(pg, at, OwnStatement(o, owner)) ==
              if TargetName(o) != "" && owner != "" && owner in pg.roles && OwnerOf(pg, o).Some?
              then Some(Put(pg, o, owner)) else None
  {
    hide Sayable;
    SayableDefinition(o, owner);
  }

  lemma PutOwns(pg: Pg, at: string, o: Securable, owner: string)
    requires Reaches(pg, at, o)
    ensures OwnerOf(Put(pg, o, owner), o) == Some(owner)
    ensures OwnerOf(pg, o) == Some(owner) ==> Put(pg, o, owner) == pg
  {
    if OwnerOf(pg, o) == Some(owner) {
      match o
      case DatabaseItself(n) => assert pg.databases[n := pg.databases[n]] == pg.databases;
      case SchemaIn(d, n) =>
        var owners := pg.databases[d].owners;
        assert owners[SchemaNamed(n) := owner] == owners;
        assert pg.databases[d := pg.databases[d]] == pg.databases;
    }
  }

  lemma PutTwice(pg: Pg, at: string, o: Securable, other: string, owner: string)
    requires Reaches(pg, at, o)
    ensures Put(Put(pg, o, other), o, owner) == Put(pg, o, owner)
  {
    var one := Put(pg, o, other);
    match o
    case DatabaseItself(n) =>
      var d := (if n in pg.databases then pg.databases[n] else pg.pristine).(owner := owner);
      assert pg.databases[n := d.(owner := other)][n := d] == pg.databases[n := d];
    case SchemaIn(d, n) =>
      var x := pg.databases[d];
      assert x.owners[SchemaNamed(n) := other][SchemaNamed(n) := owner] == x.owners[SchemaNamed(n) := owner];
      var y, z := x.(owners := x.owners[SchemaNamed(n) := other]), x.(owners := x.owners[SchemaNamed(n) := owner]);
      assert pg.databases[d := y][d := z] == pg.databases[d := z];
  }

  method GetOwner(world: World, o: Securable) returns (err: bool, existing: Option<string>)
    modifies world`calls
    ensures world.calls == old(world.calls) + 1 && (err <==> world.fails(old(world.calls)))
    ensures existing == OwnerOf(world.pg, o)
  {
    err := world.Ask();
    existing := OwnerOf(world.pg, o);
  }

  lemma DefinesUnblocked(o: Securable, owner: string, connected: set<string>)
    ensures !Blocked(CreateStatement(o), connected) && !Blocked(OwnStatement(o, owner), connected)
  {
  }

  /** The object as the operator's texts call it. */
  function Called(o: Securable): string {
    match o
    case DatabaseItself(n) => "DATABASE " + Quote(n)
    case SchemaIn(_, n) => "SCHEMA " + Quote(n)
  }

  lemma DefinitionTexts(o: Securable, owner: string)
    ensures Print(CreateStatement(o)) == "CREATE " + Called(o) && Print(DropStatement(o)) == "DROP " + Called(o)
    ensures Print(OwnStatement(o, owner)) == "ALTER " + Called(o) + (" OWNER TO " + Quote(owner))
  {
    hide Print, Quote;
    var n := TargetName(o);
    CreateTexts(n);
    DropTexts(n);
    OwnerTexts(n, owner);
    assert "CREATE " + "DATABASE " == "CREATE DATABASE " && "CREATE " + "SCHEMA " == "CREATE SCHEMA ";
    assert "DROP " + "DATABASE " == "DROP DATABASE " && "DROP " + "SCHEMA " == "DROP SCHEMA ";
    assert "ALTER " + "DATABASE " == "ALTER DATABASE " && "ALTER " + "SCHEMA " == "ALTER SCHEMA ";
  }

  /** What creation sends, one after the other. */
  function CreationTexts(o: Securable, existing: Option<string>, owner: string): seq<string> {
    (if existing.None? then ["CREATE " + Called(o)] else [])
    + (if owner != "" && existing != Some(owner) then ["ALTER " + Called(o) + (" OWNER TO " + Quote(owner))] else [])
  }

  /** The texts, all over a connection to one database. */
  function AllAt(at: string, texts: seq<string>): seq<Sending> {
    seq(|texts|, i requires 0 <= i < |texts| => Sending(at, texts[i]))
  }

  /**
   Creates the object if it was not found, then gives it its owner if that differs; an empty owner never
   causes an owner change.
   */
  method ReconcileOnCreation(world: World, at: string, o: Securable, existing: Option<string>,
                             owner: string) returns (err: bool)
    requires existing == OwnerOf(world.pg, o) && Reaches(world.pg, at, o)
    modifies world`pg, world`calls, world`writes, world`sent
    ensures !err ==> world.pg == Owned(old(world.pg), o, owner)
    ensures err ==>
              world.pg == old(world.pg) ||
              (existing.None? && world.pg == Put(old(world.pg), o, old(world.pg.operator)))
    ensures world.writes >= old(world.writes) && world.calls >= old(world.calls)
    ensures world.writes == old(world.writes) <==> existing.Some? && owner in {"", existing.value}
    ensures world.writes == old(world.writes) ==> !err && world.pg == old(world.pg)
    ensures Faultless(world.fails) && TargetName(o) != "" && (owner != "" ==> owner in old(world.pg).roles) ==> !err
    ensures var texts, n := CreationTexts(o, existing, owner), world.writes - old(world.writes);
            0 <= n <= |texts| && (!err ==> n == |texts|) && world.sent == old(world.sent) + AllAt(at, texts[..n])
  {
    hide Submit, CreateStatement, OwnStatement, Gone, Print, IsText, Called, Quote;
    DefinitionTexts(o, owner);
    DefinesUnblocked(o, owner, world.connected);
    ghost var before := world.pg;
    DefinitionStatements(before, at, o, owner);
    PutOwns(before, at, o, owner);
    PutOwns(before, at, o, before.operator);
    PutTwice(before, at, o, before.operator, owner);
    var alterOwner := false;
    err := false;
    if existing.None? {
      err := world.Exec(at, CreateStatement(o));
      if err { return; }
      DefinitionStatements(world.pg, at, o, owner);
      alterOwner := true;
    } else if existing.value != owner {
      alterOwner := true;
    }
    if alterOwner && owner != "" {
      err := world.Exec(at, OwnStatement(o, owner));
    }
  }

  // ----- deletion -----

  lemma DropIsBlocked(o: Securable, connected: set<string>)
    ensures Blocked(DropStatement(o), connected) <==> o.DatabaseItself? && o.name in connected
  {
  }

  /** The dropped object is gone with its grants, and every other object outside it is as before. */
  lemma GoneIsGone(pg: Pg, at: string, o: Securable)
    requires Reaches(pg, at, o)
    ensures OwnerOf(Gone(pg, o), o).None? && forall g :: g in Gone(pg, o).grants ==> g in pg.grants && g.on != o
    ensures forall other :: other != o && (other.SchemaIn? ==> o != DatabaseItself(other.database)) ==>
              OwnerOf(Gone(pg, o), other) == OwnerOf(pg, other)
  {
  }

  /**
   Drops the object unless it does not exist or is kept. Before a database is dropped its
   connections are ended, unless they are to be preserved; then open connections make the drop fail.
   */
  method ReconcileOnDeletion(world: World, at: string, o: Securable, existing: Option<string>, keep: bool,
                             preserve: bool)
      returns (err: bool)
    requires existing == OwnerOf(world.pg, o) && Reaches(world.pg, at, o)
    modifies world`pg, world`calls, world`writes, world`sent, world`connected
    ensures existing.None? || keep ==> !err && world.pg == old(world.pg) && world.calls == old(world.calls)
    ensures existing.None? || keep || preserve || o.SchemaIn? ==> world.connected == old(world.connected)
    ensures world.connected in {old(world.connected), old(world.connected) - {TargetName(o)}}
    ensures existing.Some? && !keep && !err ==>
              && world.pg == Gone(old(world.pg), o)
              && world.calls == old(world.calls) + if o.DatabaseItself? && !preserve then 2 else 1
    ensures err ==> world.pg == old(world.pg)
    ensures OwnerOf(world.pg, o) == if existing.Some? && !keep && !err then None else existing
    ensures world.writes >= old(world.writes)
    ensures Faultless(world.fails) && TargetName(o) != "" && existing.Some? && !keep ==>
              (err <==> o.DatabaseItself? && preserve && o.name in old(world.connected))
    ensures world.sent == old(world.sent)
                          + AllAt(at, if world.writes == old(world.writes) then [] else ["DROP " + Called(o)])
    ensures existing.Some? && !keep && !err ==> world.writes == old(world.writes) + 1
  {
    hide Submit, DropStatement, Gone, Print, IsText, Called, Quote;
    DefinitionTexts(o, "");
    err := false;
    if existing.None? { return; }
    if keep { return; }
    if o.DatabaseItself? && !preserve {
      err := world.EndConnections(TargetName(o));
      if err { return; }
    }
    DropIsBlocked(o, world.connected);
    DefinitionStatements(world.pg, at, o, "");
    GoneIsGone(world.pg, at, o);
    err := world.Exec(at, DropStatement(o));
  }
}
