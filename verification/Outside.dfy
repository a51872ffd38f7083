/**
 What lies outside the operator: the PostgreSQL server, whose state changes only by the statements of
 module Statements, and the Secrets and custom resources of the Kubernetes API server.

 Every outside call takes the next number of one clock; call n fails without effect exactly when
 fails(n), an arbitrary oracle. A statement the server refuses fails in the same way. The rows of
 query n may be cut short when cuts(n).
 */
module Outside {
  import opened Wrappers
  import opened Statements
  import opened Resources
  import StatementTexts

  // ----- roles -----

  /** The seven boolean columns of a role are the set of those that are true. */
  datatype Role = Role(name: string, attributes: set<Attribute>, password: string)
  {
    function With(o: RoleOption): Role {
      match o
      case Attr(a, on) => this.(attributes := if on then attributes + {a} else attributes - {a})
      case Password(p) => this.(password := p)
      case Admin(_) => this
    }
  }

  function WithAll(row: Role, os: seq<RoleOption>): Role
    decreases |os|
  {
    if os == [] then row else WithAll(row.With(os[0]), os[1..])
  }

  /** The Go zero value of the operator's Role structure. */
  function Blank(name: string): Role { Role(name, {}, "") }

  /** What CREATE ROLE starts from: unlike the zero value, INHERIT is on. */
  function DefaultRole(name: string): Role { Role(name, {Inherit}, "") }

  function Admins(os: seq<RoleOption>): set<string> {
    set o | o in os && o.Admin? :: o.name
  }

  // ----- the server -----

  datatype Member = Member(group: string, member: string)

  datatype Thing = SchemaNamed(name: string) | ObjectNamed(name: string)

  datatype Database = Database(owner: string, template: bool, extensions: set<string>, owners: map<Thing, string>)

  datatype Securable = DatabaseItself(name: string) | SchemaIn(database: string, name: string)

  datatype Grant = Grant(on: Securable, role: string, privilege: Privilege)

  /** `operator` is the connected role; `pristine` is what a new database contains. */
  datatype Pg = Pg(
    operator: string, pristine: Database,
    roles: map<string, Role>, members: set<Member>, databases: map<string, Database>,
    grants: set<Grant>, public: set<(Securable, Privilege)>)

  /** Which privileges there are on a database, and which on a schema. */
  predicate Applies(p: Privilege, o: Securable) {
    match o
    case DatabaseItself(_) => p in {Create, Connect, Temporary}
    case SchemaIn(_, _) => p in {Create, Usage}
  }

  function TargetOf(o: Securable): Target {
    match o
    case DatabaseItself(n) => OnDatabase(n)
    case SchemaIn(_, n) => OnSchema(n)
  }

  function SecurableOf(database: string, t: Target): Securable {
    match t
    case OnDatabase(n) => DatabaseItself(n)
    case OnSchema(n) => SchemaIn(database, n)
  }

  /** Both the object and the role exist. */
  predicate Known(pg: Pg, o: Securable, role: string) {
    && role in pg.roles
    && match o
       case DatabaseItself(n) => n in pg.databases
       case SchemaIn(d, n) => d in pg.databases && SchemaNamed(n) in pg.databases[d].owners
  }

  predicate OwnsSomething(pg: Pg, role: string) {
    exists d :: d in pg.databases && (pg.databases[d].owner == role || role in pg.databases[d].owners.Values)
  }

  function Reowned(owners: map<Thing, string>, from: string, to: string): map<Thing, string> {
    map t | t in owners :: if owners[t] == from then to else owners[t]
  }

  /** REASSIGN OWNED: the objects of the connected database, and the shared objects (databases). */
  function Reassigned(dbs: map<string, Database>, at: string, from: string, to: string): map<string, Database> {
    map d | d in dbs ::
      Database(if dbs[d].owner == from then to else dbs[d].owner, dbs[d].template, dbs[d].extensions,
               if d == at then Reowned(dbs[d].owners, from, to) else dbs[d].owners)
  }

  function SetDatabase(pg: Pg, name: string, d: Database): Pg {
    pg.(databases := pg.databases[name := d])
  }

  function ApplyRole(pg: Pg, st: Stmt): Option<Pg>
    requires st.CreatesRole? || st.AltersRole? || st.DropsRole? || st.GrantsRole? || st.RevokesRole?
  {
    match st
    case CreatesRole(n, os) =>
      if n in pg.roles || !(Admins(os) <= pg.roles.Keys) then None
      else Some(pg.(roles := pg.roles[n := WithAll(DefaultRole(n), os)],
                    members := pg.members + set a | a in Admins(os) :: Member(n, a)))
    case AltersRole(n, os) =>
      if n !in pg.roles || Admins(os) != {} then None
      else Some(pg.(roles := pg.roles[n := WithAll(pg.roles[n], os)]))
    case DropsRole(n) =>
      if n !in pg.roles || n == pg.operator || OwnsSomething(pg, n) then None
      else if exists g :: g in pg.grants && g.role == n then None
      else Some(pg.(roles := pg.roles - {n}, members := set m | m in pg.members && m.group != n && m.member != n))
    case GrantsRole(g, m) =>
      if g !in pg.roles || m !in pg.roles then None else Some(pg.(members := pg.members + {Member(g, m)}))
    case RevokesRole(g, m) =>
      if g !in pg.roles || m !in pg.roles then None else Some(pg.(members := pg.members - {Member(g, m)}))
  }

  /** The effect of a statement sent over a connection to database `at`; None when it is refused. */
  function Apply(pg: Pg, at: string, st: Stmt): Option<Pg> {
    match st
    case CreatesDatabase(n) =>
      if n in pg.databases then None else Some(SetDatabase(pg, n, pg.pristine.(owner := pg.operator)))
    case DropsDatabase(n) =>
      if n !in pg.databases then None
      else Some(pg.(databases := pg.databases - {n}, grants := (set g | g in pg.grants && !Within(g.on, n))))
    case OwnsDatabase(n, o) =>
      if n !in pg.databases || o !in pg.roles then None
      else Some(SetDatabase(pg, n, pg.databases[n].(owner := o)))
    case Grants(p, t, r) =>
      if !Known(pg, SecurableOf(at, t), r) || !Applies(p, SecurableOf(at, t)) then None
      else Some(pg.(grants := pg.grants + {Grant(SecurableOf(at, t), r, p)}))
    case Revokes(p, t, r) =>
      if !Known(pg, SecurableOf(at, t), r) || !Applies(p, SecurableOf(at, t)) then None
      else Some(pg.(grants := pg.grants - {Grant(SecurableOf(at, t), r, p)}))
    case ReassignsOwned(from, to) =>
      if at !in pg.databases || from !in pg.roles || to !in pg.roles then None
      else Some(pg.(databases := Reassigned(pg.databases, at, from, to)))
    case CreatesSchema(_) => ApplyInside(pg, at, st)
    case DropsSchema(_) => ApplyInside(pg, at, st)
    case OwnsSchema(_, _) => ApplyInside(pg, at, st)
    case CreatesExtension(_) => ApplyInside(pg, at, st)
    case DropsExtension(_) => ApplyInside(pg, at, st)
    case _ => ApplyRole(pg, st)
  }

  predicate Within(o: Securable, database: string) {
    match o
    case DatabaseItself(n) => n == database
    case SchemaIn(d, _) => d == database
  }

  function ApplyInside(pg: Pg, at: string, st: Stmt): Option<Pg>
    requires st.CreatesSchema? || st.DropsSchema? || st.OwnsSchema? || st.CreatesExtension? || st.DropsExtension?
  {
    if at !in pg.databases then None
    else
      var d := pg.databases[at];
      match st
      case CreatesSchema(n) =>
        if SchemaNamed(n) in d.owners then None
        else Some(SetDatabase(pg, at, d.(owners := d.owners[SchemaNamed(n) := pg.operator])))
      case DropsSchema(n) =>
        if SchemaNamed(n) !in d.owners then None
        else Some(SetDatabase(pg, at, d.(owners := d.owners - {SchemaNamed(n)}))
                  .(grants := (set g | g in pg.grants && g.on != SchemaIn(at, n))))
      case OwnsSchema(n, o) =>
        if SchemaNamed(n) !in d.owners || o !in pg.roles then None
        else Some(SetDatabase(pg, at, d.(owners := d.owners[SchemaNamed(n) := o])))
      case CreatesExtension(n) =>
        if n in d.extensions then None else Some(SetDatabase(pg, at, d.(extensions := d.extensions + {n})))
      case DropsExtension(n) =>
        if n !in d.extensions then None else Some(SetDatabase(pg, at, d.(extensions := d.extensions - {n})))
  }

  /** Sending the text of `st`: a zero-length name makes the text unreadable. */
  function Submit(pg: Pg, at: string, st: Stmt): Option<Pg> {
    if Sayable(st) then Apply(pg, at, st) else None
  }

  /** A database with open connections cannot be dropped. */
  predicate Blocked(st: Stmt, connected: set<string>) { st.DropsDatabase? && st.name in connected }

  function Over(pg: Pg, at: string, st: Stmt, connected: set<string>): Option<Pg> {
    if Blocked(st, connected) then None else Apply(pg, at, st)
  }

  // ----- who holds a privilege -----

  /** `role` inherits the privileges of `from` over at most `hops` memberships. */
  predicate Inherits(pg: Pg, role: string, from: string, hops: nat)
    decreases hops
  {
    role == from ||
    (hops > 0 && role in pg.roles && Inherit in pg.roles[role].attributes &&
     exists m :: m in pg.members && m.member == role && Inherits(pg, m.group, from, hops - 1))
  }

  /** has_database_privilege and has_schema_privilege: superuser, PUBLIC, own grants, inherited grants. */
  predicate Holds(pg: Pg, o: Securable, role: string, p: Privilege) {
    (role in pg.roles && SuperUser in pg.roles[role].attributes) || (o, p) in pg.public ||
    exists g :: g in pg.grants && g.on == o && g.privilege == p && Inherits(pg, role, g.role, |pg.members|)
  }

  // ----- Secrets -----

  datatype SecretName = SecretName(namespace: string, name: string)

  datatype Secret = Secret(managed: bool, data: map<string, string>)

  /** A stored version of a resource, and the server at that time. */
  datatype Record = Record(pg: Pg, name: ResourceName, stored: Obj)

  /** A text given to a connection to database `at`. */
  datatype Sending = Sending(at: string, text: string)

  /** How far the operator's traffic has come. */
  datatype Traffic = Traffic(calls: nat, writes: nat, sent: seq<Sending>)

  ghost function TrafficOf(world: World): Traffic
    reads world
  {
    Traffic(world.calls, world.writes, world.sent)
  }

  /**
   The outside world as the operator calls it. `writes` counts the calls that ask for a change; `puts` records the
   resource writes that succeeded, and `sent` the statement texts. Before write n to a resource, users have done
   edits(n) to it. `connected` holds the databases with open connections, which cannot be dropped.
   */
  class World {
    var pg: Pg
    var secrets: map<SecretName, Secret>
    var resources: Resources
    var connected: set<string>
    var calls: nat
    var writes: nat
    ghost var puts: seq<Record>
    ghost var sent: seq<Sending>
    const fails: nat -> bool
    const cuts: nat -> bool
    const edits: nat -> seq<Edit>

    constructor (pg: Pg, secrets: map<SecretName, Secret>, resources: Resources, connected: set<string>,
                 fails: nat -> bool, cuts: nat -> bool, edits: nat -> seq<Edit>)
      ensures this.pg == pg && this.secrets == secrets && this.resources == resources
      ensures this.connected == connected && this.fails == fails && this.cuts == cuts && this.edits == edits
      ensures calls == 0 && writes == 0 && puts == [] && sent == []
    {
      this.pg, this.secrets, this.resources, this.connected := pg, secrets, resources, connected;
      this.fails, this.cuts, this.edits := fails, cuts, edits;
      calls, writes, puts, sent := 0, 0, [], [];
    }

    /** Sends a text over a connection to database `at`: it acts as the statement it reads as, or fails. */
    method Send(at: string, text: string) returns (err: bool)
      modifies this`pg, this`calls, this`writes, this`sent
      ensures calls == old(calls) + 1 && writes == old(writes) + 1
      ensures sent == old(sent) + [Sending(at, text)]
      ensures var after := match Read(text) case None => None case Some(st) => Over(old(pg), at, st, connected);
              (err <==> fails(old(calls)) || after.None?) && pg == if err then old(pg) else after.value
      ensures forall st :: text == Print(st) ==>
                var after := if Blocked(st, connected) then None else Submit(old(pg), at, st);
                (err <==> fails(old(calls)) || after.None?) && pg == if err then old(pg) else after.value
    {
      hide Print, Read, Apply;
      forall st | text == Print(st)
        ensures Read(text) == if Sayable(st) then Some(st) else None
      {
        ReadsBack(st);
      }
      var n := calls;
      calls, writes, sent := calls + 1, writes + 1, sent + [Sending(at, text)];
      if fails(n) { return true; }
      match Read(text)
      case None => err := true;
      case Some(st) =>
        match Over(pg, at, st, connected)
        case None => err := true;
        case Some(after) =>
          pg := after;
          err := false;
    }

    /** Prints a statement and sends it. */
    method Exec(at: string, st: Stmt) returns (err: bool)
      modifies this`pg, this`calls, this`writes, this`sent
      ensures calls == old(calls) + 1 && writes == old(writes) + 1
      ensures sent == old(sent) + [Sending(at, Print(st))] && StatementTexts.IsText(st, Print(st))
      ensures err <==> fails(old(calls)) || Blocked(st, connected) || Submit(old(pg), at, st).None?
      ensures pg == if err then old(pg) else Submit(old(pg), at, st).value
    {
      hide Print, Submit, StatementTexts.IsText;
      StatementTexts.PrintsText(st);
      err := Send(at, Print(st));
    }

    /** A call that changes nothing the model keeps: it only succeeds or fails. */
    method Ask() returns (err: bool)
      modifies this`calls
      ensures calls == old(calls) + 1 && (err <==> fails(old(calls)))
    {
      err := fails(calls);
      calls := calls + 1;
    }

    /** Ends the connections to a database. */
    method EndConnections(database: string) returns (err: bool)
      modifies this`connected, this`calls
      ensures calls == old(calls) + 1 && (err <==> fails(old(calls)))
      ensures connected == if err then old(connected) else old(connected) - {database}
    {
      err := Ask();
      if !err { connected := connected - {database}; }
    }

    /** pg_roles shows every column but the password. */
    method GetRole(name: string) returns (err: bool, role: Option<Role>)
      modifies this`calls
      ensures calls == old(calls) + 1 && (err <==> fails(old(calls)))
      ensures !err ==> role == Seen(pg, name)
    {
      err := Ask();
      role := Seen(pg, name);
    }

    method HasPrivilege(o: Securable, role: string, p: Privilege) returns (err: bool, has: bool)
      modifies this`calls
      ensures calls == old(calls) + 1 && (err <==> fails(old(calls)) || !Known(pg, o, role))
      ensures !err ==> has == Holds(pg, o, role, p)
    {
      err := Ask();
      has := Holds(pg, o, role, p);
      if !Known(pg, o, role) { err := true; }
    }

    method GetSecret(name: SecretName) returns (err: bool, secret: Option<Secret>)
      modifies this`calls
      ensures calls == old(calls) + 1 && (err <==> fails(old(calls)))
      ensures !err ==> secret == if name in secrets then Some(secrets[name]) else None
    {
      err := Ask();
      secret := if name in secrets then Some(secrets[name]) else None;
    }

    method PutSecret(name: SecretName, secret: Secret) returns (err: bool)
      modifies this`secrets, this`calls, this`writes
      ensures calls == old(calls) + 1 && writes == old(writes) + 1 && (err <==> fails(old(calls)))
      ensures secrets == if err then old(secrets) else old(secrets)[name := secret]
    {
      writes := writes + 1;
      err := Ask();
      if !err { secrets := secrets[name := secret]; }
    }

    /** Writes a custom resource (finalizers or status) back; the version it was based on must be the latest. */
    method PutResource(name: ResourceName, o: Obj) returns (err: bool, version: nat)
      modifies this`resources, this`calls, this`writes, this`puts
      ensures calls == old(calls) + 1 && writes == old(writes) + 1
      ensures var h := EditedAll(HistoryOf(old(resources), name), edits(old(calls)));
              && (err <==> fails(old(calls)) || !IsLatest(h, o.version)) && version == |h|
              && resources == old(resources)[name := if err then h else Append(h, o)]
              && puts == old(puts) + if err then [] else [Record(pg, name, o)]
    {
      hide EditedAll, IsLatest, Append;
      var h := EditedAll(HistoryOf(resources, name), edits(calls));
      writes := writes + 1;
      err := Ask();
      version := |h|;
      if !IsLatest(h, o.version) { err := true; }
      resources := resources[name := if err then h else Append(h, o)];
      if !err { puts := puts + [Record(pg, name, o)]; }
    }
  }

  function Seen(pg: Pg, name: string): Option<Role> {
    if name in pg.roles then Some(pg.roles[name].(password := "")) else None
  }
}
