/**
 One pass of the role reconciler, as a function of the world it finds. A pass fetches the role's password,
 reads the role and the operator's own role, and then either deletes the role or brings its row, its
 groups and its Secret to what the resource declares, stopping at the first failed call.
 */
module RolePasses {
  import opened Wrappers
  import opened Statements
  import opened Outside
  import opened Pools
  import opened SetReconciliation
  import opened Memberships
  import opened RoleStatements
  import opened RoleDeletion
  import opened SecretData
  import opened Resources
  import PassRuns

  datatype RoleSpec = RoleSpec(
    name: string, attributes: set<Attribute>, keepOnDelete: bool, passwordFrom: Option<(string, string)>,
    secretName: string, secretTemplate: map<string, string>, memberOf: seq<string>, reassignOwnedTo: string)

  /** What a pass reads of the custom resource. */
  datatype Resource = Resource(name: ResourceName, spec: RoleSpec, copy: Obj)

  /** What the code leaves open: the generated password, and the order of listed groups and databases. */
  datatype Choices = Choices(generated: string, groups: seq<string>, databases: seq<string>)

  datatype Vars = Vars(role: string, password: string, host: string, port: string, database: string)

  /** The operator's connection, its template renderer, the server's keywords, and what users do to the resource. */
  datatype Setup = Setup(host: string, port: string, database: string,
                         render: (string, Vars) -> string, keywords: set<string>, edits: nat -> seq<Edit>)

  /** Server, Secrets, resources, the operator's memory (password cache and pools), and the two clocks. */
  datatype Env = Env(pg: Pg, secrets: map<SecretName, Secret>, resources: Resources, cache: map<string, string>,
                     pools: Bindings, calls: nat, writes: nat)

  datatype Outcome = Outcome(env: Env, ok: bool)

  datatype Fetched = Fetched(env: Env, password: Option<string>)

  /** The operator's role exists, and rows are filed under their names. */
  ghost predicate Sound(pg: Pg) {
    pg.operator in pg.roles && "" !in pg.roles && forall n :: n in pg.roles ==> pg.roles[n].name == n
  }

  function Asked(e: Env): Env { e.(calls := e.calls + 1) }

  function Written(e: Env): Env { e.(calls := e.calls + 1, writes := e.writes + 1) }

  /** A missing cache entry reads as the empty string. */
  function Cached(cache: map<string, string>, name: string): string {
    if name in cache then cache[name] else ""
  }

  // ----- the stages -----

  /** From the named Secret; else from the generated Secret, the cache, or a fresh password. */
  function FetchPassword(e: Env, namespace: string, spec: RoleSpec, generated: string, fails: nat -> bool): Fetched {
    var own := if spec.name in e.cache then e.cache[spec.name] else generated;
    match spec.passwordFrom
    case Some((secret, key)) =>
      var name := SecretName(namespace, secret);
      if fails(e.calls) || name !in e.secrets || key !in e.secrets[name].data then Fetched(Asked(e), None)
      else Fetched(Asked(e), Some(e.secrets[name].data[key]))
    case None =>
      var name := SecretName(namespace, spec.secretName);
      if spec.secretName == "" then Fetched(e, Some(own))
      else if fails(e.calls) then Fetched(Asked(e), None)
      else if name !in e.secrets then Fetched(Asked(e), Some(own))
      else if "PGPASSWORD" !in e.secrets[name].data then Fetched(Asked(e), None)
      else Fetched(Asked(e), Some(e.secrets[name].data["PGPASSWORD"]))
  }

  function AfterStatement(e: Env, after: Option<Pg>, desired: Role, fails: nat -> bool): Outcome {
    if fails(e.calls) || after.None? then Outcome(Written(e), false)
    else Outcome(Written(e).(pg := after.value, cache := e.cache[desired.name := desired.password]), true)
  }

  function OnCreation(e: Env, operator: Role, existing: Option<Role>, desired: Role, fails: nat -> bool): Outcome {
    match existing
    case None =>
      if !MayChange(operator, Blank(""), desired) then Outcome(e, false)
      else AfterStatement(e, AfterCreate(e.pg, operator, desired), desired, fails)
    case Some(row) =>
      if desired.password == Cached(e.cache, desired.name) && row == desired.(password := "") then Outcome(e, true)
      else if !MayChange(operator, row, desired) then Outcome(e, false)
      else AfterStatement(e, AfterAlter(e.pg, row, desired), desired, fails)
  }

  function OnMembership(e: Env, role: string, desired: seq<string>, listing: seq<string>, fails: nat -> bool): Outcome {
    if fails(e.calls) then Outcome(Asked(e), false)
    else
      var start := e.calls + 1;
      var had := Groups(e.pg.members, role);
      var r := Execute(MembershipRules(e.pg.roles.Keys), DropFirst(listing, desired), had, fails, start);
      var sent := Spent(r.calls, start);
      Outcome(e.(pg := WithMembership(e.pg, role, r.state), calls := r.calls, writes := e.writes + sent), r.ok)
  }

  function Spent(now: nat, start: nat): nat { if now >= start then now - start else 0 }

  function DesiredData(s: Setup, spec: RoleSpec, role: Role): Data {
    var vars := VarsOf(s, role);
    map["PGUSER" := vars.role, "PGPASSWORD" := vars.password, "PGHOST" := vars.host, "PGPORT" := vars.port,
        "PGDATABASE" := vars.database]
    + map k | k in spec.secretTemplate :: s.render(spec.secretTemplate[k], vars)
  }

  /** What a Secret template is rendered with. */
  function VarsOf(s: Setup, role: Role): Vars {
    Vars(role := role.name, password := role.password, host := s.host, port := s.port, database := s.database)
  }

  /** The label is repaired, and data that prints differently is replaced. */
  function Repaired(found: Secret, data: Data): Secret {
    Secret(true, if Sprint(found.data) == Sprint(data) then found.data else data)
  }

  function OnSecret(e: Env, s: Setup, namespace: string, spec: RoleSpec, role: Role, fails: nat -> bool): Outcome {
    if spec.secretName == "" then Outcome(e, true)
    else if fails(e.calls) then Outcome(Asked(e), false)
    else
      var name, data := SecretName(namespace, spec.secretName), DesiredData(s, spec, role);
      var next := if name in e.secrets then Repaired(e.secrets[name], data) else Secret(true, data);
      if name in e.secrets && next == e.secrets[name] then Outcome(Asked(e), true)
      else if fails(e.calls + 1) then Outcome(Written(Asked(e)), false)
      else Outcome(Written(Asked(e)).(secrets := e.secrets[name := next]), true)
  }

  /** Writes version `o` back if needed, after what users have done to the resource. */
  function OnResource(e: Env, s: Setup, name: ResourceName, o: Obj, needed: bool, fails: nat -> bool): Outcome {
    if !needed then Outcome(e, true)
    else
      var h := EditedAll(HistoryOf(e.resources, name), s.edits(e.calls));
      if fails(e.calls) || !IsLatest(h, o.version) then Outcome(Written(e).(resources := e.resources[name := h]), false)
      else Outcome(Written(e).(resources := e.resources[name := Append(h, o)]), true)
  }

  function OnDeletion(e: Env, at: string, spec: RoleSpec, databases: seq<string>, fails: nat -> bool): Outcome {
    var d := Deleted(Deletion(e.pg, e.pools, e.calls, e.writes, true), at,
                     if spec.name in e.pg.roles then e.pg.roles[spec.name].name else "", spec.name in e.pg.roles,
                     spec.keepOnDelete, spec.reassignOwnedTo, databases, fails);
    Outcome(e.(pg := d.pg, pools := d.pools, calls := d.calls, writes := d.writes), d.ok)
  }

  // ----- the pass -----

  function Desired(spec: RoleSpec, password: string): Role { Role(spec.name, spec.attributes, password) }

  /** The creation branch, after the finalizer is in place. */
  function Converge(e: Env, s: Setup, r: Resource, operator: Role, existing: Option<Role>, desired: Role, c: Choices,
                    fails: nat -> bool): Outcome
  {
    var made := OnCreation(e, operator, existing, desired, fails);
    if !made.ok then made
    else
      var joined := OnMembership(made.env, desired.name, r.spec.memberOf, c.groups, fails);
      if !joined.ok then joined
      else
        var kept := OnSecret(joined.env, s, r.name.namespace, r.spec, desired, fails);
        if !kept.ok then kept
        else OnResource(kept.env, s, r.name, r.copy.(succeeded := true), !r.copy.succeeded, fails)
  }

  /** Puts the finalizer in place, unless it is there. */
  function OnGate(e: Env, s: Setup, r: Resource, fails: nat -> bool): Outcome {
    OnResource(e, s, r.name, r.copy.(finalizer := true), !r.copy.finalizer, fails)
  }

  /** The resource as the pass holds it then. */
  function Held(e: Env, s: Setup, r: Resource): Resource {
    r.(copy := PassRuns.GatedCopy(r.copy, HistoryOf(e.resources, r.name), s.edits(e.calls)))
  }

  /** The pass once the password, the role and the operator's role are known. */
  function Act(e: Env, s: Setup, r: Resource, operator: Role, existing: Option<Role>, desired: Role, c: Choices,
               fails: nat -> bool): Outcome
  {
    if r.copy.deleting then
      if !r.copy.finalizer then Outcome(e, true)
      else
        var gone := OnDeletion(e, s.database, r.spec, c.databases, fails);
        if !gone.ok then gone else OnResource(gone.env, s, r.name, r.copy.(finalizer := false), true, fails)
    else
      var held := OnGate(e, s, r, fails);
      if !held.ok then held else Converge(held.env, s, Held(e, s, r), operator, existing, desired, c, fails)
  }

  function RolePass(e: Env, s: Setup, r: Resource, c: Choices, fails: nat -> bool): Outcome {
    var fetched := FetchPassword(e, r.name.namespace, r.spec, c.generated, fails);
    if fetched.password.None? then Outcome(fetched.env, false)
    else
      var e1 := fetched.env;
      if fails(e1.calls) then Outcome(Asked(e1), false)
      else if fails(e1.calls + 1) || e1.pg.operator !in e1.pg.roles then Outcome(Asked(Asked(e1)), false)
      else
        Act(Asked(Asked(e1)), s, r, Seen(e1.pg, e1.pg.operator).value, Seen(e1.pg, r.spec.name),
            Desired(r.spec, fetched.password.value), c, fails)
  }

  // ----- what the choices are -----

  const SMALL := "abcdefghijklmnopqrstuvwxyz"
  const CAPITAL := "ABCDEFGHIJKLMNOPQRSTUVWXYZ"
  const DIGITS := "0123456789"
  const CHARSET := SMALL + CAPITAL + DIGITS

  ghost predicate Generated(password: string) {
    |password| == 64 && forall i :: 0 <= i < |password| ==> password[i] in CHARSET
  }

  /** The groups listing a pass gets: the trimmed rows, in some order. */
  ghost predicate ListsGroups(s: Setup, members: set<Member>, role: string, groups: seq<string>) {
    Elements(groups) == set t | t in Rows(s.keywords, members, role) :: Trim(t)
  }

  /** Once the groups are listed, the listing is that of the memberships then. */
  ghost predicate GroupsFit(e: Env, s: Setup, operator: Role, existing: Option<Role>, d: Role, groups: seq<string>,
                            fails: nat -> bool)
  {
    var made := OnCreation(e, operator, existing, d, fails);
    made.ok && !fails(made.env.calls) ==> ListsGroups(s, made.env.pg.members, d.name, groups)
  }

  /** Once the databases are listed, the listing names every one that is no template. */
  ghost predicate DatabasesFit(e: Env, spec: RoleSpec, databases: seq<string>, fails: nat -> bool) {
    spec.name in e.pg.roles && !spec.keepOnDelete && spec.reassignOwnedTo != "" && !fails(e.calls) ==>
      Elements(databases) == Listed(e.pg)
  }

  ghost predicate ActFits(e: Env, s: Setup, r: Resource, operator: Role, existing: Option<Role>, d: Role, c: Choices,
                          fails: nat -> bool)
  {
    if r.copy.deleting then r.copy.finalizer ==> DatabasesFit(e, r.spec, c.databases, fails)
    else OnGate(e, s, r, fails).ok ==> GroupsFit(OnGate(e, s, r, fails).env, s, operator, existing, d, c.groups, fails)
  }

  /** What the code promises of its choices: a password of 64 characters, and listings of what there is. */
  ghost predicate Fits(e: Env, s: Setup, r: Resource, c: Choices, fails: nat -> bool) {
    && Generated(c.generated)
    && var fetched := FetchPassword(e, r.name.namespace, r.spec, c.generated, fails);
       var e1, e2 := fetched.env, Asked(Asked(fetched.env));
       fetched.password.Some? && !fails(e1.calls) && !fails(e1.calls + 1) && e2.pg.operator in e2.pg.roles ==>
         ActFits(e2, s, r, Seen(e2.pg, e2.pg.operator).value, Seen(e2.pg, r.spec.name),
                 Desired(r.spec, fetched.password.value), c, fails)
  }

  // ----- what the generated Secret shows -----

  /** Exactly the five connection settings and the template's keys; what is not templated is the setting itself. */
  ghost predicate Shows(data: Data, template: map<string, string>, vars: Vars, render: (string, Vars) -> string) {
    && data.Keys == {"PGUSER", "PGPASSWORD", "PGHOST", "PGPORT", "PGDATABASE"} + template.Keys
    && ("PGUSER" !in template ==> data["PGUSER"] == vars.role)
    && ("PGPASSWORD" !in template ==> data["PGPASSWORD"] == vars.password)
    && ("PGHOST" !in template ==> data["PGHOST"] == vars.host)
    && ("PGPORT" !in template ==> data["PGPORT"] == vars.port)
    && ("PGDATABASE" !in template ==> data["PGDATABASE"] == vars.database)
    && forall k :: k in template ==> data[k] == render(template[k], vars)
  }

  lemma DataShows(s: Setup, spec: RoleSpec, role: Role)
    ensures Shows(DesiredData(s, spec, role), spec.secretTemplate,
                  Vars(role := role.name, password := role.password, host := s.host, port := s.port,
                       database := s.database), s.render)
  {
    ShownKeys(s, spec, role);
  }

  lemma ShownKeys(s: Setup, spec: RoleSpec, role: Role)
    ensures DesiredData(s, spec, role).Keys
         == {"PGUSER", "PGPASSWORD", "PGHOST", "PGPORT", "PGDATABASE"} + spec.secretTemplate.Keys
  {
    hide VarsOf;
    var vars := VarsOf(s, role);
    var fixed := map["PGUSER" := vars.role, "PGPASSWORD" := vars.password, "PGHOST" := vars.host, "PGPORT" := vars.port,
                     "PGDATABASE" := vars.database];
    var rendered := map k | k in spec.secretTemplate :: s.render(spec.secretTemplate[k], vars);
    assert DesiredData(s, spec, role) == fixed + rendered;
    assert rendered.Keys == spec.secretTemplate.Keys;
  }

  lemma DesiredKeysFit(s: Setup, spec: RoleSpec, d: Role)
    requires SecretKeys(map k | k in spec.secretTemplate :: "")
    ensures SecretKeys(DesiredData(s, spec, d))
  {
    hide KeyChar;
    var t := map k | k in spec.secretTemplate :: "";
    forall k | k in DesiredData(s, spec, d) ensures k != "" && forall i :: 0 <= i < |k| ==> KeyChar(k[i]) {
      if k in spec.secretTemplate { assert k in t; } else { FixedKeysFit(); }
    }
  }

  lemma FixedKeysFit()
    ensures forall k :: k in {"PGUSER", "PGPASSWORD", "PGHOST", "PGPORT", "PGDATABASE"} ==>
              k != "" && forall i :: 0 <= i < |k| ==> KeyChar(k[i])
  {
  }

  lemma RepairedIs(found: Secret, data: Data)
    requires SecretKeys(found.data) && SecretKeys(data)
    ensures Repaired(found, data) == Secret(true, data)
  {
    hide Sprint;
    SprintDecides(found.data, data);
  }

  // ----- what one pass can do to roles and cache -----

  /**
   Whatever fails, a pass leaves roles and cache alone, or creates, alters or drops the resource's own
   role; the cache follows exactly the creating or altering statement.
   */
  ghost predicate Moves(e: Env, e': Env, d: Role) {
    && e'.pg.operator == e.pg.operator && e.pg.operator in e.pg.roles
    && var operator := e.pg.roles[e.pg.operator];
       || (e'.pg.roles == e.pg.roles && e'.cache == e.cache)
       || (&& d.name !in e.pg.roles && d.name != "" && MayChange(operator, Blank(""), d)
           && e'.pg.roles == e.pg.roles[d.name := Created(d)] && e'.cache == e.cache[d.name := d.password])
       || (&& d.name in e.pg.roles && MayChange(operator, e.pg.roles[d.name], d)
           && e'.pg.roles == e.pg.roles[d.name := Altered(e.pg.roles[d.name], e.pg.roles[d.name], d)]
           && e'.cache == e.cache[d.name := d.password])
       || (&& d.name in e.pg.roles && d.name != e.pg.operator
           && e'.pg.roles == e.pg.roles - {d.name} && e'.cache == e.cache)
  }

  ghost predicate SameRoles(e: Env, e': Env) {
    e'.pg.operator == e.pg.operator && e'.pg.roles == e.pg.roles && e'.cache == e.cache
  }

  lemma CreationMoves(e: Env, d: Role, fails: nat -> bool)
    requires Sound(e.pg)
    ensures Moves(e, OnCreation(e, Seen(e.pg, e.pg.operator).value, Seen(e.pg, d.name), d, fails).env, d)
  {
  }

  lemma DeletionMoves(e: Env, at: string, spec: RoleSpec, databases: seq<string>, d: Role, fails: nat -> bool)
    requires Sound(e.pg) && d.name == spec.name
    ensures Moves(e, OnDeletion(e, at, spec, databases, fails).env, d)
  {
    hide Sent, ReassignEach, OwnsSomething;
    if spec.name in e.pg.roles && !spec.keepOnDelete {
      var start := Deletion(e.pg, e.pools, e.calls, e.writes, true);
      if spec.reassignOwnedTo == "" {
        DropSubmitted(start, at, spec.name, fails);
      } else {
        DropKeepsOperator(start, at, spec.name, spec.reassignOwnedTo, databases, fails);
      }
    }
  }

  lemma DropSubmitted(d: Deletion, at: string, role: string, fails: nat -> bool)
    requires d.ok
    ensures var r := Sent(d, at, DropsRole(role), fails);
            if r.ok then r.pg == Dropped(d.pg, role) && role != d.pg.operator else r.pg == d.pg
  {
    hide Sayable;
  }

  lemma DropKeepsOperator(d: Deletion, at: string, role: string, to: string, databases: seq<string>, fails: nat -> bool)
    requires d.ok && to != ""
    ensures var r := Deleted(d, at, role, true, false, to, databases, fails);
            && r.pg.operator == d.pg.operator
            && (r.pg.roles == d.pg.roles ||
                (role in d.pg.roles && role != d.pg.operator && r.pg.roles == d.pg.roles - {role}))
  {
    hide Sent, ReassignEach, OwnsSomething, HandedOver, Dropped;
    HandsOverThenDrops(d, at, role, to, databases, fails);
    if !fails(d.calls) {
      var r := ReassignEach(d.(calls := d.calls + 1), databases, role, to, fails);
      NothingHandedOver(d.pg, role, to);
      ReassignsSome(d.(calls := d.calls + 1), databases, role, to, fails, d.pg, {});
      if r.ok { DropSubmitted(r, at, role, fails); }
      DroppedRoles(r.pg, role);
    }
  }

  lemma DroppedRoles(pg: Pg, role: string)
    ensures Dropped(pg, role).roles == pg.roles - {role} && Dropped(pg, role).operator == pg.operator
  {
  }

  lemma MembershipStage(e: Env, role: string, desired: seq<string>, listing: seq<string>, fails: nat -> bool)
    ensures SameRoles(e, OnMembership(e, role, desired, listing, fails).env)
    ensures OnMembership(e, role, desired, listing, fails).env.secrets == e.secrets
  {
    hide Execute;
  }

  lemma SecretStage(e: Env, s: Setup, namespace: string, spec: RoleSpec, d: Role, fails: nat -> bool)
    ensures SameRoles(e, OnSecret(e, s, namespace, spec, d, fails).env)
  {
    hide DesiredData;
  }

  lemma OtherStages(e: Env, s: Setup, r: Resource, d: Role, c: Choices, fails: nat -> bool)
    ensures SameRoles(e, OnMembership(e, d.name, r.spec.memberOf, c.groups, fails).env)
    ensures SameRoles(e, OnSecret(e, s, r.name.namespace, r.spec, d, fails).env)
    ensures forall o: Obj, needed :: SameRoles(e, OnResource(e, s, r.name, o, needed, fails).env)
    ensures SameRoles(e, FetchPassword(e, r.name.namespace, r.spec, c.generated, fails).env)
  {
    hide OnMembership, OnSecret;
    MembershipStage(e, d.name, r.spec.memberOf, c.groups, fails);
    SecretStage(e, s, r.name.namespace, r.spec, d, fails);
  }

  lemma MovesThrough(e0: Env, e1: Env, e2: Env, e3: Env, d: Role)
    requires SameRoles(e0, e1) && Moves(e1, e2, d) && SameRoles(e2, e3)
    ensures Moves(e0, e3, d)
  {
  }

  lemma ActMoves(e: Env, s: Setup, r: Resource, d: Role, c: Choices, fails: nat -> bool)
    requires Sound(e.pg) && d.name == r.spec.name
    ensures Moves(e, Act(e, s, r, Seen(e.pg, e.pg.operator).value, Seen(e.pg, d.name), d, c, fails).env, d)
  {
    hide OnCreation, OnDeletion, OnMembership, OnSecret, OnResource, Moves, PassRuns.GatedCopy;
    OtherStages(e, s, r, d, c, fails);
    if r.copy.deleting {
      DeletionMoves(e, s.database, r.spec, c.databases, d, fails);
      var gone := OnDeletion(e, s.database, r.spec, c.databases, fails).env;
      OtherStages(gone, s, r, d, c, fails);
      MovesThrough(e, e, gone, gone, d);
      MovesThrough(e, e, gone, OnResource(gone, s, r.name, r.copy.(finalizer := false), true, fails).env, d);
      Stays(e, d);
    } else {
      var held := OnGate(e, s, r, fails).env;
      Stays(held, d);
      MovesThrough(e, held, held, held, d);
      if OnGate(e, s, r, fails).ok {
        ConvergeMoves(held, s, Held(e, s, r), d, c, fails);
        SeenSame(e, held, d.name);
        var operator := Seen(e.pg, e.pg.operator).value;
        var done := Converge(held, s, Held(e, s, r), operator, Seen(e.pg, d.name), d, c, fails).env;
        MovesThrough(e, held, done, done, d);
      }
    }
  }

  lemma SeenSame(e: Env, e': Env, name: string)
    requires SameRoles(e, e')
    ensures Seen(e.pg, name) == Seen(e'.pg, name) && Seen(e.pg, e.pg.operator) == Seen(e'.pg, e'.pg.operator)
  {
  }

  lemma Stays(e: Env, d: Role)
    requires Sound(e.pg)
    ensures Moves(e, e, d)
  {
  }

  lemma ConvergeMoves(e: Env, s: Setup, r: Resource, d: Role, c: Choices, fails: nat -> bool)
    requires Sound(e.pg) && d.name == r.spec.name
    ensures Moves(e, Converge(e, s, r, Seen(e.pg, e.pg.operator).value, Seen(e.pg, d.name), d, c, fails).env, d)
  {
    hide OnCreation, OnMembership, OnSecret, OnResource, Moves;
    CreationMoves(e, d, fails);
    var made := OnCreation(e, Seen(e.pg, e.pg.operator).value, Seen(e.pg, d.name), d, fails);
    MovesThrough(e, e, made.env, made.env, d);
    if made.ok {
      OtherStages(made.env, s, r, d, c, fails);
      var joined := OnMembership(made.env, d.name, r.spec.memberOf, c.groups, fails);
      MovesThrough(e, e, made.env, joined.env, d);
      OtherStages(joined.env, s, r, d, c, fails);
      var kept := OnSecret(joined.env, s, r.name.namespace, r.spec, d, fails);
      MovesThrough(e, e, made.env, kept.env, d);
      OtherStages(kept.env, s, r, d, c, fails);
      var o := r.copy.(succeeded := true);
      MovesThrough(e, e, made.env, OnResource(kept.env, s, r.name, o, !r.copy.succeeded, fails).env, d);
    }
  }

  /** The desired role of a pass, with the password it fetched if it got one. */
  ghost function DesiredOf(e: Env, r: Resource, c: Choices, fails: nat -> bool): Role {
    Desired(r.spec, FetchPassword(e, r.name.namespace, r.spec, c.generated, fails).password.GetOr(""))
  }

  lemma PassMoves(e: Env, s: Setup, r: Resource, c: Choices, fails: nat -> bool)
    requires Sound(e.pg)
    ensures Moves(e, RolePass(e, s, r, c, fails).env, DesiredOf(e, r, c, fails))
  {
    hide FetchPassword, Act, Moves;
    var d := DesiredOf(e, r, c, fails);
    OtherStages(e, s, r, d, c, fails);
    var fetched := FetchPassword(e, r.name.namespace, r.spec, c.generated, fails);
    var e1 := fetched.env;
    Stays(e1, d);
    MovesThrough(e, e1, e1, Asked(e1), d);
    MovesThrough(e, e1, e1, Asked(Asked(e1)), d);
    MovesThrough(e, e1, e1, e1, d);
    if fetched.password.Some? {
      var e2 := Asked(Asked(e1));
      ActMoves(e2, s, r, d, c, fails);
      SeenSame(e1, e2, r.spec.name);
      var acted := Act(e2, s, r, Seen(e2.pg, e2.pg.operator).value, Seen(e2.pg, d.name), d, c, fails).env;
      MovesThrough(e, e2, acted, acted, d);
    }
  }

  // ----- what one pass can do to Secrets -----

  /** Only the resource's own Secret can change, and only to what the resource declares. */
  ghost predicate SecretMoves(e: Env, e': Env, s: Setup, r: Resource, d: Role) {
    var name, data := SecretName(r.name.namespace, r.spec.secretName), DesiredData(s, r.spec, d);
    || e'.secrets == e.secrets
    || (r.spec.secretName != "" &&
        e'.secrets == e.secrets[
          name := if name in e.secrets then Repaired(e.secrets[name], data) else Secret(true, data)])
  }

  lemma CreationKeepsSecrets(e: Env, operator: Role, existing: Option<Role>, d: Role, fails: nat -> bool)
    ensures OnCreation(e, operator, existing, d, fails).env.secrets == e.secrets
  {
    hide AfterCreate, AfterAlter, MayChange, Blank;
  }

  lemma DeletionKeepsSecrets(e: Env, at: string, spec: RoleSpec, databases: seq<string>, fails: nat -> bool)
    ensures OnDeletion(e, at, spec, databases, fails).env.secrets == e.secrets
  {
    hide Deleted;
  }

  lemma SecretsKept(e: Env, s: Setup, r: Resource, operator: Role, existing: Option<Role>, d: Role, c: Choices,
                    fails: nat -> bool)
    ensures FetchPassword(e, r.name.namespace, r.spec, c.generated, fails).env.secrets == e.secrets
    ensures OnCreation(e, operator, existing, d, fails).env.secrets == e.secrets
    ensures OnDeletion(e, s.database, r.spec, c.databases, fails).env.secrets == e.secrets
    ensures forall o: Obj, needed :: OnResource(e, s, r.name, o, needed, fails).env.secrets == e.secrets
  {
    hide OnCreation, OnDeletion, EditedAll, IsLatest, Append;
    CreationKeepsSecrets(e, operator, existing, d, fails);
    DeletionKeepsSecrets(e, s.database, r.spec, c.databases, fails);
  }

  lemma SecretStageMoves(e: Env, s: Setup, r: Resource, d: Role, fails: nat -> bool)
    ensures var out := OnSecret(e, s, r.name.namespace, r.spec, d, fails);
            && SecretMoves(e, out.env, s, r, d)
            && (out.ok && r.spec.secretName != "" ==>
                 var name, data := SecretName(r.name.namespace, r.spec.secretName), DesiredData(s, r.spec, d);
                 name in out.env.secrets &&
                 out.env.secrets[name] ==
                   if name in e.secrets then Repaired(e.secrets[name], data) else Secret(true, data))
  {
    hide DesiredData, Repaired;
  }

  lemma ConvergeSecrets(e: Env, s: Setup, r: Resource, operator: Role, existing: Option<Role>, d: Role, c: Choices,
                        fails: nat -> bool)
    ensures SecretMoves(e, Converge(e, s, r, operator, existing, d, c, fails).env, s, r, d)
  {
    hide OnCreation, OnMembership, OnSecret, OnResource, DesiredData, Repaired;
    SecretsKept(e, s, r, operator, existing, d, c, fails);
    var made := OnCreation(e, operator, existing, d, fails);
    MembershipStage(made.env, d.name, r.spec.memberOf, c.groups, fails);
    var joined := OnMembership(made.env, d.name, r.spec.memberOf, c.groups, fails);
    SecretStageMoves(joined.env, s, r, d, fails);
    var kept := OnSecret(joined.env, s, r.name.namespace, r.spec, d, fails);
    SecretsKept(kept.env, s, r, operator, existing, d, c, fails);
  }

  lemma ActSecrets(e: Env, s: Setup, r: Resource, operator: Role, existing: Option<Role>, d: Role, c: Choices,
                   fails: nat -> bool)
    ensures SecretMoves(e, Act(e, s, r, operator, existing, d, c, fails).env, s, r, d)
  {
    hide OnDeletion, OnResource, Converge, DesiredData, Repaired, PassRuns.GatedCopy;
    SecretsKept(e, s, r, operator, existing, d, c, fails);
    SecretsKept(OnDeletion(e, s.database, r.spec, c.databases, fails).env, s, r, operator, existing, d, c, fails);
    ConvergeSecrets(OnGate(e, s, r, fails).env, s, Held(e, s, r), operator, existing, d, c, fails);
  }

  lemma PassSecrets(e: Env, s: Setup, r: Resource, c: Choices, fails: nat -> bool)
    ensures SecretMoves(e, RolePass(e, s, r, c, fails).env, s, r, DesiredOf(e, r, c, fails))
  {
    hide FetchPassword, Act, DesiredData, Repaired;
    var fetched := FetchPassword(e, r.name.namespace, r.spec, c.generated, fails);
    var d := DesiredOf(e, r, c, fails);
    SecretsKept(e, s, r, d, None, d, c, fails);
    var e2 := Asked(Asked(fetched.env));
    if fetched.password.Some? && e2.pg.operator in e2.pg.roles {
      ActSecrets(e2, s, r, Seen(e2.pg, e2.pg.operator).value, Seen(e2.pg, r.spec.name), d, c, fails);
    }
  }
}
