/** The role reconciler itself, proved to do exactly what RolePasses says one pass does. */
module RoleReconciler {
  import opened Wrappers
  import opened Statements
  import opened Outside
  import opened Pools
  import opened SetReconciliation
  import opened RoleStatements
  import opened RolePasses
  import opened SecretData
  import opened Resources
  import opened CustomResources
  import Memberships
  import SqlText
  import PassRuns
  import RoleDeletion

  type PostgresRole = CustomResource<RoleSpec>

  ghost function AsRead(resource: PostgresRole): Resource
    reads resource
  {
    Resource(resource.name, resource.spec, resource.copy)
  }

  method GeneratePassword(length: nat) returns (password: string)
    ensures |password| == length && forall i :: 0 <= i < length ==> password[i] in CHARSET
    ensures forall c :: c in password ==> 'a' <= c <= 'z' || 'A' <= c <= 'Z' || '0' <= c <= '9'
  {
    hide CHARSET;
    CharsetLength();
    var result := new char[length];
    for i := 0 to length
      invariant forall j :: 0 <= j < i ==> result[j] in CHARSET
    {
      var k: nat :| k < |CHARSET|;
      result[i] := CHARSET[k];
    }
    password := result[..];
    LettersAndDigits();
  }

  lemma LettersAndDigits()
    ensures forall c :: c in CHARSET ==> 'a' <= c <= 'z' || 'A' <= c <= 'Z' || '0' <= c <= '9'
  {
    hide SMALL, CAPITAL, DIGITS;
    OfSmall();
    OfCapital();
    OfDigits();
  }

  lemma OfSmall()
    ensures |SMALL| == 26 && forall c :: c in SMALL ==> 'a' <= c <= 'z'
  {
  }

  lemma OfCapital()
    ensures |CAPITAL| == 26 && forall c :: c in CAPITAL ==> 'A' <= c <= 'Z'
  {
  }

  lemma OfDigits()
    ensures |DIGITS| == 10 && DIGITS[9] == '9' && forall c :: c in DIGITS ==> '0' <= c <= '9'
  {
  }

  lemma CharsetLength()
    ensures |CHARSET| == 62 && CHARSET[61] == '9'
  {
    hide SMALL, CAPITAL, DIGITS;
    OfSmall();
    OfCapital();
    OfDigits();
  }

  /** Stands for the password of a pass that needs none. */
  ghost function AnyPassword(): (password: string)
    ensures Generated(password) && |password| == 64 && forall c :: c in password ==> c == '9'
  {
    CharsetLength();
    seq(64, i => '9')
  }

  lemma IsGenerated(password: string)
    requires |password| == 64 && forall i :: 0 <= i < |password| ==> password[i] in CHARSET
    ensures Generated(password)
  {
  }

  /**
   What the reconciliation of a Secret leaves, and when it writes: with a name it is there, labelled, and shows the
   connection settings (or prints alike, which is the same for keys that Kubernetes admits); it is written exactly when
   it changes; other Secrets are left alone.
   */
  ghost predicate LeavesSecret(before: map<SecretName, Secret>, after: map<SecretName, Secret>, name: SecretName,
                               spec: RoleSpec, vars: Vars, render: (string, Vars) -> string, err: bool, sent: int)
  {
    && (err || spec.secretName == "" ==> after == before)
    && (!err ==> (sent == 0 <==> after == before))
    && (!err && spec.secretName != "" ==>
          && name in after && after[name].managed && after == before[name := after[name]]
          && (exists data: Data :: Shows(data, spec.secretTemplate, vars, render)
                                   && Sprint(after[name].data) == Sprint(data))
          && ((name in before ==> SecretKeys(before[name].data))
              && SecretKeys(map k | k in spec.secretTemplate :: "") ==>
                Shows(after[name].data, spec.secretTemplate, vars, render)))
  }

  class Reconciler {
    const world: World
    const pools: PgPools
    const render: (string, Vars) -> string
    const keywords: set<string>
    var cache: map<string, string>

    constructor (world: World, pools: PgPools, render: (string, Vars) -> string, keywords: set<string>)
      ensures this.world == world && this.pools == pools && this.render == render && this.keywords == keywords
      ensures cache == map[]
    {
      this.world, this.pools, this.render, this.keywords := world, pools, render, keywords;
      cache := map[];
    }

    ghost function Setup(): Setup
      reads pools, pools.default.config
    {
      var c := pools.default.config;
      RolePasses.Setup(c.host, c.port, c.database, render, keywords, world.edits)
    }

    ghost function Env(): Env
      reads this, world, pools, pools.default.config
      reads set d | d in pools.databases && pools.databases[d] != null :: pools.databases[d].config
    {
      RolePasses.Env(world.pg, world.secrets, world.resources, cache, pools.Bindings(), world.calls, world.writes)
    }

    method RetrieveRolePassword(resource: PostgresRole) returns (err: bool, password: string, ghost generated: string)
      modifies world`calls
      ensures var f := FetchPassword(old(Env()), resource.name.namespace, resource.spec, generated, world.fails);
              Env() == f.env && (err <==> f.password.None?) && (!err ==> password == f.password.value)
      ensures Generated(generated) && |generated| == 64
      ensures forall c :: c in generated ==> 'a' <= c <= 'z' || 'A' <= c <= 'Z' || '0' <= c <= '9'
      // the Secret the user named holds it
      ensures resource.spec.passwordFrom.Some? ==>
                var name := SecretName(resource.name.namespace, resource.spec.passwordFrom.value.0);
                var key := resource.spec.passwordFrom.value.1;
                && world.calls == old(world.calls) + 1
                && (err <==> world.fails(old(world.calls)) || name !in world.secrets
                             || key !in world.secrets[name].data)
                && (!err ==> password == world.secrets[name].data[key])
      // the generated Secret holds it, else the cache, else it is new
      ensures resource.spec.passwordFrom.None? ==>
                var name := SecretName(resource.name.namespace, resource.spec.secretName);
                var read := resource.spec.secretName != "";
                && world.calls == old(world.calls) + (if read then 1 else 0)
                && (err <==> read && (world.fails(old(world.calls)) ||
                                      (name in world.secrets && "PGPASSWORD" !in world.secrets[name].data)))
                && (!err ==> password == if read && name in world.secrets then world.secrets[name].data["PGPASSWORD"]
                                         else if resource.spec.name in cache then cache[resource.spec.name]
                                         else generated)
    {
      hide Generated;
      err, password, generated := false, "", AnyPassword();
      if resource.spec.passwordFrom.Some? {
        var secret;
        err, secret := world.GetSecret(SecretName(resource.name.namespace, resource.spec.passwordFrom.value.0));
        if err || secret.None? { return true, "", AnyPassword(); }
        var key := resource.spec.passwordFrom.value.1;
        if key !in secret.value.data { return true, "", AnyPassword(); }
        return false, secret.value.data[key], AnyPassword();
      }
      if resource.spec.secretName != "" {
        var secret;
        err, secret := world.GetSecret(SecretName(resource.name.namespace, resource.spec.secretName));
        if err { return; }
        if secret.Some? {
          if "PGPASSWORD" !in secret.value.data { return true, "", AnyPassword(); }
          return false, secret.value.data["PGPASSWORD"], AnyPassword();
        }
      }
      if resource.spec.name in cache { return false, cache[resource.spec.name], AnyPassword(); }
      password := GeneratePassword(64);
      generated := password;
      IsGenerated(generated);
    }

    method ReconcileOnCreation(operator: Role, existing: Option<Role>, desired: Role) returns (err: bool)
      modifies this`cache, world`pg, world`calls, world`writes, world`sent
      ensures var out := OnCreation(old(Env()), operator, existing, desired, world.fails);
              Env() == out.env && err == !out.ok
    {
      hide MayChange, AfterCreate, AfterAlter, OptionsText, Diff, SqlText.Quote;
      var at := pools.default.config.database;
      if existing.None? {
        err := SendCreateRole(world, at, operator, desired);
        if err { return; }
        cache := cache[desired.name := desired.password];
        return;
      }
      var needUpdate := false;
      if desired.password != Cached(cache, desired.name) { needUpdate := true; }
      if existing.value != desired.(password := "") { needUpdate := true; }
      err := false;
      if needUpdate {
        err := SendAlterRole(world, at, operator, existing.value, desired);
        if err { return; }
        cache := cache[desired.name := desired.password];
      }
    }

    method DesiredSecretData(spec: RoleSpec, role: Role) returns (data: map<string, string>)
      ensures data == DesiredData(Setup(), spec, role)
    {
      hide DesiredData;
      var config := pools.default.Config();
      var setup := RolePasses.Setup(config.host, config.port, config.database, render, keywords, world.edits);
      data := DesiredData(setup, spec, role);
    }

    method ReconcileRoleSecret(namespace: string, spec: RoleSpec, role: Role) returns (err: bool)
      modifies world`secrets, world`calls, world`writes
      ensures var out := OnSecret(old(Env()), Setup(), namespace, spec, role, world.fails);
              Env() == out.env && err == !out.ok
      ensures var c, name := pools.default.config, SecretName(namespace, spec.secretName);
              var vars := Vars(role := role.name, password := role.password, host := c.host, port := c.port,
                               database := c.database);
              LeavesSecret(old(world.secrets), world.secrets, name, spec, vars, render, err,
                           world.writes - old(world.writes))
    {
      hide DesiredData, Repaired, LeavesSecret, Shows, Sprint, SecretKeys;
      SecretLeft(Env(), Setup(), namespace, spec, role, world.fails);
      if spec.secretName == "" { return false; }
      var data := DesiredSecretData(spec, role);
      err := StoreSecret(SecretName(namespace, spec.secretName), data);
    }

    /** Creates the Secret, or repairs the one that is there. */
    method StoreSecret(name: SecretName, data: map<string, string>) returns (err: bool)
      modifies world`secrets, world`calls, world`writes
      ensures var e := old(Env());
              var next := if name in e.secrets then Repaired(e.secrets[name], data) else Secret(true, data);
              if world.fails(e.calls) then err && Env() == Asked(e)
              else if name in e.secrets && next == e.secrets[name] then !err && Env() == Asked(e)
              else if world.fails(e.calls + 1) then err && Env() == Written(Asked(e))
              else !err && Env() == Written(Asked(e)).(secrets := e.secrets[name := next])
    {
      hide Repaired;
      var found;
      err, found := world.GetSecret(name);
      if err { return; }
      if found.None? {
        err := world.PutSecret(name, Secret(true, data));
        return;
      }
      err := RepairSecret(name, found.value, data);
    }

    lemma SecretLeft(e: RolePasses.Env, s: Setup, namespace: string, spec: RoleSpec, role: Role, fails: nat -> bool)
      ensures var out := OnSecret(e, s, namespace, spec, role, fails);
              LeavesSecret(e.secrets, out.env.secrets, SecretName(namespace, spec.secretName), spec,
                           Vars(role := role.name, password := role.password, host := s.host, port := s.port,
                                database := s.database), s.render, !out.ok, out.env.writes - e.writes)
    {
      hide DesiredData, Shows, Sprint, SecretKeys;
      DataShows(s, spec, role);
      var name, data := SecretName(namespace, spec.secretName), DesiredData(s, spec, role);
      if name in e.secrets && SecretKeys(e.secrets[name].data) && SecretKeys(map k | k in spec.secretTemplate :: "") {
        DesiredKeysFit(s, spec, role);
        RepairedIs(e.secrets[name], data);
      }
    }

    /** Sets the label and the data where they differ, and writes the Secret if anything did. */
    method RepairSecret(name: SecretName, found: Secret, data: map<string, string>) returns (err: bool)
      modifies world`secrets, world`calls, world`writes
      ensures var e, next := old(Env()), Repaired(found, data);
              if next == found then !err && Env() == e
              else if world.fails(e.calls) then err && Env() == Written(e)
              else !err && Env() == Written(e).(secrets := e.secrets[name := next])
    {
      hide Sprint;
      err := false;
      var toUpdate, secret := false, found;
      if !secret.managed {
        secret := secret.(managed := true);
        toUpdate := true;
      }
      if Sprint(secret.data) != Sprint(data) {
        secret := secret.(data := data);
        toUpdate := true;
      }
      if toUpdate {
        err := world.PutSecret(name, secret);
      }
    }

    method Mark(resource: PostgresRole) returns (err: bool)
      modifies resource`copy, world`calls, world`writes, world`resources, world`puts
      ensures var o := old(resource.copy);
              var marked := o.(succeeded := true);
              var out := OnResource(old(Env()), Setup(), resource.name, marked, !o.succeeded, world.fails);
              Env() == out.env && err == !out.ok
      ensures old(world.puts) <= world.puts
    {
      hide EditedAll, IsLatest, Append;
      ghost var status;
      err, status := MarkSucceeded(world, resource);
    }

    method Gate(resource: PostgresRole) returns (err: bool)
      requires !resource.copy.deleting
      modifies resource`copy, world`calls, world`writes, world`resources, world`puts
      ensures var out := OnGate(old(Env()), Setup(), old(AsRead(resource)), world.fails);
              Env() == out.env && err == !out.ok
      ensures !err ==> AsRead(resource) == Held(old(Env()), Setup(), old(AsRead(resource)))
      ensures !err && !old(resource.copy).finalizer ==>
                var stored := old(resource.copy).(finalizer := true);
                world.puts == old(world.puts) + [Record(world.pg, resource.name, stored)]
      ensures err ==> world.puts == old(world.puts)
    {
      hide EditedAll, IsLatest, Append;
      ghost var gate;
      err, gate := AddFinalizer(world, resource);
    }

    method Release(resource: PostgresRole) returns (err: bool)
      modifies resource`copy, world`calls, world`writes, world`resources, world`puts
      ensures var o := old(resource.copy).(finalizer := false);
              var out := OnResource(old(Env()), Setup(), resource.name, o, true, world.fails);
              Env() == out.env && err == !out.ok
      ensures ReleasedLast(old(world.puts), world.puts, resource.name, world.pg)
    {
      hide EditedAll, IsLatest, Append;
      ghost var release;
      err, release := ReleaseFinalizer(world, resource);
    }

    /** The creation branch after the finalizer. */
    method ConvergeRole(resource: PostgresRole, operator: Role, existing: Option<Role>, desired: Role)
        returns (err: bool, ghost groups: seq<string>)
      requires Sound(world.pg) && existing == Seen(world.pg, desired.name) && desired.name == resource.spec.name
      modifies this`cache, resource`copy, world
      ensures forall c: Choices :: c.groups == groups ==>
                var r := old(AsRead(resource));
                var out := Converge(old(Env()), Setup(), r, operator, existing, desired, c, world.fails);
                Env() == out.env && err == !out.ok
      ensures GroupsFit(old(Env()), Setup(), operator, existing, desired, groups, world.fails)
      ensures old(world.puts) <= world.puts
    {
      hide OnCreation, OnMembership, OnSecret, OnResource, Sound, ListsGroups;
      groups := [];
      var at := pools.default.config.database;
      err := ReconcileOnCreation(operator, existing, desired);
      if err { return; }
      RoleExists(old(Env()), operator, existing, desired, world.fails);
      err, groups := Join(at, desired.name, resource.spec.memberOf);
      if err { return; }
      err := ReconcileRoleSecret(resource.name.namespace, resource.spec, desired);
      if err { return; }
      err := Mark(resource);
    }

    lemma RoleExists(e: Env, operator: Role, existing: Option<Role>, desired: Role, fails: nat -> bool)
      requires Sound(e.pg) && existing == Seen(e.pg, desired.name)
      ensures var out := OnCreation(e, operator, existing, desired, fails);
              out.ok ==> desired.name in out.env.pg.roles && desired.name != ""
    {
      hide MayChange;
    }

    method Join(at: string, role: string, desired: seq<string>) returns (err: bool, ghost groups: seq<string>)
      requires role in world.pg.roles && role != ""
      modifies world`pg, world`calls, world`writes, world`sent
      ensures var out := OnMembership(old(Env()), role, desired, groups, world.fails);
              Env() == out.env && err == !out.ok
      ensures !world.fails(old(world.calls)) ==> ListsGroups(Setup(), old(world.pg).members, role, groups)
    {
      hide Memberships.WithMembership, Execute, Memberships.MembershipRules, DropFirst, Memberships.Groups;
      hide Memberships.Rows;
      ghost var listed;
      err, listed, groups := Memberships.ReconcileRoleMembership(world, keywords, at, role, desired);
      ExecuteAdvances(Memberships.MembershipRules(old(world.pg).roles.Keys), DropFirst(groups, desired),
                      Memberships.Groups(old(world.pg).members, role), world.fails, old(world.calls) + 1);
    }

    /** Deletion or creation, once the password and both roles are known. */
    method ActOn(resource: PostgresRole, operator: Role, existing: Option<Role>, desired: Role)
        returns (err: bool, ghost groups: seq<string>, ghost databases: seq<string>)
      requires BoundToKeys(pools.Bindings()) && Sound(world.pg)
      requires existing == Seen(world.pg, desired.name) && desired.name == resource.spec.name
      modifies this`cache, resource`copy, pools`databases, world
      ensures BoundToKeys(pools.Bindings())
      ensures forall c: Choices :: c.groups == groups && c.databases == databases ==>
                var r := old(AsRead(resource));
                var out := Act(old(Env()), Setup(), r, operator, existing, desired, c, world.fails);
                Env() == out.env && err == !out.ok
                && ActFits(old(Env()), Setup(), r, operator, existing, desired, c, world.fails)
      ensures !old(resource.copy).deleting && !old(resource.copy).finalizer ==>
                StoredFirst(old(world.puts), world.puts, resource.name, old(world.pg), world.pg)
      ensures old(resource.copy).deleting ==>
                ReleasedLast(old(world.puts), world.puts, resource.name, world.pg)
    {
      hide Converge, OnDeletion, OnGate, OnResource, Held, Sound, GroupsFit, DatabasesFit;
      groups, databases, err := [], [], false;
      if resource.copy.deleting {
        if !resource.copy.finalizer { return; }
        err, databases := Delete(resource.spec, existing);
        if err { return; }
        err := Release(resource);
        return;
      }
      GateKeeps(old(Env()), Setup(), AsRead(resource), world.fails);
      err := Gate(resource);
      if err { return; }
      err, groups := ConvergeRole(resource, operator, existing, desired);
    }

    lemma GateKeeps(e: Env, s: Setup, r: Resource, fails: nat -> bool)
      ensures OnGate(e, s, r, fails).env.pg == e.pg
    {
    }

    method FindRoles(name: string) returns (err: bool, existing: Option<Role>, operator: Option<Role>)
      modifies world`calls
      ensures var e := old(Env());
              && Env() == (if world.fails(e.calls) then Asked(e) else Asked(Asked(e)))
              && (err <==> world.fails(e.calls) || world.fails(e.calls + 1))
              && (!err ==> existing == Seen(e.pg, name) && operator == Seen(e.pg, e.pg.operator))
    {
      operator := None;
      err, existing := world.GetRole(name);
      if err { return; }
      err, operator := world.GetRole(world.pg.operator);
    }

    /** One pass, after the resource has been read and found to belong to this operator instance. */
    method Reconcile(resource: PostgresRole) returns (err: bool, ghost c: Choices)
      requires BoundToKeys(pools.Bindings()) && Sound(world.pg)
      modifies this`cache, resource`copy, pools`databases, world
      ensures BoundToKeys(pools.Bindings())
      ensures var r := old(AsRead(resource));
              var out := RolePass(old(Env()), Setup(), r, c, world.fails);
              Env() == out.env && err == !out.ok && Fits(old(Env()), Setup(), r, c, world.fails)
      ensures Setup() == old(Setup())
      ensures !old(resource.copy).deleting && !old(resource.copy).finalizer ==>
                StoredFirst(old(world.puts), world.puts, resource.name, old(world.pg), world.pg)
      ensures old(resource.copy).deleting ==>
                ReleasedLast(old(world.puts), world.puts, resource.name, world.pg)
    {
      hide FetchPassword, Act, ActFits, Generated;
      var password;
      ghost var generated;
      err, password, generated := RetrieveRolePassword(resource);
      c := Choices(generated, [], []);
      if err { return; }
      FetchKeeps(old(Env()), resource.name.namespace, resource.spec, generated, world.fails);
      var desired := Desired(resource.spec, password);
      var existing, operator;
      err, existing, operator := FindRoles(resource.spec.name);
      if err { return; }
      ghost var groups, databases;
      err, groups, databases := ActOn(resource, operator.value, existing, desired);
      c := Choices(generated, groups, databases);
    }

    lemma FetchKeeps(e: Env, namespace: string, spec: RoleSpec, generated: string, fails: nat -> bool)
      ensures FetchPassword(e, namespace, spec, generated, fails).env.pg == e.pg
    {
    }

    method Delete(spec: RoleSpec, existing: Option<Role>) returns (err: bool, ghost databases: seq<string>)
      requires BoundToKeys(pools.Bindings()) && existing == Seen(world.pg, spec.name)
      modifies pools`databases, world`pg, world`calls, world`writes, world`sent
      ensures BoundToKeys(pools.Bindings())
      ensures var out := OnDeletion(old(Env()), pools.default.config.database, spec, databases, world.fails);
              Env() == out.env && err == !out.ok
      ensures DatabasesFit(old(Env()), spec, databases, world.fails)
    {
      hide RoleDeletion.Deleted;
      err, databases := RoleDeletion.ReconcileOnDeletion(
        world, pools, pools.default.config.database, existing, spec.keepOnDelete, spec.reassignOwnedTo);
      assert RoleDeletion.Now(world, pools, !err) ==
             RoleDeletion.Deletion(world.pg, pools.Bindings(), world.calls, world.writes, !err);
    }
  }
}
