/**
 Runs of the role reconciler: passes over any resources in any order, with failures anywhere, restarts that
 clear the operator's memory, edits of Secrets by users, and the work of the other reconcilers.
 */
module RoleRuns {
  import opened Wrappers
  import opened Statements
  import opened Outside
  import opened Pools
  import opened RoleStatements
  import opened RolePasses
  import opened SecretData
  import opened Resources
  import SetReconciliation

  datatype Event =
    | Pass(resource: Resource, choices: Choices, fails: nat -> bool)
    | Restart(pools: Bindings)
    | EditSecret(name: SecretName, secret: Option<Secret>)
    | EditResource(resourceName: ResourceName, edit: Edit)
    | Elsewhere(databases: map<string, Database>, grants: set<Grant>, pools: Bindings)

  ghost function After(e: Env, s: Setup, ev: Event): Env {
    match ev
    case Pass(r, c, fails) => RolePass(e, s, r, c, fails).env
    case Restart(pools) => e.(cache := map[], pools := pools)
    case EditSecret(name, secret) =>
      e.(secrets := if secret.Some? then e.secrets[name := secret.value] else e.secrets - {name})
    case EditResource(name, edit) =>
      e.(resources := e.resources[name := Edited(HistoryOf(e.resources, name), edit)])
    case Elsewhere(databases, grants, pools) =>
      e.(pg := e.pg.(databases := databases, grants := grants), pools := pools)
  }

  ghost function AfterAll(e: Env, s: Setup, evs: seq<Event>): Env
    decreases |evs|
  {
    if evs == [] then e else AfterAll(After(e, s, evs[0]), s, evs[1..])
  }

  /** What every event does to roles and cache: nothing, a cleared cache, or one role's move. */
  lemma EventMoves(e: Env, s: Setup, ev: Event)
    requires Sound(e.pg)
    ensures var e' := After(e, s, ev);
            || SameRoles(e, e')
            || (e'.pg.operator == e.pg.operator && e'.pg.roles == e.pg.roles && e'.cache == map[])
            || (ev.Pass? && Moves(e, e', DesiredOf(e, ev.resource, ev.choices, ev.fails)))
  {
    hide RolePass, Moves, DesiredOf;
    if ev.Pass? { PassMoves(e, s, ev.resource, ev.choices, ev.fails); }
  }

  lemma MovesSound(e: Env, e': Env, d: Role)
    requires Sound(e.pg) && Moves(e, e', d)
    ensures Sound(e'.pg)
  {
    hide MayChange;
  }

  lemma StaysSound(e: Env, s: Setup, ev: Event)
    requires Sound(e.pg)
    ensures Sound(After(e, s, ev).pg)
  {
    hide After, Moves;
    EventMoves(e, s, ev);
    if ev.Pass? && Moves(e, After(e, s, ev), DesiredOf(e, ev.resource, ev.choices, ev.fails)) {
      MovesSound(e, After(e, s, ev), DesiredOf(e, ev.resource, ev.choices, ev.fails));
    }
  }

  // ----- the password cache -----

  /** A non-empty cache entry of a role that exists is the role's password. */
  ghost predicate CacheAgrees(e: Env) {
    forall n :: n in e.cache && e.cache[n] != "" && n in e.pg.roles ==> e.pg.roles[n].password == e.cache[n]
  }

  lemma MovesKeepCache(e: Env, e': Env, d: Role)
    requires CacheAgrees(e) && Moves(e, e', d)
    ensures CacheAgrees(e')
  {
    hide MayChange;
  }

  lemma EventKeepsCache(e: Env, s: Setup, ev: Event)
    requires Sound(e.pg) && CacheAgrees(e)
    ensures CacheAgrees(After(e, s, ev))
  {
    hide After, Moves;
    EventMoves(e, s, ev);
    var e' := After(e, s, ev);
    if ev.Pass? && Moves(e, e', DesiredOf(e, ev.resource, ev.choices, ev.fails)) {
      MovesKeepCache(e, e', DesiredOf(e, ev.resource, ev.choices, ev.fails));
    }
  }

  /**
   The cache agrees with the server in every state any run reaches, including runs with several
   resources for one role, roles dropped and created again, and passes that failed anywhere.
   */
  lemma {:induction false} CacheAgreesAlways(e: Env, s: Setup, evs: seq<Event>)
    requires Sound(e.pg) && CacheAgrees(e)
    ensures Sound(AfterAll(e, s, evs).pg) && CacheAgrees(AfterAll(e, s, evs))
    decreases |evs|
  {
    hide After;
    if evs != [] {
      StaysSound(e, s, evs[0]);
      EventKeepsCache(e, s, evs[0]);
      CacheAgreesAlways(After(e, s, evs[0]), s, evs[1..]);
    }
  }

  // ----- attributes the operator lacks -----

  ghost predicate Lacks(pg: Pg, a: Attribute) {
    pg.operator in pg.roles && a !in pg.roles[pg.operator].attributes
  }

  /** No surviving role gains or loses the attribute, and a new role has it only by CREATE ROLE's default. */
  ghost predicate Freezes(e: Env, e': Env, a: Attribute) {
    forall n :: n in e'.pg.roles ==>
      if n in e.pg.roles then a in e'.pg.roles[n].attributes <==> a in e.pg.roles[n].attributes
      else a in e'.pg.roles[n].attributes <==> a == Inherit
  }

  lemma MovesFreeze(e: Env, e': Env, d: Role, a: Attribute)
    requires Moves(e, e', d) && Lacks(e.pg, a)
    ensures Lacks(e'.pg, a) && Freezes(e, e', a)
  {
  }

  lemma EventFreezes(e: Env, s: Setup, ev: Event, a: Attribute)
    requires Sound(e.pg) && Lacks(e.pg, a)
    ensures Lacks(After(e, s, ev).pg, a) && Freezes(e, After(e, s, ev), a)
  {
    hide After, Moves;
    EventMoves(e, s, ev);
    var e' := After(e, s, ev);
    if ev.Pass? && Moves(e, e', DesiredOf(e, ev.resource, ev.choices, ev.fails)) {
      MovesFreeze(e, e', DesiredOf(e, ev.resource, ev.choices, ev.fails), a);
    }
  }

  /** The role exists in every state of the run. */
  ghost predicate Survives(e: Env, s: Setup, evs: seq<Event>, n: string)
    decreases |evs|
  {
    n in e.pg.roles && (evs == [] || Survives(After(e, s, evs[0]), s, evs[1..], n))
  }

  /**
   Once the operator lacks an attribute it lacks it for good, even when a resource manages the operator's
   own role, and over any run no role that survives gains or loses that attribute.
   */
  lemma {:induction false} AttributeFreeze(e: Env, s: Setup, evs: seq<Event>, a: Attribute, n: string)
    requires Sound(e.pg) && Lacks(e.pg, a)
    ensures var end := AfterAll(e, s, evs);
            Lacks(end.pg, a) &&
            (Survives(e, s, evs, n) ==>
              n in end.pg.roles && (a in end.pg.roles[n].attributes <==> a in e.pg.roles[n].attributes))
    decreases |evs|
  {
    hide After;
    if evs != [] {
      EventFreezes(e, s, evs[0], a);
      StaysSound(e, s, evs[0]);
      AttributeFreeze(After(e, s, evs[0]), s, evs[1..], a, n);
    }
  }

  // ----- a successful pass -----

  /** Keys the Kubernetes API admits, in what is stored and in what the template adds. */
  ghost predicate FitKeys(e: Env, spec: RoleSpec, namespace: string) {
    var name := SecretName(namespace, spec.secretName);
    && (name in e.secrets ==> SecretKeys(e.secrets[name].data))
    && SecretKeys(map k | k in spec.secretTemplate :: "")
  }

  lemma CreationOutcome(e: Env, d: Role, fails: nat -> bool)
    requires Sound(e.pg) && CacheAgrees(e)
    requires OnCreation(e, Seen(e.pg, e.pg.operator).value, Seen(e.pg, d.name), d, fails).ok
    ensures var out := OnCreation(e, Seen(e.pg, e.pg.operator).value, Seen(e.pg, d.name), d, fails).env;
            && d.name in out.pg.roles && Cached(out.cache, d.name) == d.password
            && (d.password != "" ==> out.pg.roles[d.name].password == d.password)
            && out.pg.roles[d.name].attributes ==
                 if d.name in e.pg.roles then d.attributes else d.attributes + {Inherit}
  {
    hide MayChange;
    if d.name in e.pg.roles {
      var row := e.pg.roles[d.name];
      assert row.attributes - (row.attributes - d.attributes) + (d.attributes - row.attributes) == d.attributes;
    }
  }

  /**
   After a successful pass that does not delete, the server, the cache and (with secretName) the Secret hold
   what is declared, but for the INHERIT of a role that was missing.
   */
  lemma PassAgrees(e: Env, s: Setup, r: Resource, c: Choices, fails: nat -> bool)
    requires Sound(e.pg) && CacheAgrees(e) && !r.copy.deleting && FitKeys(e, r.spec, r.name.namespace)
    ensures var out, d := RolePass(e, s, r, c, fails).env, DesiredOf(e, r, c, fails);
            RolePass(e, s, r, c, fails).ok ==>
            && r.spec.name in out.pg.roles && Cached(out.cache, r.spec.name) == d.password
            && (d.password != "" ==> out.pg.roles[r.spec.name].password == d.password)
            && out.pg.roles[r.spec.name].attributes ==
                 (if r.spec.name in e.pg.roles then r.spec.attributes else r.spec.attributes + {Inherit})
            && (r.spec.secretName != "" ==>
                 var name := SecretName(r.name.namespace, r.spec.secretName);
                 name in out.secrets && out.secrets[name] == Secret(true, DesiredData(s, r.spec, d)))
  {
    hide FetchPassword, OnCreation, OnMembership, OnSecret, OnResource, DesiredData, Repaired;
    if RolePass(e, s, r, c, fails).ok {
      var d := DesiredOf(e, r, c, fails);
      var e1 := FetchPassword(e, r.name.namespace, r.spec, c.generated, fails).env;
      OtherStages(e, s, r, d, c, fails);
      SecretsKept(e, s, r, d, None, d, c, fails);
      var e2 := Asked(Asked(e1));
      OtherStages(e2, s, r, d, c, fails);
      SecretsKept(e2, s, r, d, None, d, c, fails);
      var held := OnGate(e2, s, r, fails).env;
      ConvergeAgrees(held, s, Held(e2, s, r), d, c, fails);
    }
  }

  lemma ConvergeAgrees(e: Env, s: Setup, r: Resource, d: Role, c: Choices, fails: nat -> bool)
    requires Sound(e.pg) && CacheAgrees(e) && FitKeys(e, r.spec, r.name.namespace) && d.name == r.spec.name
    requires Converge(e, s, r, Seen(e.pg, e.pg.operator).value, Seen(e.pg, d.name), d, c, fails).ok
    ensures var out := Converge(e, s, r, Seen(e.pg, e.pg.operator).value, Seen(e.pg, d.name), d, c, fails).env;
            && d.name in out.pg.roles && Cached(out.cache, d.name) == d.password
            && (d.password != "" ==> out.pg.roles[d.name].password == d.password)
            && out.pg.roles[d.name].attributes ==
                 (if d.name in e.pg.roles then d.attributes else d.attributes + {Inherit})
            && (r.spec.secretName != "" ==>
                 var name := SecretName(r.name.namespace, r.spec.secretName);
                 name in out.secrets && out.secrets[name] == Secret(true, DesiredData(s, r.spec, d)))
  {
    hide OnCreation, OnMembership, OnSecret, OnResource, DesiredData, Repaired, SecretKeys;
    var operator, existing := Seen(e.pg, e.pg.operator).value, Seen(e.pg, d.name);
    CreationOutcome(e, d, fails);
    SecretsKept(e, s, r, operator, existing, d, c, fails);
    var made := OnCreation(e, operator, existing, d, fails).env;
    MembershipStage(made, d.name, r.spec.memberOf, c.groups, fails);
    var joined := OnMembership(made, d.name, r.spec.memberOf, c.groups, fails).env;
    SecretStage(joined, s, r.name.namespace, r.spec, d, fails);
    SecretStageMoves(joined, s, r, d, fails);
    var kept := OnSecret(joined, s, r.name.namespace, r.spec, d, fails).env;
    OtherStages(kept, s, r, d, c, fails);
    SecretsKept(kept, s, r, operator, existing, d, c, fails);
    var name := SecretName(r.name.namespace, r.spec.secretName);
    DesiredKeysFit(s, r.spec, d);
    if name in e.secrets { RepairedIs(e.secrets[name], DesiredData(s, r.spec, d)); }
  }

  /** The template leaves PGPASSWORD alone, or renders it to the password. */
  predicate ShowsPassword(s: Setup, spec: RoleSpec, d: Role) {
    "PGPASSWORD" !in spec.secretTemplate ||
    s.render(spec.secretTemplate["PGPASSWORD"], Vars(d.name, d.password, s.host, s.port, s.database)) == d.password
  }

  /** The Secret shows the password exactly when no template entry overrides it with something else. */
  lemma SecretShowsPassword(s: Setup, spec: RoleSpec, d: Role)
    ensures DesiredData(s, spec, d)["PGPASSWORD"] == d.password <==> ShowsPassword(s, spec, d)
  {
  }

  /**
   Three-way password agreement: after a successful pass with secretName and a non-empty password the server and
   the cache hold the password, and the Secret's PGPASSWORD is the same exactly when the template leaves that key
   alone or renders it to the password.
   */
  lemma ThreeCopiesAgree(e: Env, s: Setup, r: Resource, c: Choices, fails: nat -> bool)
    requires Sound(e.pg) && CacheAgrees(e) && !r.copy.deleting && FitKeys(e, r.spec, r.name.namespace)
    ensures var out, d := RolePass(e, s, r, c, fails).env, DesiredOf(e, r, c, fails);
            var name := SecretName(r.name.namespace, r.spec.secretName);
            RolePass(e, s, r, c, fails).ok && r.spec.secretName != "" && d.password != "" ==>
            && d.name in out.pg.roles && d.name in out.cache
            && name in out.secrets && "PGPASSWORD" in out.secrets[name].data
            && out.pg.roles[d.name].password == out.cache[d.name] == d.password
            && (out.secrets[name].data["PGPASSWORD"] == d.password <==> ShowsPassword(s, r.spec, d))
  {
    hide RolePass, DesiredOf, DesiredData, FitKeys;
    PassAgrees(e, s, r, c, fails);
    var d := DesiredOf(e, r, c, fails);
    PasswordKey(s, r.spec, d);
    SecretShowsPassword(s, r.spec, d);
    DesiredIs(e, r, c, fails);
  }

  lemma DesiredIs(e: Env, r: Resource, c: Choices, fails: nat -> bool)
    ensures DesiredOf(e, r, c, fails).name == r.spec.name
  {
  }

  // ----- the password does not change -----

  /** The Secret holds password p, and the role, if it exists, has it. */
  ghost predicate Holds(e: Env, role: string, name: SecretName, p: string) {
    && name in e.secrets && SecretKeys(e.secrets[name].data)
    && "PGPASSWORD" in e.secrets[name].data && e.secrets[name].data["PGPASSWORD"] == p
    && (role in e.pg.roles ==> e.pg.roles[role].password == p)
  }

  /**
   Resources of this role generate their password into this Secret and do not template it; resources of other
   roles write other Secrets; users leave it alone.
   */
  ghost predicate Respects(ev: Event, role: string, name: SecretName) {
    match ev
    case Pass(r, c, fails) =>
      && SecretKeys(map k | k in r.spec.secretTemplate :: "")
      && if r.spec.name == role then
           r.spec.passwordFrom.None? && r.spec.secretName != "" && "PGPASSWORD" !in r.spec.secretTemplate
           && SecretName(r.name.namespace, r.spec.secretName) == name
         else r.spec.secretName == "" || SecretName(r.name.namespace, r.spec.secretName) != name
    case EditSecret(edited, _) => edited != name
    case _ => true
  }

  lemma FetchesHeld(e: Env, r: Resource, c: Choices, fails: nat -> bool, role: string, name: SecretName, p: string)
    requires Holds(e, role, name, p) && Respects(Pass(r, c, fails), role, name) && r.spec.name == role
    ensures FetchPassword(e, r.name.namespace, r.spec, c.generated, fails).password in {None, Some(p)}
  {
  }

  lemma MovesKeepPassword(e: Env, e': Env, d: Role, role: string, p: string)
    requires Moves(e, e', d) && p != "" && (d.name == role ==> d.password == p || (e'.pg.roles == e.pg.roles))
    requires role in e.pg.roles ==> e.pg.roles[role].password == p
    ensures role in e'.pg.roles ==> e'.pg.roles[role].password == p
  {
    hide MayChange;
  }

  lemma NoPasswordNoMove(e: Env, s: Setup, r: Resource, c: Choices, fails: nat -> bool)
    requires FetchPassword(e, r.name.namespace, r.spec, c.generated, fails).password.None?
    ensures RolePass(e, s, r, c, fails).env.pg == e.pg
  {
  }

  lemma SecretMovesKeep(e: Env, e': Env, s: Setup, r: Resource, d: Role, role: string, name: SecretName, p: string)
    requires Holds(e, role, name, p) && SecretMoves(e, e', s, r, d)
    requires SecretKeys(map k | k in r.spec.secretTemplate :: "")
    requires d.name == r.spec.name
    requires r.spec.secretName != "" && SecretName(r.name.namespace, r.spec.secretName) == name ==>
               "PGPASSWORD" !in r.spec.secretTemplate && (d.password == p || e'.secrets == e.secrets)
    ensures name in e'.secrets && SecretKeys(e'.secrets[name].data)
    ensures "PGPASSWORD" in e'.secrets[name].data && e'.secrets[name].data["PGPASSWORD"] == p
  {
    hide DesiredData, Repaired, SecretKeys;
    DesiredKeysFit(s, r.spec, d);
    SecretShowsPassword(s, r.spec, d);
    RepairedIs(e.secrets[name], DesiredData(s, r.spec, d));
    PasswordKey(s, r.spec, d);
  }

  lemma PasswordKey(s: Setup, spec: RoleSpec, d: Role)
    ensures "PGPASSWORD" in DesiredData(s, spec, d)
  {
  }

  lemma NoPasswordNoSecret(e: Env, s: Setup, r: Resource, c: Choices, fails: nat -> bool)
    requires FetchPassword(e, r.name.namespace, r.spec, c.generated, fails).password.None?
    ensures RolePass(e, s, r, c, fails).env.secrets == e.secrets
  {
  }

  lemma PassKeepsPassword(e: Env, s: Setup, r: Resource, c: Choices, fails: nat -> bool, role: string,
                          name: SecretName, p: string)
    requires Sound(e.pg) && p != "" && Holds(e, role, name, p) && Respects(Pass(r, c, fails), role, name)
    ensures Holds(RolePass(e, s, r, c, fails).env, role, name, p)
  {
    hide FetchPassword, RolePass, Moves, SecretMoves, SecretKeys;
    var d, e' := DesiredOf(e, r, c, fails), RolePass(e, s, r, c, fails).env;
    PassMoves(e, s, r, c, fails);
    PassSecrets(e, s, r, c, fails);
    if r.spec.name == role { FetchesHeld(e, r, c, fails, role, name, p); }
    if FetchPassword(e, r.name.namespace, r.spec, c.generated, fails).password.None? {
      NoPasswordNoMove(e, s, r, c, fails);
      NoPasswordNoSecret(e, s, r, c, fails);
    }
    MovesKeepPassword(e, e', d, role, p);
    SecretMovesKeep(e, e', s, r, d, role, name, p);
  }

  /**
   Once a generated password is in the role's Secret, no later run changes it: not retries, not restarts that
   clear the cache, not dropping and creating the role again.
   */
  lemma {:induction false} PasswordIsStable(e: Env, s: Setup, evs: seq<Event>, role: string, name: SecretName,
                                            p: string)
    requires Sound(e.pg) && p != "" && Holds(e, role, name, p)
    requires forall ev :: ev in evs ==> Respects(ev, role, name)
    ensures Holds(AfterAll(e, s, evs), role, name, p)
    decreases |evs|
  {
    hide RolePass, Holds, Respects;
    if evs != [] {
      var ev := evs[0];
      assert ev in evs;
      if ev.Pass? {
        PassKeepsPassword(e, s, ev.resource, ev.choices, ev.fails, role, name, p);
      } else {
        QuietKeepsPassword(e, s, ev, role, name, p);
      }
      StaysSound(e, s, ev);
      PasswordIsStable(After(e, s, ev), s, evs[1..], role, name, p);
    }
  }

  lemma QuietKeepsPassword(e: Env, s: Setup, ev: Event, role: string, name: SecretName, p: string)
    requires !ev.Pass? && Holds(e, role, name, p) && Respects(ev, role, name)
    ensures Holds(After(e, s, ev), role, name, p)
  {
  }

  // ----- where the password settles -----

  /**
   After a successful pass with secretName and no passwordFromSecret, a fetch that does not fail finds the same
   password again if and only if the template leaves PGPASSWORD alone or renders it to the password.
   */
  lemma FetchesAgainExactly(e: Env, s: Setup, r: Resource, c: Choices, fails: nat -> bool, generated: string,
                            fails2: nat -> bool)
    requires Sound(e.pg) && CacheAgrees(e) && !r.copy.deleting && FitKeys(e, r.spec, r.name.namespace)
    requires r.spec.passwordFrom.None? && r.spec.secretName != ""
    ensures var out, d := RolePass(e, s, r, c, fails).env, DesiredOf(e, r, c, fails);
            RolePass(e, s, r, c, fails).ok && !fails2(out.calls) ==>
              (FetchPassword(out, r.name.namespace, r.spec, generated, fails2).password == Some(d.password) <==>
               ShowsPassword(s, r.spec, d))
  {
    hide RolePass, DesiredOf, DesiredData, FitKeys;
    PassAgrees(e, s, r, c, fails);
    PasswordKey(s, r.spec, DesiredOf(e, r, c, fails));
    SecretShowsPassword(s, r.spec, DesiredOf(e, r, c, fails));
    DesiredIs(e, r, c, fails);
  }

  /** For example, a template that appends to the password makes it longer with every pass. */
  lemma TemplateDrifts(e: Env, s: Setup, r: Resource, c: Choices, fails: nat -> bool, generated: string,
                       fails2: nat -> bool)
    requires Sound(e.pg) && CacheAgrees(e) && !r.copy.deleting && FitKeys(e, r.spec, r.name.namespace)
    requires r.spec.passwordFrom.None? && r.spec.secretName != "" && "PGPASSWORD" in r.spec.secretTemplate
    requires forall t, v: Vars :: s.render(t, v) == v.password + "!"
    ensures var out, d := RolePass(e, s, r, c, fails).env, DesiredOf(e, r, c, fails);
            RolePass(e, s, r, c, fails).ok && !fails2(out.calls) ==>
              FetchPassword(out, r.name.namespace, r.spec, generated, fails2).password == Some(d.password + "!")
  {
    hide RolePass, DesiredOf, FitKeys;
    PassAgrees(e, s, r, c, fails);
    PasswordKey(s, r.spec, DesiredOf(e, r, c, fails));
    DesiredIs(e, r, c, fails);
  }

  /** A successful pass that generates into its Secret, untemplated, reaches the state from which nothing changes. */
  lemma PassEstablishes(e: Env, s: Setup, r: Resource, c: Choices, fails: nat -> bool)
    requires Sound(e.pg) && CacheAgrees(e) && !r.copy.deleting && FitKeys(e, r.spec, r.name.namespace)
    requires r.spec.passwordFrom.None? && r.spec.secretName != "" && "PGPASSWORD" !in r.spec.secretTemplate
    ensures var out, d := RolePass(e, s, r, c, fails).env, DesiredOf(e, r, c, fails);
            RolePass(e, s, r, c, fails).ok && d.password != "" ==>
              Holds(out, r.spec.name, SecretName(r.name.namespace, r.spec.secretName), d.password)
  {
    hide RolePass, DesiredOf, DesiredData, FitKeys, SecretKeys;
    PassAgrees(e, s, r, c, fails);
    FitTemplate(e, r);
    DesiredKeysFit(s, r.spec, DesiredOf(e, r, c, fails));
    PasswordKey(s, r.spec, DesiredOf(e, r, c, fails));
    SecretShowsPassword(s, r.spec, DesiredOf(e, r, c, fails));
    DesiredIs(e, r, c, fails);
  }

  lemma FitTemplate(e: Env, r: Resource)
    requires FitKeys(e, r.spec, r.name.namespace)
    ensures SecretKeys(map k | k in r.spec.secretTemplate :: "")
  {
    hide SecretKeys;
  }

  /**
   So a password once given stays: after one successful pass, in any later run in which users leave the Secret alone and
   no other resource takes it, the Secret shows that password and the role, whenever it exists, has it.
   */
  lemma GivenPasswordStays(e: Env, s: Setup, r: Resource, c: Choices, fails: nat -> bool, evs: seq<Event>)
    requires Sound(e.pg) && CacheAgrees(e) && !r.copy.deleting && FitKeys(e, r.spec, r.name.namespace)
    requires r.spec.passwordFrom.None? && r.spec.secretName != "" && "PGPASSWORD" !in r.spec.secretTemplate
    requires forall ev :: ev in evs ==> Respects(ev, r.spec.name, SecretName(r.name.namespace, r.spec.secretName))
    ensures var out, d := RolePass(e, s, r, c, fails).env, DesiredOf(e, r, c, fails);
            RolePass(e, s, r, c, fails).ok && d.password != "" ==>
              Holds(AfterAll(out, s, evs), r.spec.name, SecretName(r.name.namespace, r.spec.secretName), d.password)
  {
    hide RolePass, DesiredOf, Holds, Respects, FitKeys, AfterAll;
    var out, d := RolePass(e, s, r, c, fails).env, DesiredOf(e, r, c, fails);
    PassEstablishes(e, s, r, c, fails);
    StaysSound(e, s, Pass(r, c, fails));
    if RolePass(e, s, r, c, fails).ok && d.password != "" {
      PasswordIsStable(out, s, evs, r.spec.name, SecretName(r.name.namespace, r.spec.secretName), d.password);
    }
  }

  // ----- a settled role -----

  ghost function Creation(e: Env, d: Role, fails: nat -> bool): Outcome
    requires Sound(e.pg)
  {
    OnCreation(e, Seen(e.pg, e.pg.operator).value, Seen(e.pg, d.name), d, fails)
  }

  /** The role looks as desired and the cache holds its password: nothing is sent. */
  ghost predicate Settled(e: Env, d: Role) {
    d.name in e.pg.roles && e.pg.roles[d.name].attributes == d.attributes && Cached(e.cache, d.name) == d.password
  }

  lemma SettledSendsNothing(e: Env, d: Role, fails: nat -> bool)
    requires Sound(e.pg) && Settled(e, d)
    ensures Creation(e, d, fails) == Outcome(e, true)
  {
  }
}
