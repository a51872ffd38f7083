/** Where the password of a role comes from, and what its Secret shows, over whole passes. */
module RoleSecrets {
  import opened Wrappers
  import opened Statements
  import opened Outside
  import opened RoleStatements
  import opened RolePasses
  import opened RoleRuns
  import opened SecretData
  import opened Resources

  /**
   After a successful pass with secretName the Secret is there, labelled, and shows the role, the password the cache
   holds, and host, port and database of the operator's own connection; templated keys show what is rendered.
   */
  lemma PassShows(e: Env, s: Setup, r: Resource, c: Choices, fails: nat -> bool)
    requires Sound(e.pg) && CacheAgrees(e) && !r.copy.deleting && FitKeys(e, r.spec, r.name.namespace)
    requires r.spec.secretName != ""
    ensures var out, name := RolePass(e, s, r, c, fails).env, SecretName(r.name.namespace, r.spec.secretName);
            RolePass(e, s, r, c, fails).ok ==>
            && name in out.secrets && out.secrets[name].managed
            && Shows(out.secrets[name].data, r.spec.secretTemplate,
                     Vars(role := r.spec.name, password := Cached(out.cache, r.spec.name), host := s.host,
                          port := s.port, database := s.database), s.render)
  {
    hide RolePass, DesiredOf, DesiredData, FitKeys, Shows;
    PassAgrees(e, s, r, c, fails);
    DesiredIs(e, r, c, fails);
    DataShows(s, r.spec, DesiredOf(e, r, c, fails));
  }

  lemma FetchedFrom(e: Env, r: Resource, c: Choices, fails: nat -> bool)
    requires FetchPassword(e, r.name.namespace, r.spec, c.generated, fails).password.Some?
    ensures DesiredOf(e, r, c, fails).name == r.spec.name
    ensures var p := DesiredOf(e, r, c, fails).password;
            match r.spec.passwordFrom
            case Some((secret, key)) =>
              var name := SecretName(r.name.namespace, secret);
              name in e.secrets && key in e.secrets[name].data && p == e.secrets[name].data[key]
            case None =>
              var name := SecretName(r.name.namespace, r.spec.secretName);
              if r.spec.secretName != "" && name in e.secrets then
                "PGPASSWORD" in e.secrets[name].data && p == e.secrets[name].data["PGPASSWORD"]
              else p == if r.spec.name in e.cache then e.cache[r.spec.name] else c.generated
  {
  }

  lemma SuccessFetches(e: Env, s: Setup, r: Resource, c: Choices, fails: nat -> bool)
    requires RolePass(e, s, r, c, fails).ok
    ensures FetchPassword(e, r.name.namespace, r.spec, c.generated, fails).password.Some?
  {
    hide FetchPassword, Act;
  }

  /**
   Where the password comes from: after a successful pass the cache, and the server unless it is empty, hold what the
   named Secret had under the named key; without one, what the generated Secret had as PGPASSWORD; without that Secret,
   what the cache had; and else the new password.
   */
  lemma PasswordComesFrom(e: Env, s: Setup, r: Resource, c: Choices, fails: nat -> bool)
    requires Sound(e.pg) && CacheAgrees(e) && !r.copy.deleting && FitKeys(e, r.spec, r.name.namespace)
    ensures var out, role := RolePass(e, s, r, c, fails).env, r.spec.name;
            var p := Cached(out.cache, role);
            RolePass(e, s, r, c, fails).ok ==>
            && role in out.pg.roles && (p != "" ==> role in out.cache && out.pg.roles[role].password == p)
            && match r.spec.passwordFrom
               case Some((secret, key)) =>
                 var name := SecretName(r.name.namespace, secret);
                 name in e.secrets && key in e.secrets[name].data && p == e.secrets[name].data[key]
               case None =>
                 var name := SecretName(r.name.namespace, r.spec.secretName);
                 if r.spec.secretName != "" && name in e.secrets then
                   "PGPASSWORD" in e.secrets[name].data && p == e.secrets[name].data["PGPASSWORD"]
                 else p == if role in e.cache then e.cache[role] else c.generated
  {
    hide RolePass, DesiredOf, DesiredData, FitKeys, FetchPassword;
    PassAgrees(e, s, r, c, fails);
    if RolePass(e, s, r, c, fails).ok {
      SuccessFetches(e, s, r, c, fails);
      FetchedFrom(e, r, c, fails);
    }
  }

  /** The Secret is deleted, and perhaps the operator restarted. */
  function WithoutSecret(e: Env, name: SecretName, restarted: bool): Env {
    e.(secrets := e.secrets - {name}, cache := if restarted then map[] else e.cache)
  }

  lemma FitWithout(e: Env, out: Env, r: Resource, restarted: bool)
    requires FitKeys(e, r.spec, r.name.namespace)
    ensures var lost := WithoutSecret(out, SecretName(r.name.namespace, r.spec.secretName), restarted);
            FitKeys(lost, r.spec, r.name.namespace)
  {
    hide SecretKeys;
  }

  lemma OutIsFit(e: Env, s: Setup, r: Resource, c: Choices, fails: nat -> bool)
    requires Sound(e.pg) && CacheAgrees(e)
    ensures var out := RolePass(e, s, r, c, fails).env; Sound(out.pg) && CacheAgrees(out)
  {
    hide RolePass, Sound, CacheAgrees;
    StaysSound(e, s, Pass(r, c, fails));
    EventKeepsCache(e, s, Pass(r, c, fails));
  }

  lemma LostIsFit(out: Env, name: SecretName, restarted: bool)
    requires Sound(out.pg) && CacheAgrees(out)
    ensures var lost := WithoutSecret(out, name, restarted); Sound(lost.pg) && CacheAgrees(lost)
  {
  }

  /**
   A lost Secret comes back: after a successful pass that generated the password into it, deleting the Secret and
   passing again leaves the same password in server, cache and Secret; after a restart in between, a new one.
   */
  lemma LostSecretComesBack(e: Env, s: Setup, r: Resource, c: Choices, fails: nat -> bool, restarted: bool,
                            r2: Resource, c2: Choices, fails2: nat -> bool)
    requires Sound(e.pg) && CacheAgrees(e) && FitKeys(e, r.spec, r.name.namespace)
    requires r.spec.passwordFrom.None? && r.spec.secretName != "" && "PGPASSWORD" !in r.spec.secretTemplate
    requires r2.name == r.name && r2.spec == r.spec && !r2.copy.deleting
    ensures var name, out := SecretName(r.name.namespace, r.spec.secretName), RolePass(e, s, r, c, fails).env;
            var again := RolePass(WithoutSecret(out, name, restarted), s, r2, c2, fails2);
            var before, now := Cached(out.cache, r.spec.name), Cached(again.env.cache, r.spec.name);
            again.ok ==>
              && (restarted ==> now == c2.generated) && (!restarted && before != "" ==> now == before)
              && (now != "" ==> r.spec.name in again.env.pg.roles && again.env.pg.roles[r.spec.name].password == now)
              && name in again.env.secrets && "PGPASSWORD" in again.env.secrets[name].data
              && again.env.secrets[name].data["PGPASSWORD"] == now
  {
    hide RolePass, Sound, CacheAgrees, FitKeys;
    var name, out := SecretName(r.name.namespace, r.spec.secretName), RolePass(e, s, r, c, fails).env;
    var lost := WithoutSecret(out, name, restarted);
    OutIsFit(e, s, r, c, fails);
    LostIsFit(out, name, restarted);
    FitWithout(e, out, r, restarted);
    if RolePass(lost, s, r2, c2, fails2).ok {
      PasswordComesFrom(lost, s, r2, c2, fails2);
      PassShows(lost, s, r2, c2, fails2);
    }
  }
}
