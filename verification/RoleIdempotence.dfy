/** Whole role passes: when one succeeds, what it leaves, and when the next one has anything to send. */
module RoleIdempotence {
  import opened Wrappers
  import opened Statements
  import opened Outside
  import opened Resources
  import opened SetReconciliation
  import opened Memberships
  import opened RoleStatements
  import opened RolePasses
  import opened RoleRuns
  import PassRuns

  /** A role name that reads back as itself, among groups that do too. */
  ghost predicate ReadsPlainly(s: Setup, members: set<Member>, role: string) {
    Plain(s.keywords, role) && NoQuotes(members)
  }

  /** The same resource, read again with its finalizer and its status. */
  predicate SameAgain(r: Resource, r2: Resource) {
    r2.name == r.name && r2.spec == r.spec && !r2.copy.deleting && r2.copy.finalizer && r2.copy.succeeded
  }

  /** Role, cache, groups listing, Secret and resource are as the pass wants them for password p. */
  ghost predicate Resting(e: Env, s: Setup, r: Resource, p: string, groups: seq<string>) {
    var d := Desired(r.spec, p);
    && Settled(e, d) && Elements(groups) == Elements(r.spec.memberOf)
    && !r.copy.deleting && r.copy.finalizer && r.copy.succeeded
    && (r.spec.secretName != "" ==>
         var name := SecretName(r.name.namespace, r.spec.secretName);
         name in e.secrets && e.secrets[name] == Secret(true, DesiredData(s, r.spec, d)))
  }

  ghost predicate OnlyAsked(e: Env, e': Env) { e' == e.(calls := e'.calls) }

  // ----- nothing to do -----

  lemma FetchAsks(e: Env, namespace: string, spec: RoleSpec, generated: string, fails: nat -> bool)
    ensures OnlyAsked(e, FetchPassword(e, namespace, spec, generated, fails).env)
  {
  }

  lemma JoinAsks(e: Env, s: Setup, role: string, desired: seq<string>, groups: seq<string>, fails: nat -> bool)
    requires Elements(groups) == Elements(desired)
    ensures OnlyAsked(e, OnMembership(e, role, desired, groups, fails).env)
  {
    NothingToSend(groups, desired);
    SameMembership(e.pg, role);
  }

  lemma SecretAsks(e: Env, s: Setup, namespace: string, spec: RoleSpec, d: Role, fails: nat -> bool)
    requires spec.secretName != "" ==>
               var name := SecretName(namespace, spec.secretName);
               name in e.secrets && e.secrets[name] == Secret(true, DesiredData(s, spec, d))
    ensures OnlyAsked(e, OnSecret(e, s, namespace, spec, d, fails).env)
  {
    hide DesiredData, SecretData.Sprint;
  }

  lemma ConvergeAsks(e: Env, s: Setup, r: Resource, p: string, c: Choices, fails: nat -> bool)
    requires Sound(e.pg) && Resting(e, s, r, p, c.groups)
    ensures var d := Desired(r.spec, p);
            OnlyAsked(e, Converge(e, s, r, Seen(e.pg, e.pg.operator).value, Seen(e.pg, d.name), d, c, fails).env)
  {
    hide OnCreation, OnMembership, OnSecret, DesiredData;
    var d := Desired(r.spec, p);
    SettledSendsNothing(e, d, fails);
    JoinAsks(e, s, d.name, r.spec.memberOf, c.groups, fails);
    var joined := OnMembership(e, d.name, r.spec.memberOf, c.groups, fails).env;
    SecretAsks(joined, s, r.name.namespace, r.spec, d, fails);
  }

  lemma HeldAlready(e: Env, s: Setup, r: Resource, fails: nat -> bool)
    requires r.copy.finalizer
    ensures Held(e, s, r) == r && OnGate(e, s, r, fails) == Outcome(e, true)
  {
  }

  /** Whatever fails, a pass over a resting role changes and sends nothing. */
  lemma RestingSendsNothing(e: Env, s: Setup, r: Resource, p: string, c: Choices, fails: nat -> bool)
    requires Sound(e.pg) && Resting(e, s, r, p, c.groups)
    requires FetchPassword(e, r.name.namespace, r.spec, c.generated, fails).password in {None, Some(p)}
    ensures OnlyAsked(e, RolePass(e, s, r, c, fails).env)
  {
    hide FetchPassword, Converge, DesiredData, OnGate, Held, Elements;
    FetchAsks(e, r.name.namespace, r.spec, c.generated, fails);
    var e2 := Asked(Asked(FetchPassword(e, r.name.namespace, r.spec, c.generated, fails).env));
    HeldAlready(e2, s, r, fails);
    ConvergeAsks(e2, s, r, p, c, fails);
  }

  // ----- what a successful pass leaves -----

  lemma JoinOutcome(e: Env, s: Setup, role: string, desired: seq<string>, groups: seq<string>, fails: nat -> bool)
    requires OnMembership(e, role, desired, groups, fails).ok
    ensures var out, had := OnMembership(e, role, desired, groups, fails).env, Groups(e.pg.members, role);
            && Groups(out.pg.members, role) ==
                 had - (Elements(groups) - Elements(desired)) + (Elements(desired) - Elements(groups))
            && out.writes >= e.writes && (out.writes == e.writes <==> Elements(groups) == Elements(desired))
            && (forall m :: m in out.pg.members && m.member != role ==> m in e.pg.members)
  {
    hide Rows, Plain, Execute, MembershipRules, DropFirst, Groups;
    var rules, had := MembershipRules(e.pg.roles.Keys), Groups(e.pg.members, role);
    MembershipConverges(s.keywords, e.pg, role, desired, groups, fails, e.calls + 1);
    NothingToSend(groups, desired);
    PlanSends(rules, DropFirst(groups, desired), had, fails, e.calls + 1);
    var r := Execute(rules, DropFirst(groups, desired), had, fails, e.calls + 1);
    GroupsOf(e.pg.members, role, r.state);
  }

  lemma PlanSends<T>(rules: Rules<T>, plan: seq<Op<T>>, s: set<T>, fails: nat -> bool, n: nat)
    ensures var r := Execute(rules, plan, s, fails, n);
            r.calls >= n && (r.calls == n <==> plan == [])
  {
    if plan != [] && !fails(n) && Accepts(rules, s, plan[0]) {
      ExecuteAdvances(rules, plan[1..], Step(s, plan[0]), fails, n + 1);
    }
  }

  lemma GroupsOf(members: set<Member>, role: string, groups: set<string>)
    ensures Groups(WithGroups(members, role, groups), role) == groups
  {
    var after := WithGroups(members, role, groups);
    forall g | g in groups ensures g in Groups(after, role) {
      assert Member(g, role) in after && Member(g, role).member == role;
    }
  }

  /** Creating a role makes the operator its member; the role's own groups stay. */
  lemma CreationKeepsGroups(e: Env, d: Role, fails: nat -> bool)
    requires Sound(e.pg)
    ensures var out := Creation(e, d, fails).env;
            && Groups(out.pg.members, d.name) == Groups(e.pg.members, d.name)
            && (forall m :: m in out.pg.members ==> m in e.pg.members || (m.group == d.name && m.member != d.name))
            && out.writes >= e.writes
  {
    hide MayChange, Created, Altered, Blank;
  }

  /** A role that is not as desired, or whose password is not the cached one, gets a statement. */
  lemma UnsettledWrites(e: Env, d: Role, fails: nat -> bool)
    requires Sound(e.pg)
    ensures var out := Creation(e, d, fails);
            out.ok && d.name in e.pg.roles
            && (e.pg.roles[d.name].attributes != d.attributes || Cached(e.cache, d.name) != d.password) ==>
              out.env.writes == e.writes + 1
  {
    hide MayChange;
  }

  lemma SecretLeaves(e: Env, s: Setup, namespace: string, spec: RoleSpec, d: Role, fails: nat -> bool)
    ensures var out := OnSecret(e, s, namespace, spec, d, fails).env;
            out.pg == e.pg && out.cache == e.cache && out.writes >= e.writes
  {
    hide DesiredData, Repaired;
  }

  /** The groups a pass over listing `groups` leaves to a role that had `had`. */
  function Regrouped(had: set<string>, groups: seq<string>, desired: seq<string>): set<string> {
    had - (Elements(groups) - Elements(desired)) + (Elements(desired) - Elements(groups))
  }

  lemma ConvergeLeaves(e: Env, s: Setup, r: Resource, d: Role, c: Choices, fails: nat -> bool)
    requires Sound(e.pg) && CacheAgrees(e) && d == Desired(r.spec, d.password)
    requires Converge(e, s, r, Seen(e.pg, e.pg.operator).value, Seen(e.pg, d.name), d, c, fails).ok
    ensures var out := Converge(e, s, r, Seen(e.pg, e.pg.operator).value, Seen(e.pg, d.name), d, c, fails).env;
            && Groups(out.pg.members, d.name) == Regrouped(Groups(e.pg.members, d.name), c.groups, r.spec.memberOf)
            && (forall m :: m in out.pg.members && m.member != d.name ==> m in e.pg.members || m.group == d.name)
            && Creation(e, d, fails).ok && out.writes >= Creation(e, d, fails).env.writes
            && (out.writes == Creation(e, d, fails).env.writes ==> Elements(c.groups) == Elements(r.spec.memberOf))
  {
    hide OnCreation, OnMembership, OnSecret, Groups, Elements;
    CreationKeepsGroups(e, d, fails);
    var made := Creation(e, d, fails).env;
    JoinOutcome(made, s, d.name, r.spec.memberOf, c.groups, fails);
    MembershipStage(made, d.name, r.spec.memberOf, c.groups, fails);
    var joined := OnMembership(made, d.name, r.spec.memberOf, c.groups, fails).env;
    SecretLeaves(joined, s, r.name.namespace, r.spec, d, fails);
  }

  /** The attributes, the cached password or the listed groups differ from what is wanted. */
  ghost predicate Unlike(e: Env, spec: RoleSpec, password: string, groups: seq<string>)
    requires spec.name in e.pg.roles
  {
    || e.pg.roles[spec.name].attributes != spec.attributes || Cached(e.cache, spec.name) != password
    || Elements(groups) != Elements(spec.memberOf)
  }

  /**
   What a successful pass leaves of the groups, and what it has sent: a statement for every difference in attributes,
   cached password or groups.
   */
  lemma PassLeaves(e: Env, s: Setup, r: Resource, c: Choices, fails: nat -> bool)
    requires Sound(e.pg) && CacheAgrees(e) && !r.copy.deleting
    ensures var out, spec, d := RolePass(e, s, r, c, fails).env, r.spec, DesiredOf(e, r, c, fails);
            RolePass(e, s, r, c, fails).ok ==>
            && Groups(out.pg.members, spec.name) == Regrouped(Groups(e.pg.members, spec.name), c.groups, spec.memberOf)
            && (forall m :: m in out.pg.members && m.member != spec.name ==> m in e.pg.members || m.group == spec.name)
            && (spec.name in e.pg.roles && Unlike(e, spec, d.password, c.groups) ==> out.writes > e.writes)
  {
    hide FetchPassword, Converge, Groups, Elements, Regrouped, OnResource;
    if RolePass(e, s, r, c, fails).ok {
      FetchAsks(e, r.name.namespace, r.spec, c.generated, fails);
      var e2 := Asked(Asked(FetchPassword(e, r.name.namespace, r.spec, c.generated, fails).env));
      GateLeaves(e2, s, r, fails);
      var held := OnGate(e2, s, r, fails).env;
      ConvergeLeaves(held, s, Held(e2, s, r), DesiredOf(e, r, c, fails), c, fails);
      UnsettledWrites(held, DesiredOf(e, r, c, fails), fails);
      CreationKeepsGroups(held, DesiredOf(e, r, c, fails), fails);
    }
  }

  lemma GateLeaves(e: Env, s: Setup, r: Resource, fails: nat -> bool)
    ensures var out := OnGate(e, s, r, fails).env;
            out.pg == e.pg && out.cache == e.cache && out.secrets == e.secrets && out.writes >= e.writes
  {
  }

  // ----- the next pass -----

  lemma Fetched(e: Env, s: Setup, r: Resource, c: Choices, fails: nat -> bool)
    requires RolePass(e, s, r, c, fails).ok
    ensures FetchPassword(e, r.name.namespace, r.spec, c.generated, fails).password
         == Some(DesiredOf(e, r, c, fails).password)
  {
    hide FetchPassword, Act;
  }

  /**
   After a successful pass the next one over the same resource sends nothing, whatever fails in it, if it finds the same
   password, the role existed before or INHERIT is desired, and it lists the declared groups; in every other case it
   has to send a statement to succeed.
   */
  lemma NextPassExactly(e: Env, s: Setup, r: Resource, c: Choices, fails: nat -> bool,
                        r2: Resource, c2: Choices, fails2: nat -> bool)
    requires Sound(e.pg) && CacheAgrees(e) && !r.copy.deleting && FitKeys(e, r.spec, r.name.namespace)
    requires SameAgain(r, r2)
    ensures var out, d := RolePass(e, s, r, c, fails).env, DesiredOf(e, r, c, fails);
            var again := RolePass(out, s, r2, c2, fails2);
            var found := FetchPassword(out, r.name.namespace, r.spec, c2.generated, fails2).password;
            RolePass(e, s, r, c, fails).ok ==>
              if found in {None, Some(d.password)} && (r.spec.name in e.pg.roles || Inherit in r.spec.attributes)
                 && Elements(c2.groups) == Elements(r.spec.memberOf)
              then OnlyAsked(out, again.env)
              else again.ok ==> again.env.writes > out.writes
  {
    hide RolePass, FitKeys, DesiredData, FetchPassword, Groups, Elements, Moves;
    var out, d := RolePass(e, s, r, c, fails).env, DesiredOf(e, r, c, fails);
    if RolePass(e, s, r, c, fails).ok {
      EventKeepsCache(e, s, Pass(r, c, fails));
      StaysSound(e, s, Pass(r, c, fails));
      PassAgrees(e, s, r, c, fails);
      DesiredIs(e, r, c, fails);
      assert r.spec.attributes + {Inherit} == r.spec.attributes <==> Inherit in r.spec.attributes;
      var found := FetchPassword(out, r.name.namespace, r.spec, c2.generated, fails2).password;
      if found in {None, Some(d.password)} && (r.spec.name in e.pg.roles || Inherit in r.spec.attributes)
         && Elements(c2.groups) == Elements(r.spec.memberOf)
      {
        RestingSendsNothing(out, s, r2, d.password, c2, fails2);
      } else if RolePass(out, s, r2, c2, fails2).ok {
        Fetched(out, s, r2, c2, fails2);
        PassLeaves(out, s, r2, c2, fails2);
      }
    }
  }

  // ----- plain names -----

  /** With a plain name and groups without double quotes, a successful pass leaves exactly memberOfRoles. */
  lemma PlainPassLeaves(e: Env, s: Setup, r: Resource, c: Choices, fails: nat -> bool)
    requires Sound(e.pg) && CacheAgrees(e) && !r.copy.deleting && Fits(e, s, r, c, fails)
    requires ReadsPlainly(s, e.pg.members, r.spec.name) && forall g :: g in r.spec.memberOf ==> '"' !in g
    ensures var out := RolePass(e, s, r, c, fails).env;
            RolePass(e, s, r, c, fails).ok ==>
              Groups(out.pg.members, r.spec.name) == Elements(r.spec.memberOf)
              && ReadsPlainly(s, out.pg.members, r.spec.name)
  {
    hide RolePass, Fits, Regrouped, Plain;
    if RolePass(e, s, r, c, fails).ok {
      PassLeaves(e, s, r, c, fails);
      PassListed(e, s, r, c, fails);
      PlainHasNoQuote(s.keywords, r.spec.name);
      RegroupedAll(Groups(e.pg.members, r.spec.name), c.groups, r.spec.memberOf);
      var out := RolePass(e, s, r, c, fails).env;
      forall m | m in out.pg.members ensures '"' !in m.group {
        if m.member == r.spec.name { assert m.group in Groups(out.pg.members, r.spec.name); }
      }
    }
  }

  lemma RegroupedAll(had: set<string>, groups: seq<string>, desired: seq<string>)
    requires Elements(groups) == had
    ensures Regrouped(had, groups, desired) == Elements(desired)
  {
    hide Elements;
  }

  lemma PlainHasNoQuote(keywords: set<string>, name: string)
    requires Plain(keywords, name)
    ensures '"' !in name
  {
  }

  /** A successful pass has listed the groups, rightly for a plain name. */
  lemma PassListed(e: Env, s: Setup, r: Resource, c: Choices, fails: nat -> bool)
    requires Sound(e.pg) && !r.copy.deleting && Fits(e, s, r, c, fails) && RolePass(e, s, r, c, fails).ok
    requires ReadsPlainly(s, e.pg.members, r.spec.name)
    ensures Elements(c.groups) == Groups(e.pg.members, r.spec.name)
  {
    hide FetchPassword, OnCreation, OnGate, OnMembership, OnSecret, OnResource, ListsGroups, Groups, Plain, Rows;
    FetchAsks(e, r.name.namespace, r.spec, c.generated, fails);
    var d := DesiredOf(e, r, c, fails);
    var e2 := Asked(Asked(FetchPassword(e, r.name.namespace, r.spec, c.generated, fails).env));
    GateLeaves(e2, s, r, fails);
    var held := OnGate(e2, s, r, fails).env;
    MembershipAsks(Creation(held, d, fails).env, d.name, r.spec.memberOf, c.groups, fails);
    CreatedListing(held, s, d, c.groups, fails);
  }

  lemma MembershipAsks(e: Env, role: string, desired: seq<string>, groups: seq<string>, fails: nat -> bool)
    ensures OnMembership(e, role, desired, groups, fails).ok ==> !fails(e.calls)
  {
  }

  lemma CreatedListing(e: Env, s: Setup, d: Role, groups: seq<string>, fails: nat -> bool)
    requires Sound(e.pg) && ReadsPlainly(s, e.pg.members, d.name)
    requires ListsGroups(s, Creation(e, d, fails).env.pg.members, d.name, groups)
    ensures Elements(groups) == Groups(e.pg.members, d.name)
  {
    hide Plain, Creation, Rows, Trim, Groups;
    CreationKeepsGroups(e, d, fails);
    PlainHasNoQuote(s.keywords, d.name);
    PlainListing(s.keywords, Creation(e, d, fails).env.pg.members, d.name);
  }

  /** The password of the next pass is the one of this pass: it comes from another Secret, or is shown as it is. */
  ghost predicate KeepsPassword(s: Setup, spec: RoleSpec, d: Role) {
    match spec.passwordFrom
    case Some((secret, _)) => secret != spec.secretName
    case None => spec.secretName == "" || ShowsPassword(s, spec, d)
  }

  /** Without Secrets the next pass finds the password in the cache. */
  lemma CachesPassword(e: Env, s: Setup, r: Resource, c: Choices, fails: nat -> bool)
    requires Sound(e.pg) && CacheAgrees(e) && !r.copy.deleting && FitKeys(e, r.spec, r.name.namespace)
    requires c.generated != "" && RolePass(e, s, r, c, fails).ok && r.spec.passwordFrom.None? && r.spec.secretName == ""
    ensures var out, d := RolePass(e, s, r, c, fails).env, DesiredOf(e, r, c, fails);
            d.name in out.cache && out.cache[d.name] == d.password
  {
    hide RolePass, Moves, FitKeys;
    PassAgrees(e, s, r, c, fails);
    PassMoves(e, s, r, c, fails);
    KeepsEntry(e, RolePass(e, s, r, c, fails).env, DesiredOf(e, r, c, fails));
  }

  lemma KeepsEntry(e: Env, e': Env, d: Role)
    requires Moves(e, e', d)
    ensures e.cache.Keys <= e'.cache.Keys
  {
    hide MayChange, Created, Altered;
  }

  lemma FetchesSame(e: Env, s: Setup, r: Resource, c: Choices, fails: nat -> bool, generated: string,
                    fails2: nat -> bool)
    requires Sound(e.pg) && CacheAgrees(e) && !r.copy.deleting && FitKeys(e, r.spec, r.name.namespace)
    requires c.generated != "" && KeepsPassword(s, r.spec, DesiredOf(e, r, c, fails))
    ensures var out := RolePass(e, s, r, c, fails).env;
            RolePass(e, s, r, c, fails).ok ==>
              FetchPassword(out, r.name.namespace, r.spec, generated, fails2).password
                in {None, Some(DesiredOf(e, r, c, fails).password)}
  {
    hide RolePass, DesiredData, FitKeys, ShowsPassword, Repaired;
    if RolePass(e, s, r, c, fails).ok {
      Fetched(e, s, r, c, fails);
      PassSecrets(e, s, r, c, fails);
      FetchesAgainExactlyIfOwn(e, s, r, c, fails, generated, fails2);
      if r.spec.passwordFrom.None? && r.spec.secretName == "" { CachesPassword(e, s, r, c, fails); }
    }
  }

  lemma FetchesAgainExactlyIfOwn(e: Env, s: Setup, r: Resource, c: Choices, fails: nat -> bool, generated: string,
                                 fails2: nat -> bool)
    requires Sound(e.pg) && CacheAgrees(e) && !r.copy.deleting && FitKeys(e, r.spec, r.name.namespace)
    ensures var out, d := RolePass(e, s, r, c, fails).env, DesiredOf(e, r, c, fails);
            RolePass(e, s, r, c, fails).ok && r.spec.passwordFrom.None? && r.spec.secretName != ""
            && ShowsPassword(s, r.spec, d) ==>
              FetchPassword(out, r.name.namespace, r.spec, generated, fails2).password in {None, Some(d.password)}
  {
    hide RolePass, FitKeys, DesiredOf, ShowsPassword;
    if r.spec.passwordFrom.None? && r.spec.secretName != "" {
      FetchesAgainExactly(e, s, r, c, fails, generated, fails2);
      FetchFails(RolePass(e, s, r, c, fails).env, r.name.namespace, r.spec, generated, fails2);
    }
  }

  lemma FetchFails(e: Env, namespace: string, spec: RoleSpec, generated: string, fails: nat -> bool)
    requires spec.passwordFrom.None? && spec.secretName != ""
    ensures fails(e.calls) ==> FetchPassword(e, namespace, spec, generated, fails).password == None
  {
  }

  /** Where the listing fails, or is not reached, it does not matter what it would have been. */
  lemma UnlistedGroups(e: Env, s: Setup, r: Resource, p: string, c: Choices, groups: seq<string>, fails: nat -> bool)
    requires Sound(e.pg) && !r.copy.deleting && r.copy.finalizer && Settled(e, Desired(r.spec, p))
    requires var fetched := FetchPassword(e, r.name.namespace, r.spec, c.generated, fails);
             && fetched.password in {None, Some(p)}
             && var n := fetched.env.calls;
                (fetched.password.Some? ==> fails(n) || fails(n + 1) || fails(n + 2))
    ensures RolePass(e, s, r, c, fails) == RolePass(e, s, r, c.(groups := groups), fails)
  {
    hide FetchPassword, OnCreation, OnGate, Held, OnSecret, OnResource;
    FetchAsks(e, r.name.namespace, r.spec, c.generated, fails);
    var e2 := Asked(Asked(FetchPassword(e, r.name.namespace, r.spec, c.generated, fails).env));
    HeldAlready(e2, s, r, fails);
    SettledSendsNothing(e2, Desired(r.spec, p), fails);
  }

  /** The listing of a settled role's pass, once it is reached. */
  lemma SettledListing(e: Env, s: Setup, r: Resource, p: string, c: Choices, fails: nat -> bool)
    requires Sound(e.pg) && !r.copy.deleting && r.copy.finalizer && Settled(e, Desired(r.spec, p))
    requires Fits(e, s, r, c, fails) && ReadsPlainly(s, e.pg.members, r.spec.name)
    requires var fetched := FetchPassword(e, r.name.namespace, r.spec, c.generated, fails);
             && fetched.password == Some(p)
             && var n := fetched.env.calls; !fails(n) && !fails(n + 1) && !fails(n + 2)
    ensures Elements(c.groups) == Groups(e.pg.members, r.spec.name)
  {
    hide FetchPassword, OnCreation, OnGate, Held, ListsGroups, Groups, Plain;
    FetchAsks(e, r.name.namespace, r.spec, c.generated, fails);
    var e2 := Asked(Asked(FetchPassword(e, r.name.namespace, r.spec, c.generated, fails).env));
    HeldAlready(e2, s, r, fails);
    SettledSendsNothing(e2, Desired(r.spec, p), fails);
    CreatedListing(e2, s, Desired(r.spec, p), c.groups, fails);
  }

  /**
   After a successful pass over a role whose name and groups read back plainly and whose password is kept, the next
   pass, with the choices the code makes, sends nothing, whatever fails in it, exactly when the role existed before or
   INHERIT is desired. Otherwise it has to take INHERIT away to succeed.
   */
  lemma SecondPassIsQuiet(e: Env, s: Setup, r: Resource, c: Choices, fails: nat -> bool,
                          r2: Resource, c2: Choices, fails2: nat -> bool)
    requires Sound(e.pg) && CacheAgrees(e) && !r.copy.deleting && FitKeys(e, r.spec, r.name.namespace)
    requires SameAgain(r, r2) && Fits(e, s, r, c, fails) && KeepsPassword(s, r.spec, DesiredOf(e, r, c, fails))
    requires ReadsPlainly(s, e.pg.members, r.spec.name) && forall g :: g in r.spec.memberOf ==> '"' !in g
    ensures var out := RolePass(e, s, r, c, fails).env;
            var again := RolePass(out, s, r2, c2, fails2);
            RolePass(e, s, r, c, fails).ok && Fits(out, s, r2, c2, fails2) ==>
              if r.spec.name in e.pg.roles || Inherit in r.spec.attributes then OnlyAsked(out, again.env)
              else again.ok ==> again.env.writes > out.writes
  {
    hide RolePass, FitKeys, Fits, FetchPassword, KeepsPassword, ReadsPlainly, Elements, Groups;
    var out, d := RolePass(e, s, r, c, fails).env, DesiredOf(e, r, c, fails);
    if RolePass(e, s, r, c, fails).ok && Fits(out, s, r2, c2, fails2) {
      FitsGenerated(e, s, r, c, fails);
      FetchesSame(e, s, r, c, fails, c2.generated, fails2);
      PlainPassLeaves(e, s, r, c, fails);
      NextPassExactly(e, s, r, c, fails, r2, c2, fails2);
      if r.spec.name in e.pg.roles || Inherit in r.spec.attributes {
        QuietListing(e, s, r, c, fails, r2, c2, fails2);
      }
    }
  }

  lemma FitsGenerated(e: Env, s: Setup, r: Resource, c: Choices, fails: nat -> bool)
    requires Fits(e, s, r, c, fails)
    ensures c.generated != ""
  {
    hide CHARSET, ActFits;
  }

  lemma QuietListing(e: Env, s: Setup, r: Resource, c: Choices, fails: nat -> bool,
                     r2: Resource, c2: Choices, fails2: nat -> bool)
    requires Sound(e.pg) && CacheAgrees(e) && !r.copy.deleting && FitKeys(e, r.spec, r.name.namespace)
    requires SameAgain(r, r2) && RolePass(e, s, r, c, fails).ok
    requires r.spec.name in e.pg.roles || Inherit in r.spec.attributes
    requires var out := RolePass(e, s, r, c, fails).env;
             && Fits(out, s, r2, c2, fails2)
             && ReadsPlainly(s, out.pg.members, r.spec.name)
             && Groups(out.pg.members, r.spec.name) == Elements(r.spec.memberOf)
             && FetchPassword(out, r.name.namespace, r.spec, c2.generated, fails2).password
                  in {None, Some(DesiredOf(e, r, c, fails).password)}
    ensures OnlyAsked(RolePass(e, s, r, c, fails).env, RolePass(RolePass(e, s, r, c, fails).env, s, r2, c2, fails2).env)
  {
    hide RolePass, FitKeys, Fits, FetchPassword, ReadsPlainly, Elements, Groups, Moves;
    var out, d := RolePass(e, s, r, c, fails).env, DesiredOf(e, r, c, fails);
    StaysSound(e, s, Pass(r, c, fails));
    PassAgrees(e, s, r, c, fails);
    assert r.spec.attributes + {Inherit} == r.spec.attributes <==> Inherit in r.spec.attributes;
    var fetched := FetchPassword(out, r.name.namespace, r.spec, c2.generated, fails2);
    var n := fetched.env.calls;
    if fetched.password.Some? && !fails2(n) && !fails2(n + 1) && !fails2(n + 2) {
      SettledListing(out, s, r2, d.password, c2, fails2);
      NextPassExactly(e, s, r, c, fails, r2, c2, fails2);
    } else {
      UnlistedGroups(out, s, r2, d.password, c2, r.spec.memberOf, fails2);
      NextPassExactly(e, s, r, c, fails, r2, c2.(groups := r.spec.memberOf), fails2);
    }
  }
}
