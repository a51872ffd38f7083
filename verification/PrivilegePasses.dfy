/** The loop over the roles of a privileges declaration, in an arbitrary map iteration order. */
module PrivilegePasses {
  import opened Wrappers
  import opened Statements
  import opened Outside
  import opened SetReconciliation
  import opened Privileges

  /** The flags of a declaration that are set, as a list. */
  method ConvertPrivileges(o: Securable, flags: set<Privilege>) returns (privileges: seq<Privilege>)
    requires forall p :: p in flags ==> Applies(p, o)
    ensures Elements(privileges) == flags && Distinct(privileges)
  {
    privileges := [];
    if Create in flags { privileges := privileges + [Create]; }
    if Connect in flags { privileges := privileges + [Connect]; }
    if Temporary in flags { privileges := privileges + [Temporary]; }
    if Usage in flags { privileges := privileges + [Usage]; }
    assert forall p :: p in flags ==> p in privileges;
  }

  /** Every listed role effectively holds exactly what it declares. */
  ghost predicate Exact(pg: Pg, o: Securable, declared: Declared) {
    forall r :: r in declared ==> Effective(pg, o, r) == declared[r]
  }

  /** Nothing differs but own grants of the listed roles on the object. */
  ghost predicate OnlyGrants(a: Pg, b: Pg, o: Securable, roles: set<string>) {
    SameButGrants(a, b) && forall g: Grant :: g.on != o || g.role !in roles ==> (g in a.grants <==> g in b.grants)
  }

  lemma DirectTouches(pg: Pg, o: Securable, role: string, ps: set<Privilege>, roles: set<string>)
    requires role in roles
    ensures OnlyGrants(pg, WithDirect(pg, o, role, ps), o, roles)
  {
    forall g: Grant | g.on != o || g.role !in roles
      ensures g in pg.grants <==> g in WithDirect(pg, o, role, ps).grants
    {
    }
  }

  /** A pass over one role, whatever fails: what it leaves when it succeeds, and when it sends anything. */
  lemma RoleStep(pg: Pg, o: Securable, role: string, listing: seq<Privilege>, desired: seq<Privilege>,
                 fails: nat -> bool, n: nat)
    requires Elements(listing) == Effective(pg, o, role) && forall p :: p in desired ==> Applies(p, o)
    ensures var rules := PrivilegeRules(o, role, Known(pg, o, role));
            var r := Execute(rules, AddFirst(listing, desired), Direct(pg, o, role), fails, n);
            && (r.ok ==> WithDirect(pg, o, role, r.state) == OneRole(pg, o, role, Elements(desired)))
            && r.calls >= n
            && (r.calls == n <==> Effective(pg, o, role) == Elements(desired))
            && (r.calls == n ==>
                 r.ok && WithDirect(pg, o, role, r.state) == pg && OneRole(pg, o, role, Elements(desired)) == pg)
            && (Faultless(fails) && Known(pg, o, role) && role != "" && TargetName(o) != "" ==> r.ok)
  {
    hide Effective, Execute, Known, Direct, WithDirect, PrivilegeRules;
    var rules := PrivilegeRules(o, role, Known(pg, o, role));
    var plan, own := AddFirst(listing, desired), Direct(pg, o, role);
    AddFirstIsSafe(rules, listing, desired, own, fails, n);
    NothingToSend(listing, desired);
    PlanCalls(rules, plan, own, fails, n);
    SameDirect(pg, o, role);
    var held, declared := Effective(pg, o, role), Elements(desired);
    if held == declared {
      assert own + (declared - held) - (held - declared) == own;
    }
    if Faultless(fails) && Known(pg, o, role) && role != "" && TargetName(o) != "" {
      FaultlessIsOneRole(pg, o, role, desired, listing, fails, n);
    }
  }

  lemma PlanCalls<T>(rules: Rules<T>, plan: seq<Op<T>>, s: set<T>, fails: nat -> bool, n: nat)
    ensures var r := Execute(rules, plan, s, fails, n);
            r.calls >= n && (r.calls == n <==> plan == []) && (plan == [] ==> r == Run(s, true, n))
  {
    if plan != [] && !fails(n) && Accepts(rules, s, plan[0]) {
      ExecuteAdvances(rules, plan[1..], Step(s, plan[0]), fails, n + 1);
    }
  }

  lemma {:induction false} OnePassSnoc(pg: Pg, o: Securable, order: seq<string>, role: string, declared: Declared)
    requires role in declared && forall r :: r in order ==> r in declared
    ensures (forall r :: r in order + [role] ==> r in declared) &&
            OnePass(pg, o, order + [role], declared)
            == OneRole(OnePass(pg, o, order, declared), o, role, declared[role])
    decreases |order|
  {
    hide OneRole;
    if order == [] {
      assert [] + [role] == [role] && [role][1..] == [];
      assert OnePass(OneRole(pg, o, role, declared[role]), o, [], declared) == OneRole(pg, o, role, declared[role]);
    } else {
      assert (order + [role])[1..] == order[1..] + [role];
      OnePassSnoc(OneRole(pg, o, order[0], declared[order[0]]), o, order[1..], role, declared);
    }
  }

  ghost predicate Grantable(pg: Pg, o: Securable, declared: Declared) {
    TargetName(o) != "" && forall r :: r in declared ==> r != "" && Known(pg, o, r)
  }

  lemma GrantableStays(a: Pg, b: Pg, o: Securable, declared: Declared)
    requires SameButGrants(a, b)
    ensures Grantable(a, o, declared) <==> Grantable(b, o, declared)
  {
    assert a.roles == b.roles && a.databases == b.databases;
  }

  ghost predicate Listed(order: seq<string>, declared: Declared) {
    forall r :: r in order ==> r in declared
  }

  /**
   One role after another. Whatever fails, success means a whole pass in some order; it sends statements
   exactly when some listed role does not hold exactly what it declares.
   */
  method ReconcileAllPrivileges(world: World, default: string, o: Securable, declared: Declared)
      returns (err: bool, ghost order: seq<string>)
    requires forall r, p :: r in declared && p in declared[r] ==> Applies(p, o)
    modifies world`pg, world`calls, world`writes, world`sent
    ensures OnlyGrants(old(world.pg), world.pg, o, declared.Keys)
    ensures world.writes >= old(world.writes)
    ensures Listed(order, declared) && Distinct(order) && Elements(order) <= declared.Keys
    ensures !err ==> Elements(order) == declared.Keys && world.pg == OnePass(old(world.pg), o, order, declared)
    ensures !err ==> (world.writes == old(world.writes) <==> Exact(old(world.pg), o, declared))
    ensures Exact(old(world.pg), o, declared) ==> world.writes == old(world.writes) && world.pg == old(world.pg)
    ensures Faultless(world.fails) && Grantable(old(world.pg), o, declared) ==> !err
  {
    hide Effective, OnePass, OneRole, WithDirect, Direct, Execute, PrivilegeRules, AddFirst, Known;
    hide OnlyGrants, Grantable, Elements;
    ghost var before, sent := world.pg, world.writes;
    err, order := false, [];
    var todo := declared.Keys;
    NothingYet(before, o, declared);
    while todo != {}
      invariant !err && todo <= declared.Keys && Elements(order) == declared.Keys - todo
      invariant Listed(order, declared) && Distinct(order)
      invariant world.pg == OnePass(before, o, order, declared) && OnlyGrants(before, world.pg, o, declared.Keys)
      invariant world.writes >= sent
      invariant world.writes == sent <==>
                forall r :: r in declared.Keys - todo ==> Effective(before, o, r) == declared[r]
      invariant world.writes == sent ==> world.pg == before
      decreases todo
    {
      var role :| role in todo;
      var desired := ConvertPrivileges(o, declared[role]);
      AllApply(o, desired, declared[role]);
      ghost var now, was, listed, listing, start := world.pg, world.writes, false, [], 0;
      err, listed, listing, start := ReconcilePrivileges(world, default, o, role, desired);
      StepTouches(before, now, o, role, declared);
      if Grantable(before, o, declared) { GrantsKnown(before, now, o, role, declared); }
      if listed { RoleStep(now, o, role, listing, desired, world.fails, start); }
      if err { return; }
      OnePassSnoc(before, o, order, role, declared);
      ElementsSnoc(order, role);
      order := order + [role];
      todo := todo - {role};
    }
  }

  lemma AllApply(o: Securable, desired: seq<Privilege>, flags: set<Privilege>)
    requires Elements(desired) == flags && forall p :: p in flags ==> Applies(p, o)
    ensures forall p :: p in desired ==> Applies(p, o)
  {
    forall p | p in desired ensures Applies(p, o) { assert p in Elements(desired); }
  }

  lemma ElementsSnoc(order: seq<string>, role: string)
    ensures Elements(order + [role]) == Elements(order) + {role}
    ensures Distinct(order) && role !in Elements(order) ==> Distinct(order + [role])
  {
  }

  lemma NothingYet(pg: Pg, o: Securable, declared: Declared)
    ensures OnePass(pg, o, [], declared) == pg && OnlyGrants(pg, pg, o, declared.Keys) && Elements<string>([]) == {}
  {
  }

  lemma StepTouches(before: Pg, now: Pg, o: Securable, role: string, declared: Declared)
    requires role in declared && OnlyGrants(before, now, o, declared.Keys)
    ensures forall ps :: OnlyGrants(before, WithDirect(now, o, role, ps), o, declared.Keys)
  {
    forall ps ensures OnlyGrants(before, WithDirect(now, o, role, ps), o, declared.Keys) {
      DirectTouches(now, o, role, ps, declared.Keys);
      hide WithDirect;
    }
  }

  lemma GrantsKnown(before: Pg, now: Pg, o: Securable, role: string, declared: Declared)
    requires Grantable(before, o, declared) && OnlyGrants(before, now, o, declared.Keys) && role in declared
    ensures Known(now, o, role) && role != "" && TargetName(o) != ""
  {
    GrantableStays(before, now, o, declared);
  }

  // ----- convergence -----

  /** Memberships, attributes and grants are the same, but for own grants of the listed roles on the object. */
  ghost predicate SameElse(a: Pg, b: Pg, o: Securable, roles: set<string>) {
    && a.roles == b.roles && a.members == b.members && a.public == b.public
    && forall g: Grant :: g.on != o || g.role !in roles ==> (g in a.grants <==> g in b.grants)
  }

  lemma SurvivingGrants(a: Pg, b: Pg, o: Securable, roles: set<string>, role: string, p: Privilege)
    requires SameElse(a, b, o, roles) && NoCross(a, roles) && role in roles
    ensures Holds(WithDirect(a, o, role, {}), o, role, p) == Holds(WithDirect(b, o, role, {}), o, role, p)
  {
    hide Inherits;
    var a', b' := WithDirect(a, o, role, {}), WithDirect(b, o, role, {});
    assert a'.roles == b'.roles == a.roles && a'.members == b'.members == a.members && a'.public == b'.public;
    forall g: Grant
      ensures Inherits(a', role, g.role, |a'.members|) == Inherits(a, role, g.role, |a.members|)
              == Inherits(b', role, g.role, |b'.members|)
    {
      SameInheritance(a', a, role, g.role, |a.members|);
      SameInheritance(b', a, role, g.role, |a.members|);
    }
    forall g: Grant | g.on == o && Inherits(a, role, g.role, |a.members|) ensures g in a'.grants <==> g in b'.grants {
    }
  }

  /** What a listed role inherits does not depend on the own grants of listed roles, when none inherits from another. */
  lemma InheritedSurvives(a: Pg, b: Pg, o: Securable, roles: set<string>, role: string)
    requires SameElse(a, b, o, roles) && NoCross(a, roles) && role in roles
    ensures Inherited(b, o, role) == Inherited(a, o, role)
  {
    hide Holds, SameElse, NoCross;
    forall p ensures Holds(WithDirect(a, o, role, {}), o, role, p) == Holds(WithDirect(b, o, role, {}), o, role, p) {
      SurvivingGrants(a, b, o, roles, role, p);
    }
  }

  /**
   When no listed role inherits from another, a whole pass, started where any interrupted one stopped, leaves every
   listed role holding exactly what it declares and what it inherited at the start.
   */
  lemma RightsConverge(pg: Pg, mid: Pg, o: Securable, declared: Declared, order: seq<string>)
    requires SameElse(pg, mid, o, declared.Keys) && NoCross(pg, declared.Keys) && Proper(mid, o, declared)
    requires Elements(order) == declared.Keys
    ensures Listed(order, declared) &&
            var after := OnePass(mid, o, order, declared);
            SameButGrants(mid, after) &&
            forall r :: r in declared ==> Effective(after, o, r) == declared[r] + Inherited(pg, o, r)
  {
    hide Effective, Inherited, Inherits;
    forall r | r in order ensures r in declared { assert r in Elements(order); }
    forall r | r in declared ensures Inherited(mid, o, r) == Inherited(pg, o, r) {
      InheritedSurvives(pg, mid, o, declared.Keys, r);
    }
    NoCrossStays(pg, mid, declared.Keys);
    OnePassSuffices(mid, o, order, declared, {}, mid);
    assert {} + Elements(order) == declared.Keys;
    PassBounds(mid, o, order, declared, {});
  }
}
