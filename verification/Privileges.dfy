/**
 Reconciliation of privileges on a database or a schema. The operator reads the privileges a role
 effectively holds (own, inherited, PUBLIC) and writes only the role's own grants.
 */
module Privileges {
  import opened Wrappers
  import opened SqlText
  import opened Statements
  import opened Outside
  import opened SetReconciliation
  import opened StatementTexts

  /** The role's own grants on the object. */
  function Direct(pg: Pg, o: Securable, role: string): set<Privilege> {
    set g | g in pg.grants && g.on == o && g.role == role :: g.privilege
  }

  function WithDirect(pg: Pg, o: Securable, role: string, ps: set<Privilege>): Pg {
    pg.(grants := (set g | g in pg.grants && !(g.on == o && g.role == role)) + set p | p in ps :: Grant(o, role, p))
  }

  /** What the role effectively holds. */
  function Effective(pg: Pg, o: Securable, role: string): set<Privilege> {
    set p: Privilege | Applies(p, o) && Holds(pg, o, role, p)
  }

  /** What it would hold without its own grants. */
  function Inherited(pg: Pg, o: Securable, role: string): set<Privilege> {
    Effective(WithDirect(pg, o, role, {}), o, role)
  }

  // ----- the operator's code -----

  function TargetName(o: Securable): string {
    match o
    case DatabaseItself(n) => n
    case SchemaIn(_, n) => n
  }

  function Connection(o: Securable, default: string): string {
    match o
    case DatabaseItself(_) => default
    case SchemaIn(d, _) => d
  }

  function PrivilegeRules(o: Securable, role: string, known: bool): Rules<Privilege> {
    Rules(false, p => Applies(p, o) && known && role != "" && TargetName(o) != "")
  }

  /** The privileges the operator asks for, in its order. */
  function Available(o: Securable): seq<Privilege> {
    match o
    case DatabaseItself(_) => [Create, Connect, Temporary]
    case SchemaIn(_, _) => [Create, Usage]
  }

  /** The list is complete: these are the privileges there are. */
  lemma AvailableApply(o: Securable)
    ensures forall p :: p in Available(o) <==> Applies(p, o)
  {
  }

  /**
   Asks for each available privilege in turn: CREATE, CONNECT and TEMPORARY on a database, CREATE and USAGE on a schema.
   */
  method GetRolePrivileges(world: World, o: Securable, role: string) returns (err: bool, existing: seq<Privilege>)
    modifies world`calls
    ensures world.calls >= old(world.calls)
    ensures !err && o.DatabaseItself? ==>
              forall p :: p in existing <==> p != Usage && Holds(world.pg, DatabaseItself(o.name), role, p)
    ensures !err && o.SchemaIn? ==>
              forall p :: p in existing <==> p in {Create, Usage} && Holds(world.pg, o, role, p)
    ensures !err ==> Elements(existing) == Effective(world.pg, o, role)
    ensures !err ==> world.calls == old(world.calls) + if o.DatabaseItself? then 3 else 2
    ensures err ==> !Known(world.pg, o, role) || (world.calls > 0 && world.fails(world.calls - 1))
  {
    hide Holds, Known;
    existing, err := [], false;
    var available := Available(o);
    for i := 0 to |available|
      invariant !err && world.calls == old(world.calls) + i
      invariant forall p :: p in existing <==> p in available[..i] && Holds(world.pg, o, role, p)
    {
      var has;
      err, has := world.HasPrivilege(o, role, available[i]);
      if err { return true, []; }
      assert available[..i + 1] == available[..i] + [available[i]];
      if has { existing := existing + [available[i]]; }
    }
    assert available[..|available|] == available;
    AvailableApply(o);
    EveryPrivilege(o);
  }

  lemma EveryPrivilege(o: Securable)
    ensures forall p :: Applies(p, o) <==> if o.DatabaseItself? then p != Usage else p in {Create, Usage}
  {
    forall p ensures Applies(p, o) <==> if o.DatabaseItself? then p != Usage else p in {Create, Usage} {
      match p case Create => case Connect => case Temporary => case Usage =>
    }
  }

  lemma PrivilegeStatement(pg: Pg, o: Securable, at: string, role: string, s: set<Privilege>, op: Op<Privilege>)
    requires o.SchemaIn? ==> at == o.database
    ensures var st := if op.Add? then Grants(op.x, TargetOf(o), role) else Revokes(op.x, TargetOf(o), role);
            Submit(WithDirect(pg, o, role, s), at, st) ==
              if Accepts(PrivilegeRules(o, role, Known(pg, o, role)), s, op)
              then Some(WithDirect(pg, o, role, Step(s, op))) else None
  {
    hide Tokens;
    SayablePrivilege(op.x, TargetOf(o), role);
    var mid := WithDirect(pg, o, role, s);
    assert mid.grants + {Grant(o, role, op.x)} == WithDirect(pg, o, role, s + {op.x}).grants;
    assert mid.grants - {Grant(o, role, op.x)} == WithDirect(pg, o, role, s - {op.x}).grants;
    assert SecurableOf(at, TargetOf(o)) == o;
  }

  lemma SayablePrivilege(p: Privilege, t: Target, role: string)
    ensures Sayable(Grants(p, t, role)) <==> t.name != "" && role != ""
    ensures Sayable(Revokes(p, t, role)) <==> t.name != "" && role != ""
  {
    assert Tokens(Grants(p, t, role))[4] == Name(t.name) && Tokens(Grants(p, t, role))[6] == Name(role);
    assert Tokens(Revokes(p, t, role))[4] == Name(t.name) && Tokens(Revokes(p, t, role))[6] == Name(role);
  }

  lemma SameDirect(pg: Pg, o: Securable, role: string)
    ensures pg == WithDirect(pg, o, role, Direct(pg, o, role))
  {
    assert pg.grants == WithDirect(pg, o, role, Direct(pg, o, role)).grants;
  }

  /** GRANT p ON DATABASE name, or ON SCHEMA name. */
  function GrantedText(p: Privilege, o: Securable): string {
    PrivilegeWord(p) + OnTarget(TargetOf(o)) + Quote(TargetName(o))
  }

  lemma PrivilegeTexts(p: Privilege, o: Securable, role: string)
    ensures Print(Grants(p, TargetOf(o), role)) == "GRANT " + GrantedText(p, o) + " TO " + Quote(role)
    ensures Print(Revokes(p, TargetOf(o), role)) == "REVOKE " + GrantedText(p, o) + " FROM " + Quote(role)
  {
    hide Print, Quote, PrivilegeWord, OnTarget;
    PrintsText(Grants(p, TargetOf(o), role));
    PrintsText(Revokes(p, TargetOf(o), role));
    var w, n := PrivilegeWord(p) + OnTarget(TargetOf(o)), Quote(TargetName(o));
    assert "GRANT " + w + n == "GRANT " + (w + n) && "REVOKE " + w + n == "REVOKE " + (w + n);
  }

  /** The texts of operations on a role's grants. */
  function Sendings(at: string, o: Securable, role: string, ops: seq<Op<Privilege>>): seq<Sending> {
    seq(|ops|, i requires 0 <= i < |ops| =>
      Sending(at, match ops[i]
                  case Add(p) => "GRANT " + GrantedText(p, o) + " TO " + Quote(role)
                  case Remove(p) => "REVOKE " + GrantedText(p, o) + " FROM " + Quote(role)))
  }

  lemma SendingsSnoc(at: string, o: Securable, role: string, ops: seq<Op<Privilege>>, p: Privilege)
    ensures Sendings(at, o, role, ops + [Add(p)])
         == Sendings(at, o, role, ops) + [Sending(at, "GRANT " + GrantedText(p, o) + " TO " + Quote(role))]
    ensures Sendings(at, o, role, ops + [Remove(p)])
         == Sendings(at, o, role, ops) + [Sending(at, "REVOKE " + GrantedText(p, o) + " FROM " + Quote(role))]
    ensures Sendings(at, o, role, []) == []
  {
    hide Quote, GrantedText;
  }

  /** Since `was`, the operations `done` were sent, and the role's own grants are now `s`. */
  ghost predicate Reached(world: World, was: Traffic, at: string, pg: Pg, o: Securable, role: string,
                          done: seq<Op<Privilege>>, s: set<Privilege>)
    reads world
  {
    && (o.SchemaIn? ==> at == o.database) && world.pg == WithDirect(pg, o, role, s)
    && world.calls == was.calls + |done| && world.writes == was.writes + |done|
    && world.sent == was.sent + Sendings(at, o, role, done)
  }

  method GrantRolePrivilege(world: World, at: string, o: Securable, role: string, p: Privilege, ghost pg: Pg,
                            ghost was: Traffic, ghost done: seq<Op<Privilege>>, ghost s: set<Privilege>)
      returns (err: bool)
    requires Reached(world, was, at, pg, o, role, done, s)
    modifies world`pg, world`calls, world`writes, world`sent
    ensures world.sent == old(world.sent) + [Sending(at, "GRANT " + GrantedText(p, o) + " TO " + Quote(role))]
    ensures err <==> world.fails(was.calls + |done|)
                     || !Accepts(PrivilegeRules(o, role, Known(pg, o, role)), s, Add(p))
    ensures Reached(world, was, at, pg, o, role, done + [Add(p)], if err then s else Step(s, Add(p)))
  {
    hide Submit, Print, Quote, PrivilegeRules, WithDirect, Sendings, Known, GrantedText, IsText, TargetOf;
    PrivilegeTexts(p, o, role);
    PrivilegeStatement(pg, o, at, role, s, Add(p));
    SendingsSnoc(at, o, role, done, p);
    err := world.Exec(at, Grants(p, TargetOf(o), role));
  }

  method RevokeRolePrivilege(world: World, at: string, o: Securable, role: string, p: Privilege, ghost pg: Pg,
                             ghost was: Traffic, ghost done: seq<Op<Privilege>>, ghost s: set<Privilege>)
      returns (err: bool)
    requires Reached(world, was, at, pg, o, role, done, s)
    modifies world`pg, world`calls, world`writes, world`sent
    ensures world.sent == old(world.sent) + [Sending(at, "REVOKE " + GrantedText(p, o) + " FROM " + Quote(role))]
    ensures err <==> world.fails(was.calls + |done|)
                     || !Accepts(PrivilegeRules(o, role, Known(pg, o, role)), s, Remove(p))
    ensures Reached(world, was, at, pg, o, role, done + [Remove(p)], if err then s else Step(s, Remove(p)))
  {
    hide Submit, Print, Quote, PrivilegeRules, WithDirect, Sendings, Known, GrantedText, IsText, TargetOf;
    PrivilegeTexts(p, o, role);
    PrivilegeStatement(pg, o, at, role, s, Remove(p));
    SendingsSnoc(at, o, role, done, p);
    err := world.Exec(at, Revokes(p, TargetOf(o), role));
  }

  /** Grants the missing privileges, then revokes the undeclared ones. */
  method SendDifferences(world: World, at: string, o: Securable, role: string, existing: seq<Privilege>,
                         desired: seq<Privilege>, ghost pg: Pg, ghost c: Course<Privilege>, ghost was: Traffic)
      returns (err: bool, ghost done: seq<Op<Privilege>>, ghost s: set<Privilege>)
    requires Reached(world, was, at, pg, o, role, [], c.from)
    requires c == Course(PrivilegeRules(o, role, Known(pg, o, role)), AddFirst(existing, desired), c.from, world.fails,
                         was.calls)
    modifies world`pg, world`calls, world`writes, world`sent
    ensures Reached(world, was, at, pg, o, role, done, s)
    ensures if err then Stopped(c, done, s) else Going(c, done, [], s)
  {
    hide *;
    ghost var drops := Removals(existing[0..], desired);
    err, done, s := false, [], c.from;
    Begins(c);
    AdditionsFrom(desired, existing, 0, drops);
    for i := 0 to |desired|
      invariant Reached(world, was, at, pg, o, role, done, s) && !err
      invariant Going(c, done, Additions(desired[i..], existing) + drops, s)
    {
      var found := Contains(existing, desired[i]);
      AdditionsFrom(desired, existing, i, drops);
      if !found {
        ghost var op, rest := Op<Privilege>.Add(desired[i]), Additions(desired[i + 1..], existing) + drops;
        Proceeds(c, done, op, rest, s);
        err := GrantRolePrivilege(world, at, o, role, desired[i], pg, was, done, s);
        done := done + [op];
        if err { return; }
        s := Step(s, op);
      }
    }
    AdditionsFrom(desired, existing, |desired|, drops);
    RemovalsFrom(existing, desired, 0, []);
    for i := 0 to |existing|
      invariant Reached(world, was, at, pg, o, role, done, s) && !err
      invariant Going(c, done, Removals(existing[i..], desired) + [], s)
    {
      var found := Contains(desired, existing[i]);
      RemovalsFrom(existing, desired, i, []);
      if !found {
        ghost var op, rest := Op<Privilege>.Remove(existing[i]), Removals(existing[i + 1..], desired) + [];
        Proceeds(c, done, op, rest, s);
        err := RevokeRolePrivilege(world, at, o, role, existing[i], pg, was, done, s);
        done := done + [op];
        if err { return; }
        s := Step(s, op);
      }
    }
    RemovalsFrom(existing, desired, |existing|, []);
  }

  /** Compares what the role effectively holds with the desired privileges, and sends the differences. */
  method ReconcilePrivileges(world: World, default: string, o: Securable, role: string, desired: seq<Privilege>)
      returns (err: bool, ghost listed: bool, ghost listing: seq<Privilege>, ghost start: nat)
    modifies world`pg, world`calls, world`writes, world`sent
    ensures !listed ==> err && world.pg == old(world.pg) && world.writes == old(world.writes)
                        && world.sent == old(world.sent)
                        && (!Known(world.pg, o, role) || (world.calls > 0 && world.fails(world.calls - 1)))
    ensures listed ==>
              var before, plan := old(world.pg), AddFirst(listing, desired);
              var r := Execute(PrivilegeRules(o, role, Known(before, o, role)), plan, Direct(before, o, role),
                               world.fails, start);
              && Elements(listing) == Effective(before, o, role)
              && start == old(world.calls) + (if o.DatabaseItself? then 3 else 2)
              && world.pg == WithDirect(before, o, role, r.state)
              && err == !r.ok && world.calls == r.calls && world.writes == old(world.writes) + (r.calls - start)
              && 0 <= r.calls - start <= |plan|
              && var at := if o.SchemaIn? then o.database else default;
                 world.sent == old(world.sent) + Sendings(at, o, role, plan[..r.calls - start])
  {
    hide PrivilegeRules, WithDirect, Execute, AddFirst, Effective, Known, Direct, Sendings, Quote, Going;
    listed, listing, start := false, [], 0;
    var existing;
    err, existing := GetRolePrivileges(world, o, role);
    if err { return; }
    listed, listing, start := true, existing, world.calls;
    ghost var before := world.pg;
    ghost var c := Course(PrivilegeRules(o, role, Known(before, o, role)), AddFirst(existing, desired),
                          Direct(before, o, role), world.fails, world.calls);
    SameDirect(before, o, role);
    SendingsSnoc(Connection(o, default), o, role, [], Create);
    ghost var done, s;
    err, done, s := SendDifferences(world, Connection(o, default), o, role, existing, desired, before, c,
                                    TrafficOf(world));
    if !err { Ends(c, done, s); }
  }

  // ----- effective privileges grow with grants -----

  lemma {:induction false} SameInheritance(a: Pg, b: Pg, role: string, from: string, hops: nat)
    requires a.members == b.members && a.roles == b.roles
    ensures Inherits(a, role, from, hops) == Inherits(b, role, from, hops)
    decreases hops
  {
    if hops > 0 {
      forall m | m in a.members ensures Inherits(a, m.group, from, hops - 1) == Inherits(b, m.group, from, hops - 1) {
        SameInheritance(a, b, m.group, from, hops - 1);
      }
    }
  }

  ghost predicate SameButGrants(a: Pg, b: Pg) { a.(grants := {}) == b.(grants := {}) }

  lemma HoldsGrows(a: Pg, b: Pg, o: Securable, role: string, p: Privilege)
    requires SameButGrants(a, b) && Holds(a, o, role, p)
    requires forall g :: g in a.grants && g.on == o ==> g in b.grants
    ensures Holds(b, o, role, p)
  {
    hide Inherits;
    assert a.members == b.members && a.roles == b.roles && a.public == b.public;
    forall g | g in a.grants ensures Inherits(a, role, g.role, |a.members|) == Inherits(b, role, g.role, |b.members|) {
      SameInheritance(a, b, role, g.role, |a.members|);
    }
  }

  lemma EffectiveGrows(a: Pg, b: Pg, o: Securable, role: string)
    requires SameButGrants(a, b)
    requires forall g :: g in a.grants && g.on == o ==> g in b.grants
    ensures Effective(a, o, role) <= Effective(b, o, role)
  {
    hide Holds;
    forall p | p in Effective(a, o, role) ensures p in Effective(b, o, role) {
      HoldsGrows(a, b, o, role, p);
    }
  }

  /** Only privileges that exist for the kind of object are granted on it. */
  ghost predicate WellTyped(pg: Pg, o: Securable) {
    forall g :: g in pg.grants && g.on == o ==> Applies(g.privilege, o)
  }

  lemma DirectIsEffective(pg: Pg, o: Securable, role: string)
    requires WellTyped(pg, o)
    ensures Direct(pg, o, role) <= Effective(pg, o, role)
  {
    forall p | p in Direct(pg, o, role) ensures Holds(pg, o, role, p) {
      var g :| g in pg.grants && g.on == o && g.role == role && g.privilege == p;
      assert Inherits(pg, role, g.role, |pg.members|);
    }
  }

  lemma DirectOf(pg: Pg, o: Securable, role: string, ps: set<Privilege>, other: string)
    ensures Direct(WithDirect(pg, o, role, ps), o, other) == if other == role then ps else Direct(pg, o, other)
    ensures SameButGrants(pg, WithDirect(pg, o, role, ps))
    ensures WellTyped(pg, o) && (forall p :: p in ps ==> Applies(p, o)) ==>
              WellTyped(WithDirect(pg, o, role, ps), o)
  {
    var after := WithDirect(pg, o, role, ps);
    forall p | p in (if other == role then ps else Direct(pg, o, other)) ensures p in Direct(after, o, other) {
      assert Grant(o, other, p) in after.grants;
    }
  }

  /** A role holds exactly its own grants and what it inherits. */
  lemma EffectiveSplits(pg: Pg, o: Securable, role: string)
    requires WellTyped(pg, o)
    ensures Effective(pg, o, role) == Direct(pg, o, role) + Inherited(pg, o, role)
  {
    hide Inherits;
    var none := WithDirect(pg, o, role, {});
    DirectIsEffective(pg, o, role);
    EffectiveGrows(none, pg, o, role);
    forall p | p in Effective(pg, o, role) && p !in Direct(pg, o, role) ensures Holds(none, o, role, p) {
      if g :| g in pg.grants && g.on == o && g.privilege == p && Inherits(pg, role, g.role, |pg.members|) {
        assert g.role != role;
        assert g in none.grants;
        SameInheritance(pg, none, role, g.role, |pg.members|);
      }
    }
  }

  lemma InheritedIgnoresOwn(pg: Pg, o: Securable, role: string, ps: set<Privilege>)
    ensures Inherited(WithDirect(pg, o, role, ps), o, role) == Inherited(pg, o, role)
  {
    hide Effective;
    assert WithDirect(WithDirect(pg, o, role, ps), o, role, {}).grants == WithDirect(pg, o, role, {}).grants;
  }

  // ----- one role -----

  /** A faultless pass over one role. */
  function OneRole(pg: Pg, o: Securable, role: string, declared: set<Privilege>): Pg {
    var held := Effective(pg, o, role);
    WithDirect(pg, o, role, Direct(pg, o, role) + (declared - held) - (held - declared))
  }

  /** Without faults the operator's loops have exactly this effect. */
  lemma FaultlessIsOneRole(pg: Pg, o: Securable, role: string, desired: seq<Privilege>, listing: seq<Privilege>,
                           fails: nat -> bool, n: nat)
    requires Faultless(fails) && Elements(listing) == Effective(pg, o, role)
    requires Known(pg, o, role) && role != "" && TargetName(o) != "" && forall p :: p in desired ==> Applies(p, o)
    ensures var rules := PrivilegeRules(o, role, Known(pg, o, role));
            var r := Execute(rules, AddFirst(listing, desired), Direct(pg, o, role), fails, n);
            r.ok && WithDirect(pg, o, role, r.state) == OneRole(pg, o, role, Elements(desired))
  {
    hide Effective, Execute;
    var rules := PrivilegeRules(o, role, Known(pg, o, role));
    AddFirstIsSafe(rules, listing, desired, Direct(pg, o, role), fails, n);
    AdditionsElements(desired, listing);
    RemovalsElements(listing, desired);
    forall op | op in AddFirst(listing, desired) ensures rules.known(op.x) {
      if op.x !in desired { assert op.x in Elements(listing); ListedApplies(pg, o, role, op.x); }
    }
    LenientSucceeds(rules, AddFirst(listing, desired), Direct(pg, o, role), fails, n);
  }

  lemma ListedApplies(pg: Pg, o: Securable, role: string, p: Privilege)
    requires p in Effective(pg, o, role)
    ensures Applies(p, o)
  {
  }

  /** The own grants after the pass: those declared before, and what was declared and not held. */
  lemma OwnAfter(pg: Pg, o: Securable, role: string, declared: set<Privilege>)
    requires WellTyped(pg, o) && (forall p :: p in declared ==> Applies(p, o))
    ensures var after := OneRole(pg, o, role, declared);
            && Direct(after, o, role) == Direct(pg, o, role) * declared + (declared - Effective(pg, o, role))
            && WellTyped(after, o) && SameButGrants(pg, after)
            && forall other :: other != role ==> Direct(after, o, other) == Direct(pg, o, other)
  {
    hide Effective, Direct, WithDirect;
    DirectIsEffective(pg, o, role);
    var held, own := Effective(pg, o, role), Direct(pg, o, role);
    var next := own + (declared - held) - (held - declared);
    assert next == own * declared + (declared - held);
    DirectApplies(pg, o, role);
    forall other { DirectOf(pg, o, role, next, other); }
  }

  lemma DirectApplies(pg: Pg, o: Securable, role: string)
    requires WellTyped(pg, o)
    ensures forall p :: p in Direct(pg, o, role) ==> Applies(p, o)
  {
  }

  /**
   Although it diffs effective privileges and writes own ones, a pass over one role leaves it holding exactly
   what is declared together with what it inherits, whatever its own grants were before. So a pass that
   failed at any statement can be run again to the same result.
   */
  lemma ExactEffect(pg: Pg, o: Securable, role: string, declared: set<Privilege>, own: set<Privilege>)
    requires WellTyped(pg, o) && (forall p :: p in declared + own ==> Applies(p, o))
    ensures Effective(OneRole(WithDirect(pg, o, role, own), o, role, declared), o, role)
         == declared + Inherited(pg, o, role)
  {
    hide Effective, Direct, WithDirect, Inherited;
    var start := WithDirect(pg, o, role, own);
    DirectOf(pg, o, role, own, role);
    InheritedIgnoresOwn(pg, o, role, own);
    OwnAfter(start, o, role, declared);
    EffectiveSplits(start, o, role);
    var held := Effective(start, o, role);
    var after := OneRole(start, o, role, declared);
    EffectiveSplits(after, o, role);
    InheritedIgnoresOwn(start, o, role, Direct(start, o, role) + (declared - held) - (held - declared));
  }

  /** Only privileges there are for the kind of object: no USAGE on a database, CREATE and USAGE on a schema. */
  ghost predicate OfKind(ps: set<Privilege>, o: Securable) {
    forall p :: p in ps ==> if o.DatabaseItself? then p != Usage else p in {Create, Usage}
  }

  /**
   What a faultless pass over one role decides, privilege by privilege: the role then holds exactly what it declares
   and what it would hold without grants of its own.
   */
  lemma PassDecides(pg: Pg, o: Securable, role: string, declared: set<Privilege>, p: Privilege)
    requires OfKind(declared + {p}, o) && forall g :: g in pg.grants && g.on == o ==> OfKind({g.privilege}, o)
    ensures var others := set g | g in pg.grants && (g.on != o || g.role != role);
            Holds(OneRole(pg, o, role, declared), o, role, p) <==>
              p in declared || Holds(pg.(grants := others), o, role, p)
  {
    hide Holds, Inherits, OneRole;
    EveryPrivilege(o);
    assert forall g :: g in pg.grants && g.on == o ==> g.privilege in {g.privilege};
    assert p in declared + {p};
    OwnEffect(pg, o, role, declared);
    var after := OneRole(pg, o, role, declared);
    var alone := pg.(grants := set g | g in pg.grants && (g.on != o || g.role != role));
    assert alone.grants == WithDirect(pg, o, role, {}).grants;
    assert p in Effective(after, o, role) <==> Holds(after, o, role, p);
    assert p in Effective(alone, o, role) <==> Holds(alone, o, role, p);
  }

  // ----- all listed roles -----

  type Declared = map<string, set<Privilege>>

  /** A faultless pass over the listed roles, in the map iteration order of that pass. */
  function OnePass(pg: Pg, o: Securable, order: seq<string>, declared: Declared): Pg
    requires forall r :: r in order ==> r in declared
    decreases |order|
  {
    if order == [] then pg
    else OnePass(OneRole(pg, o, order[0], declared[order[0]]), o, order[1..], declared)
  }

  ghost predicate Proper(pg: Pg, o: Securable, declared: Declared) {
    WellTyped(pg, o) && forall r, p :: r in declared && p in declared[r] ==> Applies(p, o)
  }

  /** Own grants lie within the declaration. */
  ghost predicate Bounded(pg: Pg, o: Securable, declared: Declared, roles: set<string>) {
    forall r :: r in roles && r in declared ==> Direct(pg, o, r) <= declared[r]
  }

  ghost predicate AllHeld(pg: Pg, o: Securable, declared: Declared, roles: set<string>) {
    forall r :: r in roles && r in declared ==> declared[r] <= Effective(pg, o, r)
  }

  /** The first pass brings every listed role's own grants within its declaration. */
  lemma {:induction false} PassBounds(pg: Pg, o: Securable, order: seq<string>, declared: Declared, done: set<string>)
    requires Proper(pg, o, declared) && (forall r :: r in order ==> r in declared) && Bounded(pg, o, declared, done)
    ensures var after := OnePass(pg, o, order, declared);
            && Proper(after, o, declared) && SameButGrants(pg, after)
            && Bounded(after, o, declared, done + Elements(order))
    decreases |order|
  {
    hide Direct, OneRole, Effective;
    if order != [] {
      OwnAfter(pg, o, order[0], declared[order[0]]);
      PassBounds(OneRole(pg, o, order[0], declared[order[0]]), o, order[1..], declared, done + {order[0]});
      assert done + Elements(order) == done + {order[0]} + Elements(order[1..]);
    } else {
      assert done + Elements(order) == done;
    }
  }

  ghost predicate GrantsGrow(a: Pg, b: Pg, o: Securable) {
    SameButGrants(a, b) && forall g :: g in a.grants && g.on == o ==> g in b.grants
  }

  /** Within the declarations a pass over a role only adds grants, and leaves the role holding its declaration. */
  lemma BoundedStep(pg: Pg, o: Securable, role: string, declared: set<Privilege>)
    requires WellTyped(pg, o) && (forall p :: p in declared ==> Applies(p, o)) && Direct(pg, o, role) <= declared
    ensures var after := OneRole(pg, o, role, declared);
            GrantsGrow(pg, after, o) && declared <= Effective(after, o, role)
  {
    hide Effective;
    OwnAfter(pg, o, role, declared);
    var after := OneRole(pg, o, role, declared);
    forall g | g in pg.grants && g.on == o ensures g in after.grants {
      if g.role == role { assert g.privilege in Direct(pg, o, role); assert g.privilege in Direct(after, o, role); }
    }
    EffectiveGrows(pg, after, o, role);
    DirectIsEffective(after, o, role);
  }

  /** The second pass only adds, and leaves every listed role holding its declaration. */
  lemma {:induction false} PassCompletes(pg: Pg, o: Securable, order: seq<string>, declared: Declared,
                                         done: set<string>)
    requires Proper(pg, o, declared) && (forall r :: r in order ==> r in declared)
    requires Bounded(pg, o, declared, declared.Keys) && AllHeld(pg, o, declared, done)
    ensures var after := OnePass(pg, o, order, declared);
            Proper(after, o, declared) && Bounded(after, o, declared, declared.Keys)
            && AllHeld(after, o, declared, done + Elements(order))
    decreases |order|
  {
    hide Direct, OneRole, Effective;
    if order != [] {
      var role := order[0];
      OwnAfter(pg, o, role, declared[role]);
      BoundedStep(pg, o, role, declared[role]);
      var next := OneRole(pg, o, role, declared[role]);
      forall r { EffectiveGrows(pg, next, o, r); }
      PassCompletes(next, o, order[1..], declared, done + {role});
      assert done + Elements(order) == done + {role} + Elements(order[1..]);
    } else {
      assert done + Elements(order) == done;
    }
  }

  /** When all is held and nothing superfluous granted, a pass changes nothing. */
  lemma {:induction false} PassRests(pg: Pg, o: Securable, order: seq<string>, declared: Declared)
    requires Proper(pg, o, declared) && (forall r :: r in order ==> r in declared)
    requires Bounded(pg, o, declared, declared.Keys) && AllHeld(pg, o, declared, declared.Keys)
    ensures OnePass(pg, o, order, declared) == pg
    decreases |order|
  {
    hide Direct, Effective, WithDirect;
    if order != [] {
      var role := order[0];
      var own, held, d := Direct(pg, o, role), Effective(pg, o, role), declared[role];
      assert own + (d - held) - (held - d) == own;
      SameDirect(pg, o, role);
      PassRests(pg, o, order[1..], declared);
    }
  }

  /**
   Two passes reach a fixpoint: for any inheritance between roles (listed or not), any PUBLIC grants, any grants
   to begin with and any iteration order in each pass, after two faultless passes every listed role holds
   all it declares, its own grants lie within its declaration, and a third pass changes nothing.
   */
  lemma TwoPassesReachFixpoint(pg: Pg, o: Securable, declared: Declared, first: seq<string>, second: seq<string>,
                               third: seq<string>)
    requires Proper(pg, o, declared)
    requires Elements(first) == Elements(second) == Elements(third) == declared.Keys
    ensures (forall r :: r in first || r in second || r in third ==> r in declared) &&
            var after := OnePass(OnePass(pg, o, first, declared), o, second, declared);
            Bounded(after, o, declared, declared.Keys) && AllHeld(after, o, declared, declared.Keys)
            && OnePass(after, o, third, declared) == after
  {
    hide Direct, Effective, OnePass;
    forall r | r in first || r in second || r in third ensures r in declared {
      assert r in Elements(first) || r in Elements(second) || r in Elements(third);
    }
    PassBounds(pg, o, first, declared, {});
    var one := OnePass(pg, o, first, declared);
    assert {} + Elements(first) == declared.Keys;
    PassCompletes(one, o, second, declared, {});
    var two := OnePass(one, o, second, declared);
    assert {} + Elements(second) == declared.Keys;
    PassRests(two, o, third, declared);
  }

  // ----- when one pass is enough -----

  /** The grants of a role matter only to roles that inherit from it. */
  lemma OthersGrants(pg: Pg, o: Securable, role: string, other: string, ps: set<Privilege>)
    requires !Inherits(pg, role, other, |pg.members|)
    ensures Effective(WithDirect(pg, o, other, ps), o, role) == Effective(pg, o, role)
  {
    hide Inherits;
    var after := WithDirect(pg, o, other, ps);
    forall g | g in pg.grants + after.grants
      ensures Inherits(after, role, g.role, |pg.members|) == Inherits(pg, role, g.role, |pg.members|)
    {
      SameInheritance(pg, after, role, g.role, |pg.members|);
    }
    forall p | Applies(p, o) ensures Holds(after, o, role, p) == Holds(pg, o, role, p) {
      forall g: Grant | g.role != other ensures g in pg.grants <==> g in after.grants {
      }
      SameInheritance(pg, after, role, other, |pg.members|);
    }
  }

  /** No listed role inherits from another. */
  ghost predicate NoCross(pg: Pg, roles: set<string>) {
    forall r, q :: r in roles && q in roles && r != q ==> !Inherits(pg, r, q, |pg.members|)
  }

  lemma NoCrossStays(a: Pg, b: Pg, roles: set<string>)
    requires a.roles == b.roles && a.members == b.members && NoCross(a, roles)
    ensures NoCross(b, roles)
  {
    hide Inherits;
    forall r, q | r in roles && q in roles && r != q ensures !Inherits(b, r, q, |b.members|) {
      SameInheritance(a, b, r, q, |a.members|);
    }
  }

  lemma OneRoleElsewhere(pg: Pg, o: Securable, role: string, declared: set<Privilege>, r: string)
    requires r != role && !Inherits(pg, r, role, |pg.members|)
    ensures var after := OneRole(pg, o, role, declared);
            Effective(after, o, r) == Effective(pg, o, r) && Inherited(after, o, r) == Inherited(pg, o, r)
  {
    hide Effective, Inherits, Direct;
    var held := Effective(pg, o, role);
    var next := Direct(pg, o, role) + (declared - held) - (held - declared);
    OthersGrants(pg, o, r, role, next);
    var bare := WithDirect(pg, o, r, {});
    SameInheritance(pg, bare, r, role, |pg.members|);
    OthersGrants(bare, o, r, role, next);
    assert WithDirect(bare, o, role, next).grants == WithDirect(WithDirect(pg, o, role, next), o, r, {}).grants;
  }

  /**
   When no listed role inherits from another, one faultless pass is enough: every listed role holds exactly what it
   declares and what it inherits.
   */
  lemma {:induction false} OnePassSuffices(pg: Pg, o: Securable, order: seq<string>, declared: Declared,
                                           done: set<string>, start: Pg)
    requires Proper(pg, o, declared) && NoCross(pg, declared.Keys) && (forall r :: r in order ==> r in declared)
    requires forall r :: r in declared ==> Inherited(pg, o, r) == Inherited(start, o, r)
    requires forall r :: r in done && r in declared ==> Effective(pg, o, r) == declared[r] + Inherited(start, o, r)
    ensures var after := OnePass(pg, o, order, declared);
            forall r :: r in done + Elements(order) && r in declared ==>
              Effective(after, o, r) == declared[r] + Inherited(start, o, r)
    decreases |order|
  {
    hide Effective, Inherited, Inherits, OneRole;
    if order != [] {
      var role := order[0];
      var next := OneRole(pg, o, role, declared[role]);
      OwnAfter(pg, o, role, declared[role]);
      NoCrossStays(pg, next, declared.Keys);
      OwnEffect(pg, o, role, declared[role]);
      forall r | r in declared && r != role
        ensures Effective(next, o, r) == Effective(pg, o, r) && Inherited(next, o, r) == Inherited(pg, o, r)
      {
        OneRoleElsewhere(pg, o, role, declared[role], r);
      }
      OnePassSuffices(next, o, order[1..], declared, done + {role}, start);
      assert done + Elements(order) == done + {role} + Elements(order[1..]);
    } else {
      assert done + Elements(order) == done;
    }
  }

  lemma OwnEffect(pg: Pg, o: Securable, role: string, declared: set<Privilege>)
    requires WellTyped(pg, o) && (forall p :: p in declared ==> Applies(p, o))
    ensures var after := OneRole(pg, o, role, declared);
            && Effective(after, o, role) == declared + Inherited(pg, o, role)
            && Inherited(after, o, role) == Inherited(pg, o, role)
  {
    hide Effective, Inherited, Direct, WithDirect;
    SameDirect(pg, o, role);
    DirectApplies(pg, o, role);
    ExactEffect(pg, o, role, declared, Direct(pg, o, role));
    var held := Effective(pg, o, role);
    InheritedIgnoresOwn(pg, o, role, Direct(pg, o, role) + (declared - held) - (held - declared));
  }
}
