/**
 Who holds what after a single pass over the listed roles. A pass can leave a role without a privilege it declares, when
 the role was held to have it through a grant that the same pass revokes later; the exact condition is proved here for
 any number of roles, any inheritance between them and any iteration order.
 */
module PrivilegeShortfall {
  import opened Wrappers
  import opened Statements
  import opened Outside
  import opened SetReconciliation
  import opened Privileges
  import opened PrivilegePasses

  // ----- inheritance is transitive -----

  lemma {:induction false} MoreHops(pg: Pg, a: string, b: string, m: nat, n: nat)
    requires Inherits(pg, a, b, m) && m <= n
    ensures Inherits(pg, a, b, n)
    decreases m
  {
    if a != b {
      var e :| e in pg.members && e.member == a && Inherits(pg, e.group, b, m - 1);
      MoreHops(pg, e.group, b, m - 1, n - 1);
    }
  }

  lemma {:induction false} Joined(pg: Pg, a: string, b: string, c: string, m: nat, n: nat)
    requires Inherits(pg, a, b, m) && Inherits(pg, b, c, n)
    ensures Inherits(pg, a, c, m + n)
    decreases m
  {
    if a == b {
      MoreHops(pg, b, c, n, m + n);
    } else {
      var e :| e in pg.members && e.member == a && Inherits(pg, e.group, b, m - 1);
      Joined(pg, e.group, b, c, m - 1, n);
    }
  }

  /** Without the memberships of one role. */
  function Without(pg: Pg, r: string): Pg {
    pg.(members := set m | m in pg.members && m.member != r)
  }

  /** A path either does not pass through r, or has a last departure from it. */
  lemma {:induction false} LastDeparture(pg: Pg, x: string, f: string, r: string, k: nat)
    requires Inherits(pg, x, f, k) && f != r
    ensures Inherits(Without(pg, r), x, f, k) ||
            exists m :: m in pg.members && m.member == r && Inherits(Without(pg, r), m.group, f, k)
    decreases k
  {
    var w := Without(pg, r);
    if x != f {
      var m :| m in pg.members && m.member == x && Inherits(pg, m.group, f, k - 1);
      LastDeparture(pg, m.group, f, r, k - 1);
      if Inherits(w, m.group, f, k - 1) {
        if x == r { MoreHops(w, m.group, f, k - 1, k); } else { assert m in w.members; }
      } else {
        var n :| n in pg.members && n.member == r && Inherits(w, n.group, f, k - 1);
        MoreHops(w, n.group, f, k - 1, k);
      }
    }
  }

  lemma {:induction false} MoreMembers(pg: Pg, w: Pg, a: string, b: string, k: nat)
    requires Inherits(w, a, b, k) && w.roles == pg.roles && w.members <= pg.members
    ensures Inherits(pg, a, b, k)
    decreases k
  {
    if a != b {
      var m :| m in w.members && m.member == a && Inherits(w, m.group, b, k - 1);
      MoreMembers(pg, w, m.group, b, k - 1);
    }
  }

  /** No path needs more hops than there are memberships. */
  lemma {:induction false} FewHopsSuffice(pg: Pg, a: string, b: string, k: nat)
    requires Inherits(pg, a, b, k)
    ensures Inherits(pg, a, b, |pg.members|)
    decreases |pg.members|
  {
    if a != b {
      var w := Without(pg, a);
      DepartsOnce(pg, a, b, k);
      var m :| m in pg.members && m.member == a && Inherits(w, m.group, b, k);
      FewerMembers(w.members, pg.members, m);
      FewHopsSuffice(w, m.group, b, k);
      MoreMembers(pg, w, m.group, b, |w.members|);
      MoreHops(pg, m.group, b, |w.members|, |pg.members| - 1);
      assert a in pg.roles && Inherit in pg.roles[a].attributes;
    }
  }

  lemma DepartsOnce(pg: Pg, a: string, b: string, k: nat)
    requires Inherits(pg, a, b, k) && a != b
    ensures exists m :: m in pg.members && m.member == a && Inherits(Without(pg, a), m.group, b, k)
  {
    LastDeparture(pg, a, b, a, k);
  }

  lemma FewerMembers(a: set<Member>, b: set<Member>, m: Member)
    requires a <= b && m in b && m !in a
    ensures |a| < |b|
  {
    assert b == a + (b - a);
    assert m in b - a;
  }

  lemma InheritsTransitive(pg: Pg, a: string, b: string, c: string)
    requires Inherits(pg, a, b, |pg.members|) && Inherits(pg, b, c, |pg.members|)
    ensures Inherits(pg, a, c, |pg.members|)
  {
    hide Inherits;
    Joined(pg, a, b, c, |pg.members|, |pg.members|);
    FewHopsSuffice(pg, a, c, |pg.members| + |pg.members|);
  }

  // ----- who holds a privilege -----

  /** A chain of memberships in which every member that is passed through inherits. */
  ghost predicate Chain(pg: Pg, xs: seq<string>) {
    xs != [] && forall i :: 0 <= i < |xs| - 1 ==>
      Member(xs[i + 1], xs[i]) in pg.members && xs[i] in pg.roles && Inherit in pg.roles[xs[i]].attributes
  }

  ghost predicate Leads(pg: Pg, xs: seq<string>, a: string, b: string) {
    Chain(pg, xs) && xs[0] == a && xs[|xs| - 1] == b
  }

  lemma {:induction false} HopsAreChain(pg: Pg, a: string, b: string, k: nat)
    requires Inherits(pg, a, b, k)
    ensures exists xs :: Leads(pg, xs, a, b)
    decreases k
  {
    if a == b {
      assert Leads(pg, [a], a, b);
    } else {
      var m :| m in pg.members && m.member == a && Inherits(pg, m.group, b, k - 1);
      HopsAreChain(pg, m.group, b, k - 1);
      var xs :| Leads(pg, xs, m.group, b);
      assert m == Member(xs[0], a);
      assert Leads(pg, [a] + xs, a, b);
    }
  }

  lemma {:induction false} ChainIsHops(pg: Pg, xs: seq<string>)
    requires Chain(pg, xs)
    ensures Inherits(pg, xs[0], xs[|xs| - 1], |xs|)
    decreases |xs|
  {
    if |xs| > 1 {
      var rest := xs[1..];
      forall i | 0 <= i < |rest| - 1
        ensures Member(rest[i + 1], rest[i]) in pg.members && rest[i] in pg.roles
                && Inherit in pg.roles[rest[i]].attributes
      {
        assert xs[i + 1] == rest[i] && xs[i + 2] == rest[i + 1];
      }
      ChainIsHops(pg, rest);
      assert Member(xs[1], xs[0]) in pg.members;
    }
  }

  /**
   Who effectively holds a privilege: a superuser, everyone if it is granted to PUBLIC, and whoever is led to a role
   with the grant by memberships, of any number, whose members inherit.
   */
  lemma HoldsExactly(pg: Pg, o: Securable, role: string, p: Privilege)
    ensures Holds(pg, o, role, p) <==>
              || (role in pg.roles && SuperUser in pg.roles[role].attributes) || (o, p) in pg.public
              || exists xs, g :: Leads(pg, xs, role, g) && Grant(o, g, p) in pg.grants
  {
    hide Inherits, Chain;
    forall xs, g | Leads(pg, xs, role, g) ensures Inherits(pg, role, g, |pg.members|) {
      LeadsInherits(pg, xs, role, g);
    }
    forall g | Inherits(pg, role, g, |pg.members|) ensures exists xs :: Leads(pg, xs, role, g) {
      HopsAreChain(pg, role, g, |pg.members|);
    }
    if exists xs, g :: Leads(pg, xs, role, g) && Grant(o, g, p) in pg.grants {
      var xs, g :| Leads(pg, xs, role, g) && Grant(o, g, p) in pg.grants;
      assert Grant(o, g, p).role == g;
    }
  }

  lemma LeadsInherits(pg: Pg, xs: seq<string>, a: string, b: string)
    requires Leads(pg, xs, a, b)
    ensures Inherits(pg, a, b, |pg.members|)
  {
    hide Inherits;
    ChainIsHops(pg, xs);
    FewHopsSuffice(pg, a, b, |xs|);
  }

  predicate Super(pg: Pg, role: string) {
    role in pg.roles && SuperUser in pg.roles[role].attributes
  }

  /** The role holds p without any grant. */
  predicate Outright(pg: Pg, o: Securable, role: string, p: Privilege) {
    Super(pg, role) || (o, p) in pg.public
  }

  predicate From(pg: Pg, role: string, q: string) { Inherits(pg, role, q, |pg.members|) }

  lemma OwnMeans(pg: Pg, o: Securable, role: string, p: Privilege)
    ensures p in Direct(pg, o, role) <==> Grant(o, role, p) in pg.grants
  {
  }

  lemma HoldsBy(pg: Pg, q: Pg, o: Securable, role: string, p: Privilege)
    requires SameButGrants(pg, q) && Applies(p, o)
    ensures p in Effective(q, o, role) <==>
              Outright(pg, o, role, p) || exists r :: p in Direct(q, o, r) && From(pg, role, r)
  {
    hide Inherits, Direct;
    assert pg.members == q.members && pg.roles == q.roles && pg.public == q.public;
    forall r: string ensures p in Direct(q, o, r) <==> Grant(o, r, p) in q.grants { OwnMeans(q, o, r, p); }
    forall g | g in q.grants ensures Inherits(q, role, g.role, |q.members|) == From(pg, role, g.role) {
      SameInheritance(pg, q, role, g.role, |pg.members|);
    }
    if g :| g in q.grants && g.on == o && g.privilege == p && Inherits(q, role, g.role, |q.members|) {
      assert g == Grant(o, g.role, p);
      assert p in Direct(q, o, g.role) && From(pg, role, g.role);
    }
    if r :| p in Direct(q, o, r) && From(pg, role, r) {
      assert Grant(o, r, p) in q.grants;
    }
  }

  // ----- own grants along a pass -----

  /** An unlisted role keeps its grant, a listed one loses what it does not declare and keeps what it does. */
  lemma {:induction false} OwnAlong(pg: Pg, o: Securable, order: seq<string>, declared: Declared, r: string,
                                    p: Privilege)
    requires Proper(pg, o, declared) && Listed(order, declared)
    ensures var after := OnePass(pg, o, order, declared);
            && Proper(after, o, declared) && SameButGrants(pg, after)
            && (r !in order ==> (p in Direct(after, o, r) <==> p in Direct(pg, o, r)))
            && (r in order && p !in declared[r] ==> p !in Direct(after, o, r))
            && (r in declared && p in declared[r] && p in Direct(pg, o, r) ==> p in Direct(after, o, r))
    decreases |order|
  {
    hide Effective, Direct, OneRole;
    if order != [] {
      var role := order[0];
      OwnAfter(pg, o, role, declared[role]);
      OwnAlong(OneRole(pg, o, role, declared[role]), o, order[1..], declared, r, p);
      assert order == [role] + order[1..];
    }
  }

  lemma {:induction false} OnePassConcat(pg: Pg, o: Securable, first: seq<string>, rest: seq<string>,
                                         declared: Declared)
    requires Listed(first + rest, declared)
    ensures Listed(first, declared) && Listed(rest, declared)
    ensures OnePass(pg, o, first + rest, declared) == OnePass(OnePass(pg, o, first, declared), o, rest, declared)
    decreases |first|
  {
    hide OneRole;
    forall r | r in first || r in rest ensures r in declared { assert r in first + rest; }
    if first == [] {
      assert first + rest == rest;
    } else {
      assert (first + rest)[1..] == first[1..] + rest;
      OnePassConcat(OneRole(pg, o, first[0], declared[first[0]]), o, first[1..], rest, declared);
    }
  }

  /** The state in which role number i is processed. */
  ghost function Before(pg: Pg, o: Securable, order: seq<string>, declared: Declared, i: nat): Pg
    requires i <= |order| && Listed(order, declared)
  {
    Prefix(order, declared, i);
    OnePass(pg, o, order[..i], declared)
  }

  lemma Prefix(order: seq<string>, declared: Declared, i: nat)
    requires i <= |order| && Listed(order, declared)
    ensures Listed(order[..i], declared) && Listed(order[i..], declared)
  {
  }

  lemma FromThere(pg: Pg, o: Securable, order: seq<string>, declared: Declared, i: nat)
    requires i <= |order| && Listed(order, declared)
    ensures Listed(order[i..], declared)
    ensures OnePass(pg, o, order, declared) == OnePass(Before(pg, o, order, declared, i), o, order[i..], declared)
  {
    hide OnePass;
    Prefix(order, declared, i);
    assert order[..i] + order[i..] == order;
    OnePassConcat(pg, o, order[..i], order[i..], declared);
  }

  /** A role that declares p ends with a grant of it if it had one, or did not hold p when its turn came. */
  lemma DeclaredGrant(pg: Pg, o: Securable, order: seq<string>, declared: Declared, i: nat, p: Privilege)
    requires Proper(pg, o, declared) && Listed(order, declared) && Distinct(order)
    requires i < |order| && p in declared[order[i]]
    ensures p in Direct(OnePass(pg, o, order, declared), o, order[i]) <==>
              p in Direct(pg, o, order[i]) || p !in Effective(Before(pg, o, order, declared, i), o, order[i])
  {
    hide Effective, Direct, OneRole;
    var r := order[i];
    FromThere(pg, o, order, declared, i);
    Prefix(order, declared, i);
    OwnAlong(pg, o, order[..i], declared, r, p);
    var mid := Before(pg, o, order, declared, i);
    var rest := order[i..];
    assert rest[0] == r && rest[1..] == order[i + 1..];
    OwnAfter(mid, o, r, declared[r]);
    forall x | x in order[i + 1..] ensures x in declared && x != r {
      var k :| i + 1 <= k < |order| && order[k] == x;
    }
    OwnAlong(OneRole(mid, o, r, declared[r]), o, order[i + 1..], declared, r, p);
  }

  // ----- the exact condition -----

  /** The role inherits from q, which owns p without declaring it. */
  ghost predicate Lends(pg: Pg, o: Securable, declared: Declared, role: string, q: string, p: Privilege)
    requires q in declared
  {
    From(pg, role, q) && p in Direct(pg, o, q) && p !in declared[q]
  }

  /** A later listed role lends p. */
  ghost predicate LaterLoan(pg: Pg, o: Securable, order: seq<string>, declared: Declared, i: nat, p: Privilege)
    requires i < |order| && Listed(order, declared)
  {
    exists j :: i < j < |order| && Lends(pg, o, declared, order[i], order[j], p)
  }

  /**
   Can be told before the pass: no grant of p reaches the role from outside, and every listed role that it inherits from
   (itself included) and that declares p has no grant of it, but seems to hold it: as a superuser, or on loan from
   a role later in the order.
   */
  ghost predicate EndsWithout(pg: Pg, o: Securable, order: seq<string>, declared: Declared, a: string, p: Privilege)
    requires Listed(order, declared)
  {
    && !Outright(pg, o, a, p)
    && (forall u :: u !in order && p in Direct(pg, o, u) ==> !From(pg, a, u))
    && (forall i :: 0 <= i < |order| && p in declared[order[i]] && From(pg, a, order[i]) ==>
          p !in Direct(pg, o, order[i]) && (Super(pg, order[i]) || LaterLoan(pg, o, order, declared, i, p)))
  }

  /** Whom p reaches: a role that seemed to hold it on loan does not end with a grant. */
  lemma LoanGetsNoGrant(pg: Pg, o: Securable, order: seq<string>, declared: Declared, i: nat, p: Privilege)
    requires Proper(pg, o, declared) && Listed(order, declared) && Distinct(order)
    requires i < |order| && p in declared[order[i]]
    requires p !in Direct(pg, o, order[i]) && (Super(pg, order[i]) || LaterLoan(pg, o, order, declared, i, p))
    ensures p !in Direct(OnePass(pg, o, order, declared), o, order[i])
  {
    hide Effective, Direct, OnePass, Inherits;
    DeclaredGrant(pg, o, order, declared, i, p);
    var mid := Before(pg, o, order, declared, i);
    Prefix(order, declared, i);
    OwnAlong(pg, o, order[..i], declared, order[i], p);
    HoldsBy(pg, mid, o, order[i], p);
    if !Super(pg, order[i]) {
      var j :| i < j < |order| && Lends(pg, o, declared, order[i], order[j], p);
      assert order[j] !in order[..i];
      OwnAlong(pg, o, order[..i], declared, order[j], p);
      assert p in Direct(mid, o, order[j]);
    }
  }

  /** And conversely: a role without a grant in the end had none, and held p outright or on loan, or from outside. */
  lemma NoGrantMeansLoan(pg: Pg, o: Securable, order: seq<string>, declared: Declared, a: string, i: nat, p: Privilege)
    requires Proper(pg, o, declared) && Listed(order, declared) && Distinct(order)
    requires i < |order| && p in declared[order[i]]
    requires !Outright(pg, o, a, p) && From(pg, a, order[i])
    requires forall r :: p in Direct(OnePass(pg, o, order, declared), o, r) ==> !From(pg, a, r)
    ensures p !in Direct(pg, o, order[i]) && (Super(pg, order[i]) || LaterLoan(pg, o, order, declared, i, p))
  {
    hide Effective, Direct, OnePass, Inherits;
    var after, mid, r := OnePass(pg, o, order, declared), Before(pg, o, order, declared, i), order[i];
    DeclaredGrant(pg, o, order, declared, i, p);
    Prefix(order, declared, i);
    OwnAlong(pg, o, order[..i], declared, r, p);
    HoldsBy(pg, mid, o, r, p);
    if !Super(pg, r) {
      var q :| p in Direct(mid, o, q) && From(pg, r, q);
      InheritsTransitive(pg, a, r, q);
      OwnAlong(pg, o, order[..i], declared, q, p);
      FromThere(pg, o, order, declared, i);
      OwnAlong(mid, o, order[i..], declared, q, p);
      LoanIsLater(pg, o, order, declared, i, q, p);
    }
  }

  lemma LoanIsLater(pg: Pg, o: Securable, order: seq<string>, declared: Declared, i: nat, q: string, p: Privilege)
    requires Listed(order, declared) && i < |order| && p in declared[order[i]] && From(pg, order[i], q)
    requires q in order[i..] && q in declared && p !in declared[q] && p in Direct(pg, o, q)
    ensures LaterLoan(pg, o, order, declared, i, p)
  {
    var k :| i <= k < |order| && order[k] == q;
    assert k != i && Lends(pg, o, declared, order[i], order[k], p);
  }

  /**
   After one pass, for any role and any privilege: the role does not hold the privilege if and only if the condition
   held before the pass. For a role that declares the privilege this is when one pass falls short.
   */
  lemma OnePassFallsShort(pg: Pg, o: Securable, order: seq<string>, declared: Declared, a: string, p: Privilege)
    requires Proper(pg, o, declared) && Listed(order, declared) && Distinct(order) && Applies(p, o)
    ensures p !in Effective(OnePass(pg, o, order, declared), o, a) <==> EndsWithout(pg, o, order, declared, a, p)
  {
    hide Effective, Direct, OnePass, Inherits, LaterLoan;
    var after := OnePass(pg, o, order, declared);
    OwnAlong(pg, o, order, declared, a, p);
    HoldsBy(pg, after, o, a, p);
    if EndsWithout(pg, o, order, declared, a, p) {
      forall r | p in Direct(after, o, r) ensures !From(pg, a, r) {
        OwnAlong(pg, o, order, declared, r, p);
        if r in order && From(pg, a, r) {
          var i :| 0 <= i < |order| && order[i] == r;
          LoanGetsNoGrant(pg, o, order, declared, i, p);
        }
      }
    }
    if p !in Effective(after, o, a) {
      forall u | u !in order && p in Direct(pg, o, u) ensures !From(pg, a, u) {
        OwnAlong(pg, o, order, declared, u, p);
      }
      forall i | 0 <= i < |order| && p in declared[order[i]] && From(pg, a, order[i])
        ensures p !in Direct(pg, o, order[i]) && (Super(pg, order[i]) || LaterLoan(pg, o, order, declared, i, p))
      {
        NoGrantMeansLoan(pg, o, order, declared, a, i, p);
      }
    }
  }

  /**
   For example: role a inherits from role b, which alone has CONNECT. With a declared to have CONNECT and b nothing,
   the pass that takes a first finds a holding CONNECT, sends no grant, and then revokes it from b.
   */
  lemma OnePassFallsShortHere() returns (pg: Pg, o: Securable, declared: Declared)
    ensures o == DatabaseItself("d") && declared == map["a" := {Connect}, "b" := {}]
    ensures pg.grants == {Grant(o, "b", Connect)} && pg.members == {Member("b", "a")} && pg.public == {}
    ensures Connect in Effective(pg, o, "a") && Listed(["a", "b"], declared)
    ensures Connect !in Effective(OnePass(pg, o, ["a", "b"], declared), o, "a")
  {
    o, declared := DatabaseItself("d"), map["a" := {Connect}, "b" := {}];
    var empty := Database("a", false, {}, map[]);
    pg := Pg("a", empty, map["a" := Role("a", {Inherit}, ""), "b" := Role("b", {}, "")], {Member("b", "a")},
             map["d" := empty], {Grant(o, "b", Connect)}, {});
    var order := ["a", "b"];
    ExampleInherits(pg);
    ExampleGrants(pg, o);
    HoldsBy(pg, pg, o, "a", Connect);
    assert LaterLoan(pg, o, order, declared, 0, Connect) by {
      assert Lends(pg, o, declared, order[0], order[1], Connect);
    }
    OnePassFallsShort(pg, o, order, declared, "a", Connect);
  }

  lemma ExampleInherits(pg: Pg)
    requires pg.members == {Member("b", "a")} && "a" in pg.roles && Inherit in pg.roles["a"].attributes
    ensures From(pg, "a", "b")
  {
    assert |pg.members| == 1;
    assert Member("b", "a") in pg.members && Inherits(pg, "b", "b", 0);
  }

  lemma ExampleGrants(pg: Pg, o: Securable)
    requires pg.grants == {Grant(o, "b", Connect)}
    ensures forall r: string, p: Privilege :: p in Direct(pg, o, r) <==> r == "b" && p == Connect
  {
    forall r: string, p: Privilege ensures p in Direct(pg, o, r) <==> r == "b" && p == Connect {
      OwnMeans(pg, o, r, p);
    }
  }
}
