/** Deletion of a role: its objects are handed over in every listed database before it is dropped. */
module RoleDeletion {
  import opened Wrappers
  import opened SqlText
  import opened Statements
  import opened Outside
  import opened Pools
  import opened SetReconciliation
  import Memberships
  import StatementTexts

  /** The parts of the world a deletion touches, and whether it got through. */
  datatype Deletion = Deletion(pg: Pg, pools: Bindings, calls: nat, writes: nat, ok: bool)

  /** One statement over the pool of database `at`. */
  function Sent(d: Deletion, at: string, st: Stmt, fails: nat -> bool): Deletion {
    var after := Submit(d.pg, at, st);
    if fails(d.calls) || after.None? then d.(calls := d.calls + 1, writes := d.writes + 1, ok := false)
    else Deletion(after.value, d.pools, d.calls + 1, d.writes + 1, d.ok)
  }

  function PoolEnsured(d: Deletion, database: string, fails: nat -> bool): Deletion {
    if database in d.pools then d.(ok := d.ok && d.pools[database] != None)
    else
      var pooled := Ensured(d.pools, Open(database, !fails(d.calls)));
      Deletion(d.pg, pooled, d.calls + 1, d.writes, d.ok && !fails(d.calls))
  }

  function ReassignEach(d: Deletion, dbs: seq<string>, from: string, to: string, fails: nat -> bool): Deletion
    decreases |dbs|
  {
    if dbs == [] || !d.ok then d
    else
      var pooled := PoolEnsured(d, dbs[0], fails);
      if !pooled.ok then pooled
      else ReassignEach(Sent(pooled, dbs[0], ReassignsOwned(from, to), fails), dbs[1..], from, to, fails)
  }

  /** reconcileOnDeletion, for the order in which the databases are listed. */
  function Deleted(d: Deletion, at: string, role: string, present: bool, keep: bool, to: string, dbs: seq<string>,
                   fails: nat -> bool): Deletion
  {
    if !present || keep then d
    else if to == "" then Sent(d, at, DropsRole(role), fails)
    else if fails(d.calls) then d.(calls := d.calls + 1, ok := false)
    else
      var r := ReassignEach(d.(calls := d.calls + 1), dbs, role, to, fails);
      if r.ok then Sent(r, at, DropsRole(role), fails) else r
  }

  // ----- the operator's code -----

  /** Names the non-template databases, in some order. */
  method ListDatabases(world: World) returns (err: bool, dbs: seq<string>)
    modifies world`calls
    ensures world.calls == old(world.calls) + 1 && (err <==> world.fails(old(world.calls)))
    ensures !err ==> Elements(dbs) == set d | d in world.pg.databases && !world.pg.databases[d].template
  {
    err := world.Ask();
    dbs := Memberships.Enumerate(set d | d in world.pg.databases && !world.pg.databases[d].template);
  }

  ghost function Now(world: World, pools: PgPools, ok: bool): Deletion
    reads world, pools, pools.default.config
    reads set d | d in pools.databases && pools.databases[d] != null :: pools.databases[d].config
  {
    Deletion(world.pg, pools.Bindings(), world.calls, world.writes, ok)
  }

  /** Handing over in each database, over a connection to it. */
  function ReassignTexts(dbs: seq<string>, from: string, to: string): (texts: seq<Sending>)
    ensures |texts| == |dbs|
  {
    seq(|dbs|, i requires 0 <= i < |dbs| =>
      Sending(dbs[i], "REASSIGN OWNED BY " + Quote(from) + " TO " + Quote(to)))
  }

  method ReassignInAll(world: World, pools: PgPools, dbs: seq<string>, from: string, to: string) returns (err: bool)
    requires BoundToKeys(pools.Bindings())
    modifies pools`databases, world`pg, world`calls, world`writes, world`sent
    ensures BoundToKeys(pools.Bindings())
    ensures Now(world, pools, !err) == ReassignEach(old(Now(world, pools, true)), dbs, from, to, world.fails)
    ensures var n := world.writes - old(world.writes);
            && 0 <= n <= |dbs| && (!err ==> n == |dbs|)
            && world.sent == old(world.sent) + ReassignTexts(dbs, from, to)[..n]
  {
    hide Submit, Ensured, Quote;
    err := false;
    ghost var texts := ReassignTexts(dbs, from, to);
    ghost var goal := ReassignEach(Now(world, pools, true), dbs, from, to, world.fails);
    for i := 0 to |dbs|
      invariant BoundToKeys(pools.Bindings()) && !err
      invariant goal == ReassignEach(Now(world, pools, true), dbs[i..], from, to, world.fails)
      invariant world.writes == old(world.writes) + i && world.sent == old(world.sent) + texts[..i]
    {
      assert texts[..i + 1] == texts[..i] + [texts[i]];
      var d := dbs[i];
      assert dbs[i..][1..] == dbs[i + 1..] && dbs[i..] != [];
      err := OneDatabase(world, pools, d, from, to);
      if err { return; }
    }
  }

  lemma ReassignIs(from: string, to: string)
    ensures Print(ReassignsOwned(from, to)) == "REASSIGN OWNED BY " + Quote(from) + " TO " + Quote(to)
  {
    StatementTexts.ReassignText(from, to);
  }

  method OneDatabase(world: World, pools: PgPools, d: string, from: string, to: string) returns (err: bool)
    requires BoundToKeys(pools.Bindings())
    modifies pools`databases, world`pg, world`calls, world`writes, world`sent
    ensures BoundToKeys(pools.Bindings())
    ensures var pooled := PoolEnsured(old(Now(world, pools, true)), d, world.fails);
            Now(world, pools, !err) ==
              if pooled.ok then Sent(pooled, d, ReassignsOwned(from, to), world.fails) else pooled
    ensures if world.writes == old(world.writes) then err && world.sent == old(world.sent)
            else world.writes == old(world.writes) + 1 && world.sent == old(world.sent) +
                   [Sending(d, "REASSIGN OWNED BY " + Quote(from) + " TO " + Quote(to))]
  {
    ReassignIs(from, to);
    hide Quote, Submit, Print, StatementTexts.IsText;
    err := pools.EnsureExists(world, d);
    if err { return; }
    var pool := pools.databases[d];
    assert pool != null <==> pools.Bindings()[d] != None;
    if pool == null { return true; }
    assert pools.Bindings()[d] == Some(pool.config.database);
    err := world.Exec(pool.config.database, ReassignsOwned(from, to));
  }

  lemma DropIs(pg: Pg, at: string, name: string)
    ensures Print(DropsRole(name)) == "DROP ROLE " + Quote(name)
    ensures var after := Submit(pg, at, DropsRole(name));
            after.Some? ==>
              after.value == pg.(roles := pg.roles - {name},
                                 members := set m | m in pg.members && m.group != name && m.member != name)
  {
    hide Sayable;
    StatementTexts.DropTexts(name);
  }

  method DropRole(world: World, at: string, name: string) returns (err: bool)
    modifies world`pg, world`calls, world`writes, world`sent
    ensures world.calls == old(world.calls) + 1 && world.writes == old(world.writes) + 1
    ensures world.sent == old(world.sent) + [Sending(at, "DROP ROLE " + Quote(name))]
    ensures err <==> world.fails(old(world.calls)) || Submit(old(world.pg), at, DropsRole(name)).None?
    ensures world.pg == if err then old(world.pg) else Submit(old(world.pg), at, DropsRole(name)).value
    ensures !err ==>
              var pg := old(world.pg);
              world.pg == pg.(roles := pg.roles - {name},
                              members := set m | m in pg.members && m.group != name && m.member != name)
  {
    hide Submit, Print, Quote, StatementTexts.IsText;
    DropIs(world.pg, at, name);
    err := world.Exec(at, DropsRole(name));
  }

  lemma FirstTexts(texts: seq<Sending>, last: Sending)
    ensures texts[..|texts|] == texts && (texts + [last])[..|texts| + 1] == texts + [last]
    ensures forall n :: 0 <= n <= |texts| ==> (texts + [last])[..n] == texts[..n]
  {
  }

  /** Lists the databases and hands over in each of them. */
  method HandOver(world: World, pools: PgPools, from: string, to: string) returns (err: bool, dbs: seq<string>)
    requires BoundToKeys(pools.Bindings())
    modifies pools`databases, world`pg, world`calls, world`writes, world`sent
    ensures BoundToKeys(pools.Bindings())
    ensures var d := old(Now(world, pools, true));
            Now(world, pools, !err) ==
              if world.fails(d.calls) then d.(calls := d.calls + 1, ok := false)
              else ReassignEach(d.(calls := d.calls + 1), dbs, from, to, world.fails)
    ensures !world.fails(old(world.calls)) ==>
              Elements(dbs) == set d | d in old(world.pg).databases && !old(world.pg).databases[d].template
    ensures var n := world.writes - old(world.writes);
            && 0 <= n <= |dbs| && (!err ==> n == |dbs|)
            && world.sent == old(world.sent) + ReassignTexts(dbs, from, to)[..n]
  {
    hide Submit, ReassignEach, PoolEnsured, Ensured, Quote, ReassignTexts;
    err, dbs := ListDatabases(world);
    if err { return true, []; }
    err := ReassignInAll(world, pools, dbs, from, to);
  }

  method ReconcileOnDeletion(world: World, pools: PgPools, at: string, existing: Option<Role>, keep: bool, to: string)
      returns (err: bool, ghost dbs: seq<string>)
    requires BoundToKeys(pools.Bindings())
    modifies pools`databases, world`pg, world`calls, world`writes, world`sent
    ensures BoundToKeys(pools.Bindings())
    ensures Now(world, pools, !err) ==
              Deleted(old(Now(world, pools, true)), at, if existing.Some? then existing.value.name else "",
                      existing.Some?, keep, to, dbs, world.fails)
    ensures existing.Some? && !keep && to != "" && !world.fails(old(world.calls)) ==>
              Elements(dbs) == set d | d in old(world.pg).databases && !old(world.pg).databases[d].template
    // a role that is not there, or is kept, is not touched, nor is what it owns
    ensures existing.None? || keep ==>
              && !err && world.pg == old(world.pg) && world.calls == old(world.calls)
              && world.writes == old(world.writes) && world.sent == old(world.sent)
              && pools.Bindings() == old(pools.Bindings())
    ensures existing.Some? && !keep && to == "" ==>
              && dbs == [] && pools.Bindings() == old(pools.Bindings()) && world.calls == old(world.calls) + 1
              && (err ==> world.pg == old(world.pg))
              && (!err ==>
                   var name, pg := existing.value.name, old(world.pg);
                   world.pg == pg.(roles := pg.roles - {name},
                                   members := set m | m in pg.members && m.group != name && m.member != name))
    ensures existing.Some? && !keep ==>
              var n := world.writes - old(world.writes);
              var texts := ReassignTexts(dbs, existing.value.name, to)
                           + [Sending(at, "DROP ROLE " + Quote(existing.value.name))];
              && 0 <= n <= |texts| && (!err ==> n == |texts|) && world.sent == old(world.sent) + texts[..n]
  {
    hide Submit, ReassignEach, Quote, ReassignTexts;
    err, dbs := false, [];
    if existing.None? || keep { return; }
    if to != "" {
      err, dbs := HandOver(world, pools, existing.value.name, to);
    }
    FirstTexts(ReassignTexts(dbs, existing.value.name, to), Sending(at, "DROP ROLE " + Quote(existing.value.name)));
    if err { return; }
    err := DropRole(world, at, existing.value.name);
  }

  // ----- conservation -----

  /** Every object of the listed databases, and every database, passes from one owner to the other. */
  function HandedOver(dbs: map<string, Database>, listed: set<string>, from: string, to: string): map<string,
                      Database> {
    map d | d in dbs ::
      Database(if listed != {} && dbs[d].owner == from then to else dbs[d].owner, dbs[d].template, dbs[d].extensions,
               if d in listed then Reowned(dbs[d].owners, from, to) else dbs[d].owners)
  }

  lemma ReownedTwice(owners: map<Thing, string>, from: string, to: string)
    ensures Reowned(Reowned(owners, from, to), from, to) == Reowned(owners, from, to)
  {
  }

  lemma HandOverOne(dbs: map<string, Database>, listed: set<string>, at: string, from: string, to: string)
    ensures Reassigned(HandedOver(dbs, listed, from, to), at, from, to) == HandedOver(dbs, listed + {at}, from, to)
  {
    forall d | d in dbs
      ensures Reowned(Reowned(dbs[d].owners, from, to), from, to) == Reowned(dbs[d].owners, from, to)
    {
      ReownedTwice(dbs[d].owners, from, to);
    }
  }

  lemma HandOverAgain(dbs: map<string, Database>, part: set<string>, all: set<string>, from: string, to: string)
    requires part <= all
    ensures HandedOver(HandedOver(dbs, part, from, to), all, from, to) == HandedOver(dbs, all, from, to)
  {
    forall d | d in dbs
      ensures Reowned(Reowned(dbs[d].owners, from, to), from, to) == Reowned(dbs[d].owners, from, to)
    {
      ReownedTwice(dbs[d].owners, from, to);
    }
  }

  lemma {:induction false} ReassignsSome(d: Deletion, dbs: seq<string>, from: string, to: string, fails: nat -> bool,
                                          pg: Pg, before: set<string>)
    requires d.ok && d.pg == pg.(databases := HandedOver(pg.databases, before, from, to))
    ensures var r := ReassignEach(d, dbs, from, to, fails);
            exists done :: before <= done <= before + Elements(dbs) && (r.ok ==> done == before + Elements(dbs))
              && r.pg == pg.(databases := HandedOver(pg.databases, done, from, to))
    decreases |dbs|
  {
    hide HandedOver, Reassigned, Sayable;
    if dbs == [] {
      assert before + Elements(dbs) == before;
    } else {
      var pooled := PoolEnsured(d, dbs[0], fails);
      var sent := Sent(pooled, dbs[0], ReassignsOwned(from, to), fails);
      HandOverOne(pg.databases, before, dbs[0], from, to);
      assert Elements(dbs) == {dbs[0]} + Elements(dbs[1..]);
      if pooled.ok && sent.ok {
        ReassignsSome(sent, dbs[1..], from, to, fails, pg, before + {dbs[0]});
      } else {
        assert ReassignEach(d, dbs, from, to, fails).pg == d.pg;
      }
    }
  }

  function Listed(pg: Pg): set<string> {
    set d | d in pg.databases && !pg.databases[d].template
  }

  function Dropped(pg: Pg, role: string): Pg {
    pg.(roles := pg.roles - {role}, members := set m | m in pg.members && m.group != role && m.member != role)
  }

  lemma DropOutcome(d: Deletion, at: string, role: string, fails: nat -> bool)
    requires d.ok
    ensures var r := Sent(d, at, DropsRole(role), fails);
            if r.ok then r.pg == Dropped(d.pg, role) && !OwnsSomething(d.pg, role) && role in d.pg.roles
            else r.pg == d.pg
  {
    hide Sayable;
  }

  /**
   DROP ROLE is sent only after every listed database has been handed over, and a pass that stops
   anywhere has handed over some of the listed databases and dropped nothing.
   */
  lemma HandsOverThenDrops(d: Deletion, at: string, role: string, to: string, dbs: seq<string>, fails: nat -> bool)
    requires d.ok && to != ""
    ensures var r := Deleted(d, at, role, true, false, to, dbs, fails);
            if r.ok then
              var handed := d.pg.(databases := HandedOver(d.pg.databases, Elements(dbs), role, to));
              r.pg == Dropped(handed, role) && !OwnsSomething(handed, role) && role in d.pg.roles
            else
              exists done ::
                done <= Elements(dbs) && r.pg == d.pg.(databases := HandedOver(d.pg.databases, done, role, to))
  {
    hide OwnsSomething, Dropped, HandedOver, Sent;
    NothingHandedOver(d.pg, role, to);
    if !fails(d.calls) {
      var start := d.(calls := d.calls + 1);
      ReassignsSome(start, dbs, role, to, fails, d.pg, {});
      var r := ReassignEach(start, dbs, role, to, fails);
      assert {} + Elements(dbs) == Elements(dbs);
      if r.ok {
        DropOutcome(r, at, role, fails);
      }
    } else {
      assert {} <= Elements(dbs);
    }
  }

  lemma NothingHandedOver(pg: Pg, from: string, to: string)
    ensures pg.(databases := HandedOver(pg.databases, {}, from, to)) == pg
  {
  }

  ghost predicate SameThings(a: map<string, Database>, b: map<string, Database>) {
    a.Keys == b.Keys && forall d :: d in a ==> a[d].owners.Keys == b[d].owners.Keys
  }

  ghost predicate AllReowned(before: Pg, after: Pg, from: string, to: string)
    requires SameThings(before.databases, after.databases)
  {
    forall n :: n in before.databases ==>
      var d, e := before.databases[n], after.databases[n];
      && (forall t :: t in d.owners ==> e.owners[t] == if d.owners[t] == from then to else d.owners[t])
      && (Listed(before) != {} ==> e.owner == if d.owner == from then to else d.owner)
  }

  /**
   Objects are conserved: after a successful deletion every object and database exists as before, belongs to
   the new owner if the dropped role owned it, and to its old owner otherwise; nothing belongs to the role.
   */
  lemma DeletionConserves(d: Deletion, at: string, role: string, to: string, dbs: seq<string>, fails: nat -> bool)
    requires d.ok && to != "" && Elements(dbs) == Listed(d.pg)
    ensures var r := Deleted(d, at, role, true, false, to, dbs, fails);
            && SameThings(d.pg.databases, r.pg.databases)
            && (r.ok ==> role !in r.pg.roles && !OwnsSomething(r.pg, role) && AllReowned(d.pg, r.pg, role, to))
  {
    hide Deleted;
    HandsOverThenDrops(d, at, role, to, dbs, fails);
    var r := Deleted(d, at, role, true, false, to, dbs, fails);
    if r.ok {
      var handed := HandedOver(d.pg.databases, Elements(dbs), role, to);
      assert r.pg.databases == handed;
      forall n | n in d.pg.databases ensures handed[n].owners == Reowned(d.pg.databases[n].owners, role, to) {
        if n !in Elements(dbs) {
          assert role !in handed[n].owners.Values;
          NotOwned(d.pg.databases[n].owners, role, to);
        }
      }
    }
  }

  lemma NotOwned(owners: map<Thing, string>, role: string, to: string)
    requires role !in owners.Values
    ensures Reowned(owners, role, to) == owners
  {
    forall t | t in owners ensures owners[t] != role { assert owners[t] in owners.Values; }
  }

  /** A deletion that stopped anywhere and is run again ends in the same state as one that ran through at once. */
  lemma RetryEndsTheSame(d: Deletion, at: string, role: string, to: string, dbs: seq<string>, fails: nat -> bool,
                         again: Deletion, dbs': seq<string>, fails': nat -> bool)
    requires d.ok && to != "" && Elements(dbs) == Listed(d.pg)
    requires var r := Deleted(d, at, role, true, false, to, dbs, fails); !r.ok && again.pg == r.pg && again.ok
    requires Elements(dbs') == Listed(again.pg)
    requires Deleted(again, at, role, true, false, to, dbs', fails').ok
    ensures Deleted(again, at, role, true, false, to, dbs', fails').pg
         == Dropped(d.pg.(databases := HandedOver(d.pg.databases, Listed(d.pg), role, to)), role)
  {
    hide Deleted;
    HandsOverThenDrops(d, at, role, to, dbs, fails);
    HandsOverThenDrops(again, at, role, to, dbs', fails');
    var done :| done <= Elements(dbs) && again.pg == d.pg.(databases := HandedOver(d.pg.databases, done, role, to));
    HandOverAgain(d.pg.databases, done, Listed(d.pg), role, to);
    assert Listed(again.pg) == Listed(d.pg);
  }

  // ----- when a deletion succeeds -----

  /**
   What a deletion without faults needs: the role is not the operator's and holds no grant; what it owns can be handed
   over, that is, it lies in no template database and goes to another role, which exists; and no database that is
   no template has an entry that a failed open left.
   */
  ghost predicate Droppable(pg: Pg, pools: Bindings, role: string, to: string) {
    && role != pg.operator && (forall g :: g in pg.grants ==> g.role != role)
    && (forall n :: n in pg.databases && pg.databases[n].owner == role ==>
          to != "" && to != role && exists m :: m in pg.databases && !pg.databases[m].template)
    && (forall n :: n in pg.databases && role in pg.databases[n].owners.Values ==>
          to != "" && to != role && !pg.databases[n].template)
    && (forall n :: n in pg.databases && !pg.databases[n].template && to != "" ==>
          to in pg.roles && (n in pools ==> pools[n] != None))
  }

  lemma {:induction false} ReassignsFaultless(d: Deletion, dbs: seq<string>, from: string, to: string,
                                              fails: nat -> bool)
    requires d.ok && (forall n :: !fails(n)) && from in d.pg.roles && from != "" && to != ""
    requires forall x :: x in dbs ==> x in d.pg.databases
    ensures ReassignEach(d, dbs, from, to, fails).ok <==>
              forall x :: x in dbs ==> to in d.pg.roles && (x in d.pools ==> d.pools[x] != None)
    decreases |dbs|
  {
    hide Reassigned, Sayable;
    if dbs != [] {
      SayableReassign(from, to);
      assert dbs[0] in dbs;
      var pooled := PoolEnsured(d, dbs[0], fails);
      var sent := Sent(pooled, dbs[0], ReassignsOwned(from, to), fails);
      if pooled.ok && to in d.pg.roles {
        ReassignedKeys(d.pg.databases, dbs[0], from, to);
        assert forall x :: x in dbs[1..] ==> x in dbs;
        ReassignsFaultless(sent, dbs[1..], from, to, fails);
        assert dbs == [dbs[0]] + dbs[1..];
      }
    }
  }

  lemma ReassignedKeys(dbs: map<string, Database>, at: string, from: string, to: string)
    ensures Reassigned(dbs, at, from, to).Keys == dbs.Keys
  {
  }

  lemma SayableReassign(from: string, to: string)
    ensures Sayable(ReassignsOwned(from, to)) <==> from != "" && to != ""
    ensures Sayable(DropsRole(from)) <==> from != ""
  {
    assert Tokens(ReassignsOwned(from, to))[3] == Name(from) && Tokens(ReassignsOwned(from, to))[5] == Name(to);
    assert Tokens(DropsRole(from))[2] == Name(from);
  }

  /** After the handing over the role owns nothing exactly when all it owned could be handed over. */
  lemma OwnsNothing(pg: Pg, listed: set<string>, role: string, to: string)
    requires listed == Listed(pg) && to != ""
    ensures OwnsSomething(pg.(databases := HandedOver(pg.databases, listed, role, to)), role) <==>
              exists n :: n in pg.databases &&
                ((pg.databases[n].owner == role && (to == role || listed == {})) ||
                 (role in pg.databases[n].owners.Values && (to == role || pg.databases[n].template)))
  {
    var handed := HandedOver(pg.databases, listed, role, to);
    forall n | n in pg.databases
      ensures role in handed[n].owners.Values <==>
                role in pg.databases[n].owners.Values && (to == role || pg.databases[n].template)
    {
      StillOwned(pg.databases[n].owners, role, to);
    }
    assert handed.Keys == pg.databases.Keys;
  }

  lemma StillOwned(owners: map<Thing, string>, role: string, to: string)
    ensures role in Reowned(owners, role, to).Values <==> role in owners.Values && to == role
  {
    var r := Reowned(owners, role, to);
    if role in owners.Values && to == role {
      var t :| t in owners && owners[t] == role;
      assert r[t] == role;
    }
  }

  lemma DropSucceeds(d: Deletion, at: string, role: string, fails: nat -> bool)
    requires d.ok && (forall n :: !fails(n)) && role in d.pg.roles && role != ""
    ensures Sent(d, at, DropsRole(role), fails).ok <==>
              role != d.pg.operator && !OwnsSomething(d.pg, role) && forall g :: g in d.pg.grants ==> g.role != role
  {
    hide Sayable, OwnsSomething;
    SayableReassign(role, "");
  }

  /** Without faults, a deletion that lists the databases succeeds exactly when the role is gone, kept or droppable. */
  lemma DeletionSucceedsExactly(d: Deletion, at: string, role: string, keep: bool, to: string, dbs: seq<string>,
                                fails: nat -> bool)
    requires d.ok && (forall n :: !fails(n)) && (role in d.pg.roles ==> role != "")
    requires role in d.pg.roles && !keep && to != "" ==>
               Elements(dbs) == set n | n in d.pg.databases && !d.pg.databases[n].template
    ensures Deleted(d, at, role, role in d.pg.roles, keep, to, dbs, fails).ok <==>
              role !in d.pg.roles || keep || Droppable(d.pg, d.pools, role, to)
  {
    hide Sent, ReassignEach, HandedOver, OwnsSomething;
    if role in d.pg.roles && !keep {
      if to == "" {
        DropSucceeds(d, at, role, fails);
        OwnsExactly(d.pg, role);
      } else {
        ListedSucceeds(d, at, role, to, dbs, fails);
        OwnsNothing(d.pg, Listed(d.pg), role, to);
        SomeListed(d.pg);
      }
    }
  }

  lemma ListedSucceeds(d: Deletion, at: string, role: string, to: string, dbs: seq<string>, fails: nat -> bool)
    requires d.ok && (forall n :: !fails(n)) && role in d.pg.roles && role != "" && to != ""
    requires Elements(dbs) == Listed(d.pg)
    ensures Deleted(d, at, role, true, false, to, dbs, fails).ok <==>
              && (forall x :: x in Listed(d.pg) ==> to in d.pg.roles && (x in d.pools ==> d.pools[x] != None))
              && role != d.pg.operator && (forall g :: g in d.pg.grants ==> g.role != role)
              && !OwnsSomething(d.pg.(databases := HandedOver(d.pg.databases, Listed(d.pg), role, to)), role)
  {
    hide Sent, ReassignEach, HandedOver, OwnsSomething;
    var start := d.(calls := d.calls + 1);
    forall x ensures x in dbs <==> x in Listed(d.pg) { assert x in dbs <==> x in Elements(dbs); }
    ReassignsFaultless(start, dbs, role, to, fails);
    NothingHandedOver(d.pg, role, to);
    ReassignsSome(start, dbs, role, to, fails, d.pg, {});
    assert {} + Elements(dbs) == Listed(d.pg);
    if ReassignEach(start, dbs, role, to, fails).ok {
      DropSucceeds(ReassignEach(start, dbs, role, to, fails), at, role, fails);
    }
  }

  lemma SomeListed(pg: Pg)
    ensures Listed(pg) != {} <==> exists m :: m in pg.databases && !pg.databases[m].template
  {
    if m :| m in pg.databases && !pg.databases[m].template { assert m in Listed(pg); }
  }

  lemma OwnsExactly(pg: Pg, role: string)
    ensures OwnsSomething(pg, role) <==>
              exists n :: n in pg.databases &&
                (pg.databases[n].owner == role || role in pg.databases[n].owners.Values)
  {
  }
}
