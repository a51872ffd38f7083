/** Reconciliation of a database's extensions. */
module Extensions {
  import opened Wrappers
  import opened SqlText
  import opened Statements
  import opened Outside
  import opened Pools
  import opened SetReconciliation
  import StatementTexts

  /** CREATE EXTENSION of an installed one and DROP EXTENSION of an absent one are errors. */
  function ExtensionRules(): Rules<string> { Rules(true, x => x != "") }

  function WithExtensions(pg: Pg, database: string, installed: set<string>): Pg
    requires database in pg.databases
  {
    SetDatabase(pg, database, pg.databases[database].(extensions := installed))
  }

  lemma ExtensionStatement(pg: Pg, db: string, s: set<string>, op: Op<string>)
    requires db in pg.databases
    ensures var st := if op.Add? then CreatesExtension(op.x) else DropsExtension(op.x);
            Submit(WithExtensions(pg, db, s), db, st) ==
              if Accepts(ExtensionRules(), s, op) then Some(WithExtensions(pg, db, Step(s, op))) else None
  {
    hide Tokens;
    var st := if op.Add? then CreatesExtension(op.x) else DropsExtension(op.x);
    SayableExtension(op.x);
    var mid := WithExtensions(pg, db, s);
    var d := pg.databases[db];
    assert mid.databases[db] == d.(extensions := s);
    forall t: set<string>
      ensures SetDatabase(mid, db, mid.databases[db].(extensions := t)) == WithExtensions(pg, db, t)
    {
      assert mid.databases[db := d.(extensions := t)] == pg.databases[db := d.(extensions := t)];
    }
    assert SetDatabase(mid, db, mid.databases[db].(extensions := Step(s, op))) == WithExtensions(pg, db, Step(s, op));
  }

  lemma SayableExtension(x: string)
    ensures Sayable(CreatesExtension(x)) <==> x != ""
    ensures Sayable(DropsExtension(x)) <==> x != ""
  {
    assert Tokens(CreatesExtension(x))[2] == Name(x);
    assert Tokens(DropsExtension(x))[2] == Name(x);
  }

  /** Reads the rows one by one; a lost connection looks like the end of the rows. */
  method GetExtensions(world: World, database: string) returns (err: bool, listing: seq<string>)
    modifies world`calls
    ensures world.calls == old(world.calls) + 1
    ensures err <==> world.fails(old(world.calls)) || database !in world.pg.databases
    ensures !err ==> Distinct(listing) && Elements(listing) <= world.pg.databases[database].extensions
    ensures !err && !world.cuts(old(world.calls)) ==> Elements(listing) == world.pg.databases[database].extensions
  {
    var n := world.calls;
    err := world.Ask();
    listing := [];
    if err || database !in world.pg.databases { return true, []; }
    var unread := world.pg.databases[database].extensions;
    while unread != {}
      invariant unread !! Elements(listing) && Distinct(listing)
      invariant unread + Elements(listing) == world.pg.databases[database].extensions
      decreases unread
    {
      var lost: bool := *;
      if world.cuts(n) && lost { break; }
      var row :| row in unread;
      assert Elements(listing + [row]) == Elements(listing) + {row};
      listing := listing + [row];
      unread := unread - {row};
    }
  }

  /** The texts of operations on a database's extensions. */
  function Sendings(database: string, ops: seq<Op<string>>): seq<Sending> {
    seq(|ops|, i requires 0 <= i < |ops| =>
      Sending(database, match ops[i]
                        case Add(x) => "CREATE EXTENSION " + Quote(x)
                        case Remove(x) => "DROP EXTENSION " + Quote(x)))
  }

  lemma SendingsSnoc(database: string, ops: seq<Op<string>>, x: string)
    ensures Sendings(database, ops + [Add(x)])
         == Sendings(database, ops) + [Sending(database, "CREATE EXTENSION " + Quote(x))]
    ensures Sendings(database, ops + [Remove(x)])
         == Sendings(database, ops) + [Sending(database, "DROP EXTENSION " + Quote(x))]
    ensures Sendings(database, []) == []
  {
    hide Quote;
  }

  /** Since `was`, the operations `done` were sent, and the database's extensions are now `s`. */
  ghost predicate Reached(world: World, was: Traffic, pg: Pg, database: string, done: seq<Op<string>>, s: set<string>)
    reads world
  {
    && database in pg.databases && world.pg == WithExtensions(pg, database, s)
    && world.calls == was.calls + |done| && world.writes == was.writes + |done|
    && world.sent == was.sent + Sendings(database, done)
  }

  method CreateExtension(world: World, database: string, name: string, ghost pg: Pg, ghost was: Traffic,
                         ghost done: seq<Op<string>>, ghost s: set<string>) returns (err: bool)
    requires Reached(world, was, pg, database, done, s)
    modifies world`pg, world`calls, world`writes, world`sent
    ensures world.sent == old(world.sent) + [Sending(database, "CREATE EXTENSION " + Quote(name))]
    ensures err <==> world.fails(was.calls + |done|) || !Accepts(ExtensionRules(), s, Add(name))
    ensures Reached(world, was, pg, database, done + [Add(name)], if err then s else Step(s, Add(name)))
  {
    hide Submit, Print, Quote, ExtensionRules, WithExtensions, Sendings;
    ExtensionStatement(pg, database, s, Add(name));
    SendingsSnoc(database, done, name);
    err := world.Exec(database, CreatesExtension(name));
  }

  method DropExtension(world: World, database: string, name: string, ghost pg: Pg, ghost was: Traffic,
                       ghost done: seq<Op<string>>, ghost s: set<string>) returns (err: bool)
    requires Reached(world, was, pg, database, done, s)
    modifies world`pg, world`calls, world`writes, world`sent
    ensures world.sent == old(world.sent) + [Sending(database, "DROP EXTENSION " + Quote(name))]
    ensures err <==> world.fails(was.calls + |done|) || !Accepts(ExtensionRules(), s, Remove(name))
    ensures Reached(world, was, pg, database, done + [Remove(name)], if err then s else Step(s, Remove(name)))
  {
    hide Submit, Print, Quote, ExtensionRules, WithExtensions, Sendings;
    ExtensionStatement(pg, database, s, Remove(name));
    SendingsSnoc(database, done, name);
    err := world.Exec(database, DropsExtension(name));
  }

  /** The two loops over the differences between the listing and the desired list. */
  method SendEach(world: World, database: string, listing: seq<string>, desired: seq<string>, ghost pg: Pg,
                  ghost c: Course<string>, ghost was: Traffic)
      returns (err: bool, ghost done: seq<Op<string>>, ghost s: set<string>)
    requires Reached(world, was, pg, database, [], c.from)
    requires c == Course(ExtensionRules(), DropFirst(listing, desired), c.from, world.fails, was.calls)
    modifies world`pg, world`calls, world`writes, world`sent
    ensures Reached(world, was, pg, database, done, s)
    ensures if err then Stopped(c, done, s) else Going(c, done, [], s)
  {
    hide *;
    ghost var adds := Additions(desired[0..], listing);
    err, done, s := false, [], c.from;
    Begins(c);
    RemovalsFrom(listing, desired, 0, adds);
    for i := 0 to |listing|
      invariant Reached(world, was, pg, database, done, s) && !err
      invariant Going(c, done, Removals(listing[i..], desired) + adds, s)
    {
      var found := Contains(desired, listing[i]);
      RemovalsFrom(listing, desired, i, adds);
      if !found {
        ghost var op, rest := Op<string>.Remove(listing[i]), Removals(listing[i + 1..], desired) + adds;
        Proceeds(c, done, op, rest, s);
        err := DropExtension(world, database, listing[i], pg, was, done, s);
        done := done + [op];
        if err { return; }
        s := Step(s, op);
      }
    }
    RemovalsFrom(listing, desired, |listing|, adds);
    AdditionsFrom(desired, listing, 0, []);
    for i := 0 to |desired|
      invariant Reached(world, was, pg, database, done, s) && !err
      invariant Going(c, done, Additions(desired[i..], listing) + [], s)
    {
      var found := Contains(listing, desired[i]);
      AdditionsFrom(desired, listing, i, []);
      if !found {
        ghost var op, rest := Op<string>.Add(desired[i]), Additions(desired[i + 1..], listing) + [];
        Proceeds(c, done, op, rest, s);
        err := CreateExtension(world, database, desired[i], pg, was, done, s);
        done := done + [op];
        if err { return; }
        s := Step(s, op);
      }
    }
    AdditionsFrom(desired, listing, |desired|, []);
  }

  /** Sends DROP and CREATE statements for the differences between the listing and the desired list. */
  method SendDifferences(world: World, database: string, listing: seq<string>, desired: seq<string>) returns (err: bool)
    requires database in world.pg.databases
    modifies world`pg, world`calls, world`writes, world`sent
    ensures var before, start, plan := old(world.pg), old(world.calls), DropFirst(listing, desired);
            var r := Execute(ExtensionRules(), plan, before.databases[database].extensions, world.fails, start);
            && world.pg == WithExtensions(before, database, r.state)
            && err == !r.ok && world.calls == r.calls && world.writes == old(world.writes) + (r.calls - start)
            && 0 <= r.calls - start <= |plan|
            && world.sent == old(world.sent) + Sendings(database, plan[..r.calls - start])
  {
    hide ExtensionRules, WithExtensions, Execute, DropFirst, Sendings, Quote, Going;
    ghost var before := world.pg;
    ghost var c := Course(ExtensionRules(), DropFirst(listing, desired), before.databases[database].extensions,
                          world.fails, world.calls);
    Unchanged(before, database);
    SendingsSnoc(database, [], "");
    ghost var done, s;
    err, done, s := SendEach(world, database, listing, desired, before, c, TrafficOf(world));
    if !err { Ends(c, done, s); }
  }

  /**
   One pass. When the listing succeeds, the installed extensions become the result of executing the
   plan computed from it; otherwise nothing changes.
   */
  method ReconcileExtensions(world: World, pools: PgPools, database: string, desired: seq<string>)
      returns (err: bool, ghost listed: bool, ghost listing: seq<string>, ghost start: nat)
    requires BoundToKeys(pools.Bindings())
    modifies pools`databases, world`pg, world`calls, world`writes, world`sent
    ensures BoundToKeys(pools.Bindings())
    ensures !listed ==> err && world.pg == old(world.pg) && world.writes == old(world.writes)
    ensures listed ==>
              && database in old(world.pg).databases && start > 0
              && var installed := old(world.pg).databases[database].extensions;
                 var r := Execute(ExtensionRules(), DropFirst(listing, desired), installed, world.fails, start);
              && Distinct(listing) && Elements(listing) <= installed
              && (!world.cuts(start - 1) ==> Elements(listing) == installed)
              && world.pg == WithExtensions(old(world.pg), database, r.state)
              && err == !r.ok && world.calls == r.calls && world.writes == old(world.writes) + (r.calls - start)
    ensures Faultless(world.fails) && database in old(world.pg).databases
            && !(database in old(pools.Bindings()) && old(pools.Bindings())[database] == None)
            ==> listed
  {
    hide Submit, ExtensionRules, WithExtensions, DropFirst, Execute;
    listed, listing, start := false, [], 0;
    err := pools.EnsureExists(world, database);
    if err { return; }
    var pool := pools.databases[database];
    assert pool != null <==> pools.Bindings()[database] != None;
    if pool == null { return true, false, [], 0; }   // the entry a failed open left
    assert pools.Bindings()[database] == Some(pool.config.database);
    var rows;
    err, rows := GetExtensions(world, pool.config.database);
    if err { return; }
    listed, listing, start := true, rows, world.calls;
    err := SendDifferences(world, database, rows, desired);
  }

  lemma Unchanged(pg: Pg, db: string)
    requires db in pg.databases
    ensures pg == WithExtensions(pg, db, pg.databases[db].extensions)
  {
  }

  // ----- retries -----

  ghost predicate Repeated(xs: seq<string>, x: string) {
    exists i, j :: 0 <= i < j < |xs| && xs[i] == x && xs[j] == x
  }

  /** Desired more than once and not installed: these make a pass fail, one at a time. */
  ghost function Stuck(desired: seq<string>, s: set<string>): set<string> {
    set x | x in desired && x !in s && Repeated(desired, x)
  }

  lemma {:induction false} RemovalsSucceed(listing: seq<string>, desired: seq<string>, s: set<string>,
                                           fails: nat -> bool, n: nat)
    requires Faultless(fails) && Distinct(listing) && Elements(listing) <= s && "" !in s
    ensures Execute(ExtensionRules(), Removals(listing, desired), s, fails, n).ok
    decreases |listing|
  {
    if listing != [] {
      var x, rest := listing[0], listing[1..];
      assert x in Elements(listing);
      forall y | y in rest ensures y in s - {x} {
        assert y in Elements(listing);
      }
      if x in desired {
        assert Removals(listing, desired) == Removals(rest, desired);
        RemovalsSucceed(rest, desired, s, fails, n);
      } else {
        assert Removals(listing, desired)[1..] == Removals(rest, desired);
        RemovalsSucceed(rest, desired, s - {x}, fails, n + 1);
      }
    }
  }

  /** Creation succeeds exactly when no unlisted name is installed already or repeated in the list. */
  lemma {:induction false} AdditionsSucceed(desired: seq<string>, listing: seq<string>, s: set<string>,
                                            fails: nat -> bool, n: nat)
    requires Faultless(fails) && "" !in desired
    ensures var r := Execute(ExtensionRules(), Additions(desired, listing), s, fails, n);
            && (r.ok <==> forall x :: x in desired && x !in listing ==> x !in s && !Repeated(desired, x))
            && (!r.ok ==> exists x :: x in desired && x !in listing && x in r.state && (x in s || Repeated(desired, x)))
    decreases |desired|
  {
    if desired != [] {
      var x, rest := desired[0], desired[1..];
      forall y ensures Repeated(desired, y) <==> Repeated(rest, y) || (y == x && x in rest) {
        RepeatedCons(desired, y);
      }
      if x in listing {
        assert Additions(desired, listing) == Additions(rest, listing);
        AdditionsSucceed(rest, listing, s, fails, n);
      } else {
        assert Additions(desired, listing)[1..] == Additions(rest, listing);
        if x !in s {
          AdditionsSucceed(rest, listing, s + {x}, fails, n + 1);
        }
      }
    }
  }

  lemma RepeatedCons(xs: seq<string>, y: string)
    requires xs != []
    ensures Repeated(xs, y) <==> Repeated(xs[1..], y) || (y == xs[0] && y in xs[1..])
  {
    var rest := xs[1..];
    if Repeated(rest, y) {
      var i, j :| 0 <= i < j < |rest| && rest[i] == y && rest[j] == y;
      assert xs[i + 1] == y && xs[j + 1] == y;
    }
    if y == xs[0] && y in rest {
      var j :| 0 <= j < |rest| && rest[j] == y;
      assert xs[0] == y && xs[j + 1] == y;
    }
    if Repeated(xs, y) {
      var i, j :| 0 <= i < j < |xs| && xs[i] == y && xs[j] == y;
      assert rest[j - 1] == y;
      if i > 0 { assert rest[i - 1] == y; }
    }
  }

  ghost function Pass(s: set<string>, listing: seq<string>, desired: seq<string>, fails: nat -> bool): Run<string> {
    Execute(ExtensionRules(), DropFirst(listing, desired), s, fails, 0)
  }

  ghost predicate Lists(listing: seq<string>, s: set<string>) { Distinct(listing) && Elements(listing) == s }

  /**
   A faultless pass over a complete listing succeeds exactly when no missing extension is listed twice,
   and then installs exactly the desired set; a failing pass still installs one of the repeated names.
   */
  lemma PassOutcome(s: set<string>, listing: seq<string>, desired: seq<string>, fails: nat -> bool, n: nat)
    requires Faultless(fails) && Lists(listing, s) && "" !in s && "" !in desired
    ensures var r := Execute(ExtensionRules(), DropFirst(listing, desired), s, fails, n);
            && (r.ok <==> Stuck(desired, s) == {})
            && (r.ok ==> r.state == Elements(desired))
            && (!r.ok ==> Stuck(desired, r.state) < Stuck(desired, s))
            && "" !in r.state
  {
    hide ExtensionRules;
    var rules := ExtensionRules();
    var drops, adds := Removals(listing, desired), Additions(desired, listing);
    RemovalsSucceed(listing, desired, s, fails, n);
    RunRemovals(rules, listing, desired, s, fails, n);
    ExecuteConcat(rules, drops, adds, s, fails, n);
    var mid := Execute(rules, drops, s, fails, n);
    AdditionsSucceed(desired, listing, mid.state, fails, mid.calls);
    PassIsSafe(rules, listing, desired, s, fails, n);
    var r := Execute(rules, DropFirst(listing, desired), s, fails, n);
    assert forall x :: x in desired && x !in listing ==> x !in mid.state;
    if !r.ok {
      var x :| x in desired && x !in listing && x in r.state && Repeated(desired, x);
      assert x in Stuck(desired, s) && x !in Stuck(desired, r.state);
    } else {
      assert forall x :: x in Stuck(desired, s) ==> x !in listing && Repeated(desired, x);
    }
  }

  /** The installed set after one pass per listing. */
  ghost function AfterPasses(s: set<string>, listings: seq<seq<string>>, desired: seq<string>,
                             fails: nat -> bool): set<string>
    decreases |listings|
  {
    if listings == [] then s
    else AfterPasses(Pass(s, listings[0], desired, fails).state, listings[1..], desired, fails)
  }

  /** Each listing is complete, in any order, at the time of its pass. */
  ghost predicate EachLists(s: set<string>, listings: seq<seq<string>>, desired: seq<string>, fails: nat -> bool)
    decreases |listings|
  {
    listings == [] ||
    (Lists(listings[0], s) && EachLists(Pass(s, listings[0], desired, fails).state, listings[1..], desired, fails))
  }

  /**
   Retries are bounded: with no faults other than CREATE of an installed extension, after one pass more
   than there are missing names listed twice, exactly the desired set is installed.
   */
  lemma {:induction false} RetriesAreBounded(s: set<string>, listings: seq<seq<string>>, desired: seq<string>,
                                             fails: nat -> bool)
    requires Faultless(fails) && EachLists(s, listings, desired, fails)
    requires "" !in s && "" !in desired
    requires |listings| > |Stuck(desired, s)|
    ensures AfterPasses(s, listings, desired, fails) == Elements(desired)
    decreases |listings|
  {
    hide Stuck, Execute, DropFirst, ExtensionRules;
    PassOutcome(s, listings[0], desired, fails, 0);
    var r := Pass(s, listings[0], desired, fails);
    if r.ok {
      StaysInstalled(r.state, listings[1..], desired, fails);
    } else {
      SmallerSet(Stuck(desired, r.state), Stuck(desired, s));
      RetriesAreBounded(r.state, listings[1..], desired, fails);
    }
  }

  lemma SmallerSet<T>(a: set<T>, b: set<T>)
    requires a < b
    ensures |a| < |b|
  {
    assert b == a + (b - a);
    assert b - a != {};
  }

  /** Once exactly the desired set is installed, every later pass succeeds and sends nothing. */
  lemma {:induction false} StaysInstalled(s: set<string>, listings: seq<seq<string>>, desired: seq<string>,
                                          fails: nat -> bool)
    requires s == Elements(desired) && EachLists(s, listings, desired, fails)
    ensures AfterPasses(s, listings, desired, fails) == s
    ensures listings != [] ==> Pass(s, listings[0], desired, fails) == Run(s, true, 0)
    decreases |listings|
  {
    if listings != [] {
      NothingToSend(listings[0], desired);
      StaysInstalled(s, listings[1..], desired, fails);
    }
  }
}
