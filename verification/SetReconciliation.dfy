/**
 The reconciliation loop that extensions, memberships and privileges share: list what exists, then
 send one statement for each difference, stopping at the first failure. Differences are taken against
 the listing, not against the state, which the statements change.
 */
module SetReconciliation {
  datatype Op<T> = Add(x: T) | Remove(x: T)

  /**
   What the server refuses: an element it does not know and, when strict, adding what is present or
   removing what is absent.
   */
  datatype Rules<!T> = Rules(strict: bool, known: T -> bool)

  datatype Run<T> = Run(state: set<T>, ok: bool, calls: nat)

  predicate Accepts<T(==)>(rules: Rules<T>, s: set<T>, op: Op<T>) {
    rules.known(op.x) && (rules.strict ==> (op.Add? <==> op.x !in s))
  }

  function Step<T(==)>(s: set<T>, op: Op<T>): set<T> {
    match op
    case Add(x) => s + {x}
    case Remove(x) => s - {x}
  }

  /** Sends the operations in order; the call numbered n fails when fails(n). */
  function Execute<T(==)>(rules: Rules<T>, plan: seq<Op<T>>, s: set<T>, fails: nat -> bool, n: nat): Run<T>
    decreases |plan|
  {
    if plan == [] then Run(s, true, n)
    else if fails(n) || !Accepts(rules, s, plan[0]) then Run(s, false, n + 1)
    else Execute(rules, plan[1..], Step(s, plan[0]), fails, n + 1)
  }

  function Removals<T(==)>(listing: seq<T>, desired: seq<T>): seq<Op<T>>
    decreases |listing|
  {
    if listing == [] then []
    else (if listing[0] in desired then [] else [Remove(listing[0])]) + Removals(listing[1..], desired)
  }

  function Additions<T(==)>(desired: seq<T>, listing: seq<T>): seq<Op<T>>
    decreases |desired|
  {
    if desired == [] then []
    else (if desired[0] in listing then [] else [Add(desired[0])]) + Additions(desired[1..], listing)
  }

  /** Extensions and memberships drop first; privileges grant first. */
  function DropFirst<T(==)>(listing: seq<T>, desired: seq<T>): seq<Op<T>> {
    Removals(listing, desired) + Additions(desired, listing)
  }

  function AddFirst<T(==)>(listing: seq<T>, desired: seq<T>): seq<Op<T>> {
    Additions(desired, listing) + Removals(listing, desired)
  }

  function Elements<T(==)>(xs: seq<T>): set<T> { set x | x in xs }

  ghost predicate Faultless(fails: nat -> bool) { forall n :: !fails(n) }

  ghost predicate Distinct<T>(xs: seq<T>) { forall i, j :: 0 <= i < j < |xs| ==> xs[i] != xs[j] }

  /** Membership in a slice, as the source's inner loops decide it. */
  method Contains<T(==)>(xs: seq<T>, x: T) returns (found: bool)
    ensures found <==> x in xs
  {
    found := false;
    for i := 0 to |xs|
      invariant found <==> x in xs[..i]
    {
      if xs[i] == x {
        found := true;
        break;
      }
    }
  }

  // ----- executing a plan -----

  /** A plan, the state and the call it starts from, and the server it is sent to. */
  datatype Course<!T> = Course(rules: Rules<T>, plan: seq<Op<T>>, from: set<T>, fails: nat -> bool, start: nat)

  ghost function Outcome<T>(c: Course<T>): Run<T> { Execute(c.rules, c.plan, c.from, c.fails, c.start) }

  /** Of the plan, `done` was carried out and led to `s`; `rest` is left. */
  ghost predicate Going<T>(c: Course<T>, done: seq<Op<T>>, rest: seq<Op<T>>, s: set<T>) {
    c.plan == done + rest && Outcome(c) == Execute(c.rules, rest, s, c.fails, c.start + |done|)
  }

  /** The last operation of `done`, a part of the plan, failed in `s`. */
  ghost predicate Stopped<T>(c: Course<T>, done: seq<Op<T>>, s: set<T>) {
    |done| <= |c.plan| && c.plan[..|done|] == done && Outcome(c) == Run(s, false, c.start + |done|)
  }

  lemma Begins<T>(c: Course<T>)
    ensures Going(c, [], c.plan, c.from)
  {
    assert [] + c.plan == c.plan;
  }

  /** The next operation is carried out, or it ends the run. */
  lemma Proceeds<T>(c: Course<T>, done: seq<Op<T>>, op: Op<T>, rest: seq<Op<T>>, s: set<T>)
    requires Going(c, done, [op] + rest, s)
    ensures if c.fails(c.start + |done|) || !Accepts(c.rules, s, op) then Stopped(c, done + [op], s)
            else Going(c, done + [op], rest, Step(s, op))
  {
    hide Accepts, Step;
    assert ([op] + rest)[1..] == rest;
    assert done + ([op] + rest) == (done + [op]) + rest;
  }

  lemma Ends<T>(c: Course<T>, done: seq<Op<T>>, s: set<T>)
    requires Going(c, done, [], s)
    ensures c.plan == done && c.plan[..|done|] == done && Outcome(c) == Run(s, true, c.start + |done|)
  {
  }

  /** What the loop over the listing has left of a plan. */
  lemma RemovalsFrom<T>(listing: seq<T>, desired: seq<T>, i: nat, more: seq<Op<T>>)
    requires i <= |listing|
    ensures Removals(listing[i..], desired) + more ==
              if i == |listing| then more
              else if listing[i] in desired then Removals(listing[i + 1..], desired) + more
              else [Remove(listing[i])] + (Removals(listing[i + 1..], desired) + more)
    ensures Removals(listing[0..], desired) + Additions(desired[0..], listing) == DropFirst(listing, desired)
    ensures Removals(listing[0..], desired) + [] == Removals(listing[0..], desired)
  {
    assert listing[0..] == listing && desired[0..] == desired;
    if i < |listing| {
      assert listing[i..][1..] == listing[i + 1..];
    } else {
      assert [] + more == more;
    }
  }

  /** What the loop over the desired elements has left of a plan. */
  lemma AdditionsFrom<T>(desired: seq<T>, listing: seq<T>, i: nat, more: seq<Op<T>>)
    requires i <= |desired|
    ensures Additions(desired[i..], listing) + more ==
              if i == |desired| then more
              else if desired[i] in listing then Additions(desired[i + 1..], listing) + more
              else [Add(desired[i])] + (Additions(desired[i + 1..], listing) + more)
    ensures Additions(desired[0..], listing) + Removals(listing[0..], desired) == AddFirst(listing, desired)
    ensures Additions(desired[0..], listing) + [] == Additions(desired[0..], listing)
  {
    assert listing[0..] == listing && desired[0..] == desired;
    if i < |desired| {
      assert desired[i..][1..] == desired[i + 1..];
    } else {
      assert [] + more == more;
    }
  }

  lemma {:induction false} ExecuteConcat<T>(rules: Rules<T>, p: seq<Op<T>>, q: seq<Op<T>>, s: set<T>,
                                            fails: nat -> bool, n: nat)
    ensures var r := Execute(rules, p, s, fails, n);
            Execute(rules, p + q, s, fails, n) == if r.ok then Execute(rules, q, r.state, fails, r.calls) else r
    decreases |p|
  {
    if p == [] {
      assert p + q == q;
    } else {
      assert (p + q)[1..] == p[1..] + q;
      if !fails(n) && Accepts(rules, s, p[0]) {
        ExecuteConcat(rules, p[1..], q, Step(s, p[0]), fails, n + 1);
      }
    }
  }

  lemma {:induction false} ExecuteAdvances<T>(rules: Rules<T>, plan: seq<Op<T>>, s: set<T>, fails: nat -> bool, n: nat)
    ensures Execute(rules, plan, s, fails, n).calls >= n
    decreases |plan|
  {
    if plan != [] && !fails(n) && Accepts(rules, s, plan[0]) {
      ExecuteAdvances(rules, plan[1..], Step(s, plan[0]), fails, n + 1);
    }
  }

  /** Removals take away undesired listed elements and nothing else; a successful run takes all of them. */
  lemma {:induction false} RunRemovals<T>(
      rules: Rules<T>, listing: seq<T>, desired: seq<T>, s: set<T>, fails: nat -> bool, n: nat)
    ensures var r := Execute(rules, Removals(listing, desired), s, fails, n);
            && s - (Elements(listing) - Elements(desired)) <= r.state <= s
            && (r.ok ==> r.state == s - (Elements(listing) - Elements(desired)))
    decreases |listing|
  {
    if listing != [] {
      var x, rest := listing[0], listing[1..];
      assert Elements(listing) == Elements(rest) + {x};
      var p := Removals(rest, desired);
      if x in desired {
        assert Removals(listing, desired) == p;
        RunRemovals(rules, rest, desired, s, fails, n);
      } else {
        assert Removals(listing, desired)[1..] == p;
        if !fails(n) && Accepts(rules, s, Remove(x)) {
          RunRemovals(rules, rest, desired, s - {x}, fails, n + 1);
        }
      }
    }
  }

  /** Additions bring in desired elements and nothing else; a successful run brings in every unlisted one. */
  lemma {:induction false} RunAdditions<T>(
      rules: Rules<T>, desired: seq<T>, listing: seq<T>, s: set<T>, fails: nat -> bool, n: nat)
    ensures var r := Execute(rules, Additions(desired, listing), s, fails, n);
            && s <= r.state <= s + (Elements(desired) - Elements(listing))
            && (r.ok ==> r.state == s + (Elements(desired) - Elements(listing)))
    decreases |desired|
  {
    if desired != [] {
      var x, rest := desired[0], desired[1..];
      assert Elements(desired) == Elements(rest) + {x};
      var p := Additions(rest, listing);
      if x in listing {
        assert Additions(desired, listing) == p;
        RunAdditions(rules, rest, listing, s, fails, n);
      } else {
        assert Additions(desired, listing)[1..] == p;
        if !fails(n) && Accepts(rules, s, Add(x)) {
          RunAdditions(rules, rest, listing, s + {x}, fails, n + 1);
        }
      }
    }
  }

  // ----- safety under partial failure -----

  /**
   Whatever call fails, and even if the listing is only part of what exists, a pass never removes a
   desired element and never adds an undesired one; success puts every desired element in place, and
   with a complete listing leaves exactly the desired set.
   */
  lemma PassIsSafe<T>(rules: Rules<T>, listing: seq<T>, desired: seq<T>, s: set<T>, fails: nat -> bool, n: nat)
    requires Elements(listing) <= s
    ensures var r := Execute(rules, DropFirst(listing, desired), s, fails, n);
            && s * Elements(desired) <= r.state <= s + Elements(desired)
            && (r.ok ==> Elements(desired) <= r.state)
            && (r.ok && Elements(listing) == s ==> r.state == Elements(desired))
  {
    ExecuteConcat(rules, Removals(listing, desired), Additions(desired, listing), s, fails, n);
    RunRemovals(rules, listing, desired, s, fails, n);
    var r := Execute(rules, Removals(listing, desired), s, fails, n);
    RunAdditions(rules, desired, listing, r.state, fails, r.calls);
  }

  /** The same for the order that adds first. */
  lemma AddFirstIsSafe<T>(rules: Rules<T>, listing: seq<T>, desired: seq<T>, s: set<T>, fails: nat -> bool, n: nat)
    ensures var r := Execute(rules, AddFirst(listing, desired), s, fails, n);
            && s - (Elements(listing) - Elements(desired)) <= r.state <= s + (Elements(desired) - Elements(listing))
            && (r.ok ==>
                 r.state == s + (Elements(desired) - Elements(listing)) - (Elements(listing) - Elements(desired)))
  {
    ExecuteConcat(rules, Additions(desired, listing), Removals(listing, desired), s, fails, n);
    RunAdditions(rules, desired, listing, s, fails, n);
    var r := Execute(rules, Additions(desired, listing), s, fails, n);
    RunRemovals(rules, listing, desired, r.state, fails, r.calls);
  }

  /** Cutting the calls off after k of them is the same as executing the first k operations. */
  lemma {:induction false} FirstOperations<T>(rules: Rules<T>, plan: seq<Op<T>>, k: nat, s: set<T>,
                                              fails: nat -> bool, n: nat)
    requires k <= |plan|
    ensures Execute(rules, plan[..k], s, fails, n).state
         == Execute(rules, plan, s, (m: nat) => fails(m) || m >= n + k, n).state
    decreases k
  {
    var cut := (m: nat) => fails(m) || m >= n + k;
    if k > 0 {
      assert plan[..k][1..] == plan[1..][..k - 1];
      if !fails(n) && Accepts(rules, s, plan[0]) {
        FirstOperations(rules, plan[1..], k - 1, Step(s, plan[0]), fails, n + 1);
        SameFaults(rules, plan[1..], Step(s, plan[0]), cut, (m: nat) => fails(m) || m >= n + 1 + (k - 1), n + 1);
      }
    }
  }

  lemma {:induction false} SameFaults<T>(
      rules: Rules<T>, plan: seq<Op<T>>, s: set<T>, f: nat -> bool, g: nat -> bool, n: nat)
    requires forall m: nat :: f(m) == g(m)
    ensures Execute(rules, plan, s, f, n) == Execute(rules, plan, s, g, n)
    decreases |plan|
  {
    if plan != [] {
      SameFaults(rules, plan[1..], Step(s, plan[0]), f, g, n + 1);
    }
  }

  /** The safety of a pass holds after every single statement of it. */
  lemma SafeAfterEveryStatement<T>(
      rules: Rules<T>, listing: seq<T>, desired: seq<T>, k: nat, s: set<T>, fails: nat -> bool, n: nat)
    requires Elements(listing) <= s
    requires k <= |DropFirst(listing, desired)|
    ensures var now := Execute(rules, DropFirst(listing, desired)[..k], s, fails, n).state;
            s * Elements(desired) <= now <= s + Elements(desired)
  {
    FirstOperations(rules, DropFirst(listing, desired), k, s, fails, n);
    PassIsSafe(rules, listing, desired, s, (m: nat) => fails(m) || m >= n + k, n);
  }

  // ----- success without faults -----

  /** A lenient server that knows every element lets a faultless run through, whatever the plan. */
  lemma {:induction false} LenientSucceeds<T>(rules: Rules<T>, plan: seq<Op<T>>, s: set<T>, fails: nat -> bool, n: nat)
    requires !rules.strict && Faultless(fails)
    requires forall op :: op in plan ==> rules.known(op.x)
    ensures Execute(rules, plan, s, fails, n).ok
    decreases |plan|
  {
    if plan != [] {
      assert plan[0] in plan;
      LenientSucceeds(rules, plan[1..], Step(s, plan[0]), fails, n + 1);
    }
  }

  /** Without faults a lenient server lets through exactly the plans whose elements it knows. */
  lemma {:induction false} LenientSucceedsExactly<T>(rules: Rules<T>, plan: seq<Op<T>>, s: set<T>, fails: nat -> bool,
                                                     n: nat)
    requires !rules.strict && Faultless(fails)
    ensures Execute(rules, plan, s, fails, n).ok <==> forall op :: op in plan ==> rules.known(op.x)
    decreases |plan|
  {
    if plan != [] {
      assert plan == [plan[0]] + plan[1..];
      assert plan[0] in plan;
      if rules.known(plan[0].x) { LenientSucceedsExactly(rules, plan[1..], Step(s, plan[0]), fails, n + 1); }
    }
  }

  /** A run that succeeds has had every element of its plan accepted. */
  lemma {:induction false} SuccessKnows<T>(rules: Rules<T>, plan: seq<Op<T>>, s: set<T>, fails: nat -> bool, n: nat,
                                           op: Op<T>)
    requires op in plan && Execute(rules, plan, s, fails, n).ok
    ensures rules.known(op.x)
    decreases |plan|
  {
    assert plan == [plan[0]] + plan[1..];
    if op != plan[0] { SuccessKnows(rules, plan[1..], Step(s, plan[0]), fails, n + 1, op); }
  }

  lemma {:induction false} RemovesListed<T>(listing: seq<T>, desired: seq<T>, x: T)
    requires x in listing && x !in desired
    ensures Op<T>.Remove(x) in Removals(listing, desired)
    decreases |listing|
  {
    assert listing == [listing[0]] + listing[1..];
    if x != listing[0] { RemovesListed(listing[1..], desired, x); }
  }

  lemma {:induction false} AddsDesired<T>(desired: seq<T>, listing: seq<T>, x: T)
    requires x in desired && x !in listing
    ensures Op<T>.Add(x) in Additions(desired, listing)
    decreases |desired|
  {
    assert desired == [desired[0]] + desired[1..];
    if x != desired[0] { AddsDesired(desired[1..], listing, x); }
  }

  lemma {:induction false} RemovalsElements<T>(listing: seq<T>, desired: seq<T>)
    ensures forall op :: op in Removals(listing, desired) ==> op.Remove? && op.x in listing && op.x !in desired
    decreases |listing|
  {
    if listing != [] {
      RemovalsElements(listing[1..], desired);
    }
  }

  lemma {:induction false} AdditionsElements<T>(desired: seq<T>, listing: seq<T>)
    ensures forall op :: op in Additions(desired, listing) ==> op.Add? && op.x in desired && op.x !in listing
    decreases |desired|
  {
    if desired != [] {
      AdditionsElements(desired[1..], listing);
    }
  }

  /**
   What a plan holds, in which order: it removes exactly what is listed and not desired, and adds exactly what is
   desired and not listed; extensions and memberships are all removed before any is added, privileges all added
   before any is removed.
   */
  lemma PlanHolds<T>(listing: seq<T>, desired: seq<T>, op: Op<T>)
    ensures op in DropFirst(listing, desired) <==> op in AddFirst(listing, desired)
    ensures op in DropFirst(listing, desired) <==>
              if op.Remove? then op.x in listing && op.x !in desired else op.x in desired && op.x !in listing
    ensures var plan := DropFirst(listing, desired);
            forall i, j :: 0 <= i < j < |plan| && plan[j].Remove? ==> plan[i].Remove?
    ensures var plan := AddFirst(listing, desired);
            forall i, j :: 0 <= i < j < |plan| && plan[j].Add? ==> plan[i].Add?
  {
    RemovalsElements(listing, desired);
    AdditionsElements(desired, listing);
    if op.Remove? && op.x in listing && op.x !in desired { RemovesListed(listing, desired, op.x); }
    if op.Add? && op.x in desired && op.x !in listing { AddsDesired(desired, listing, op.x); }
    var drops, adds := Removals(listing, desired), Additions(desired, listing);
    assert forall k :: 0 <= k < |drops| ==> drops[k] in drops && drops[k].Remove?;
    assert forall k :: 0 <= k < |adds| ==> adds[k] in adds && adds[k].Add?;
  }

  /** Nothing is sent exactly when the listing and the desired list name the same elements. */
  lemma NothingToSend<T>(listing: seq<T>, desired: seq<T>)
    ensures DropFirst(listing, desired) == [] <==> Elements(listing) == Elements(desired)
    ensures AddFirst(listing, desired) == [] <==> Elements(listing) == Elements(desired)
  {
    NoRemovals(listing, desired);
    NoAdditions(desired, listing);
  }

  lemma {:induction false} NoRemovals<T>(listing: seq<T>, desired: seq<T>)
    ensures Removals(listing, desired) == [] <==> Elements(listing) <= Elements(desired)
    decreases |listing|
  {
    if listing != [] {
      assert Elements(listing) == Elements(listing[1..]) + {listing[0]};
      NoRemovals(listing[1..], desired);
    }
  }

  lemma {:induction false} NoAdditions<T>(desired: seq<T>, listing: seq<T>)
    ensures Additions(desired, listing) == [] <==> Elements(desired) <= Elements(listing)
    decreases |desired|
  {
    if desired != [] {
      assert Elements(desired) == Elements(desired[1..]) + {desired[0]};
      NoAdditions(desired[1..], listing);
    }
  }
}
