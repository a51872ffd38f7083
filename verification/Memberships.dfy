/**
 Reconciliation of the groups a role belongs to. The server shows role names as regrole text, quoted
 when needed, while the operator compares and sends raw names.
 */
module Memberships {
  import opened Wrappers
  import opened SqlText
  import opened Statements
  import opened Outside
  import opened SetReconciliation
  import StatementTexts

  // ----- regrole text -----

  predicate Lower(c: char) { 'a' <= c <= 'z' || c == '_' }

  /** Lower-case names that are no keyword are shown as they are; `keywords` is the server's list. */
  predicate Plain(keywords: set<string>, name: string) {
    name != "" && Lower(name[0]) && name !in keywords &&
    forall i :: 0 <= i < |name| ==> Lower(name[i]) || '0' <= name[i] <= '9'
  }

  function Regrole(keywords: set<string>, name: string): string {
    if Plain(keywords, name) then name else Quote(name)
  }

  // ----- what the server's parser makes of regrole text -----

  predicate Bare(c: char) { Lower(c) || 'A' <= c <= 'Z' || '0' <= c <= '9' || c == '$' }

  /** Bare identifiers are folded to lower case. */
  function Folded(s: string): string {
    seq(|s|, i requires 0 <= i < |s| => if 'A' <= s[i] <= 'Z' then s[i] - 'A' + 'a' else s[i])
  }

  /** The name an SQL identifier stands for: unquoted when it is delimited, folded when it is bare and no keyword. */
  function Identified(keywords: set<string>, text: string): Option<string> {
    if text == "" then None
    else if text[0] == '"' then
      match Unquote(text[1..], '"')
      case Some((name, rest)) => if rest == "" then Some(name) else None
      case None => None
    else if !('0' <= text[0] <= '9') && text[0] != '$' && (forall i :: 0 <= i < |text| ==> Bare(text[i]))
            && Folded(text) !in keywords then Some(Folded(text))
    else None
  }

  /** The regrole text is an identifier for the name. */
  lemma RegroleNames(keywords: set<string>, name: string)
    ensures Identified(keywords, Regrole(keywords, name)) == Some(name)
  {
    hide Doubled, Unquote;
    if Plain(keywords, name) {
      assert Folded(name) == name;
    } else {
      UnquoteUndoesDoubling(name, '"', "");
      var body := Doubled(name, '"') + ['"'];
      assert Quote(name)[1..] == body && body + "" == body;
    }
  }

  lemma {:induction false} UnquoteShrinks(s: string, q: char)
    ensures Unquote(s, q).Some? ==> |Unquote(s, q).value.0| + |Unquote(s, q).value.1| < |s|
    decreases |s|
  {
    if s != "" {
      if s[0] != q { UnquoteShrinks(s[1..], q); }
      else if |s| > 1 && s[1] == q { UnquoteShrinks(s[2..], q); }
    }
  }

  /** Exactly the names that need no quotes are plain, but for names with a dollar sign, which are quoted anyway. */
  lemma PlainExactly(keywords: set<string>, name: string)
    ensures Plain(keywords, name) <==> Identified(keywords, name) == Some(name) && '$' !in name
  {
    hide Unquote;
    RegroleNames(keywords, name);
    if name != "" {
      UnquoteShrinks(name[1..], '"');
      if Identified(keywords, name) == Some(name) && '$' !in name {
        forall i | 0 <= i < |name| ensures Lower(name[i]) || '0' <= name[i] <= '9' {
          assert Folded(name)[i] == name[i];
        }
      }
    }
  }

  function TrimLeft(s: string): string {
    if s != "" && s[0] == '"' then TrimLeft(s[1..]) else s
  }

  function TrimRight(s: string): string {
    if s != "" && s[|s| - 1] == '"' then TrimRight(s[..|s| - 1]) else s
  }

  function Trim(s: string): string { TrimRight(TrimLeft(s)) }

  lemma {:induction false} TrimRightEnd(s: string)
    ensures TrimRight(s) == "" || (TrimRight(s)[|TrimRight(s)| - 1] != '"' && TrimRight(s)[0] == s[0])
    decreases |s|
  {
    if s != "" && s[|s| - 1] == '"' {
      TrimRightEnd(s[..|s| - 1]);
    }
  }

  lemma {:induction false} TrimLeftEnd(s: string)
    ensures TrimLeft(s) == "" || TrimLeft(s)[0] != '"'
    decreases |s|
  {
    if s != "" && s[0] == '"' {
      TrimLeftEnd(s[1..]);
    }
  }

  lemma TrimmedEnds(s: string)
    ensures Trim(s) == "" || (Trim(s)[0] != '"' && Trim(s)[|Trim(s)| - 1] != '"')
  {
    TrimLeftEnd(s);
    TrimRightEnd(TrimLeft(s));
  }

  lemma {:induction false} TrimsLeft(s: string) returns (i: nat)
    ensures i <= |s| && TrimLeft(s) == s[i..] && forall k :: 0 <= k < i ==> s[k] == '"'
    decreases |s|
  {
    if s != "" && s[0] == '"' {
      i := TrimsLeft(s[1..]);
      forall k | 0 <= k < i + 1 ensures s[k] == '"' { if k > 0 { assert s[1..][k - 1] == '"'; } }
      i := i + 1;
    } else {
      i := 0;
    }
  }

  lemma {:induction false} TrimsRight(s: string) returns (j: nat)
    ensures j <= |s| && TrimRight(s) == s[..j] && forall k :: j <= k < |s| ==> s[k] == '"'
    decreases |s|
  {
    if s != "" && s[|s| - 1] == '"' {
      j := TrimsRight(s[..|s| - 1]);
    } else {
      j := |s|;
    }
  }

  /** Trimming takes the double quotes off both ends, all of them and nothing else. */
  lemma TrimExactly(s: string)
    ensures exists i, j :: 0 <= i <= j <= |s| && Trim(s) == s[i..j]
              && (forall k :: 0 <= k < i || j <= k < |s| ==> s[k] == '"')
    ensures Trim(s) == "" || (Trim(s)[0] != '"' && Trim(s)[|Trim(s)| - 1] != '"')
  {
    TrimmedEnds(s);
    var i := TrimsLeft(s);
    var j := TrimsRight(s[i..]);
    assert s[i..][..j] == s[i..i + j];
    forall k | i + j <= k < |s| ensures s[k] == '"' { assert s[i..][k - i] == '"'; }
  }

  lemma TrimsQuotes(w: string)
    requires w == "" || (w[0] != '"' && w[|w| - 1] != '"')
    ensures Trim("\"" + w + "\"") == w
  {
    var s := "\"" + w + "\"";
    assert s[1..] == w + "\"";
    assert TrimLeft(s) == TrimLeft(w + "\"");
    if w == "" {
      assert w + "\"" == "\"" && "\""[1..] == "";
    } else {
      assert (w + "\"")[..|w|] == w;
      assert TrimLeft(w + "\"") == w + "\"";
      assert TrimRight(w + "\"") == TrimRight(w);
    }
  }

  lemma TrimKeeps(w: string)
    requires w == "" || (w[0] != '"' && w[|w| - 1] != '"')
    ensures Trim(w) == w
  {
  }

  lemma {:induction false} DoublingGrows(s: string)
    ensures |Doubled(s, '"')| >= |s|
    ensures '"' in s ==> |Doubled(s, '"')| > |s|
    ensures '"' !in s ==> Doubled(s, '"') == s
    ensures s != "" ==> Doubled(s, '"')[0] == s[0] && Doubled(s, '"')[|Doubled(s, '"')| - 1] == s[|s| - 1]
  {
    if s != "" {
      DoublingGrows(s[1..]);
      assert s == [s[0]] + s[1..];
    }
  }

  /** Stripping the quotes of the regrole text gives the name back exactly when it holds no double quote. */
  lemma TrimRecovers(keywords: set<string>, name: string)
    ensures Trim(Regrole(keywords, name)) == name <==> '"' !in name
  {
    hide Doubled;
    DoublingGrows(name);
    if Plain(keywords, name) {
      assert name[0] != '"' && name[|name| - 1] != '"';
      TrimKeeps(name);
    } else {
      var w := Doubled(name, '"');
      TrimmedEnds(Quote(name));
      if name == "" || (name[0] != '"' && name[|name| - 1] != '"') {
        TrimsQuotes(w);
      }
    }
  }

  // ----- reading and changing memberships -----

  function Groups(members: set<Member>, role: string): set<string> {
    set m | m in members && m.member == role :: m.group
  }

  function WithGroups(members: set<Member>, role: string, groups: set<string>): set<Member> {
    (set m | m in members && m.member != role) + (set g | g in groups :: Member(g, role))
  }

  /** The rows of the membership query: groups of every member whose regrole text is the given name. */
  function Rows(keywords: set<string>, members: set<Member>, name: string): set<string> {
    set m | m in members && Regrole(keywords, m.member) == name :: Regrole(keywords, m.group)
  }

  /** Overwrites each row in place with its trimmed text; the rows come in any order. */
  method GetRoleMembership(world: World, keywords: set<string>, name: string)
      returns (err: bool, listing: seq<string>, ghost rows: seq<string>)
    modifies world`calls
    ensures world.calls == old(world.calls) + 1 && (err <==> world.fails(old(world.calls)))
    ensures !err ==> Elements(rows) == Rows(keywords, world.pg.members, name)
    ensures |listing| == |rows| && forall i :: 0 <= i < |rows| ==> listing[i] == Trim(rows[i])
    ensures !err ==> Elements(listing) == set r | r in Rows(keywords, world.pg.members, name) :: Trim(r)
  {
    err := world.Ask();
    var collected := Enumerate(Rows(keywords, world.pg.members, name));
    rows := collected;
    var membership := new string[|collected|](i requires 0 <= i < |collected| => collected[i]);
    for i := 0 to membership.Length
      modifies membership
      invariant forall j :: 0 <= j < |rows| ==> membership[j] == if j < i then Trim(rows[j]) else rows[j]
    {
      membership[i] := Trim(membership[i]);
    }
    listing := membership[..];
    assert forall j :: 0 <= j < |rows| ==> rows[j] in Elements(rows) && listing[j] == Trim(rows[j]);
  }

  /** The rows arrive in some order. */
  method Enumerate(s: set<string>) returns (rows: seq<string>)
    ensures Elements(rows) == s
  {
    rows := [];
    var unread := s;
    while unread != {}
      invariant unread + Elements(rows) == s
      decreases unread
    {
      var row :| row in unread;
      assert Elements(rows + [row]) == Elements(rows) + {row};
      rows, unread := rows + [row], unread - {row};
    }
  }

  /** GRANT and REVOKE of a role accept what is already so, but not a role that does not exist. */
  function MembershipRules(roles: set<string>): Rules<string> { Rules(false, g => g in roles && g != "") }

  function WithMembership(pg: Pg, role: string, groups: set<string>): Pg {
    pg.(members := WithGroups(pg.members, role, groups))
  }

  lemma MembershipStatement(pg: Pg, at: string, role: string, s: set<string>, op: Op<string>)
    requires role in pg.roles && role != ""
    ensures var st := if op.Add? then GrantsRole(op.x, role) else RevokesRole(op.x, role);
            Submit(WithMembership(pg, role, s), at, st) ==
              if Accepts(MembershipRules(pg.roles.Keys), s, op)
              then Some(WithMembership(pg, role, Step(s, op))) else None
  {
    hide Tokens;
    SayableMembership(op.x, role);
    var mid := WithGroups(pg.members, role, s);
    assert mid + {Member(op.x, role)} == WithGroups(pg.members, role, s + {op.x});
    assert mid - {Member(op.x, role)} == WithGroups(pg.members, role, s - {op.x});
  }

  lemma SayableMembership(group: string, role: string)
    ensures Sayable(GrantsRole(group, role)) <==> group != "" && role != ""
    ensures Sayable(RevokesRole(group, role)) <==> group != "" && role != ""
  {
    assert Tokens(GrantsRole(group, role))[1] == Name(group) && Tokens(GrantsRole(group, role))[3] == Name(role);
    assert Tokens(RevokesRole(group, role))[1] == Name(group) && Tokens(RevokesRole(group, role))[3] == Name(role);
  }

  lemma SameMembership(pg: Pg, role: string)
    ensures pg == WithMembership(pg, role, Groups(pg.members, role))
    ensures forall gs :: Groups(WithMembership(pg, role, gs).members, role) == gs
  {
    assert WithGroups(pg.members, role, Groups(pg.members, role)) == pg.members;
    forall gs ensures Groups(WithGroups(pg.members, role, gs), role) == gs {
      var after := WithGroups(pg.members, role, gs);
      forall g | g in gs ensures g in Groups(after, role) { assert Member(g, role) in after; }
    }
  }

  /** The texts of operations on a role's groups. */
  function Sendings(at: string, role: string, ops: seq<Op<string>>): seq<Sending> {
    seq(|ops|, i requires 0 <= i < |ops| =>
      Sending(at, match ops[i]
                  case Add(g) => "GRANT " + Quote(g) + " TO " + Quote(role)
                  case Remove(g) => "REVOKE " + Quote(g) + " FROM " + Quote(role)))
  }

  lemma SendingsSnoc(at: string, role: string, ops: seq<Op<string>>, g: string)
    ensures Sendings(at, role, ops + [Add(g)])
         == Sendings(at, role, ops) + [Sending(at, "GRANT " + Quote(g) + " TO " + Quote(role))]
    ensures Sendings(at, role, ops + [Remove(g)])
         == Sendings(at, role, ops) + [Sending(at, "REVOKE " + Quote(g) + " FROM " + Quote(role))]
    ensures Sendings(at, role, []) == []
  {
    hide Quote;
  }

  /** Since `was`, the operations `done` were sent, and the role's groups are now `s`. */
  ghost predicate Reached(world: World, was: Traffic, at: string, pg: Pg, role: string, done: seq<Op<string>>,
                          s: set<string>)
    reads world
  {
    && role in pg.roles && role != "" && world.pg == WithMembership(pg, role, s)
    && world.calls == was.calls + |done| && world.writes == was.writes + |done|
    && world.sent == was.sent + Sendings(at, role, done)
  }

  method GrantRoleMembership(world: World, at: string, group: string, role: string, ghost pg: Pg, ghost was: Traffic,
                             ghost done: seq<Op<string>>, ghost s: set<string>) returns (err: bool)
    requires Reached(world, was, at, pg, role, done, s)
    modifies world`pg, world`calls, world`writes, world`sent
    ensures world.sent == old(world.sent) + [Sending(at, "GRANT " + Quote(group) + " TO " + Quote(role))]
    ensures err <==> world.fails(was.calls + |done|) || !Accepts(MembershipRules(pg.roles.Keys), s, Add(group))
    ensures Reached(world, was, at, pg, role, done + [Add(group)], if err then s else Step(s, Add(group)))
  {
    hide Submit, Print, Quote, MembershipRules, WithMembership, Sendings;
    MembershipStatement(pg, at, role, s, Add(group));
    SendingsSnoc(at, role, done, group);
    err := world.Exec(at, GrantsRole(group, role));
  }

  method RevokeRoleMembership(world: World, at: string, group: string, role: string, ghost pg: Pg, ghost was: Traffic,
                              ghost done: seq<Op<string>>, ghost s: set<string>) returns (err: bool)
    requires Reached(world, was, at, pg, role, done, s)
    modifies world`pg, world`calls, world`writes, world`sent
    ensures world.sent == old(world.sent) + [Sending(at, "REVOKE " + Quote(group) + " FROM " + Quote(role))]
    ensures err <==> world.fails(was.calls + |done|) || !Accepts(MembershipRules(pg.roles.Keys), s, Remove(group))
    ensures Reached(world, was, at, pg, role, done + [Remove(group)], if err then s else Step(s, Remove(group)))
  {
    hide Submit, Print, Quote, MembershipRules, WithMembership, Sendings;
    MembershipStatement(pg, at, role, s, Remove(group));
    SendingsSnoc(at, role, done, group);
    err := world.Exec(at, RevokesRole(group, role));
  }

  /** Revokes the listed groups that are not desired, then grants the desired ones that are not listed. */
  method SendDifferences(world: World, at: string, role: string, existing: seq<string>, desired: seq<string>,
                         ghost pg: Pg, ghost c: Course<string>, ghost was: Traffic)
      returns (err: bool, ghost done: seq<Op<string>>, ghost s: set<string>)
    requires Reached(world, was, at, pg, role, [], c.from)
    requires c == Course(MembershipRules(pg.roles.Keys), DropFirst(existing, desired), c.from, world.fails, was.calls)
    modifies world`pg, world`calls, world`writes, world`sent
    ensures Reached(world, was, at, pg, role, done, s)
    ensures if err then Stopped(c, done, s) else Going(c, done, [], s)
  {
    hide *;
    ghost var adds := Additions(desired[0..], existing);
    err, done, s := false, [], c.from;
    Begins(c);
    RemovalsFrom(existing, desired, 0, adds);
    for i := 0 to |existing|
      invariant Reached(world, was, at, pg, role, done, s) && !err
      invariant Going(c, done, Removals(existing[i..], desired) + adds, s)
    {
      var found := Contains(desired, existing[i]);
      RemovalsFrom(existing, desired, i, adds);
      if !found {
        ghost var op, rest := Op<string>.Remove(existing[i]), Removals(existing[i + 1..], desired) + adds;
        Proceeds(c, done, op, rest, s);
        err := RevokeRoleMembership(world, at, existing[i], role, pg, was, done, s);
        done := done + [op];
        if err { return; }
        s := Step(s, op);
      }
    }
    RemovalsFrom(existing, desired, |existing|, adds);
    AdditionsFrom(desired, existing, 0, []);
    for i := 0 to |desired|
      invariant Reached(world, was, at, pg, role, done, s) && !err
      invariant Going(c, done, Additions(desired[i..], existing) + [], s)
    {
      var found := Contains(existing, desired[i]);
      AdditionsFrom(desired, existing, i, []);
      if !found {
        ghost var op, rest := Op<string>.Add(desired[i]), Additions(desired[i + 1..], existing) + [];
        Proceeds(c, done, op, rest, s);
        err := GrantRoleMembership(world, at, desired[i], role, pg, was, done, s);
        done := done + [op];
        if err { return; }
        s := Step(s, op);
      }
    }
    AdditionsFrom(desired, existing, |desired|, []);
  }

  method ReconcileRoleMembership(world: World, keywords: set<string>, at: string, role: string, desired: seq<string>)
      returns (err: bool, ghost listed: bool, ghost listing: seq<string>)
    requires role in world.pg.roles && role != ""
    modifies world`pg, world`calls, world`writes, world`sent
    ensures listed <==> !world.fails(old(world.calls))
    ensures !listed ==> err && world.pg == old(world.pg) && world.writes == old(world.writes)
                        && world.calls == old(world.calls) + 1 && world.sent == old(world.sent)
    ensures listed ==>
              var before, start, plan := old(world.pg), old(world.calls) + 1, DropFirst(listing, desired);
              var r := Execute(MembershipRules(before.roles.Keys), plan, Groups(before.members, role), world.fails,
                               start);
              && Elements(listing) == (set t | t in Rows(keywords, before.members, role) :: Trim(t))
              && world.pg == WithMembership(before, role, r.state)
              && err == !r.ok && world.calls == r.calls && world.writes == old(world.writes) + (r.calls - start)
              && 0 <= r.calls - start <= |plan|
              && world.sent == old(world.sent) + Sendings(at, role, plan[..r.calls - start])
  {
    hide MembershipRules, WithMembership, Execute, DropFirst, Rows, Trim, Groups, Sendings, Quote, Going;
    listed, listing := false, [];
    var existing;
    ghost var rows;
    err, existing, rows := GetRoleMembership(world, keywords, role);
    if err { return; }
    listed, listing := true, existing;
    ghost var before := world.pg;
    ghost var c := Course(MembershipRules(before.roles.Keys), DropFirst(existing, desired),
                          Groups(before.members, role), world.fails, world.calls);
    SameMembership(before, role);
    SendingsSnoc(at, role, [], "");
    ghost var done, s;
    err, done, s := SendDifferences(world, at, role, existing, desired, before, c, TrafficOf(world));
    if !err { Ends(c, done, s); }
  }

  // ----- what a pass achieves -----

  ghost predicate NoQuotes(members: set<Member>) {
    forall m :: m in members ==> '"' !in m.group
  }

  /** What the operator takes these groups for. */
  function Trimmed(keywords: set<string>, groups: set<string>): set<string> {
    set g | g in groups :: Trim(Regrole(keywords, g))
  }

  lemma QuoteIsInjective(x: string, y: string)
    requires Quote(x) == Quote(y)
    ensures x == y
  {
    hide Doubled, Unquote;
    UnquoteUndoesDoubling(x, '"', "");
    UnquoteUndoesDoubling(y, '"', "");
    assert Quote(x)[1..] == Doubled(x, '"') + "\"" && Quote(y)[1..] == Doubled(y, '"') + "\"";
    assert Doubled(x, '"') + "\"" + "" == Doubled(x, '"') + "\"";
    assert Doubled(y, '"') + "\"" + "" == Doubled(y, '"') + "\"";
  }

  /** The rows for a name are those of one role: the one whose regrole text it is. */
  lemma RowsOf(keywords: set<string>, members: set<Member>, name: string, x: string)
    requires Regrole(keywords, x) == name
    ensures (set t | t in Rows(keywords, members, name) :: Trim(t)) == Trimmed(keywords, Groups(members, x))
  {
    hide Trim, Quote, Plain;
    forall m | m in members ensures Regrole(keywords, m.member) == name <==> m.member == x {
      if Regrole(keywords, m.member) == name { SameText(keywords, m.member, x); }
    }
    var listed := set t | t in Rows(keywords, members, name) :: Trim(t);
    forall g | g in Groups(members, x) ensures Trim(Regrole(keywords, g)) in listed {
      var m :| m in members && m.member == x && m.group == g;
      assert Regrole(keywords, m.group) in Rows(keywords, members, name);
    }
    forall t | t in listed ensures t in Trimmed(keywords, Groups(members, x)) {
      var m :| m in members && Regrole(keywords, m.member) == name && t == Trim(Regrole(keywords, m.group));
      assert m.group in Groups(members, x);
    }
  }

  lemma SameText(keywords: set<string>, x: string, y: string)
    requires Regrole(keywords, x) == Regrole(keywords, y)
    ensures x == y
  {
    hide Doubled;
    if !Plain(keywords, x) && !Plain(keywords, y) { QuoteIsInjective(x, y); }
  }

  /**
   What the operator takes for a role's current groups, for any names: for a plain name the role's groups, each as
   its trimmed text; for a name that is itself the quoted text of another role, that other role's; for any other
   nothing.
   */
  lemma ListingOf(keywords: set<string>, members: set<Member>, role: string)
    ensures var listing := set t | t in Rows(keywords, members, role) :: Trim(t);
            && (Plain(keywords, role) ==> listing == Trimmed(keywords, Groups(members, role)))
            && (forall x :: !Plain(keywords, x) && role == Quote(x) ==>
                  x != role && listing == Trimmed(keywords, Groups(members, x)))
            && ((forall x :: Regrole(keywords, x) != role) ==> listing == {})
  {
    hide Trim, Quote, Plain, Trimmed;
    if Plain(keywords, role) { RowsOf(keywords, members, role, role); }
    forall x | !Plain(keywords, x) && role == Quote(x)
      ensures x != role
      ensures (set t | t in Rows(keywords, members, role) :: Trim(t)) == Trimmed(keywords, Groups(members, x))
    {
      RowsOf(keywords, members, role, x);
      QuoteGrows(x);
    }
  }

  lemma QuoteGrows(x: string)
    ensures |Quote(x)| > |x| && Quote(x)[0] == '"'
  {
    hide Doubled;
    DoublingGrows(x);
  }

  lemma TrimmedSame(keywords: set<string>, groups: set<string>)
    requires forall g :: g in groups ==> '"' !in g
    ensures Trimmed(keywords, groups) == groups
  {
    hide Trim, Regrole;
    forall g | g in groups ensures Trim(Regrole(keywords, g)) == g { TrimRecovers(keywords, g); }
  }

  /** Without double quotes in names the listing is right for a plain name, and empty for any other. */
  lemma PlainListing(keywords: set<string>, members: set<Member>, role: string)
    requires NoQuotes(members) && '"' !in role
    ensures (set t | t in Rows(keywords, members, role) :: Trim(t))
         == if Plain(keywords, role) then Groups(members, role) else {}
  {
    hide Trim, Plain, Rows, Quote, Trimmed;
    ListingOf(keywords, members, role);
    TrimmedSame(keywords, Groups(members, role));
    forall x ensures Regrole(keywords, x) == role ==> x == role && Plain(keywords, role) { QuoteGrows(x); }
  }

  /**
   A group whose name holds a double quote is taken for another one: that other name is revoked if it is not desired,
   and the group itself is not, so the pass fails unless the server has a role of the other name.
   */
  lemma WrongGroupRevoked(keywords: set<string>, pg: Pg, role: string, group: string, desired: seq<string>,
                          listing: seq<string>, fails: nat -> bool, n: nat)
    requires Plain(keywords, role) && group in Groups(pg.members, role) && '"' in group
    requires Elements(listing) == set t | t in Rows(keywords, pg.members, role) :: Trim(t)
    ensures var other, plan := Trim(Regrole(keywords, group)), DropFirst(listing, desired);
            && other != group && other in listing
            && (other !in desired ==>
                 && Op<string>.Remove(other) in plan
                 && (Execute(MembershipRules(pg.roles.Keys), plan, Groups(pg.members, role), fails, n).ok ==>
                      other in pg.roles))
  {
    hide Trim, Plain, Rows, Regrole, Execute;
    TrimRecovers(keywords, group);
    ListingOf(keywords, pg.members, role);
    var other := Trim(Regrole(keywords, group));
    assert other in Trimmed(keywords, Groups(pg.members, role));
    assert other in Elements(listing);
    if other !in desired {
      var rules, plan, had := MembershipRules(pg.roles.Keys), DropFirst(listing, desired), Groups(pg.members, role);
      RemovesListed(listing, desired, other);
      assert Op<string>.Remove(other) in plan;
      if Execute(rules, plan, had, fails, n).ok {
        SuccessKnows(rules, plan, had, fails, n, Op<string>.Remove(other));
      }
    }
  }

  /**
   After a successful pass, for any names: the groups are exactly memberOfRoles (duplicates allowed) if and only if
   every superfluous group is listed and every listed desired name is one of the groups. For names without double
   quotes that means a role name that needs no quoting, or no superfluous group.
   */
  lemma MembershipConverges(keywords: set<string>, pg: Pg, role: string, desired: seq<string>, listing: seq<string>,
                            fails: nat -> bool, n: nat)
    ensures var had, listed, wanted := Groups(pg.members, role), Elements(listing), Elements(desired);
            var r := Execute(MembershipRules(pg.roles.Keys), DropFirst(listing, desired), had, fails, n);
            && had * wanted <= r.state <= had + wanted
            && (r.ok ==> r.state == had - (listed - wanted) + (wanted - listed))
            && (r.ok ==> (r.state == wanted <==> had - wanted <= listed && wanted * listed <= had))
            && (Faultless(fails) ==> (r.ok <==> (listed - wanted) + (wanted - listed) <= pg.roles.Keys - {""}))
            && (NoQuotes(pg.members) && '"' !in role
                && listed == (set t | t in Rows(keywords, pg.members, role) :: Trim(t)) && r.ok ==>
                 && r.state == (if Plain(keywords, role) then wanted else had + wanted)
                 && (r.state == wanted <==> Plain(keywords, role) || had <= wanted))
  {
    hide Rows, Plain, Execute;
    if NoQuotes(pg.members) && '"' !in role { PlainListing(keywords, pg.members, role); }
    var rules, had := MembershipRules(pg.roles.Keys), Groups(pg.members, role);
    var drops, adds := Removals(listing, desired), Additions(desired, listing);
    ExecuteConcat(rules, drops, adds, had, fails, n);
    RunRemovals(rules, listing, desired, had, fails, n);
    var mid := Execute(rules, drops, had, fails, n);
    RunAdditions(rules, desired, listing, mid.state, fails, mid.calls);
    KnownOperations(listing, desired, pg.roles.Keys);
    if Faultless(fails) { LenientSucceedsExactly(rules, DropFirst(listing, desired), had, fails, n); }
  }

  /** The plan names exactly the elements in which listing and declaration differ. */
  lemma KnownOperations(listing: seq<string>, desired: seq<string>, roles: set<string>)
    ensures (forall op :: op in DropFirst(listing, desired) ==> MembershipRules(roles).known(op.x)) <==>
            (Elements(listing) - Elements(desired)) + (Elements(desired) - Elements(listing)) <= roles - {""}
  {
    RemovalsElements(listing, desired);
    AdditionsElements(desired, listing);
    forall x | x in listing && x !in desired ensures Op<string>.Remove(x) in DropFirst(listing, desired) {
      RemovesListed(listing, desired, x);
    }
    forall x | x in desired && x !in listing ensures Op<string>.Add(x) in DropFirst(listing, desired) {
      AddsDesired(desired, listing, x);
    }
    var differ := (Elements(listing) - Elements(desired)) + (Elements(desired) - Elements(listing));
    var plan := DropFirst(listing, desired);
    forall op | op in plan ensures op.x in differ {
    }
    forall x | x in differ ensures exists op :: op in plan && op.x == x {
      if x in listing { assert Op<string>.Remove(x) in plan; } else { assert Op<string>.Add(x) in plan; }
    }
  }

  /** A pass sends nothing exactly when it lists the desired names: the desired groups, when the name is plain. */
  lemma MembershipSettles(keywords: set<string>, pg: Pg, role: string, desired: seq<string>, listing: seq<string>)
    ensures DropFirst(listing, desired) == [] <==> Elements(listing) == Elements(desired)
    ensures NoQuotes(pg.members) && Plain(keywords, role)
            && Elements(listing) == (set t | t in Rows(keywords, pg.members, role) :: Trim(t)) ==>
              (DropFirst(listing, desired) == [] <==> Groups(pg.members, role) == Elements(desired))
  {
    hide Rows;
    NothingToSend(listing, desired);
    if NoQuotes(pg.members) && Plain(keywords, role) { PlainListing(keywords, pg.members, role); }
  }
}
