/**
 CREATE ROLE and ALTER ROLE: the difference between two roles is compiled to option text. The printer is
 proved against the option list `Diff`, whose text the server reads back, and `Diff` against the row
 the server ends up with.
 */
module RoleStatements {
  import opened Wrappers
  import opened SqlText
  import opened SqlKeywords
  import opened Statements
  import opened Outside

  /** The attributes in which two roles differ. */
  function Differs(existing: Role, desired: Role): set<Attribute> {
    (existing.attributes - desired.attributes) + (desired.attributes - existing.attributes)
  }

  /** The operator may give or take away only attributes it holds itself. */
  predicate MayChange(operator: Role, existing: Role, desired: Role) {
    Differs(existing, desired) <= operator.attributes
  }

  function Change(existing: Role, desired: Role, a: Attribute): seq<RoleOption> {
    if a in Differs(existing, desired) then [Attr(a, a in desired.attributes)] else []
  }

  function PasswordChange(desired: Role): seq<RoleOption> {
    if desired.password != "" then [Password(desired.password)] else []
  }

  function Diff(e: Role, d: Role): seq<RoleOption> {
    Change(e, d, SuperUser) + Change(e, d, Inherit) + Change(e, d, CreateRole) + Change(e, d, CreateDb)
    + Change(e, d, Login) + Change(e, d, Replication) + Change(e, d, BypassRls) + PasswordChange(d)
  }

  // ----- the printer -----

  function OptionsText(os: seq<RoleOption>): string { Spaced(Lexemes(OptionsTokens(os))) }

  lemma {:induction false} OptionsTokensConcat(p: seq<RoleOption>, q: seq<RoleOption>)
    ensures OptionsTokens(p + q) == OptionsTokens(p) + OptionsTokens(q)
  {
    if p == [] {
      assert p + q == q;
    } else {
      assert (p + q)[1..] == p[1..] + q;
      OptionsTokensConcat(p[1..], q);
    }
  }

  lemma OptionsTextConcat(p: seq<RoleOption>, q: seq<RoleOption>)
    ensures OptionsText(p + q) == OptionsText(p) + OptionsText(q)
  {
    hide Spaced, OptionsTokens, TokenLexeme;
    OptionsTokensConcat(p, q);
    assert Lexemes(OptionsTokens(p) + OptionsTokens(q)) == Lexemes(OptionsTokens(p)) + Lexemes(OptionsTokens(q));
    SpacedConcat(Lexemes(OptionsTokens(p)), Lexemes(OptionsTokens(q)));
  }

  lemma AttributeText(a: Attribute, on: bool)
    ensures OptionsText([Attr(a, on)]) == Spelling(AttributeKeyword(a, on)) + " "
  {
    hide Spelling, AttributeKeyword, Spaced;
    var t := Key(AttributeKeyword(a, on));
    assert OptionsTokens([Attr(a, on)]) == [t];
    assert Lexemes([t]) == [TokenLexeme(t)];
    SpacedOne(TokenLexeme(t));
  }

  lemma PasswordOption(p: string)
    ensures OptionsText([Password(p)]) == "PASSWORD '" + Doubled(p, '\'') + "' "
  {
    hide Spaced, Doubled;
    var ts := [Key(PASSWORD), Text(p)];
    assert OptionsTokens([Password(p)]) == ts;
    var ls := [Word("PASSWORD"), Str(p)];
    assert Lexemes(ts) == ls;
    assert ls == [Word("PASSWORD")] + [Str(p)];
    SpacedConcat([Word("PASSWORD")], [Str(p)]);
    SpacedOne(Word("PASSWORD"));
    SpacedOne(Str(p));
    assert "PASSWORD" + " " + ("'" + Doubled(p, '\'') + "'" + " ") == "PASSWORD '" + Doubled(p, '\'') + "' ";
  }

  lemma NoOptionsText()
    ensures OptionsText([]) == ""
  {
    assert Lexemes([]) == [];
  }

  /** The options, letter by letter. */
  lemma EarlyOptionTexts()
    ensures OptionsText([Attr(SuperUser, true)]) == "SUPERUSER "
    ensures OptionsText([Attr(SuperUser, false)]) == "NOSUPERUSER "
    ensures OptionsText([Attr(Inherit, true)]) == "INHERIT " && OptionsText([Attr(Inherit, false)]) == "NOINHERIT "
  {
    hide OptionsText, Spelling;
    AttributeText(SuperUser, true);
    AttributeText(SuperUser, false);
    AttributeText(Inherit, true);
    AttributeText(Inherit, false);
    EarlySpellings();
    assert "SUPERUSER" + " " == "SUPERUSER " && "NOSUPERUSER" + " " == "NOSUPERUSER ";
    assert "INHERIT" + " " == "INHERIT " && "NOINHERIT" + " " == "NOINHERIT ";
  }

  lemma EarlySpellings()
    ensures Spelling(SUPERUSER) == "SUPERUSER" && Spelling(NOSUPERUSER) == "NOSUPERUSER"
    ensures Spelling(INHERIT) == "INHERIT" && Spelling(NOINHERIT) == "NOINHERIT"
  {
  }

  lemma MiddleSpellings()
    ensures Spelling(CREATEROLE) == "CREATEROLE" && Spelling(NOCREATEROLE) == "NOCREATEROLE"
    ensures Spelling(CREATEDB) == "CREATEDB" && Spelling(NOCREATEDB) == "NOCREATEDB"
  {
  }

  lemma LateSpellings()
    ensures Spelling(LOGIN) == "LOGIN" && Spelling(NOLOGIN) == "NOLOGIN"
    ensures Spelling(REPLICATION) == "REPLICATION" && Spelling(NOREPLICATION) == "NOREPLICATION"
    ensures Spelling(BYPASSRLS) == "BYPASSRLS" && Spelling(NOBYPASSRLS) == "NOBYPASSRLS"
  {
  }

  lemma MiddleOptionTexts()
    ensures OptionsText([Attr(CreateRole, true)]) == "CREATEROLE "
    ensures OptionsText([Attr(CreateRole, false)]) == "NOCREATEROLE "
    ensures OptionsText([Attr(CreateDb, true)]) == "CREATEDB " && OptionsText([Attr(CreateDb, false)]) == "NOCREATEDB "
  {
    hide OptionsText, Spelling;
    AttributeText(CreateRole, true);
    AttributeText(CreateRole, false);
    AttributeText(CreateDb, true);
    AttributeText(CreateDb, false);
    MiddleSpellings();
    assert "CREATEROLE" + " " == "CREATEROLE " && "NOCREATEROLE" + " " == "NOCREATEROLE ";
    assert "CREATEDB" + " " == "CREATEDB " && "NOCREATEDB" + " " == "NOCREATEDB ";
  }

  lemma LateOptionTexts()
    ensures OptionsText([Attr(Login, true)]) == "LOGIN " && OptionsText([Attr(Login, false)]) == "NOLOGIN "
    ensures OptionsText([Attr(Replication, true)]) == "REPLICATION "
    ensures OptionsText([Attr(Replication, false)]) == "NOREPLICATION "
    ensures OptionsText([Attr(BypassRls, true)]) == "BYPASSRLS "
    ensures OptionsText([Attr(BypassRls, false)]) == "NOBYPASSRLS "
  {
    hide OptionsText, Spelling;
    AttributeText(Login, true);
    AttributeText(Login, false);
    AttributeText(Replication, true);
    AttributeText(Replication, false);
    AttributeText(BypassRls, true);
    AttributeText(BypassRls, false);
    LateSpellings();
    assert "LOGIN" + " " == "LOGIN " && "NOLOGIN" + " " == "NOLOGIN ";
    assert "REPLICATION" + " " == "REPLICATION " && "NOREPLICATION" + " " == "NOREPLICATION ";
    assert "BYPASSRLS" + " " == "BYPASSRLS " && "NOBYPASSRLS" + " " == "NOBYPASSRLS ";
  }

  /** The word for turning an attribute on or off, if it differs. */
  function Block(existing: Role, desired: Role, a: Attribute, on: string, off: string): string {
    if (a in existing.attributes) == (a in desired.attributes) then "" else if a in desired.attributes then on else off
  }

  lemma BlockText(existing: Role, desired: Role, a: Attribute, on: string, off: string)
    requires OptionsText([Attr(a, true)]) == on && OptionsText([Attr(a, false)]) == off
    ensures OptionsText(Change(existing, desired, a)) == Block(existing, desired, a, on, off)
  {
    hide OptionsText;
    NoOptionsText();
  }

  /** One attribute block of the printer: the same seven times. */
  method AppendAttribute(raw: string, a: Attribute, on: string, off: string, operator: Role, existing: Role,
                         desired: Role) returns (err: bool, options: string)
    ensures err <==> (a in existing.attributes) != (a in desired.attributes) && a !in operator.attributes
    ensures !err ==> options == raw + Block(existing, desired, a, on, off)
  {
    err, options := false, raw;
    if (a in existing.attributes) != (a in desired.attributes) {
      if a !in operator.attributes { return true, ""; }
      if a in desired.attributes { options := options + on; } else { options := options + off; }
    } else {
      assert raw + "" == raw;
    }
  }

  /** The password option, quoted. */
  function PasswordBlock(desired: Role): string {
    if desired.password == "" then "" else "PASSWORD '" + Doubled(desired.password, '\'') + "' "
  }

  lemma PasswordText(desired: Role)
    ensures OptionsText(PasswordChange(desired)) == PasswordBlock(desired)
  {
    hide OptionsText, Doubled;
    if desired.password == "" { NoOptionsText(); } else { PasswordOption(desired.password); }
  }

  method AppendPassword(raw: string, desired: Role) returns (options: string)
    ensures options == raw + PasswordBlock(desired)
  {
    hide Doubled;
    options := raw;
    if desired.password != "" {
      options := options + ("PASSWORD '" + Doubled(desired.password, '\'') + "' ");
    } else {
      assert raw + "" == raw;
    }
  }

  lemma EveryAttribute(s: set<Attribute>)
    ensures s <= {SuperUser, Inherit, CreateRole, CreateDb, Login, Replication, BypassRls}
  {
    forall a | a in s ensures a in {SuperUser, Inherit, CreateRole, CreateDb, Login, Replication, BypassRls} {
      match a
      case SuperUser => case Inherit => case CreateRole => case CreateDb =>
      case Login => case Replication => case BypassRls =>
    }
  }

  lemma ConcatText(raw: string, p: seq<RoleOption>, q: seq<RoleOption>)
    ensures raw + OptionsText(p) + OptionsText(q) == raw + OptionsText(p + q)
  {
    hide OptionsText;
    OptionsTextConcat(p, q);
  }

  /**
   Builds the options by appending, block after block, and stops at the first attribute that must change
   and that the operator does not hold.
   */
  method GenerateRoleOptions(operator: Role, existing: Role, desired: Role) returns (err: bool, options: string)
    ensures err <==> exists a :: (a in existing.attributes) != (a in desired.attributes) && a !in operator.attributes
    ensures !err ==>
              options == "WITH "
              + Block(existing, desired, SuperUser, "SUPERUSER ", "NOSUPERUSER ")
              + Block(existing, desired, Inherit, "INHERIT ", "NOINHERIT ")
              + Block(existing, desired, CreateRole, "CREATEROLE ", "NOCREATEROLE ")
              + Block(existing, desired, CreateDb, "CREATEDB ", "NOCREATEDB ")
              + Block(existing, desired, Login, "LOGIN ", "NOLOGIN ")
              + Block(existing, desired, Replication, "REPLICATION ", "NOREPLICATION ")
              + Block(existing, desired, BypassRls, "BYPASSRLS ", "NOBYPASSRLS ")
              + PasswordBlock(desired)
    ensures err <==> !MayChange(operator, existing, desired)
    ensures !err ==> options == "WITH " + OptionsText(Diff(existing, desired))
  {
    hide OptionsText, Doubled, Diff, Block, PasswordBlock;
    var raw := "WITH ";
    err, raw := AppendAttribute(raw, SuperUser, "SUPERUSER ", "NOSUPERUSER ", operator, existing, desired);
    if err { return true, ""; }
    err, raw := AppendAttribute(raw, Inherit, "INHERIT ", "NOINHERIT ", operator, existing, desired);
    if err { return true, ""; }
    err, raw := AppendAttribute(raw, CreateRole, "CREATEROLE ", "NOCREATEROLE ", operator, existing, desired);
    if err { return true, ""; }
    err, raw := AppendAttribute(raw, CreateDb, "CREATEDB ", "NOCREATEDB ", operator, existing, desired);
    if err { return true, ""; }
    err, raw := AppendAttribute(raw, Login, "LOGIN ", "NOLOGIN ", operator, existing, desired);
    if err { return true, ""; }
    err, raw := AppendAttribute(raw, Replication, "REPLICATION ", "NOREPLICATION ", operator, existing, desired);
    if err { return true, ""; }
    err, raw := AppendAttribute(raw, BypassRls, "BYPASSRLS ", "NOBYPASSRLS ", operator, existing, desired);
    if err { return true, ""; }
    EveryAttribute(Differs(existing, desired));
    raw := AppendPassword(raw, desired);
    BlocksText(existing, desired);
    return false, raw;
  }

  lemma ChangesText(e: Role, d: Role)
    ensures "WITH " + OptionsText(Change(e, d, SuperUser)) + OptionsText(Change(e, d, Inherit))
            + OptionsText(Change(e, d, CreateRole)) + OptionsText(Change(e, d, CreateDb))
            + OptionsText(Change(e, d, Login)) + OptionsText(Change(e, d, Replication))
            + OptionsText(Change(e, d, BypassRls)) + OptionsText(PasswordChange(d))
         == "WITH " + OptionsText(Diff(e, d))
  {
    hide OptionsText, Change, PasswordChange;
    var p := Change(e, d, SuperUser);
    ConcatText("WITH ", p, Change(e, d, Inherit));
    p := p + Change(e, d, Inherit);
    ConcatText("WITH ", p, Change(e, d, CreateRole));
    p := p + Change(e, d, CreateRole);
    ConcatText("WITH ", p, Change(e, d, CreateDb));
    p := p + Change(e, d, CreateDb);
    ConcatText("WITH ", p, Change(e, d, Login));
    p := p + Change(e, d, Login);
    ConcatText("WITH ", p, Change(e, d, Replication));
    p := p + Change(e, d, Replication);
    ConcatText("WITH ", p, Change(e, d, BypassRls));
    p := p + Change(e, d, BypassRls);
    ConcatText("WITH ", p, PasswordChange(d));
  }

  lemma BlocksText(e: Role, d: Role)
    ensures "WITH " + Block(e, d, SuperUser, "SUPERUSER ", "NOSUPERUSER ")
            + Block(e, d, Inherit, "INHERIT ", "NOINHERIT ")
            + Block(e, d, CreateRole, "CREATEROLE ", "NOCREATEROLE ")
            + Block(e, d, CreateDb, "CREATEDB ", "NOCREATEDB ")
            + Block(e, d, Login, "LOGIN ", "NOLOGIN ")
            + Block(e, d, Replication, "REPLICATION ", "NOREPLICATION ")
            + Block(e, d, BypassRls, "BYPASSRLS ", "NOBYPASSRLS ")
            + PasswordBlock(d)
         == "WITH " + OptionsText(Diff(e, d))
  {
    hide *;
    EarlyOptionTexts();
    MiddleOptionTexts();
    LateOptionTexts();
    BlockText(e, d, SuperUser, "SUPERUSER ", "NOSUPERUSER ");
    BlockText(e, d, Inherit, "INHERIT ", "NOINHERIT ");
    BlockText(e, d, CreateRole, "CREATEROLE ", "NOCREATEROLE ");
    BlockText(e, d, CreateDb, "CREATEDB ", "NOCREATEDB ");
    BlockText(e, d, Login, "LOGIN ", "NOLOGIN ");
    BlockText(e, d, Replication, "REPLICATION ", "NOREPLICATION ");
    BlockText(e, d, BypassRls, "BYPASSRLS ", "NOBYPASSRLS ");
    PasswordText(d);
    ChangesText(e, d);
  }

  // ----- the rows the options lead to -----

  lemma {:induction false} WithAllConcat(row: Role, p: seq<RoleOption>, q: seq<RoleOption>)
    ensures WithAll(row, p + q) == WithAll(WithAll(row, p), q)
    decreases |p|
  {
    if p == [] {
      assert p + q == q;
    } else {
      assert (p + q)[1..] == p[1..] + q;
      WithAllConcat(row.With(p[0]), p[1..], q);
    }
  }

  /** The row with every differing attribute at its desired value, and the desired password if any. */
  function Altered(row: Role, e: Role, d: Role): Role {
    Role(row.name, row.attributes - (e.attributes - d.attributes) + (d.attributes - e.attributes),
         if d.password != "" then d.password else row.password)
  }

  lemma AppendChange(row: Role, p: seq<RoleOption>, e: Role, d: Role, a: Attribute)
    ensures var r, s := WithAll(row, p), WithAll(row, p + Change(e, d, a));
            s.name == r.name && s.password == r.password &&
            forall b: Attribute :: b in s.attributes <==>
              if b == a && a in Differs(e, d) then a in d.attributes else b in r.attributes
  {
    WithAllConcat(row, p, Change(e, d, a));
  }

  /** Executing the option list leads to exactly the altered row. */
  lemma DiffEffect(row: Role, e: Role, d: Role)
    ensures WithAll(row, Diff(e, d)) == Altered(row, e, d)
  {
    hide WithAll, Change, PasswordChange, Altered, Differs;
    AppendChange(row, [], e, d, SuperUser);
    var p := Change(e, d, SuperUser);
    assert [] + p == p;
    NoChange(row);
    AppendChange(row, p, e, d, Inherit);
    p := p + Change(e, d, Inherit);
    AppendChange(row, p, e, d, CreateRole);
    p := p + Change(e, d, CreateRole);
    AppendChange(row, p, e, d, CreateDb);
    p := p + Change(e, d, CreateDb);
    AppendChange(row, p, e, d, Login);
    p := p + Change(e, d, Login);
    AppendChange(row, p, e, d, Replication);
    p := p + Change(e, d, Replication);
    AppendChange(row, p, e, d, BypassRls);
    p := p + Change(e, d, BypassRls);
    var r := WithAll(row, p);
    WithAllConcat(row, p, PasswordChange(d));
    PasswordEffect(r, d);
    forall b: Attribute
      ensures b in r.attributes <==> if b in Differs(e, d) then b in d.attributes else b in row.attributes
    {
      EveryAttribute({b});
    }
    SevenChanges(row, e, d, r);
  }

  lemma SevenChanges(row: Role, e: Role, d: Role, r: Role)
    requires r.name == row.name && r.password == row.password
    requires forall b: Attribute ::
               b in r.attributes <==> if b in Differs(e, d) then b in d.attributes else b in row.attributes
    ensures r.(password := if d.password != "" then d.password else r.password) == Altered(row, e, d)
  {
  }

  lemma NoChange(row: Role)
    ensures WithAll(row, []) == row
  {
  }

  lemma PasswordEffect(row: Role, d: Role)
    ensures WithAll(row, PasswordChange(d)) == row.(password := if d.password != "" then d.password else row.password)
  {
  }

  lemma DiffNamesNoAdmin(e: Role, d: Role)
    ensures Admins(Diff(e, d)) == {} && forall o :: o in Diff(e, d) ==> !o.Admin?
  {
    hide Differs;
    forall o | o in Diff(e, d) ensures !o.Admin? {
    }
  }

  // ----- sending the statements -----

  function CreateStatement(operator: Role, role: Role): Stmt {
    CreatesRole(role.name, Diff(Blank(""), role) + [Admin(operator.name)])
  }

  function AlterStatement(existing: Role, desired: Role): Stmt {
    AltersRole(desired.name, Diff(existing, desired))
  }

  /** CREATE ROLE starts from INHERIT, and the difference to the zero value never says NOINHERIT. */
  function Created(role: Role): Role { role.(attributes := role.attributes + {Inherit}) }

  function AfterCreate(pg: Pg, operator: Role, role: Role): Option<Pg> {
    if role.name == "" || operator.name == "" || role.name in pg.roles || operator.name !in pg.roles then None
    else Some(pg.(roles := pg.roles[role.name := Created(role)],
                  members := pg.members + {Member(role.name, operator.name)}))
  }

  function AfterAlter(pg: Pg, existing: Role, desired: Role): Option<Pg> {
    if desired.name == "" || desired.name !in pg.roles then None
    else Some(pg.(roles := pg.roles[desired.name := Altered(pg.roles[desired.name], existing, desired)]))
  }

  lemma {:induction false} OptionsSayNames(os: seq<RoleOption>)
    ensures Name("") in OptionsTokens(os) <==> Admin("") in os
  {
    if os != [] {
      OptionsSayNames(os[1..]);
      assert OptionsTokens(os) == OptionTokens(os[0]) + OptionsTokens(os[1..]);
      assert os == [os[0]] + os[1..];
    }
  }

  lemma SayableRole(n: string, os: seq<RoleOption>)
    ensures Sayable(CreatesRole(n, os)) <==> n != "" && Admin("") !in os
    ensures Sayable(AltersRole(n, os)) <==> n != "" && Admin("") !in os
  {
    hide OptionsTokens;
    OptionsSayNames(os);
    assert Tokens(CreatesRole(n, os))[2] == Name(n);
    assert Tokens(AltersRole(n, os))[2] == Name(n);
  }

  lemma CreateOptions(operator: Role, role: Role)
    ensures var os := Diff(Blank(""), role) + [Admin(operator.name)];
            Admins(os) == {operator.name} && (Admin("") in os <==> operator.name == "")
            && WithAll(DefaultRole(role.name), os) == Created(role)
  {
    hide Diff;
    var d := Diff(Blank(""), role);
    DiffNamesNoAdmin(Blank(""), role);
    assert (d + [Admin(operator.name)])[|d|] == Admin(operator.name);
    WithAllConcat(DefaultRole(role.name), d, [Admin(operator.name)]);
    DiffEffect(DefaultRole(role.name), Blank(""), role);
    var r := Altered(DefaultRole(role.name), Blank(""), role);
    assert WithAll(r, [Admin(operator.name)]) == r;
    assert r.attributes == role.attributes + {Inherit};
  }

  lemma CreateSubmits(pg: Pg, at: string, operator: Role, role: Role)
    ensures Submit(pg, at, CreateStatement(operator, role)) == AfterCreate(pg, operator, role)
  {
    hide Diff, Sayable, WithAll;
    CreateOptions(operator, role);
    var os := Diff(Blank(""), role) + [Admin(operator.name)];
    SayableRole(role.name, os);
    assert (set a | a in Admins(os) :: Member(role.name, a)) == {Member(role.name, operator.name)};
  }

  lemma AlterSubmits(pg: Pg, at: string, existing: Role, desired: Role)
    ensures Submit(pg, at, AlterStatement(existing, desired)) == AfterAlter(pg, existing, desired)
  {
    hide Diff, Sayable, WithAll;
    var os := Diff(existing, desired);
    DiffNamesNoAdmin(existing, desired);
    SayableRole(desired.name, os);
    if desired.name in pg.roles {
      DiffEffect(pg.roles[desired.name], existing, desired);
    }
  }

  lemma FourSpaced(a: Lexeme, b: Lexeme, c: Lexeme, d: Lexeme)
    ensures Spaced([a, b, c, d])
         == LexemeText(a) + " " + (LexemeText(b) + " " + (LexemeText(c) + " " + (LexemeText(d) + " ")))
  {
    hide LexemeText;
    SpacedConcat([a], [b, c, d]);
    SpacedConcat([b], [c, d]);
    SpacedConcat([c], [d]);
    assert [a, b, c, d] == [a] + [b, c, d] && [b, c, d] == [b] + [c, d] && [c, d] == [c] + [d];
    SpacedOne(a);
    SpacedOne(b);
    SpacedOne(c);
    SpacedOne(d);
  }

  function RoleLexemes(verb: string, n: string, os: seq<RoleOption>): seq<Lexeme> {
    [Word(verb), Word("ROLE"), Ident(n), Word("WITH")] + Lexemes(OptionsTokens(os))
  }

  lemma LexemesConcat(ts: seq<Token>, us: seq<Token>)
    ensures Lexemes(ts + us) == Lexemes(ts) + Lexemes(us)
  {
  }

  lemma HeadLexemes(k: Keyword, n: string)
    ensures Lexemes([Key(k), Key(ROLE), Name(n), Key(WITH)])
         == [Word(Spelling(k)), Word("ROLE"), Ident(n), Word("WITH")]
  {
  }

  lemma RoleTokens(n: string, os: seq<RoleOption>)
    ensures Tokens(AltersRole(n, os)) == [Key(ALTER), Key(ROLE), Name(n), Key(WITH)] + OptionsTokens(os)
    ensures Tokens(CreatesRole(n, os)) == [Key(CREATE), Key(ROLE), Name(n), Key(WITH)] + OptionsTokens(os)
  {
    hide OptionsTokens;
  }

  lemma StatementLexemes(n: string, os: seq<RoleOption>)
    ensures Lexemes(Tokens(AltersRole(n, os))) == RoleLexemes("ALTER", n, os)
    ensures Lexemes(Tokens(CreatesRole(n, os))) == RoleLexemes("CREATE", n, os)
  {
    hide OptionsTokens, Lexemes, Tokens;
    RoleTokens(n, os);
    HeadLexemes(ALTER, n);
    HeadLexemes(CREATE, n);
    LexemesConcat([Key(ALTER), Key(ROLE), Name(n), Key(WITH)], OptionsTokens(os));
    LexemesConcat([Key(CREATE), Key(ROLE), Name(n), Key(WITH)], OptionsTokens(os));
  }

  lemma RoleText(verb: string, n: string, os: seq<RoleOption>)
    ensures Spaced(RoleLexemes(verb, n, os)) == verb + " ROLE " + Quote(n) + " " + ("WITH " + OptionsText(os))
  {
    hide OptionsTokens, Spaced, Quote;
    SpacedConcat([Word(verb), Word("ROLE"), Ident(n), Word("WITH")], Lexemes(OptionsTokens(os)));
    FourSpaced(Word(verb), Word("ROLE"), Ident(n), Word("WITH"));
  }

  lemma AlterText(n: string, os: seq<RoleOption>)
    ensures Print(AltersRole(n, os)) == "ALTER ROLE " + Quote(n) + " " + ("WITH " + OptionsText(os))
  {
    hide Spaced, Lexemes, Tokens, RoleLexemes, OptionsText;
    StatementLexemes(n, os);
    RoleText("ALTER", n, os);
    assert "ALTER" + " ROLE " == "ALTER ROLE ";
  }

  lemma PrintsCreate(n: string, os: seq<RoleOption>, init: seq<Lexeme>, last: Lexeme)
    requires Lexemes(Tokens(CreatesRole(n, os))) == init + [last]
    ensures Print(CreatesRole(n, os)) == Spaced(init) + LexemeText(last)
  {
    hide Spaced, Tokens, Lexemes, LexemeText;
    assert (init + [last])[..|init|] == init;
  }

  /** The ADMIN clause comes last, and CREATE ROLE text does not end with a space. */
  lemma CreateText(n: string, os: seq<RoleOption>, admin: string)
    ensures Print(CreatesRole(n, os + [Admin(admin)]))
         == "CREATE ROLE " + Quote(n) + " " + ("WITH " + OptionsText(os) + ("ADMIN " + Quote(admin)))
  {
    hide Spaced, Tokens, Lexemes, OptionsText, Quote, Print, RoleLexemes;
    var ls := RoleLexemes("CREATE", n, os);
    StatementLexemes(n, os + [Admin(admin)]);
    AdminLexemes(n, os, admin);
    PrintsCreate(n, os + [Admin(admin)], ls + [Word("ADMIN")], Ident(admin));
    SpacedConcat(ls, [Word("ADMIN")]);
    SpacedOne(Word("ADMIN"));
    RoleText("CREATE", n, os);
    assert "CREATE" + " ROLE " == "CREATE ROLE " && "ADMIN" + " " == "ADMIN ";
  }

  lemma AdminLexemes(n: string, os: seq<RoleOption>, admin: string)
    ensures RoleLexemes("CREATE", n, os + [Admin(admin)])
         == RoleLexemes("CREATE", n, os) + [Word("ADMIN")] + [Ident(admin)]
  {
    hide OptionsTokens;
    OptionsTokensConcat(os, [Admin(admin)]);
    AdminTokens(admin);
  }

  lemma AdminTokens(admin: string)
    ensures OptionsTokens([Admin(admin)]) == [Key(ADMIN), Name(admin)]
    ensures Lexemes([Key(ADMIN), Name(admin)]) == [Word("ADMIN"), Ident(admin)]
  {
  }

  method SendCreateRole(world: World, at: string, operator: Role, role: Role) returns (err: bool)
    modifies world`pg, world`calls, world`writes, world`sent
    ensures !MayChange(operator, Blank(""), role) ==>
              err && world.pg == old(world.pg) && world.calls == old(world.calls) && world.writes == old(world.writes)
              && world.sent == old(world.sent)
    ensures MayChange(operator, Blank(""), role) ==>
              var after := AfterCreate(old(world.pg), operator, role);
              && world.calls == old(world.calls) + 1 && world.writes == old(world.writes) + 1
              && (err <==> world.fails(old(world.calls)) || after.None?)
              && (world.pg == if err then old(world.pg) else after.value)
              && world.sent == old(world.sent) + [Sending(at, "CREATE ROLE " + Quote(role.name) + " " +
                   ("WITH " + OptionsText(Diff(Blank(""), role)) + ("ADMIN " + Quote(operator.name))))]
  {
    hide *;
    var options;
    err, options := GenerateRoleOptions(operator, Blank(""), role);
    if err { return; }
    options := options + ("ADMIN " + Quote(operator.name));
    CreateText(role.name, Diff(Blank(""), role), operator.name);
    CreateStatementIs(operator, role);
    assert Print(CreateStatement(operator, role)) == "CREATE ROLE " + Quote(role.name) + " " + options;
    CreateSubmits(world.pg, at, operator, role);
    err := world.Send(at, "CREATE ROLE " + Quote(role.name) + " " + options);
  }

  lemma CreateStatementIs(operator: Role, role: Role)
    ensures CreateStatement(operator, role) == CreatesRole(role.name, Diff(Blank(""), role) + [Admin(operator.name)])
    ensures forall connected :: !Blocked(CreateStatement(operator, role), connected)
  {
    hide Diff;
  }

  lemma AlterStatementIs(existing: Role, desired: Role)
    ensures AlterStatement(existing, desired) == AltersRole(desired.name, Diff(existing, desired))
    ensures forall connected :: !Blocked(AlterStatement(existing, desired), connected)
  {
    hide Diff;
  }

  method SendAlterRole(world: World, at: string, operator: Role, existing: Role, desired: Role) returns (err: bool)
    modifies world`pg, world`calls, world`writes, world`sent
    ensures !MayChange(operator, existing, desired) ==>
              err && world.pg == old(world.pg) && world.calls == old(world.calls) && world.writes == old(world.writes)
              && world.sent == old(world.sent)
    ensures MayChange(operator, existing, desired) ==>
              var after := AfterAlter(old(world.pg), existing, desired);
              && world.calls == old(world.calls) + 1 && world.writes == old(world.writes) + 1
              && (err <==> world.fails(old(world.calls)) || after.None?)
              && (world.pg == if err then old(world.pg) else after.value)
              && world.sent == old(world.sent) + [Sending(at, "ALTER ROLE " + Quote(desired.name) + " " +
                   ("WITH " + OptionsText(Diff(existing, desired))))]
  {
    hide *;
    var options;
    err, options := GenerateRoleOptions(operator, existing, desired);
    if err { return; }
    AlterText(desired.name, Diff(existing, desired));
    AlterStatementIs(existing, desired);
    AlterSubmits(world.pg, at, existing, desired);
    err := world.Send(at, "ALTER ROLE " + Quote(desired.name) + " " + options);
  }
}
