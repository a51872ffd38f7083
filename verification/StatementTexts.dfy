/** The text of every statement, letter by letter. */
module StatementTexts {
  import opened SqlText
  import opened SqlKeywords
  import opened Statements

  /** The text of a statement that is not ALTER ROLE: its lexemes with single spaces between them. */
  function Joined(ls: seq<Lexeme>): string
    requires ls != []
  {
    Spaced(ls[..|ls| - 1]) + LexemeText(ls[|ls| - 1])
  }

  lemma JoinedCons(w: string, ls: seq<Lexeme>)
    requires ls != []
    ensures Joined([Word(w)] + ls) == w + " " + Joined(ls)
  {
    hide LexemeText;
    var all := [Word(w)] + ls;
    assert all[..|all| - 1] == [Word(w)] + ls[..|ls| - 1];
    SpacedConcat([Word(w)], ls[..|ls| - 1]);
    SpacedOne(Word(w));
    WordText(w);
  }

  lemma WordText(w: string)
    ensures LexemeText(Word(w)) == w
  {
  }

  lemma JoinedName(n: string)
    ensures Joined([Ident(n)]) == Quote(n)
  {
    assert [Ident(n)][..0] == [];
  }

  lemma JoinedTwo(n: string, w: string, m: string)
    ensures Joined([Ident(n), Word(w), Ident(m)]) == Quote(n) + " " + w + " " + Quote(m)
  {
    hide Quote;
    var ls := [Ident(n), Word(w), Ident(m)];
    assert ls[..2] == [Ident(n)] + [Word(w)];
    SpacedConcat([Ident(n)], [Word(w)]);
    SpacedOne(Ident(n));
    SpacedOne(Word(w));
  }

  lemma JoinedThree(n: string, w: string, x: string, m: string)
    ensures Joined([Ident(n), Word(w), Word(x), Ident(m)]) == Quote(n) + " " + w + " " + x + " " + Quote(m)
  {
    hide Quote;
    var ls := [Ident(n), Word(w), Word(x), Ident(m)];
    assert ls[..3] == [Ident(n)] + ([Word(w)] + [Word(x)]);
    SpacedConcat([Ident(n)], [Word(w)] + [Word(x)]);
    SpacedConcat([Word(w)], [Word(x)]);
    SpacedOne(Ident(n));
    SpacedOne(Word(w));
    SpacedOne(Word(x));
  }

  lemma PrintsJoined(st: Stmt)
    requires !st.AltersRole?
    ensures Print(st) == Joined(Lexemes(Tokens(st)))
  {
    hide Tokens, LexemeText;
  }

  // ----- definitions -----

  lemma DefinitionText(st: Stmt, v: Keyword, k: Keyword, n: string)
    requires !st.AltersRole? && Tokens(st) == [Key(v), Key(k), Name(n)]
    ensures Print(st) == Spelling(v) + (" " + (Spelling(k) + " ")) + Quote(n)
  {
    hide Tokens, Joined, Quote, Spelling;
    var ls := [Word(Spelling(k))] + [Ident(n)];
    assert Lexemes(Tokens(st)) == [Word(Spelling(v))] + ls;
    PrintsJoined(st);
    JoinedCons(Spelling(v), ls);
    JoinedCons(Spelling(k), [Ident(n)]);
    JoinedName(n);
  }

  lemma DefinitionWords()
    ensures Spelling(CREATE) == "CREATE" && Spelling(DROP) == "DROP" && Spelling(DATABASE) == "DATABASE"
    ensures Spelling(SCHEMA) == "SCHEMA" && Spelling(EXTENSION) == "EXTENSION" && Spelling(ROLE) == "ROLE"
  {
  }

  lemma CreateTokens(n: string)
    ensures Tokens(CreatesDatabase(n)) == [Key(CREATE), Key(DATABASE), Name(n)]
    ensures Tokens(CreatesSchema(n)) == [Key(CREATE), Key(SCHEMA), Name(n)]
    ensures Tokens(CreatesExtension(n)) == [Key(CREATE), Key(EXTENSION), Name(n)]
  {
  }

  lemma DropTokens(n: string)
    ensures Tokens(DropsDatabase(n)) == [Key(DROP), Key(DATABASE), Name(n)]
    ensures Tokens(DropsSchema(n)) == [Key(DROP), Key(SCHEMA), Name(n)]
    ensures Tokens(DropsExtension(n)) == [Key(DROP), Key(EXTENSION), Name(n)]
    ensures Tokens(DropsRole(n)) == [Key(DROP), Key(ROLE), Name(n)]
  {
  }

  lemma CreateTexts(n: string)
    ensures Print(CreatesDatabase(n)) == "CREATE DATABASE " + Quote(n)
    ensures Print(CreatesSchema(n)) == "CREATE SCHEMA " + Quote(n)
    ensures Print(CreatesExtension(n)) == "CREATE EXTENSION " + Quote(n)
  {
    hide *;
    CreateTokens(n);
    DefinitionWords();
    DefinitionText(CreatesDatabase(n), CREATE, DATABASE, n);
    DefinitionText(CreatesSchema(n), CREATE, SCHEMA, n);
    DefinitionText(CreatesExtension(n), CREATE, EXTENSION, n);
    assert "CREATE" + (" " + ("DATABASE" + " ")) == "CREATE DATABASE ";
    assert "CREATE" + (" " + ("SCHEMA" + " ")) == "CREATE SCHEMA ";
    assert "CREATE" + (" " + ("EXTENSION" + " ")) == "CREATE EXTENSION ";
  }

  lemma DropTexts(n: string)
    ensures Print(DropsDatabase(n)) == "DROP DATABASE " + Quote(n)
    ensures Print(DropsSchema(n)) == "DROP SCHEMA " + Quote(n)
    ensures Print(DropsExtension(n)) == "DROP EXTENSION " + Quote(n)
    ensures Print(DropsRole(n)) == "DROP ROLE " + Quote(n)
  {
    hide *;
    DropTokens(n);
    DefinitionWords();
    DefinitionText(DropsDatabase(n), DROP, DATABASE, n);
    DefinitionText(DropsSchema(n), DROP, SCHEMA, n);
    DefinitionText(DropsExtension(n), DROP, EXTENSION, n);
    DefinitionText(DropsRole(n), DROP, ROLE, n);
    assert "DROP" + (" " + ("DATABASE" + " ")) == "DROP DATABASE ";
    assert "DROP" + (" " + ("SCHEMA" + " ")) == "DROP SCHEMA ";
    assert "DROP" + (" " + ("EXTENSION" + " ")) == "DROP EXTENSION ";
    assert "DROP" + (" " + ("ROLE" + " ")) == "DROP ROLE ";
  }

  // ----- owners and members -----

  lemma LinkWords()
    ensures Spelling(ALTER) == "ALTER" && Spelling(OWNER) == "OWNER" && Spelling(TO) == "TO"
    ensures Spelling(REASSIGN) == "REASSIGN" && Spelling(OWNED) == "OWNED" && Spelling(BY) == "BY"
    ensures Spelling(GRANT) == "GRANT" && Spelling(REVOKE) == "REVOKE" && Spelling(FROM) == "FROM"
    ensures Spelling(ON) == "ON"
  {
  }

  lemma OwnerText(st: Stmt, k: Keyword, n: string, o: string)
    requires !st.AltersRole? && Tokens(st) == [Key(ALTER), Key(k), Name(n), Key(OWNER), Key(TO), Name(o)]
    ensures Print(st) == Spelling(ALTER) + (" " + (Spelling(k) + " ")) + Quote(n)
                         + (" " + (Spelling(OWNER) + (" " + (Spelling(TO) + " ")))) + Quote(o)
  {
    hide Tokens, Joined, Quote, Spelling, Print, LexemeText;
    var last := [Ident(n), Word(Spelling(OWNER)), Word(Spelling(TO)), Ident(o)];
    var ls := [Word(Spelling(k))] + last;
    assert Lexemes(Tokens(st)) == [Word(Spelling(ALTER))] + ls;
    PrintsJoined(st);
    JoinedCons(Spelling(ALTER), ls);
    JoinedCons(Spelling(k), last);
    JoinedThree(n, Spelling(OWNER), Spelling(TO), o);
  }

  lemma OwnerTexts(n: string, o: string)
    ensures Print(OwnsDatabase(n, o)) == "ALTER DATABASE " + Quote(n) + " OWNER TO " + Quote(o)
    ensures Print(OwnsSchema(n, o)) == "ALTER SCHEMA " + Quote(n) + " OWNER TO " + Quote(o)
  {
    hide *;
    OwnerTokens(n, o);
    DefinitionWords();
    LinkWords();
    OwnerText(OwnsDatabase(n, o), DATABASE, n, o);
    OwnerText(OwnsSchema(n, o), SCHEMA, n, o);
    assert "ALTER" + (" " + ("DATABASE" + " ")) == "ALTER DATABASE ";
    assert "ALTER" + (" " + ("SCHEMA" + " ")) == "ALTER SCHEMA ";
    assert " " + ("OWNER" + (" " + ("TO" + " "))) == " OWNER TO ";
  }

  lemma OwnerTokens(n: string, o: string)
    ensures Tokens(OwnsDatabase(n, o)) == [Key(ALTER), Key(DATABASE), Name(n), Key(OWNER), Key(TO), Name(o)]
    ensures Tokens(OwnsSchema(n, o)) == [Key(ALTER), Key(SCHEMA), Name(n), Key(OWNER), Key(TO), Name(o)]
  {
  }

  lemma ReassignText(n: string, o: string)
    ensures Print(ReassignsOwned(n, o)) == "REASSIGN OWNED BY " + Quote(n) + " TO " + Quote(o)
  {
    hide *;
    ReassignLexemes(n, o);
    PrintsJoined(ReassignsOwned(n, o));
    var last := [Ident(n), Word("TO"), Ident(o)];
    JoinedCons("REASSIGN", [Word("OWNED")] + ([Word("BY")] + last));
    JoinedCons("OWNED", [Word("BY")] + last);
    JoinedCons("BY", last);
    JoinedTwo(n, "TO", o);
    assert "REASSIGN" + (" " + ("OWNED" + (" " + ("BY" + " ")))) == "REASSIGN OWNED BY ";
    assert " " + "TO" + " " == " TO ";
  }

  lemma ReassignLexemes(n: string, o: string)
    ensures Lexemes(Tokens(ReassignsOwned(n, o)))
         == [Word("REASSIGN")] + ([Word("OWNED")] + ([Word("BY")] + [Ident(n), Word("TO"), Ident(o)]))
  {
    hide Spelling;
    LinkWords();
  }

  lemma MemberTexts(n: string, m: string)
    ensures Print(GrantsRole(n, m)) == "GRANT " + Quote(n) + " TO " + Quote(m)
    ensures Print(RevokesRole(n, m)) == "REVOKE " + Quote(n) + " FROM " + Quote(m)
  {
    hide *;
    MemberLexemes(n, m);
    PrintsJoined(GrantsRole(n, m));
    PrintsJoined(RevokesRole(n, m));
    JoinedCons("GRANT", [Ident(n), Word("TO"), Ident(m)]);
    JoinedCons("REVOKE", [Ident(n), Word("FROM"), Ident(m)]);
    JoinedTwo(n, "TO", m);
    JoinedTwo(n, "FROM", m);
    assert "GRANT" + " " == "GRANT " && "REVOKE" + " " == "REVOKE ";
    assert " " + "TO" + " " == " TO " && " " + "FROM" + " " == " FROM ";
  }

  lemma MemberLexemes(n: string, m: string)
    ensures Lexemes(Tokens(GrantsRole(n, m))) == [Word("GRANT")] + [Ident(n), Word("TO"), Ident(m)]
    ensures Lexemes(Tokens(RevokesRole(n, m))) == [Word("REVOKE")] + [Ident(n), Word("FROM"), Ident(m)]
  {
    hide Spelling;
    LinkWords();
  }

  // ----- privileges -----

  lemma PrivilegeText(st: Stmt, v: string, p: string, k: string, n: string, link: string, r: string)
    requires !st.AltersRole?
    requires Lexemes(Tokens(st)) ==
               [Word(v)] + ([Word(p)] + ([Word("ON")] + ([Word(k)] + [Ident(n), Word(link), Ident(r)])))
    ensures Print(st) == v + (" " + (p + (" " + ("ON" + (" " + (k + " ")))))) + Quote(n) + (" " + link + " ") + Quote(r)
  {
    hide *;
    PrintsJoined(st);
    var last := [Ident(n), Word(link), Ident(r)];
    JoinedCons(v, [Word(p)] + ([Word("ON")] + ([Word(k)] + last)));
    JoinedCons(p, [Word("ON")] + ([Word(k)] + last));
    JoinedCons("ON", [Word(k)] + last);
    JoinedCons(k, last);
    JoinedTwo(n, link, r);
  }

  function PrivilegeSpelling(p: Privilege): string { Spelling(PrivilegeKeyword(p)) }

  lemma PrivilegeWords()
    ensures PrivilegeSpelling(Create) == "CREATE" && PrivilegeSpelling(Connect) == "CONNECT"
    ensures PrivilegeSpelling(Temporary) == "TEMPORARY" && PrivilegeSpelling(Usage) == "USAGE"
  {
  }

  lemma GrantLexemes(p: Privilege, n: string, r: string)
    ensures Lexemes(Tokens(Grants(p, OnDatabase(n), r))) == [Word("GRANT")] + ([Word(PrivilegeSpelling(p))] +
              ([Word("ON")] + ([Word("DATABASE")] + [Ident(n), Word("TO"), Ident(r)])))
    ensures Lexemes(Tokens(Grants(p, OnSchema(n), r))) == [Word("GRANT")] + ([Word(PrivilegeSpelling(p))] +
              ([Word("ON")] + ([Word("SCHEMA")] + [Ident(n), Word("TO"), Ident(r)])))
  {
    hide Spelling, PrivilegeKeyword;
    LinkWords();
    DefinitionWords();
  }

  lemma RevokeLexemes(p: Privilege, n: string, r: string)
    ensures Lexemes(Tokens(Revokes(p, OnDatabase(n), r))) == [Word("REVOKE")] + ([Word(PrivilegeSpelling(p))] +
              ([Word("ON")] + ([Word("DATABASE")] + [Ident(n), Word("FROM"), Ident(r)])))
    ensures Lexemes(Tokens(Revokes(p, OnSchema(n), r))) == [Word("REVOKE")] + ([Word(PrivilegeSpelling(p))] +
              ([Word("ON")] + ([Word("SCHEMA")] + [Ident(n), Word("FROM"), Ident(r)])))
  {
    hide Spelling, PrivilegeKeyword;
    LinkWords();
    DefinitionWords();
  }

  lemma GrantText(p: Privilege, n: string, r: string)
    ensures Print(Grants(p, OnDatabase(n), r))
         == "GRANT " + (PrivilegeSpelling(p) + " ON DATABASE ") + Quote(n) + " TO " + Quote(r)
    ensures Print(Grants(p, OnSchema(n), r))
         == "GRANT " + (PrivilegeSpelling(p) + " ON SCHEMA ") + Quote(n) + " TO " + Quote(r)
  {
    hide *;
    GrantLexemes(p, n, r);
    var w := PrivilegeSpelling(p);
    PrivilegeText(Grants(p, OnDatabase(n), r), "GRANT", w, "DATABASE", n, "TO", r);
    PrivilegeText(Grants(p, OnSchema(n), r), "GRANT", w, "SCHEMA", n, "TO", r);
    assert "GRANT" + (" " + w) == "GRANT " + w && " " + "TO" + " " == " TO ";
    assert " " + ("ON" + (" " + ("DATABASE" + " "))) == " ON DATABASE ";
    assert " " + ("ON" + (" " + ("SCHEMA" + " "))) == " ON SCHEMA ";
  }

  lemma RevokeText(p: Privilege, n: string, r: string)
    ensures Print(Revokes(p, OnDatabase(n), r))
         == "REVOKE " + (PrivilegeSpelling(p) + " ON DATABASE ") + Quote(n) + " FROM " + Quote(r)
    ensures Print(Revokes(p, OnSchema(n), r))
         == "REVOKE " + (PrivilegeSpelling(p) + " ON SCHEMA ") + Quote(n) + " FROM " + Quote(r)
  {
    hide *;
    RevokeLexemes(p, n, r);
    var w := PrivilegeSpelling(p);
    PrivilegeText(Revokes(p, OnDatabase(n), r), "REVOKE", w, "DATABASE", n, "FROM", r);
    PrivilegeText(Revokes(p, OnSchema(n), r), "REVOKE", w, "SCHEMA", n, "FROM", r);
    assert "REVOKE" + (" " + w) == "REVOKE " + w && " " + "FROM" + " " == " FROM ";
    assert " " + ("ON" + (" " + ("DATABASE" + " "))) == " ON DATABASE ";
    assert " " + ("ON" + (" " + ("SCHEMA" + " "))) == " ON SCHEMA ";
  }

  lemma GrantTexts(d: string, r: string)
    ensures Print(Grants(Create, OnDatabase(d), r)) == "GRANT CREATE ON DATABASE " + Quote(d) + " TO " + Quote(r)
    ensures Print(Grants(Connect, OnDatabase(d), r)) == "GRANT CONNECT ON DATABASE " + Quote(d) + " TO " + Quote(r)
    ensures Print(Grants(Temporary, OnDatabase(d), r))
         == "GRANT TEMPORARY ON DATABASE " + Quote(d) + " TO " + Quote(r)
  {
    hide *;
    PrivilegeWords();
    GrantText(Create, d, r);
    GrantText(Connect, d, r);
    GrantText(Temporary, d, r);
    assert "GRANT " + ("CREATE" + " ON DATABASE ") == "GRANT CREATE ON DATABASE ";
    assert "GRANT " + ("CONNECT" + " ON DATABASE ") == "GRANT CONNECT ON DATABASE ";
    assert "GRANT " + ("TEMPORARY" + " ON DATABASE ") == "GRANT TEMPORARY ON DATABASE ";
  }

  lemma RevokeTexts(d: string, r: string)
    ensures Print(Revokes(Create, OnDatabase(d), r)) == "REVOKE CREATE ON DATABASE " + Quote(d) + " FROM " + Quote(r)
    ensures Print(Revokes(Connect, OnDatabase(d), r))
         == "REVOKE CONNECT ON DATABASE " + Quote(d) + " FROM " + Quote(r)
    ensures Print(Revokes(Temporary, OnDatabase(d), r))
         == "REVOKE TEMPORARY ON DATABASE " + Quote(d) + " FROM " + Quote(r)
  {
    hide *;
    PrivilegeWords();
    RevokeText(Create, d, r);
    RevokeText(Connect, d, r);
    RevokeText(Temporary, d, r);
    assert "REVOKE " + ("CREATE" + " ON DATABASE ") == "REVOKE CREATE ON DATABASE ";
    assert "REVOKE " + ("CONNECT" + " ON DATABASE ") == "REVOKE CONNECT ON DATABASE ";
    assert "REVOKE " + ("TEMPORARY" + " ON DATABASE ") == "REVOKE TEMPORARY ON DATABASE ";
  }

  lemma SchemaTexts(s: string, r: string)
    ensures Print(Grants(Create, OnSchema(s), r)) == "GRANT CREATE ON SCHEMA " + Quote(s) + " TO " + Quote(r)
    ensures Print(Grants(Usage, OnSchema(s), r)) == "GRANT USAGE ON SCHEMA " + Quote(s) + " TO " + Quote(r)
    ensures Print(Revokes(Create, OnSchema(s), r)) == "REVOKE CREATE ON SCHEMA " + Quote(s) + " FROM " + Quote(r)
    ensures Print(Revokes(Usage, OnSchema(s), r)) == "REVOKE USAGE ON SCHEMA " + Quote(s) + " FROM " + Quote(r)
  {
    hide *;
    PrivilegeWords();
    GrantText(Create, s, r);
    GrantText(Usage, s, r);
    RevokeText(Create, s, r);
    RevokeText(Usage, s, r);
    assert "GRANT " + ("CREATE" + " ON SCHEMA ") == "GRANT CREATE ON SCHEMA ";
    assert "GRANT " + ("USAGE" + " ON SCHEMA ") == "GRANT USAGE ON SCHEMA ";
    assert "REVOKE " + ("CREATE" + " ON SCHEMA ") == "REVOKE CREATE ON SCHEMA ";
    assert "REVOKE " + ("USAGE" + " ON SCHEMA ") == "REVOKE USAGE ON SCHEMA ";
  }

  // ----- every statement -----

  /** The options of CREATE ROLE and ALTER ROLE are spelled out in RoleStatements. */
  predicate IsText(st: Stmt, text: string) {
    match st
    case CreatesRole(_, _) => text == Print(st)
    case AltersRole(_, _) => text == Print(st)
    case DropsRole(n) => text == "DROP ROLE " + Quote(n)
    case ReassignsOwned(n, to) => text == "REASSIGN OWNED BY " + Quote(n) + " TO " + Quote(to)
    case GrantsRole(n, to) => text == "GRANT " + Quote(n) + " TO " + Quote(to)
    case RevokesRole(n, from) => text == "REVOKE " + Quote(n) + " FROM " + Quote(from)
    case CreatesDatabase(n) => text == "CREATE DATABASE " + Quote(n)
    case DropsDatabase(n) => text == "DROP DATABASE " + Quote(n)
    case OwnsDatabase(n, o) => text == "ALTER DATABASE " + Quote(n) + " OWNER TO " + Quote(o)
    case CreatesSchema(n) => text == "CREATE SCHEMA " + Quote(n)
    case DropsSchema(n) => text == "DROP SCHEMA " + Quote(n)
    case OwnsSchema(n, o) => text == "ALTER SCHEMA " + Quote(n) + " OWNER TO " + Quote(o)
    case CreatesExtension(n) => text == "CREATE EXTENSION " + Quote(n)
    case DropsExtension(n) => text == "DROP EXTENSION " + Quote(n)
    case Grants(p, t, to) => text == "GRANT " + (PrivilegeWord(p) + OnTarget(t)) + Quote(t.name) + " TO " + Quote(to)
    case Revokes(p, t, from) =>
      text == "REVOKE " + (PrivilegeWord(p) + OnTarget(t)) + Quote(t.name) + " FROM " + Quote(from)
  }

  function PrivilegeWord(p: Privilege): string {
    match p
    case Create => "CREATE"
    case Connect => "CONNECT"
    case Temporary => "TEMPORARY"
    case Usage => "USAGE"
  }

  function OnTarget(t: Target): string {
    match t
    case OnDatabase(_) => " ON DATABASE "
    case OnSchema(_) => " ON SCHEMA "
  }

  lemma PrintsText(st: Stmt)
    ensures IsText(st, Print(st))
  {
    hide Print, Quote, PrivilegeSpelling;
    if st.Grants? || st.Revokes? {
      PrivilegeWords();
      GrantText(st.privilege, st.target.name, if st.Grants? then st.to else "");
      RevokeText(st.privilege, st.target.name, if st.Revokes? then st.from else "");
    } else if st.ReassignsOwned? {
      ReassignText(st.name, st.to);
    } else if st.GrantsRole? {
      MemberTexts(st.name, st.to);
    } else if st.RevokesRole? {
      MemberTexts(st.name, st.from);
    } else if st.OwnsDatabase? || st.OwnsSchema? {
      OwnerTexts(st.name, st.owner);
    } else if !st.CreatesRole? && !st.AltersRole? {
      CreateTexts(st.name);
      DropTexts(st.name);
    }
  }
}
