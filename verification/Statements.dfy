/**
 The statements the operator sends, their text, and an independent reader of that text.

 The reader is a scanner and a grammar for the few statement forms of the PostgreSQL reference that the
 operator uses. `ReadsBack` shows that the text of every statement is read as exactly that statement.
 */
module Statements {
  import opened Wrappers
  import opened SqlText
  import opened SqlKeywords

  datatype Attribute = SuperUser | Inherit | CreateRole | CreateDb | Login | Replication | BypassRls

  datatype RoleOption = Attr(attribute: Attribute, on: bool) | Password(text: string) | Admin(name: string)

  datatype Privilege = Create | Connect | Temporary | Usage

  datatype Target = OnDatabase(name: string) | OnSchema(name: string)

  datatype Stmt =
    | CreatesRole(name: string, options: seq<RoleOption>)
    | AltersRole(name: string, options: seq<RoleOption>)
    | DropsRole(name: string)
    | ReassignsOwned(name: string, to: string)
    | GrantsRole(name: string, to: string)
    | RevokesRole(name: string, from: string)
    | CreatesDatabase(name: string)
    | DropsDatabase(name: string)
    | OwnsDatabase(name: string, owner: string)
    | CreatesSchema(name: string)
    | DropsSchema(name: string)
    | OwnsSchema(name: string, owner: string)
    | CreatesExtension(name: string)
    | DropsExtension(name: string)
    | Grants(privilege: Privilege, target: Target, to: string)
    | Revokes(privilege: Privilege, target: Target, from: string)

  // ----- tokens -----

  datatype Token = Key(k: Keyword) | Name(name: string) | Text(text: string)

  function AttributeKeyword(a: Attribute, on: bool): Keyword {
    match a
    case SuperUser => if on then SUPERUSER else NOSUPERUSER
    case Inherit => if on then INHERIT else NOINHERIT
    case CreateRole => if on then CREATEROLE else NOCREATEROLE
    case CreateDb => if on then CREATEDB else NOCREATEDB
    case Login => if on then LOGIN else NOLOGIN
    case Replication => if on then REPLICATION else NOREPLICATION
    case BypassRls => if on then BYPASSRLS else NOBYPASSRLS
  }

  function OptionTokens(o: RoleOption): seq<Token> {
    match o
    case Attr(a, on) => [Key(AttributeKeyword(a, on))]
    case Password(p) => [Key(PASSWORD), Text(p)]
    case Admin(n) => [Key(ADMIN), Name(n)]
  }

  function OptionsTokens(os: seq<RoleOption>): seq<Token> {
    if os == [] then [] else OptionTokens(os[0]) + OptionsTokens(os[1..])
  }

  function PrivilegeKeyword(p: Privilege): Keyword {
    match p
    case Create => CREATE
    case Connect => CONNECT
    case Temporary => TEMPORARY
    case Usage => USAGE
  }

  function TargetTokens(t: Target): seq<Token> {
    match t
    case OnDatabase(n) => [Key(ON), Key(DATABASE), Name(n)]
    case OnSchema(n) => [Key(ON), Key(SCHEMA), Name(n)]
  }

  function Tokens(st: Stmt): (ts: seq<Token>)
    ensures |ts| >= 3
  {
    match st
    case CreatesRole(n, os) => [Key(CREATE), Key(ROLE), Name(n), Key(WITH)] + OptionsTokens(os)
    case AltersRole(n, os) => [Key(ALTER), Key(ROLE), Name(n), Key(WITH)] + OptionsTokens(os)
    case DropsRole(n) => [Key(DROP), Key(ROLE), Name(n)]
    case ReassignsOwned(n, to) => [Key(REASSIGN), Key(OWNED), Key(BY), Name(n), Key(TO), Name(to)]
    case GrantsRole(n, to) => [Key(GRANT), Name(n), Key(TO), Name(to)]
    case RevokesRole(n, from) => [Key(REVOKE), Name(n), Key(FROM), Name(from)]
    case CreatesDatabase(n) => [Key(CREATE), Key(DATABASE), Name(n)]
    case DropsDatabase(n) => [Key(DROP), Key(DATABASE), Name(n)]
    case OwnsDatabase(n, o) => [Key(ALTER), Key(DATABASE), Name(n), Key(OWNER), Key(TO), Name(o)]
    case CreatesSchema(n) => [Key(CREATE), Key(SCHEMA), Name(n)]
    case DropsSchema(n) => [Key(DROP), Key(SCHEMA), Name(n)]
    case OwnsSchema(n, o) => [Key(ALTER), Key(SCHEMA), Name(n), Key(OWNER), Key(TO), Name(o)]
    case CreatesExtension(n) => [Key(CREATE), Key(EXTENSION), Name(n)]
    case DropsExtension(n) => [Key(DROP), Key(EXTENSION), Name(n)]
    case Grants(p, t, to) => [Key(GRANT), Key(PrivilegeKeyword(p))] + TargetTokens(t) + [Key(TO), Name(to)]
    case Revokes(p, t, from) => [Key(REVOKE), Key(PrivilegeKeyword(p))] + TargetTokens(t) + [Key(FROM), Name(from)]
  }

  function TokenLexeme(t: Token): Lexeme {
    match t
    case Key(k) => Word(Spelling(k))
    case Name(n) => Ident(n)
    case Text(p) => Str(p)
  }

  function Lexemes(ts: seq<Token>): (ls: seq<Lexeme>)
    ensures |ls| == |ts| && forall i :: 0 <= i < |ts| ==> ls[i] == TokenLexeme(ts[i])
  {
    seq(|ts|, i requires 0 <= i < |ts| => TokenLexeme(ts[i]))
  }

  /** Statement text: lexemes separated by one space; ALTER ROLE alone also ends with one. */
  function Print(st: Stmt): string {
    var ls := Lexemes(Tokens(st));
    if st.AltersRole? then Spaced(ls) else Spaced(ls[..|ls| - 1]) + LexemeText(ls[|ls| - 1])
  }

  // ----- the reader -----

  function RecognizeOne(l: Lexeme): Option<Token> {
    match l
    case Ident(n) => Some(Name(n))
    case Str(p) => Some(Text(p))
    case Word(w) =>
      match Find(w, KEYWORDS)
      case None => None
      case Some(k) => Some(Key(k))
  }

  function Recognize(ls: seq<Lexeme>): Option<seq<Token>> {
    if ls == [] then Some([])
    else
      match RecognizeOne(ls[0])
      case None => None
      case Some(t) =>
        match Recognize(ls[1..])
        case None => None
        case Some(ts) => Some([t] + ts)
  }

  function KeywordAttribute(k: Keyword): Option<RoleOption> {
    match k
    case SUPERUSER => Some(Attr(SuperUser, true)) case NOSUPERUSER => Some(Attr(SuperUser, false))
    case INHERIT => Some(Attr(Inherit, true)) case NOINHERIT => Some(Attr(Inherit, false))
    case CREATEROLE => Some(Attr(CreateRole, true)) case NOCREATEROLE => Some(Attr(CreateRole, false))
    case CREATEDB => Some(Attr(CreateDb, true)) case NOCREATEDB => Some(Attr(CreateDb, false))
    case LOGIN => Some(Attr(Login, true)) case NOLOGIN => Some(Attr(Login, false))
    case REPLICATION => Some(Attr(Replication, true)) case NOREPLICATION => Some(Attr(Replication, false))
    case BYPASSRLS => Some(Attr(BypassRls, true)) case NOBYPASSRLS => Some(Attr(BypassRls, false))
    case _ => None
  }

  /** One role option at the front, and the number of tokens it takes. */
  function ParseOption(ts: seq<Token>): (r: Option<(RoleOption, nat)>)
    ensures r.Some? ==> 0 < r.value.1 <= |ts|
  {
    if ts == [] || !ts[0].Key? then None
    else if ts[0].k == PASSWORD then
      if |ts| > 1 && ts[1].Text? then Some((Password(ts[1].text), 2)) else None
    else if ts[0].k == ADMIN then
      if |ts| > 1 && ts[1].Name? then Some((Admin(ts[1].name), 2)) else None
    else
      match KeywordAttribute(ts[0].k)
      case None => None
      case Some(o) => Some((o, 1))
  }

  function ParseOptions(ts: seq<Token>): Option<seq<RoleOption>>
    decreases |ts|
  {
    if ts == [] then Some([])
    else
      match ParseOption(ts)
      case None => None
      case Some((o, n)) =>
        match ParseOptions(ts[n..])
        case None => None
        case Some(os) => Some([o] + os)
  }

  function KeywordPrivilege(k: Keyword): Option<Privilege> {
    match k
    case CREATE => Some(Create)
    case CONNECT => Some(Connect)
    case TEMPORARY => Some(Temporary)
    case USAGE => Some(Usage)
    case _ => None
  }

  predicate Named(ts: seq<Token>, at: nat) { at < |ts| && ts[at].Name? }

  /** CREATE, ALTER or DROP of one named thing. */
  function ParseDefinition(ts: seq<Token>): Option<Stmt>
    requires |ts| >= 3
  {
    if !Named(ts, 2) then None
    else if ts[..2] == [Key(CREATE), Key(ROLE)] || ts[..2] == [Key(ALTER), Key(ROLE)] then
      if |ts| < 4 || ts[3] != Key(WITH) then None
      else
        match ParseOptions(ts[4..])
        case None => None
        case Some(os) => Some(if ts[0] == Key(CREATE) then CreatesRole(ts[2].name, os) else AltersRole(ts[2].name, os))
    else if |ts| == 3 then
      if ts[0] == Key(CREATE) then
        match ts[1]
        case Key(DATABASE) => Some(CreatesDatabase(ts[2].name))
        case Key(SCHEMA) => Some(CreatesSchema(ts[2].name))
        case Key(EXTENSION) => Some(CreatesExtension(ts[2].name))
        case _ => None
      else if ts[0] == Key(DROP) then
        match ts[1]
        case Key(ROLE) => Some(DropsRole(ts[2].name))
        case Key(DATABASE) => Some(DropsDatabase(ts[2].name))
        case Key(SCHEMA) => Some(DropsSchema(ts[2].name))
        case Key(EXTENSION) => Some(DropsExtension(ts[2].name))
        case _ => None
      else None
    else if |ts| == 6 && ts[0] == Key(ALTER) && ts[3] == Key(OWNER) && ts[4] == Key(TO) && Named(ts, 5) then
      match ts[1]
      case Key(DATABASE) => Some(OwnsDatabase(ts[2].name, ts[5].name))
      case Key(SCHEMA) => Some(OwnsSchema(ts[2].name, ts[5].name))
      case _ => None
    else None
  }

  /** GRANT or REVOKE of a role or of a privilege. */
  function ParseGrant(ts: seq<Token>): Option<Stmt>
    requires |ts| >= 3
  {
    var grant := ts[0] == Key(GRANT);
    var to := if grant then Key(TO) else Key(FROM);
    if |ts| == 4 && Named(ts, 1) && ts[2] == to && Named(ts, 3) then
      Some(if grant then GrantsRole(ts[1].name, ts[3].name) else RevokesRole(ts[1].name, ts[3].name))
    else if |ts| == 7 && ts[1].Key? && ts[2] == Key(ON) && Named(ts, 4) && ts[5] == to && Named(ts, 6) then
      match (KeywordPrivilege(ts[1].k), ts[3])
      case (Some(p), Key(DATABASE)) =>
        var t := OnDatabase(ts[4].name);
        Some(if grant then Grants(p, t, ts[6].name) else Revokes(p, t, ts[6].name))
      case (Some(p), Key(SCHEMA)) =>
        var t := OnSchema(ts[4].name);
        Some(if grant then Grants(p, t, ts[6].name) else Revokes(p, t, ts[6].name))
      case _ => None
    else None
  }

  function Parse(ts: seq<Token>): Option<Stmt> {
    if |ts| < 3 then None
    else if ts[0] == Key(GRANT) || ts[0] == Key(REVOKE) then ParseGrant(ts)
    else if ts[..3] == [Key(REASSIGN), Key(OWNED), Key(BY)] then
      if |ts| == 6 && Named(ts, 3) && ts[4] == Key(TO) && Named(ts, 5) then
        Some(ReassignsOwned(ts[3].name, ts[5].name))
      else None
    else ParseDefinition(ts)
  }

  /** What the server makes of a text: the whole text is one statement, or it is refused. */
  function Read(text: string): Option<Stmt> {
    match Scan(text)
    case None => None
    case Some(ls) =>
      match Recognize(ls)
      case None => None
      case Some(ts) => Parse(ts)
  }

  // ----- reading undoes printing -----

  /** A zero-length name cannot be written in SQL. */
  predicate Sayable(st: Stmt) { Name("") !in Tokens(st) }

  lemma RecognizesOne(t: Token)
    ensures RecognizeOne(TokenLexeme(t)) == Some(t)
  {
    hide Spelling, Find, KEYWORDS;
    if t.Key? {
      EveryKeywordListed(t.k);
      FindsSpelling(t.k, KEYWORDS);
    }
  }

  lemma {:induction false} RecognizesAll(ts: seq<Token>)
    ensures Recognize(Lexemes(ts)) == Some(ts)
  {
    hide RecognizeOne, TokenLexeme;
    if ts != [] {
      RecognizesOne(ts[0]);
      RecognizesAll(ts[1..]);
      assert Lexemes(ts)[1..] == Lexemes(ts[1..]);
      assert ts == [ts[0]] + ts[1..];
    }
  }

  lemma ParsesOption(o: RoleOption, more: seq<Token>)
    ensures ParseOption(OptionTokens(o) + more) == Some((o, |OptionTokens(o)|))
  {
  }

  lemma {:induction false} ParsesOptions(os: seq<RoleOption>)
    ensures ParseOptions(OptionsTokens(os)) == Some(os)
  {
    hide OptionTokens, ParseOption;
    if os != [] {
      var ts := OptionsTokens(os);
      ParsesOption(os[0], OptionsTokens(os[1..]));
      assert ts[|OptionTokens(os[0])|..] == OptionsTokens(os[1..]);
      ParsesOptions(os[1..]);
      assert os == [os[0]] + os[1..];
    }
  }

  lemma ParsesRoleDefinition(st: Stmt)
    requires st.CreatesRole? || st.AltersRole?
    ensures Parse(Tokens(st)) == Some(st)
  {
    hide ParseOptions, OptionsTokens;
    var ts := Tokens(st);
    ParsesOptions(st.options);
    assert ts[4..] == OptionsTokens(st.options);
    assert ts[..2] == [ts[0], ts[1]];
  }

  lemma ParsesGrant(st: Stmt)
    requires st.GrantsRole? || st.RevokesRole? || st.Grants? || st.Revokes?
    ensures Parse(Tokens(st)) == Some(st)
  {
    if st.Grants? || st.Revokes? {
      assert KeywordPrivilege(PrivilegeKeyword(st.privilege)) == Some(st.privilege);
      assert |TargetTokens(st.target)| == 3;
    }
  }

  lemma ParsesDefinition(st: Stmt)
    requires !st.CreatesRole? && !st.AltersRole? && !st.ReassignsOwned?
    requires !st.GrantsRole? && !st.RevokesRole? && !st.Grants? && !st.Revokes?
    ensures Parse(Tokens(st)) == Some(st)
  {
    var ts := Tokens(st);
    assert ts[..3] == [ts[0], ts[1], ts[2]];
    assert ts[..2] == [ts[0], ts[1]];
  }

  lemma ParsesTokens(st: Stmt)
    ensures Parse(Tokens(st)) == Some(st)
  {
    hide *;
    if st.CreatesRole? || st.AltersRole? {
      ParsesRoleDefinition(st);
    } else if st.GrantsRole? || st.RevokesRole? || st.Grants? || st.Revokes? {
      ParsesGrant(st);
    } else if st.ReassignsOwned? {
      ParsesReassign(st);
    } else {
      ParsesDefinition(st);
    }
  }

  lemma ParsesReassign(st: Stmt)
    requires st.ReassignsOwned?
    ensures Parse(Tokens(st)) == Some(st)
  {
    var ts := Tokens(st);
    assert ts[..3] == [ts[0], ts[1], ts[2]];
  }

  lemma LexemesAreWords(ts: seq<Token>)
    ensures WordsSpelled(Lexemes(ts))
    ensures Ident("") in Lexemes(ts) <==> Name("") in ts
  {
    hide Spelling;
    forall l | l in Lexemes(ts) && l.Word? ensures IsWord(l.word) {
      var i :| 0 <= i < |ts| && l == TokenLexeme(ts[i]);
      SpelledInLetters(ts[i].k);
    }
    if Name("") in ts {
      var i :| 0 <= i < |ts| && ts[i] == Name("");
      assert Lexemes(ts)[i] == Ident("");
    }
  }

  /** The scanner sees exactly the lexemes of the printed statement. */
  lemma ScansPrinted(st: Stmt)
    ensures Scan(Print(st)) == if Sayable(st) then Some(Lexemes(Tokens(st))) else None
  {
    hide Scan, Spaced, LexemeText, Tokens, TokenLexeme;
    var ts := Tokens(st);
    var ls := Lexemes(ts);
    LexemesAreWords(ts);
    if st.AltersRole? {
      ScanUndoesSpaced(ls, "");
      ScanEmpty();
      assert Spaced(ls) + "" == Spaced(ls);
      assert ls + [] == ls;
    } else {
      var n := |ls| - 1;
      ScanUndoesSpaced(ls[..n], LexemeText(ls[n]));
      ScanLexeme(ls[n], "");
      ScanEmpty();
      assert LexemeText(ls[n]) + "" == LexemeText(ls[n]);
      assert ls[..n] + [ls[n]] == ls;
      assert [ls[n]] + [] == [ls[n]];
      assert Ident("") in ls <==> Ident("") in ls[..n] || ls[n] == Ident("");
    }
  }

  lemma ScanEmpty()
    ensures Scan("") == Some([])
  {
  }

  /**
   Statement round trip: the printed text is read as exactly the statement that was printed, whatever
   quotes, spaces or keywords its names and password hold; it is refused only for a zero-length name.
   */
  lemma ReadsBack(st: Stmt)
    ensures Read(Print(st)) == if Sayable(st) then Some(st) else None
  {
    hide Scan, Print, Tokens, Parse, Recognize;
    ScansPrinted(st);
    RecognizesAll(Tokens(st));
    ParsesTokens(st);
  }
}
