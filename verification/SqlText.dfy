/**
 SQL text at the level of tokens: how a name and a string literal are quoted, and how the server's
 scanner splits a statement back into tokens.

 Quoting follows ISO/IEC 9075-2 subclause 5.2 (delimited identifiers) and subclause 5.3 (character
 string literals): the delimiter is doubled inside. A backslash is an ordinary character, as it is in
 PostgreSQL with standard_conforming_strings on.
 */
module SqlText {
  import opened Wrappers

  /** What the scanner sees: a bare word, a delimited identifier or a string literal. */
  datatype Lexeme = Word(word: string) | Ident(name: string) | Str(text: string)

  // ----- printing -----

  /** Every occurrence of the delimiter is doubled. */
  function Doubled(s: string, q: char): string {
    if s == "" then "" else (if s[0] == q then [q, q] else [s[0]]) + Doubled(s[1..], q)
  }

  /** As a replacement of every delimiter, and of nothing else, by two. */
  lemma {:induction false} DoublesEach(s: string, i: nat, q: char)
    requires i < |s|
    ensures Doubled(s, q) == Doubled(s[..i], q) + (if s[i] == q then [q, q] else [s[i]]) + Doubled(s[i + 1..], q)
  {
    if i > 0 {
      DoublesEach(s[1..], i - 1, q);
      assert s[1..][..i - 1] == s[..i][1..] && s[1..][i..] == s[i + 1..];
    }
  }

  function Quote(name: string): string { "\"" + Doubled(name, '"') + "\"" }

  function Literal(text: string): string { "'" + Doubled(text, '\'') + "'" }

  function LexemeText(t: Lexeme): string {
    match t
    case Word(w) => w
    case Ident(n) => Quote(n)
    case Str(p) => Literal(p)
  }

  /** The lexemes, each followed by one space. */
  function Spaced(ts: seq<Lexeme>): string {
    if ts == [] then "" else LexemeText(ts[0]) + " " + Spaced(ts[1..])
  }

  lemma {:induction false} SpacedConcat(p: seq<Lexeme>, q: seq<Lexeme>)
    ensures Spaced(p + q) == Spaced(p) + Spaced(q)
  {
    if p == [] {
      assert p + q == q;
    } else {
      assert (p + q)[1..] == p[1..] + q;
      SpacedConcat(p[1..], q);
    }
  }

  lemma SpacedOne(l: Lexeme)
    ensures Spaced([l]) == LexemeText(l) + " "
  {
  }

  // ----- scanning -----

  predicate IsLetter(c: char) { 'A' <= c <= 'Z' }

  predicate IsWord(w: string) { w != "" && forall i :: 0 <= i < |w| ==> IsLetter(w[i]) }

  /** The body of a delimited identifier or literal up to its closing delimiter, and what follows it. */
  function Unquote(s: string, q: char): (r: Option<(string, string)>)
    ensures r.Some? ==> |r.value.1| < |s|
  {
    if s == "" then None
    else if s[0] == q then
      if |s| > 1 && s[1] == q then
        match Unquote(s[2..], q)
        case None => None
        case Some((body, rest)) => Some(([q] + body, rest))
      else Some(("", s[1..]))
    else
      match Unquote(s[1..], q)
      case None => None
      case Some((body, rest)) => Some(([s[0]] + body, rest))
  }

  /** Length of the longest run of letters at the front. */
  function WordLength(s: string): (n: nat)
    ensures n <= |s|
  {
    if s == "" || !IsLetter(s[0]) then 0 else 1 + WordLength(s[1..])
  }

  function Prepend(t: Lexeme, ts: Option<seq<Lexeme>>): Option<seq<Lexeme>> {
    match ts
    case None => None
    case Some(rest) => Some([t] + rest)
  }

  /**
   The scanner. It refuses an unterminated quotation, a zero-length delimited identifier, and a bare
   word that touches a quotation (which would be a prefixed literal).
   */
  function Scan(s: string): Option<seq<Lexeme>>
    decreases |s|
  {
    if s == "" then Some([])
    else if s[0] == ' ' then Scan(s[1..])
    else if s[0] == '"' then
      match Unquote(s[1..], '"')
      case None => None
      case Some((name, rest)) => if name == "" then None else Prepend(Ident(name), Scan(rest))
    else if s[0] == '\'' then
      match Unquote(s[1..], '\'')
      case None => None
      case Some((text, rest)) => Prepend(Str(text), Scan(rest))
    else
      var n := WordLength(s);
      if n == 0 || (n < |s| && (s[n] == '"' || s[n] == '\'')) then None
      else Prepend(Word(s[..n]), Scan(s[n..]))
  }

  // ----- scanning undoes printing -----

  lemma {:induction false} UnquoteUndoesDoubling(s: string, q: char, rest: string)
    requires rest == "" || rest[0] != q
    ensures Unquote(Doubled(s, q) + [q] + rest, q) == Some((s, rest))
  {
    var text := Doubled(s, q) + [q] + rest;
    if s == "" {
      assert text == [q] + rest;
      assert text[1..] == rest;
    } else {
      UnquoteUndoesDoubling(s[1..], q, rest);
      var tail := Doubled(s[1..], q) + [q] + rest;
      if s[0] == q {
        assert text == [q, q] + tail;
        assert text[2..] == tail;
      } else {
        assert text == [s[0]] + tail;
        assert text[1..] == tail;
      }
      assert s == [s[0]] + s[1..];
    }
  }

  lemma {:induction false} WordEnds(w: string, rest: string)
    requires forall i :: 0 <= i < |w| ==> IsLetter(w[i])
    requires rest == "" || !IsLetter(rest[0])
    ensures WordLength(w + rest) == |w|
  {
    if w == "" {
      assert w + rest == rest;
    } else {
      assert (w + rest)[1..] == w[1..] + rest;
      WordEnds(w[1..], rest);
    }
  }

  lemma ScanIdent(n: string, rest: string)
    ensures rest == "" || rest[0] != '"' ==>
              Scan(Quote(n) + rest) == if n == "" then None else Prepend(Ident(n), Scan(rest))
  {
    hide Doubled, Unquote, WordLength;
    if rest == "" || rest[0] != '"' {
      UnquoteUndoesDoubling(n, '"', rest);
      var s := Quote(n) + rest;
      var body := Doubled(n, '"') + ['"'] + rest;
      assert s == ['"'] + body;
      assert s[0] == '"' && s[1..] == body;
    }
  }

  lemma ScanStr(p: string, rest: string)
    ensures rest == "" || rest[0] != '\'' ==> Scan(Literal(p) + rest) == Prepend(Str(p), Scan(rest))
  {
    hide Doubled, Unquote, WordLength;
    if rest == "" || rest[0] != '\'' {
      UnquoteUndoesDoubling(p, '\'', rest);
      var s := Literal(p) + rest;
      var body := Doubled(p, '\'') + ['\''] + rest;
      assert s == ['\''] + body;
      assert s[0] == '\'' && s[1..] == body;
    }
  }

  lemma ScanWord(w: string, rest: string)
    requires IsWord(w)
    requires rest == "" || rest[0] == ' '
    ensures Scan(w + rest) == Prepend(Word(w), Scan(rest))
  {
    var s := w + rest;
    WordEnds(w, rest);
    assert s[0] == w[0] && IsLetter(s[0]);
    assert s[..|w|] == w && s[|w|..] == rest;
  }

  /** One printed lexeme in front of text that starts with a space, or of nothing. */
  lemma ScanLexeme(t: Lexeme, rest: string)
    requires t.Word? ==> IsWord(t.word)
    requires rest == "" || rest[0] == ' '
    ensures Scan(LexemeText(t) + rest) == if t == Ident("") then None else Prepend(t, Scan(rest))
  {
    hide Scan, Quote, Literal;
    match t
    case Ident(n) => ScanIdent(n, rest);
    case Str(p) => ScanStr(p, rest);
    case Word(w) => ScanWord(w, rest);
  }

  lemma ScanSpace(rest: string)
    ensures Scan(" " + rest) == Scan(rest)
  {
    assert (" " + rest)[1..] == rest;
  }

  ghost predicate WordsSpelled(ts: seq<Lexeme>) {
    forall t :: t in ts && t.Word? ==> IsWord(t.word)
  }

  /** The scanner gives back exactly the printed lexemes, unless one is a zero-length identifier. */
  lemma {:induction false} ScanUndoesSpaced(ts: seq<Lexeme>, rest: string)
    requires WordsSpelled(ts)
    ensures Scan(Spaced(ts) + rest) ==
            if Ident("") in ts then None
            else match Scan(rest) case None => None case Some(more) => Some(ts + more)
  {
    hide Scan, LexemeText;
    if ts == [] {
      assert Spaced(ts) + rest == rest;
      assert Scan(rest).Some? ==> ts + Scan(rest).value == Scan(rest).value;
    } else {
      var tail := Spaced(ts[1..]) + rest;
      assert Spaced(ts) + rest == LexemeText(ts[0]) + (" " + tail);
      ScanLexeme(ts[0], " " + tail);
      ScanSpace(tail);
      ScanUndoesSpaced(ts[1..], rest);
      assert ts == [ts[0]] + ts[1..];
      if Scan(rest).Some? {
        var more := Scan(rest).value;
        assert ts + more == [ts[0]] + (ts[1..] + more);
      }
    }
  }
}

/** The keywords the operator prints, and their recognition among the scanner's bare words. */
module SqlKeywords {
  import opened Wrappers
  import opened SqlText

  datatype Keyword =
    | ADMIN | ALTER | BY | CONNECT | CREATE | DATABASE | DROP | EXTENSION | FROM | GRANT | ON | OWNED
    | OWNER | PASSWORD | REASSIGN | REVOKE | ROLE | SCHEMA | TEMPORARY | TO | USAGE | WITH
    | SUPERUSER | NOSUPERUSER | INHERIT | NOINHERIT | CREATEROLE | NOCREATEROLE | CREATEDB | NOCREATEDB
    | LOGIN | NOLOGIN | REPLICATION | NOREPLICATION | BYPASSRLS | NOBYPASSRLS

  const KEYWORDS: seq<Keyword> :=
    [ADMIN, ALTER, BY, CONNECT, CREATE, DATABASE, DROP, EXTENSION, FROM, GRANT, ON, OWNED,
     OWNER, PASSWORD, REASSIGN, REVOKE, ROLE, SCHEMA, TEMPORARY, TO, USAGE, WITH,
     SUPERUSER, NOSUPERUSER, INHERIT, NOINHERIT, CREATEROLE, NOCREATEROLE, CREATEDB, NOCREATEDB,
     LOGIN, NOLOGIN, REPLICATION, NOREPLICATION, BYPASSRLS, NOBYPASSRLS]

  function Spelling(k: Keyword): string {
    match k
    case ADMIN => "ADMIN" case ALTER => "ALTER" case BY => "BY" case CONNECT => "CONNECT"
    case CREATE => "CREATE" case DATABASE => "DATABASE" case DROP => "DROP"
    case EXTENSION => "EXTENSION" case FROM => "FROM" case GRANT => "GRANT" case ON => "ON"
    case OWNED => "OWNED" case OWNER => "OWNER" case PASSWORD => "PASSWORD"
    case REASSIGN => "REASSIGN" case REVOKE => "REVOKE" case ROLE => "ROLE" case SCHEMA => "SCHEMA"
    case TEMPORARY => "TEMPORARY" case TO => "TO" case USAGE => "USAGE" case WITH => "WITH"
    case SUPERUSER => "SUPERUSER" case NOSUPERUSER => "NOSUPERUSER"
    case INHERIT => "INHERIT" case NOINHERIT => "NOINHERIT"
    case CREATEROLE => "CREATEROLE" case NOCREATEROLE => "NOCREATEROLE"
    case CREATEDB => "CREATEDB" case NOCREATEDB => "NOCREATEDB"
    case LOGIN => "LOGIN" case NOLOGIN => "NOLOGIN"
    case REPLICATION => "REPLICATION" case NOREPLICATION => "NOREPLICATION"
    case BYPASSRLS => "BYPASSRLS" case NOBYPASSRLS => "NOBYPASSRLS"
  }

  function Find(w: string, ks: seq<Keyword>): Option<Keyword> {
    if ks == [] then None else if Spelling(ks[0]) == w then Some(ks[0]) else Find(w, ks[1..])
  }

  /** Length and a few letters tell the keywords apart. */
  function ByShape(w: string): Keyword {
    if |w| < 4 then (if |w| < 2 || w[0] == 'B' then BY else if w[0] == 'O' then ON else TO)
    else
      match |w|
      case 4 => if w[0] == 'D' then DROP else if w[0] == 'F' then FROM else if w[0] == 'R' then ROLE else WITH
      case 5 =>
        if w[0] == 'A' then (if w[1] == 'D' then ADMIN else ALTER)
        else if w[0] == 'O' then (if w[4] == 'D' then OWNED else OWNER)
        else if w[0] == 'G' then GRANT else if w[0] == 'U' then USAGE else LOGIN
      case 6 => if w[0] == 'C' then CREATE else if w[0] == 'R' then REVOKE else SCHEMA
      case 7 => if w[0] == 'C' then CONNECT else if w[0] == 'I' then INHERIT else NOLOGIN
      case 8 =>
        if w[0] == 'D' then DATABASE else if w[0] == 'P' then PASSWORD
        else if w[0] == 'R' then REASSIGN else CREATEDB
      case 9 =>
        if w[0] == 'E' then EXTENSION else if w[0] == 'T' then TEMPORARY else if w[0] == 'S' then SUPERUSER
        else if w[0] == 'N' then NOINHERIT else BYPASSRLS
      case 10 => if w[0] == 'C' then CREATEROLE else NOCREATEDB
      case 11 => if w[0] == 'R' then REPLICATION else if w[2] == 'S' then NOSUPERUSER else NOBYPASSRLS
      case 12 => NOCREATEROLE
      case _ => NOREPLICATION
  }

  predicate IsEarlyOption(k: Keyword) {
    k in {SUPERUSER, NOSUPERUSER, INHERIT, NOINHERIT, CREATEROLE, NOCREATEROLE, CREATEDB}
  }

  predicate IsLateOption(k: Keyword) {
    k in {NOCREATEDB, LOGIN, NOLOGIN, REPLICATION, NOREPLICATION, BYPASSRLS, NOBYPASSRLS}
  }

  lemma EarlyOptionIsWord(k: Keyword)
    requires IsEarlyOption(k)
    ensures IsWord(Spelling(k)) && ByShape(Spelling(k)) == k
  {
  }

  lemma LateOptionIsWord(k: Keyword)
    requires IsLateOption(k)
    ensures IsWord(Spelling(k)) && ByShape(Spelling(k)) == k
  {
  }

  predicate IsVerb(k: Keyword) {
    k in {ADMIN, ALTER, BY, CONNECT, CREATE, DATABASE, DROP, EXTENSION, FROM, GRANT, ON}
  }

  lemma VerbIsWord(k: Keyword)
    requires IsVerb(k)
    ensures IsWord(Spelling(k)) && ByShape(Spelling(k)) == k
  {
  }

  lemma OtherKeywordIsWord(k: Keyword)
    requires !IsEarlyOption(k) && !IsLateOption(k) && !IsVerb(k)
    ensures IsWord(Spelling(k)) && ByShape(Spelling(k)) == k
  {
  }

  lemma SpelledInLetters(k: Keyword)
    ensures IsWord(Spelling(k)) && ByShape(Spelling(k)) == k
  {
    hide Spelling, IsWord, ByShape;
    if IsEarlyOption(k) {
      EarlyOptionIsWord(k);
    } else if IsLateOption(k) {
      LateOptionIsWord(k);
    } else if IsVerb(k) {
      VerbIsWord(k);
    } else {
      OtherKeywordIsWord(k);
    }
  }

  lemma SpellingIsInjective(j: Keyword, k: Keyword)
    requires Spelling(j) == Spelling(k)
    ensures j == k
  {
    hide Spelling, IsWord, ByShape;
    SpelledInLetters(j);
    SpelledInLetters(k);
  }

  lemma {:induction false} FindsSpelling(k: Keyword, ks: seq<Keyword>)
    requires k in ks
    ensures Find(Spelling(k), ks) == Some(k)
  {
    if Spelling(ks[0]) == Spelling(k) {
      SpellingIsInjective(ks[0], k);
    } else {
      FindsSpelling(k, ks[1..]);
    }
  }

  lemma EveryKeywordListed(k: Keyword)
    ensures k in KEYWORDS
  {
    var ks := KEYWORDS;
    assert ks[0..12] == [ADMIN, ALTER, BY, CONNECT, CREATE, DATABASE, DROP, EXTENSION, FROM, GRANT, ON, OWNED];
  }
}
