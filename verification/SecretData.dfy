/**
 Comparison of Secret data by its printed form. Go prints a map with its keys in order, each byte of a
 value in decimal; the operator skips the update when two printed maps are the same.
 */
module SecretData {
  type Data = map<string, string>

  // ----- the order of the keys -----

  predicate Le(a: string, b: string) {
    a == "" || (b != "" && (a[0] < b[0] || (a[0] == b[0] && Le(a[1..], b[1..]))))
  }

  lemma {:induction false} LeTotal(a: string, b: string)
    ensures Le(a, b) || Le(b, a)
    ensures Le(a, b) && Le(b, a) ==> a == b
  {
    if a != "" && b != "" && a[0] == b[0] {
      LeTotal(a[1..], b[1..]);
      assert a == [a[0]] + a[1..] && b == [b[0]] + b[1..];
    }
  }

  lemma {:induction false} LeTransitive(a: string, b: string, c: string)
    requires Le(a, b) && Le(b, c)
    ensures Le(a, c)
  {
    if a != "" && a[0] == b[0] == c[0] {
      LeTransitive(a[1..], b[1..], c[1..]);
    }
  }

  predicate IsSmallest(k: string, keys: set<string>) {
    k in keys && forall x :: x in keys ==> Le(k, x)
  }

  lemma {:induction false} HasSmallest(keys: set<string>) returns (k: string)
    requires keys != {}
    ensures IsSmallest(k, keys)
  {
    k :| k in keys;
    if keys != {k} {
      var rest := keys - {k};
      var m := HasSmallest(rest);
      LeTotal(k, m);
      forall x | x in keys ensures Le(if Le(k, m) then k else m, x) {
        LeTotal(k, k);
        if Le(k, m) && x != k { LeTransitive(k, m, x); }
      }
      if !Le(k, m) { k := m; }
    } else {
      LeTotal(k, k);
    }
  }

  lemma OneSmallest(keys: set<string>)
    requires keys != {}
    ensures exists k :: IsSmallest(k, keys)
    ensures forall j, k :: IsSmallest(j, keys) && IsSmallest(k, keys) ==> j == k
  {
    var k := HasSmallest(keys);
    forall i, j | IsSmallest(i, keys) && IsSmallest(j, keys) ensures i == j {
      LeTotal(i, j);
    }
  }

  function Sorted(keys: set<string>): seq<string> {
    if keys == {} then []
    else
      OneSmallest(keys);
      var k :| k in keys && IsSmallest(k, keys);
      [k] + Sorted(keys - {k})
  }

  lemma {:induction false} SortedLists(keys: set<string>)
    ensures forall k :: k in Sorted(keys) <==> k in keys
  {
    if keys != {} {
      OneSmallest(keys);
      var k :| k in keys && IsSmallest(k, keys);
      SortedLists(keys - {k});
      assert Sorted(keys) == [k] + Sorted(keys - {k});
    }
  }

  // ----- printing -----

  function Digits(n: nat): string {
    if n < 10 then ['0' + n as char] else Digits(n / 10) + ['0' + (n % 10) as char]
  }

  /** The remaining bytes of a value, each after a space, and the closing bracket. */
  function BytesTail(v: string): string {
    if v == "" then "]" else " " + Digits(v[0] as int) + BytesTail(v[1..])
  }

  function ValueText(v: string): string {
    "[" + if v == "" then "]" else Digits(v[0] as int) + BytesTail(v[1..])
  }

  function EntryText(e: (string, string)): string { e.0 + ":" + ValueText(e.1) }

  function EntriesTail(es: seq<(string, string)>): string {
    if es == [] then "]" else " " + EntryText(es[0]) + EntriesTail(es[1..])
  }

  function Entries(m: Data): (es: seq<(string, string)>)
    ensures |es| == |Sorted(m.Keys)|
    ensures forall i :: 0 <= i < |es| ==> es[i].0 == Sorted(m.Keys)[i] && es[i].0 in m && es[i].1 == m[es[i].0]
  {
    SortedLists(m.Keys);
    var ks := Sorted(m.Keys);
    seq(|ks|, i requires 0 <= i < |ks| => (assert ks[i] in ks; (ks[i], m[ks[i]])))
  }


  function MapText(es: seq<(string, string)>): string {
    "map[" + if es == [] then "]" else EntryText(es[0]) + EntriesTail(es[1..])
  }

  /** fmt.Sprint of the map. */
  function Sprint(m: Data): string { MapText(Entries(m)) }

  // ----- the printed form decides equality -----

  predicate KeyChar(c: char) {
    'a' <= c <= 'z' || 'A' <= c <= 'Z' || '0' <= c <= '9' || c in {'-', '_', '.'}
  }

  /** The keys Kubernetes admits in a Secret. */
  ghost predicate SecretKeys(m: Data) {
    forall k :: k in m ==> k != "" && forall i :: 0 <= i < |k| ==> KeyChar(k[i])
  }

  predicate IsDigit(c: char) { '0' <= c <= '9' }

  function Value(s: string): nat
    requires forall i :: 0 <= i < |s| ==> IsDigit(s[i])
  {
    if s == "" then 0
    else
      assert IsDigit(s[|s| - 1]);
      10 * Value(s[..|s| - 1]) + (s[|s| - 1] as int - '0' as int)
  }

  lemma {:induction false} DigitsRead(n: nat)
    ensures |Digits(n)| > 0 && forall i :: 0 <= i < |Digits(n)| ==> IsDigit(Digits(n)[i])
    ensures Value(Digits(n)) == n
  {
    if n < 10 {
      assert Digits(n)[..0] == "";
    } else {
      DigitsRead(n / 10);
      var s := Digits(n);
      assert s[..|s| - 1] == Digits(n / 10);
    }
  }

  /** Two texts cut at the first character that is no digit (or at the first colon) agree piece by piece. */
  lemma CutsAgree(a: string, p: string, b: string, q: string, inside: char -> bool)
    requires a + p == b + q
    requires forall i :: 0 <= i < |a| ==> inside(a[i])
    requires forall i :: 0 <= i < |b| ==> inside(b[i])
    requires p != "" && !inside(p[0]) && q != "" && !inside(q[0])
    ensures a == b && p == q
  {
    var s := a + p;
    assert s[|a|] == p[0] && s[|b|] == q[0];
    assert forall i :: 0 <= i < |a| ==> s[i] == a[i];
    assert forall i :: 0 <= i < |b| ==> s[i] == b[i];
    assert s[..|a|] == a && s[..|b|] == b && s[|a|..] == p && s[|b|..] == q;
  }

  lemma DigitsAgree(m: nat, p: string, n: nat, q: string)
    requires Digits(m) + p == Digits(n) + q
    requires p != "" && !IsDigit(p[0]) && q != "" && !IsDigit(q[0])
    ensures m == n && p == q
  {
    DigitsRead(m);
    DigitsRead(n);
    CutsAgree(Digits(m), p, Digits(n), q, IsDigit);
  }

  lemma TailStart(v: string)
    ensures BytesTail(v) != "" && !IsDigit(BytesTail(v)[0])
  {
  }

  lemma {:induction false} BytesAgree(v: string, p: string, w: string, q: string)
    requires BytesTail(v) + p == BytesTail(w) + q
    ensures v == w && p == q
    decreases |v|
  {
    hide Digits;
    var s, t := BytesTail(v) + p, BytesTail(w) + q;
    if v == "" || w == "" {
      assert s[0] == BytesTail(v)[0] && t[0] == BytesTail(w)[0];
      assert s[1..] == p && t[1..] == q;
    } else {
      var x, y := BytesTail(v[1..]) + p, BytesTail(w[1..]) + q;
      TailStart(v[1..]);
      TailStart(w[1..]);
      assert s == " " + (Digits(v[0] as int) + x) && t == " " + (Digits(w[0] as int) + y);
      assert s[1..] == Digits(v[0] as int) + x && t[1..] == Digits(w[0] as int) + y;
      DigitsAgree(v[0] as int, x, w[0] as int, y);
      BytesAgree(v[1..], p, w[1..], q);
      assert v == [v[0]] + v[1..] && w == [w[0]] + w[1..];
    }
  }

  lemma ValuesAgree(v: string, p: string, w: string, q: string)
    requires ValueText(v) + p == ValueText(w) + q
    ensures v == w && p == q
  {
    hide Digits;
    var s, t := ValueText(v) + p, ValueText(w) + q;
    if v != "" { DigitsRead(v[0] as int); assert s[1] == Digits(v[0] as int)[0]; }
    if w != "" { DigitsRead(w[0] as int); assert t[1] == Digits(w[0] as int)[0]; }
    if v == "" || w == "" {
      assert v == "" ==> s[1] == ']';
      assert w == "" ==> t[1] == ']';
      assert s[2..] == p && t[2..] == q;
    } else {
      var x, y := BytesTail(v[1..]) + p, BytesTail(w[1..]) + q;
      TailStart(v[1..]);
      TailStart(w[1..]);
      assert s[1..] == Digits(v[0] as int) + x && t[1..] == Digits(w[0] as int) + y;
      DigitsAgree(v[0] as int, x, w[0] as int, y);
      BytesAgree(v[1..], p, w[1..], q);
      assert v == [v[0]] + v[1..] && w == [w[0]] + w[1..];
    }
  }

  lemma EntriesAgree(d: (string, string), p: string, e: (string, string), q: string)
    requires EntryText(d) + p == EntryText(e) + q
    requires forall i :: 0 <= i < |d.0| ==> KeyChar(d.0[i])
    requires forall i :: 0 <= i < |e.0| ==> KeyChar(e.0[i])
    ensures d == e && p == q
  {
    hide ValueText;
    var x, y := ":" + (ValueText(d.1) + p), ":" + (ValueText(e.1) + q);
    assert EntryText(d) + p == d.0 + x && EntryText(e) + q == e.0 + y;
    CutsAgree(d.0, x, e.0, y, KeyChar);
    assert x[1..] == ValueText(d.1) + p && y[1..] == ValueText(e.1) + q;
    ValuesAgree(d.1, p, e.1, q);
  }

  ghost predicate KeysFit(es: seq<(string, string)>) {
    forall e :: e in es ==> e.0 != "" && forall i :: 0 <= i < |e.0| ==> KeyChar(e.0[i])
  }

  lemma {:induction false} TailsAgree(d: seq<(string, string)>, e: seq<(string, string)>)
    requires EntriesTail(d) == EntriesTail(e) && KeysFit(d) && KeysFit(e)
    ensures d == e
    decreases |d|
  {
    hide EntryText, KeyChar;
    if d != [] && e != [] {
      assert EntriesTail(d)[1..] == EntryText(d[0]) + EntriesTail(d[1..]);
      assert EntriesTail(e)[1..] == EntryText(e[0]) + EntriesTail(e[1..]);
      EntriesAgree(d[0], EntriesTail(d[1..]), e[0], EntriesTail(e[1..]));
      TailsAgree(d[1..], e[1..]);
      assert d == [d[0]] + d[1..] && e == [e[0]] + e[1..];
    } else {
      assert EntriesTail(d)[0] == EntriesTail(e)[0];
    }
  }

  lemma EntriesDecide(m: Data, n: Data)
    requires Entries(m) == Entries(n)
    ensures m == n
  {
    hide Sorted;
    SortedLists(m.Keys);
    SortedLists(n.Keys);
    var es := Entries(m);
    forall k ensures k in m <==> k in n {
      if k in m { assert k in Sorted(m.Keys); var i :| 0 <= i < |es| && Sorted(m.Keys)[i] == k; assert es[i].0 == k; }
      if k in n { assert k in Sorted(n.Keys); var i :| 0 <= i < |es| && Sorted(n.Keys)[i] == k; assert es[i].0 == k; }
    }
    forall k | k in m ensures m[k] == n[k] {
      assert k in Sorted(m.Keys);
      var i :| 0 <= i < |es| && Sorted(m.Keys)[i] == k;
      assert es[i].0 == k;
    }
  }

  lemma FittingKeys(m: Data)
    requires SecretKeys(m)
    ensures KeysFit(Entries(m))
  {
    hide Sorted, KeyChar;
  }

  /** Two printed maps are the same exactly when the maps are. */
  lemma SprintDecides(m: Data, n: Data)
    requires SecretKeys(m) && SecretKeys(n)
    ensures Sprint(m) == Sprint(n) <==> m == n
  {
    hide EntryText, EntriesTail, Entries, KeyChar, SecretKeys;
    if Sprint(m) == Sprint(n) {
      FittingKeys(m);
      FittingKeys(n);
      SameEntries(Entries(m), Entries(n));
      EntriesDecide(m, n);
    }
  }

  lemma MapStart(es: seq<(string, string)>)
    requires KeysFit(es)
    ensures |MapText(es)| > 4 && (MapText(es)[4] == ']' <==> es == [])
    ensures es != [] ==> MapText(es)[4..] == EntryText(es[0]) + EntriesTail(es[1..])
  {
    hide ValueText, EntriesTail;
    if es != [] {
      var text := EntryText(es[0]);
      assert text[0] == es[0].0[0] && KeyChar(text[0]);
      assert MapText(es)[4..] == text + EntriesTail(es[1..]);
    }
  }

  lemma SameEntries(d: seq<(string, string)>, e: seq<(string, string)>)
    requires MapText(d) == MapText(e) && KeysFit(d) && KeysFit(e)
    ensures d == e
  {
    hide EntryText, EntriesTail, MapText;
    MapStart(d);
    MapStart(e);
    if d != [] {
      EntriesAgree(d[0], EntriesTail(d[1..]), e[0], EntriesTail(e[1..]));
      TailsAgree(d[1..], e[1..]);
      assert d == [d[0]] + d[1..] && e == [e[0]] + e[1..];
    }
  }
}
