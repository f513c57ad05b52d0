/**
 JSON values, and the text JSON.stringify makes of them. The clients compare values
 by typeof and by that text (client/src/daemon.js:20-32); UniqueText shows that this
 tells any two values apart.

 A number is represented by its own text, so 0 and -0 are one value.
 */
module Json {
  type NumberText = s: string | s != "" && forall i :: 0 <= i < |s| ==> NumberChar(s[i]) witness "0"

  datatype Json =
    | Null
    | Bool(b: bool)
    | Number(text: NumberText)
    | String(s: string)
    | Array(items: seq<Json>)
    | Object(members: seq<Member>)

  datatype Member = Member(key: string, value: Json)

  predicate NumberChar(c: char) {
    '0' <= c <= '9' || c == '-' || c == '+' || c == '.' || c == 'e' || c == 'E'
  }

  datatype Type = TBoolean | TNumber | TString | TObject

  /** The typeof operator; null is an object. */
  function TypeOf(j: Json): Type {
    match j
    case Bool(_) => TBoolean
    case Number(_) => TNumber
    case String(_) => TString
    case _ => TObject
  }

  function HexDigit(n: nat): char
    requires n < 16
  {
    "0123456789abcdef"[n]
  }

  function Escape(c: char): string {
    match c
    case '"' => ['\\', '"']
    case '\\' => ['\\', '\\']
    case '\n' => ['\\', 'n']
    case '\r' => ['\\', 'r']
    case '\t' => ['\\', 't']
    case '\U{8}' => ['\\', 'b']
    case '\U{C}' => ['\\', 'f']
    case _ => if c < ' ' then ['\\', 'u', '0', '0', HexDigit(c as nat / 16), HexDigit(c as nat % 16)] else [c]
  }

  /** A string from the inside to its closing quote. */
  function Quoted(s: string): string {
    if s == "" then "\"" else Escape(s[0]) + Quoted(s[1..])
  }

  function Stringify(j: Json): string
    decreases j, 0
  {
    match j
    case Null => "null"
    case Bool(b) => if b then "true" else "false"
    case Number(text) => text
    case String(s) => "\"" + Quoted(s)
    case Array(items) => "[" + Items(items, true)
    case Object(members) => "{" + Members(members, true)
  }

  function Items(items: seq<Json>, first: bool): string
    decreases items, 1
  {
    if items == [] then "]"
    else (if first then "" else ",") + Stringify(items[0]) + Items(items[1..], false)
  }

  function Members(members: seq<Member>, first: bool): string
    decreases members, 1
  {
    if members == [] then "}"
    else (if first then "" else ",") + MemberText(members[0]) + Members(members[1..], false)
  }

  function MemberText(m: Member): string
    decreases m, 0
  {
    "\"" + Quoted(m.key) + ":" + Stringify(m.value)
  }

  // ---------- The text determines the value ----------

  /** What can follow the text of a value inside a larger text. */
  predicate Delimited(x: string) {
    x == "" || x[0] == ',' || x[0] == ']' || x[0] == '}'
  }

  lemma EscapeUnique(c: char, d: char, x: string, y: string)
    requires Escape(c) + x == Escape(d) + y
    ensures c == d && x == y
  {
    var p, q := Escape(c), Escape(d);
    assert (p + x)[0] == p[0] && (q + y)[0] == q[0];
    if |p| > 1 && |q| > 1 {
      assert (p + x)[1] == p[1] && (q + y)[1] == q[1];
      if |p| == 6 && |q| == 6 {
        assert (p + x)[4] == p[4] && (q + y)[4] == q[4] && (p + x)[5] == p[5] && (q + y)[5] == q[5];
        HexUnique(c as nat / 16, d as nat / 16);
        HexUnique(c as nat % 16, d as nat % 16);
      }
    }
    assert p == q;
    assert (p + x)[|p|..] == x && (q + y)[|q|..] == y;
  }

  lemma HexUnique(m: nat, n: nat)
    requires m < 16 && n < 16 && HexDigit(m) == HexDigit(n)
    ensures m == n
  {
  }

  /** An escape never starts with a bare quote. */
  lemma EscapeNotQuote(c: char, x: string, y: string)
    ensures Escape(c) + x != "\"" + y
  {
    assert (Escape(c) + x)[0] == Escape(c)[0];
    assert ("\"" + y)[0] == '"';
  }

  lemma QuotedStart(s: string, x: string)
    ensures s != "" ==> Quoted(s) + x == Escape(s[0]) + (Quoted(s[1..]) + x)
  {
  }

  lemma {:induction false} QuotedUnique(s: string, t: string, x: string, y: string)
    requires Quoted(s) + x == Quoted(t) + y
    ensures s == t && x == y
  {
    hide Escape;
    QuotedStart(s, x);
    QuotedStart(t, y);
    if s == "" && t == "" {
      assert ("\"" + x)[1..] == x && ("\"" + y)[1..] == y;
    } else if s == "" {
      EscapeNotQuote(t[0], Quoted(t[1..]) + y, x);
    } else if t == "" {
      EscapeNotQuote(s[0], Quoted(s[1..]) + x, y);
    } else {
      EscapeUnique(s[0], t[0], Quoted(s[1..]) + x, Quoted(t[1..]) + y);
      QuotedUnique(s[1..], t[1..], x, y);
      assert s == [s[0]] + s[1..] && t == [t[0]] + t[1..];
    }
  }

  lemma NumberUnique(s: NumberText, t: NumberText, x: string, y: string)
    requires s + x == t + y && Delimited(x) && Delimited(y)
    ensures s == t && x == y
  {
    assert (s + x)[..|s|] == s && (t + y)[..|t|] == t;
    assert (s + x)[|s|..] == x && (t + y)[|t|..] == y;
  }

  /** The first character tells which kind of value a text belongs to. */
  function Kind(j: Json): nat {
    match j
    case Null => 0
    case Bool(b) => if b then 1 else 2
    case Number(_) => 3
    case String(_) => 4
    case Array(_) => 5
    case Object(_) => 6
  }

  function KindOf(c: char): nat {
    if c == 'n' then 0 else if c == 't' then 1 else if c == 'f' then 2
    else if c == '"' then 4 else if c == '[' then 5 else if c == '{' then 6 else 3
  }

  lemma FirstChar(j: Json)
    ensures Stringify(j) != "" && KindOf(Stringify(j)[0]) == Kind(j)
    ensures Stringify(j)[0] != ']' && Stringify(j)[0] != ','
  {
  }

  lemma {:induction false} TextUnique(a: Json, b: Json, x: string, y: string)
    requires Stringify(a) + x == Stringify(b) + y && Delimited(x) && Delimited(y)
    ensures a == b && x == y
    decreases a, 0
  {
    hide Items, Members, Quoted, KindOf, Delimited;
    FirstChar(a);
    FirstChar(b);
    var s, t := Stringify(a), Stringify(b);
    assert s[0] == (s + x)[0] == (t + y)[0] == t[0];
    match a
    case Null => Suffix(s, x, y);
    case Bool(_) => Suffix(s, x, y);
    case Number(text) => NumberUnique(text, b.text, x, y);
    case String(c) =>
      assert (s + x)[1..] == Quoted(c) + x && (t + y)[1..] == Quoted(b.s) + y;
      QuotedUnique(c, b.s, x, y);
    case Array(items) =>
      assert (s + x)[1..] == Items(items, true) + x && (t + y)[1..] == Items(b.items, true) + y;
      ItemsUnique(items, b.items, true, x, y);
    case Object(members) =>
      assert (s + x)[1..] == Members(members, true) + x && (t + y)[1..] == Members(b.members, true) + y;
      MembersUnique(members, b.members, true, x, y);
  }

  lemma Suffix(s: string, x: string, y: string)
    requires s + x == s + y
    ensures x == y
  {
    assert (s + x)[|s|..] == x && (s + y)[|s|..] == y;
  }

  function Comma(first: bool): string {
    if first then "" else ","
  }

  lemma ItemsStart(items: seq<Json>, first: bool, x: string)
    requires items != []
    ensures Items(items, first) + x == Comma(first) + (Stringify(items[0]) + (Items(items[1..], false) + x))
    ensures (Items(items, first) + x)[0] != ']'
    ensures Delimited(Items(items[1..], false) + x)
  {
    FirstChar(items[0]);
    var head, rest := Comma(first) + Stringify(items[0]), Items(items[1..], false);
    assert Items(items, first) == head + rest;
    assert (head + rest) + x == head + (rest + x);
    assert (rest + x)[0] == rest[0];
  }

  lemma {:induction false} ItemsUnique(a: seq<Json>, b: seq<Json>, first: bool, x: string, y: string)
    requires Items(a, first) + x == Items(b, first) + y
    ensures a == b && x == y
    decreases a, 1
  {
    if a == [] && b == [] {
      Suffix("]", x, y);
    } else if a == [] {
      ItemsStart(b, first, y);
      assert false;
    } else if b == [] {
      ItemsStart(a, first, x);
      assert false;
    } else {
      ItemsStart(a, first, x);
      ItemsStart(b, first, y);
      var restA, restB := Items(a[1..], false) + x, Items(b[1..], false) + y;
      Suffix(Comma(first), Stringify(a[0]) + restA, Stringify(b[0]) + restB);
      TextUnique(a[0], b[0], restA, restB);
      ItemsUnique(a[1..], b[1..], false, x, y);
      assert a == [a[0]] + a[1..] && b == [b[0]] + b[1..];
    }
  }

  lemma MembersStart(members: seq<Member>, first: bool, x: string)
    requires members != []
    ensures Members(members, first) + x == Comma(first) + (MemberText(members[0]) + (Members(members[1..], false) + x))
    ensures (Members(members, first) + x)[0] != '}'
    ensures Delimited(Members(members[1..], false) + x)
  {
    var head, rest := Comma(first) + MemberText(members[0]), Members(members[1..], false);
    assert Members(members, first) == head + rest;
    assert (head + rest) + x == head + (rest + x);
    assert (rest + x)[0] == rest[0];
  }

  lemma {:induction false} MembersUnique(a: seq<Member>, b: seq<Member>, first: bool, x: string, y: string)
    requires Members(a, first) + x == Members(b, first) + y
    ensures a == b && x == y
    decreases a, 1
  {
    if a == [] && b == [] {
      Suffix("}", x, y);
    } else if a == [] {
      MembersStart(b, first, y);
      assert false;
    } else if b == [] {
      MembersStart(a, first, x);
      assert false;
    } else {
      MembersStart(a, first, x);
      MembersStart(b, first, y);
      var restA, restB := Members(a[1..], false) + x, Members(b[1..], false) + y;
      Suffix(Comma(first), MemberText(a[0]) + restA, MemberText(b[0]) + restB);
      MemberUnique(a[0], b[0], restA, restB);
      MembersUnique(a[1..], b[1..], false, x, y);
      assert a == [a[0]] + a[1..] && b == [b[0]] + b[1..];
    }
  }

  lemma {:induction false} MemberUnique(a: Member, b: Member, x: string, y: string)
    requires MemberText(a) + x == MemberText(b) + y && Delimited(x) && Delimited(y)
    ensures a == b && x == y
    decreases a, 0
  {
    hide Stringify, Quoted, Delimited;
    var restA, restB := ":" + (Stringify(a.value) + x), ":" + (Stringify(b.value) + y);
    assert MemberText(a) + x == "\"" + (Quoted(a.key) + restA);
    assert MemberText(b) + y == "\"" + (Quoted(b.key) + restB);
    Suffix("\"", Quoted(a.key) + restA, Quoted(b.key) + restB);
    QuotedUnique(a.key, b.key, restA, restB);
    Suffix(":", Stringify(a.value) + x, Stringify(b.value) + y);
    TextUnique(a.value, b.value, x, y);
  }

  /** Two values with the same text are the same value. */
  lemma UniqueText(a: Json, b: Json)
    ensures Stringify(a) == Stringify(b) <==> a == b
  {
    if Stringify(a) == Stringify(b) {
      assert Stringify(a) + "" == Stringify(b) + "";
      TextUnique(a, b, "", "");
    }
  }
}
