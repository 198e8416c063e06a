/** The text that the cache key hashes: sorted, compact, ASCII-only JSON. It is canonical. */
module CacheKey {
  import opened Wrappers

  datatype Member<T> = Member(key: string, value: T)

  /** A number is kept as the text it prints to. */
  datatype Json =
    | Null
    | Bool(b: bool)
    | Number(text: string)
    | Str(s: string)
    | Arr(items: seq<Json>)
    | Obj(members: seq<Member<Json>>)

  predicate NumberChar(c: char) {
    ('0' <= c <= '9') || c == '-' || c == '+' || c == '.' || c == 'e' || c == 'E'
  }

  predicate Lexeme(text: string) {
    text != "" && (('0' <= text[0] <= '9') || text[0] == '-') && forall c :: c in text ==> NumberChar(c)
  }

  /** Numbers are number texts, and no object has a key twice. */
  ghost predicate Wf(v: Json) {
    match v
    case Number(text) => Lexeme(text)
    case Arr(items) => forall i :: 0 <= i < |items| ==> Wf(items[i])
    case Obj(ms) => DistinctKeys(ms) && forall i :: 0 <= i < |ms| ==> Wf(ms[i].value)
    case _ => true
  }

  ghost predicate DistinctKeys<T>(ms: seq<Member<T>>) {
    forall i, j :: 0 <= i < j < |ms| ==> ms[i].key != ms[j].key
  }

  /** Equal as JSON values, up to the order of object keys. */
  ghost predicate Same(a: Json, b: Json)
    decreases a, 1
  {
    match a
    case Arr(xs) =>
      b.Arr? && |xs| == |b.items| && forall i :: 0 <= i < |xs| ==> Same(xs[i], b.items[i])
    case Obj(ms) =>
      b.Obj?
      && (forall i :: 0 <= i < |ms| ==> FoundIn(ms[i].key, ms[i].value, b.members))
      && (forall j :: 0 <= j < |b.members| ==> Provides(a, b.members[j]))
    case _ => a == b
  }

  /** Some member of `ns` has this key and the same value. */
  ghost predicate FoundIn(key: string, value: Json, ns: seq<Member<Json>>)
    decreases value, 2
  {
    exists j :: 0 <= j < |ns| && key == ns[j].key && Same(value, ns[j].value)
  }

  /** Some member of the object `a` has the key of `n` and the same value. */
  ghost predicate Provides(a: Json, n: Member<Json>)
    requires a.Obj?
    decreases a, 0
  {
    exists i :: 0 <= i < |a.members| && a.members[i].key == n.key && Same(a.members[i].value, n.value)
  }

  // ---------- Sorting by key ----------

  /** The order of code points. */
  predicate Before(a: string, b: string) {
    if b == "" then false
    else if a == "" then true
    else if a[0] != b[0] then a[0] < b[0]
    else Before(a[1..], b[1..])
  }

  lemma {:induction false} BeforeTotal(a: string, b: string)
    ensures Before(a, b) || Before(b, a) || a == b
    ensures !(Before(a, b) && Before(b, a))
    ensures !Before(a, a)
  {
    if a != "" && b != "" {
      BeforeTotal(a[1..], b[1..]);
      BeforeTotal(a[1..], a[1..]);
      if a[0] == b[0] && a[1..] == b[1..] {
        assert a == [a[0]] + a[1..] && b == [b[0]] + b[1..];
      }
    } else if a != "" {
      BeforeTotal(a[1..], a[1..]);
    }
  }

  lemma {:induction false} BeforeTransitive(a: string, b: string, c: string)
    requires Before(a, b) && Before(b, c)
    ensures Before(a, c)
  {
    if a != "" && a[0] == b[0] == c[0] {
      BeforeTransitive(a[1..], b[1..], c[1..]);
    }
  }

  /** `k` is where `a` ends or has the lower code point, the two being alike up to there. */
  ghost predicate LowerAt(a: string, b: string, k: nat) {
    k <= |a| && k < |b| && a[..k] == b[..k] && (k == |a| || a[k] < b[k])
  }

  lemma CommonStart(a: string, b: string, k: nat)
    requires LowerAt(a, b, k)
    ensures k > 0 ==> a[0] == b[0]
  {
    if k > 0 { assert a[..k][0] == b[..k][0]; }
  }

  /** The order is that of dictionaries: a prefix comes first, else the first difference decides. */
  lemma {:induction false} BeforeIsLexicographic(a: string, b: string)
    ensures Before(a, b) <==> exists k :: LowerAt(a, b, k)
  {
    if b != "" && a == "" {
      assert LowerAt(a, b, 0);
    } else if b != "" && a[0] != b[0] {
      if a[0] < b[0] { assert LowerAt(a, b, 0); }
      forall k: nat | LowerAt(a, b, k) ensures k == 0 {
        CommonStart(a, b, k);
      }
    } else if b != "" {
      BeforeIsLexicographic(a[1..], b[1..]);
      if k: nat :| LowerAt(a[1..], b[1..], k) {
        assert a[..k + 1] == [a[0]] + a[1..][..k] && b[..k + 1] == [b[0]] + b[1..][..k];
        assert LowerAt(a, b, k + 1);
      }
      if k: nat :| LowerAt(a, b, k) {
        if k > 0 {
          assert a[1..][..k - 1] == a[..k][1..] && b[1..][..k - 1] == b[..k][1..];
          assert LowerAt(a[1..], b[1..], k - 1);
        }
      }
    }
  }

  /** A member whose value is printed already. */
  type Entry = Member<string>

  function Insert(m: Entry, sorted: seq<Entry>): seq<Entry> {
    if sorted == [] || Before(m.key, sorted[0].key) then [m] + sorted
    else [sorted[0]] + Insert(m, sorted[1..])
  }

  function SortMembers(ms: seq<Entry>): seq<Entry> {
    if ms == [] then [] else Insert(ms[0], SortMembers(ms[1..]))
  }

  ghost predicate Increasing(ms: seq<Entry>) {
    forall i, j :: 0 <= i < j < |ms| ==> Before(ms[i].key, ms[j].key)
  }

  lemma {:induction false} InsertContents(m: Entry, sorted: seq<Entry>)
    ensures |Insert(m, sorted)| == |sorted| + 1
    ensures forall x :: x in Insert(m, sorted) <==> x == m || x in sorted
  {
    if sorted != [] && !Before(m.key, sorted[0].key) {
      InsertContents(m, sorted[1..]);
    }
  }

  lemma {:induction false} SortContents(ms: seq<Entry>)
    ensures |SortMembers(ms)| == |ms|
    ensures forall x :: x in SortMembers(ms) <==> x in ms
  {
    if ms != [] {
      SortContents(ms[1..]);
      InsertContents(ms[0], SortMembers(ms[1..]));
    }
  }

  lemma {:induction false} InsertIncreasing(m: Entry, sorted: seq<Entry>)
    requires Increasing(sorted) && forall x :: x in sorted ==> x.key != m.key
    ensures Increasing(Insert(m, sorted))
  {
    if sorted == [] {
    } else if Before(m.key, sorted[0].key) {
      forall j | 0 < j < |sorted| ensures Before(m.key, sorted[j].key) {
        BeforeTransitive(m.key, sorted[0].key, sorted[j].key);
      }
    } else {
      BeforeTotal(m.key, sorted[0].key);
      InsertIncreasing(m, sorted[1..]);
      InsertContents(m, sorted[1..]);
      var rest := Insert(m, sorted[1..]);
      assert sorted[0] in sorted;
      forall j | 0 <= j < |rest| ensures Before(sorted[0].key, rest[j].key) {
        var x := rest[j];
        assert x in rest;
        assert x == m || x in sorted[1..];
        if x != m {
          var i :| 0 <= i < |sorted[1..]| && sorted[1..][i] == x;
          assert sorted[i + 1] == x;
        }
      }
    }
  }

  lemma {:induction false} SortIncreasing(ms: seq<Entry>)
    requires DistinctKeys(ms)
    ensures Increasing(SortMembers(ms))
  {
    if ms != [] {
      SortIncreasing(ms[1..]);
      SortContents(ms[1..]);
      forall x | x in SortMembers(ms[1..]) ensures x.key != ms[0].key {
        assert x in ms[1..];
        var i :| 0 <= i < |ms[1..]| && ms[1..][i] == x;
        assert ms[i + 1] == x;
      }
      InsertIncreasing(ms[0], SortMembers(ms[1..]));
    }
  }

  /** An increasing sequence is determined by what it holds. */
  lemma {:induction false} IncreasingUnique(a: seq<Entry>, b: seq<Entry>)
    requires Increasing(a) && Increasing(b) && forall x :: x in a <==> x in b
    ensures a == b
  {
    assert a == [] || a[0] in a;
    assert b == [] || b[0] in b;
    if a != [] {
      HeadsMeet(a, b);
      forall x ensures x in a[1..] <==> x in b[1..] {
        NotInTail(a);
        NotInTail(b);
        assert x in a <==> x == a[0] || x in a[1..];
        assert x in b <==> x == b[0] || x in b[1..];
      }
      IncreasingUnique(a[1..], b[1..]);
      assert a == [a[0]] + a[1..] && b == [b[0]] + b[1..];
    }
  }

  lemma NotInTail(a: seq<Entry>)
    requires Increasing(a) && a != []
    ensures a[0] !in a[1..]
  {
    BeforeTotal(a[0].key, a[0].key);
  }

  lemma HeadsMeet(a: seq<Entry>, b: seq<Entry>)
    requires Increasing(a) && Increasing(b) && a != [] && b != [] && a[0] in b && b[0] in a
    ensures a[0] == b[0]
  {
    if a[0] != b[0] {
      BeforeTotal(a[0].key, b[0].key);
    }
  }

  // ---------- Escapes ----------

  function HexDigit(d: nat): char
    requires d < 16
  {
    "0123456789abcdef"[d]
  }

  /** `width` hexadecimal digits, padded with zeros. */
  function Hex(n: nat, width: nat): (digits: string)
    ensures |digits| == width
  {
    if width == 0 then "" else Hex(n / 16, width - 1) + [HexDigit(n % 16)]
  }

  function Hex4(n: nat): string {
    Hex(n, 4)
  }

  lemma HexDigitInjective(c: nat, d: nat)
    requires c < 16 && d < 16 && HexDigit(c) == HexDigit(d)
    ensures c == d
  {
  }

  function Room(width: nat): nat {
    if width == 0 then 1 else 16 * Room(width - 1)
  }

  lemma {:induction false} HexInjective(m: nat, n: nat, width: nat)
    requires m < Room(width) && n < Room(width) && Hex(m, width) == Hex(n, width)
    ensures m == n
  {
    if width > 0 {
      var a, b := Hex(m / 16, width - 1), Hex(n / 16, width - 1);
      Prefixes(a, [HexDigit(m % 16)], b, [HexDigit(n % 16)]);
      assert [HexDigit(m % 16)][0] == [HexDigit(n % 16)][0];
      HexDigitInjective(m % 16, n % 16);
      HexInjective(m / 16, n / 16, width - 1);
    }
  }

  lemma Hex4Injective(m: nat, n: nat)
    requires m < 0x10000 && n < 0x10000 && Hex4(m) == Hex4(n)
    ensures m == n
  {
    assert Room(4) == 16 * Room(3) == 256 * Room(2) == 4096 * Room(1) == 65536 * Room(0);
    HexInjective(m, n, 4);
  }

  /** How one character prints inside a string; beyond the basic plane as a surrogate pair. */
  function Escape(c: char): (e: string)
    ensures e != "" && e[0] != '"'
  {
    var n := c as int;
    if c == '"' then "\\\""
    else if c == '\\' then "\\\\"
    else if c == '\n' then "\\n"
    else if c == '\r' then "\\r"
    else if c == '\t' then "\\t"
    else if n == 12 then "\\f"
    else if n == 8 then "\\b"
    else if 32 <= n <= 126 then [c]
    else if n < 0x10000 then "\\u" + Hex4(n)
    else "\\u" + Hex4(0xD800 + (n - 0x10000) / 1024) + "\\u" + Hex4(0xDC00 + (n - 0x10000) % 1024)
  }

  function EscapeAll(s: string): string {
    if s == "" then "" else Escape(s[0]) + EscapeAll(s[1..])
  }

  /** The number that the four digits after `\u` stand for: the character itself or its high surrogate. */
  function FirstUnit(c: char): nat {
    var n := c as int;
    if n < 0x10000 then n else 0xD800 + (n - 0x10000) / 1024
  }

  // ---------- What an escape stands for ----------

  /** The value of a hexadecimal digit; 16 for any other character. */
  function DigitValue(c: char): nat {
    if '0' <= c <= '9' then c as int - '0' as int
    else if 'a' <= c <= 'f' then c as int - 'a' as int + 10
    else 16
  }

  function HexValue(digits: string): nat {
    if digits == "" then 0
    else 16 * HexValue(digits[..|digits| - 1]) + DigitValue(digits[|digits| - 1])
  }

  lemma {:induction false} HexValueOf(n: nat, width: nat)
    requires n < Room(width)
    ensures HexValue(Hex(n, width)) == n
  {
    if width > 0 {
      var digits := Hex(n, width);
      assert digits[..|digits| - 1] == Hex(n / 16, width - 1);
      HexValueOf(n / 16, width - 1);
    }
  }

  lemma Hex4Value(n: nat)
    requires n < 0x10000
    ensures HexValue(Hex4(n)) == n
  {
    assert Room(4) == 16 * Room(3) == 256 * Room(2) == 4096 * Room(1) == 65536 * Room(0);
    HexValueOf(n, 4);
  }

  /** The code point that a character of a JSON string denotes: section 7 of RFC 8259. */
  function CodePoint(e: string): int {
    if |e| == 1 then e[0] as int
    else if |e| == 2 && e[0] == '\\' then
      match e[1]
      case '"' => 0x22
      case '\\' => 0x5C
      case 'b' => 0x08
      case 'f' => 0x0C
      case 'n' => 0x0A
      case 'r' => 0x0D
      case 't' => 0x09
      case _ => -1
    else if |e| == 6 && e[..2] == "\\u" then HexValue(e[2..])
    else if |e| == 12 && e[..2] == "\\u" && e[6..8] == "\\u" then
      0x10000 + (HexValue(e[2..6]) - 0xD800) * 0x400 + (HexValue(e[8..]) - 0xDC00)
    else -1
  }

  /** A character prints as what denotes it, and as itself exactly if it is printable ASCII and needs no escape. */
  lemma EscapeDenotes(c: char)
    ensures CodePoint(Escape(c)) == c as int
    ensures |Escape(c)| == 1 <==> 32 <= c as int <= 126 && c != '"' && c != '\\'
  {
    var n, e := c as int, Escape(c);
    if Unicode(c) && n < 0x10000 {
      assert e[2..] == Hex4(n);
      Hex4Value(n);
    } else if Unicode(c) {
      var high, low := 0xD800 + (n - 0x10000) / 1024, 0xDC00 + (n - 0x10000) % 1024;
      assert e[2..6] == Hex4(high) && e[8..] == Hex4(low) && e[6..8] == "\\u";
      Hex4Value(high);
      Hex4Value(low);
    }
  }

  predicate Unicode(c: char) {
    var n := c as int;
    c != '"' && c != '\\' && !(32 <= n <= 126) && n != 8 && n != 9 && n != 10 && n != 12 && n != 13
  }

  /** The second character of a two-character escape, or the character itself. */
  lemma ShortEscape(c: char)
    requires !Unicode(c)
    ensures (Escape(c) == [c] && c != '\\') || (|Escape(c)| == 2 && Escape(c)[0] == '\\' && Escape(c)[1] != 'u')
  {
  }

  lemma LongEscape(c: char)
    requires Unicode(c)
    ensures |Escape(c)| >= 6 && Escape(c)[..2] == "\\u" && Escape(c)[2..6] == Hex4(FirstUnit(c))
  {
  }

  lemma ShortEscapeInjective(c: char, d: char)
    requires !Unicode(c) && !Unicode(d) && Escape(c) == Escape(d)
    ensures c == d
  {
  }

  lemma LongEscapeInjective(c: char, d: char)
    requires Unicode(c) && Unicode(d) && Escape(c) == Escape(d)
    ensures c == d
  {
    LongEscape(c);
    LongEscape(d);
    Hex4Injective(FirstUnit(c), FirstUnit(d));
    if c as int >= 0x10000 && d as int >= 0x10000 {
      assert Escape(c)[8..12] == Hex4(0xDC00 + (c as int - 0x10000) % 1024);
      assert Escape(d)[8..12] == Hex4(0xDC00 + (d as int - 0x10000) % 1024);
      Hex4Injective(0xDC00 + (c as int - 0x10000) % 1024, 0xDC00 + (d as int - 0x10000) % 1024);
    }
  }

  lemma Prefixes(a: string, s: string, b: string, t: string)
    requires a + s == b + t
    ensures forall i :: 0 <= i < |a| && i < |b| ==> a[i] == b[i]
    ensures |a| == |b| ==> a == b && s == t
  {
    forall i | 0 <= i < |a| && i < |b| ensures a[i] == b[i] {
      assert (a + s)[i] == (b + t)[i];
    }
    if |a| == |b| {
      assert s == (a + s)[|a|..] && t == (b + t)[|b|..];
    }
  }

  lemma EscapeLengths(c: char, d: char, s: string, t: string)
    requires Escape(c) + s == Escape(d) + t
    ensures |Escape(c)| == |Escape(d)|
  {
    var x, y := Escape(c), Escape(d);
    Prefixes(x, s, y, t);
    if Unicode(c) && Unicode(d) {
      LongEscape(c);
      LongEscape(d);
      forall i | 2 <= i < 6 ensures x[i] == y[i] {
      }
      assert x[2..6] == y[2..6];
      Hex4Injective(FirstUnit(c), FirstUnit(d));
    } else if Unicode(c) {
      LongEscape(c);
      assert x[0] == x[..2][0] && x[1] == x[..2][1];
      ShortEscape(d);
    } else if Unicode(d) {
      LongEscape(d);
      assert y[0] == y[..2][0] && y[1] == y[..2][1];
      ShortEscape(c);
    } else {
      ShortEscape(c);
      ShortEscape(d);
    }
  }

  lemma EscapeUnique(c: char, d: char, s: string, t: string)
    requires Escape(c) + s == Escape(d) + t
    ensures c == d && s == t
  {
    EscapeLengths(c, d, s, t);
    Prefixes(Escape(c), s, Escape(d), t);
    if Unicode(c) && Unicode(d) {
      LongEscapeInjective(c, d);
    } else if !Unicode(c) && !Unicode(d) {
      ShortEscapeInjective(c, d);
    } else if Unicode(c) {
      LongEscape(c);
      ShortEscape(d);
    } else {
      LongEscape(d);
      ShortEscape(c);
    }
  }

  /** An escaped string ends at its quote, so it can be read back. */
  lemma {:induction false} EscapeAllUnique(x: string, y: string, s: string, t: string)
    requires EscapeAll(x) + "\"" + s == EscapeAll(y) + "\"" + t
    ensures x == y && s == t
  {
    if x == "" && y == "" {
      assert "" + "\"" == "\"";
      Prefixes("\"", s, "\"", t);
    } else if x == "" {
      QuoteOrEscape(y, t);
    } else if y == "" {
      QuoteOrEscape(x, s);
    } else {
      var s', t' := EscapeAll(x[1..]) + "\"" + s, EscapeAll(y[1..]) + "\"" + t;
      QuoteOrEscape(x, s);
      QuoteOrEscape(y, t);
      EscapeUnique(x[0], y[0], s', t');
      EscapeAllUnique(x[1..], y[1..], s, t);
      assert x == [x[0]] + x[1..] && y == [y[0]] + y[1..];
    }
  }

  lemma QuoteOrEscape(x: string, s: string)
    requires x != ""
    ensures EscapeAll(x) + "\"" + s == Escape(x[0]) + (EscapeAll(x[1..]) + "\"" + s)
    ensures (EscapeAll(x) + "\"" + s)[0] != '"'
  {
  }

  // ---------- The printer ----------

  function Quoted(s: string): string {
    "\"" + EscapeAll(s) + "\""
  }

  function Print(v: Json): string {
    match v
    case Null => "null"
    case Bool(b) => if b then "true" else "false"
    case Number(text) => text
    case Str(s) => Quoted(s)
    case Arr(items) => "[" + Items(PrintItems(items)) + "]"
    case Obj(ms) => "{" + Members(SortMembers(PrintMembers(ms))) + "}"
  }

  function PrintItems(items: seq<Json>): (texts: seq<string>)
    ensures |texts| == |items|
    ensures forall i :: 0 <= i < |items| ==> texts[i] == Print(items[i])
  {
    if items == [] then [] else [Print(items[0])] + PrintItems(items[1..])
  }

  function PrintMembers(ms: seq<Member<Json>>): (texts: seq<Member<string>>)
    ensures |texts| == |ms|
    ensures forall i :: 0 <= i < |ms| ==> texts[i] == Member(ms[i].key, Print(ms[i].value))
  {
    if ms == [] then [] else [Member(ms[0].key, Print(ms[0].value))] + PrintMembers(ms[1..])
  }

  function Items(texts: seq<string>): string {
    if texts == [] then ""
    else if |texts| == 1 then texts[0]
    else texts[0] + "," + Items(texts[1..])
  }

  function Pair(m: Member<string>): string {
    Quoted(m.key) + ":" + m.value
  }

  function Members(texts: seq<Member<string>>): string {
    if texts == [] then ""
    else if |texts| == 1 then Pair(texts[0])
    else Pair(texts[0]) + "," + Members(texts[1..])
  }

  /** A further item or member follows a comma. */
  lemma {:induction false} ItemsAppend(texts: seq<string>, text: string)
    ensures Items(texts + [text]) == if texts == [] then text else Items(texts) + "," + text
  {
    if texts != [] {
      var all := texts + [text];
      assert all[1..] == texts[1..] + [text];
      ItemsAppend(texts[1..], text);
      if |texts| > 1 { Regroup(texts[0], ",", Items(texts[1..]), ",", text); }
    }
  }

  lemma {:induction false} MembersAppend(ms: seq<Entry>, m: Entry)
    ensures Members(ms + [m]) == if ms == [] then Pair(m) else Members(ms) + "," + Pair(m)
  {
    if ms != [] {
      var all := ms + [m];
      assert all[1..] == ms[1..] + [m];
      MembersAppend(ms[1..], m);
      if |ms| > 1 { Regroup(Pair(ms[0]), ",", Members(ms[1..]), ",", Pair(m)); }
    }
  }

  /** The texts of two values: no space, the three names, two-character escapes; and sorted keys. */
  lemma PrintedArray()
    ensures Print(Arr([Str("x\n"), Null, Bool(true)])) == "[\"x\\n\",null,true]"
    ensures Print(Bool(false)) == "false"
  {
    QuotedLine();
    ArrayOfThree(Str("x\n"), Null, Bool(true));
  }

  lemma ArrayOfThree(a: Json, b: Json, c: Json)
    ensures Print(Arr([a, b, c])) == "[" + (Print(a) + "," + (Print(b) + "," + Print(c))) + "]"
  {
    assert [a, b, c][1..] == [b, c] && [b, c][1..] == [c] && [c][1..] == [];
    ItemsOfThree(Print(a), Print(b), Print(c));
    assert PrintItems([a, b, c]) == [Print(a), Print(b), Print(c)];
  }

  lemma QuotedLine()
    ensures Quoted("x\n") == "\"x\\n\""
  {
    assert "x\n"[1..] == "\n" && "\n"[1..] == "";
    assert EscapeAll("\n") == "\\n" + "" == "\\n";
    assert EscapeAll("x\n") == "x" + "\\n";
  }

  lemma ItemsOfThree(a: string, b: string, c: string)
    ensures Items([a, b, c]) == a + "," + (b + "," + c)
  {
    assert [a, b, c][1..] == [b, c] && [b, c][1..] == [c];
    assert Items([c]) == c;
    assert Items([b, c]) == b + "," + c;
  }

  lemma PrintedObject()
    ensures Print(Obj([Member("b", Number("1")), Member("a", Null)])) == "{\"a\":null,\"b\":1}"
  {
    var a, b := Member("a", Null), Member("b", Number("1"));
    var pa, pb := Member("a", "null"), Member("b", "1");
    assert [b, a][1..] == [a] && [a][1..] == [];
    assert PrintMembers([b, a]) == [pb, pa];
    LowerKeyFirst(pb, pa);
    TwoPairs(pa, pb);
    PairTexts();
  }

  lemma LowerKeyFirst(m: Entry, n: Entry)
    requires Before(n.key, m.key)
    ensures SortMembers([m, n]) == [n, m]
  {
    BeforeTotal(m.key, n.key);
    assert [m, n][1..] == [n] && [n][1..] == [];
    assert SortMembers([n]) == [n];
    assert Insert(m, [n]) == [n] + [m];
  }

  lemma PairTexts()
    ensures Pair(Member("a", "null")) == "\"a\":null" && Pair(Member("b", "1")) == "\"b\":1"
  {
    assert "a"[1..] == "" && "b"[1..] == "";
    assert EscapeAll("a") == "a" + "" && EscapeAll("b") == "b" + "";
  }

  lemma TwoPairs(m: Entry, n: Entry)
    ensures Members([m, n]) == Pair(m) + "," + Pair(n)
  {
    assert [m, n][1..] == [n];
    assert Members([n]) == Pair(n);
  }

  // ---------- Reading back ----------

  /** What kind of value a first character announces; 6 is none. */
  function KindOfChar(c: char): nat {
    if c == 'n' then 0
    else if c == 't' || c == 'f' then 1
    else if ('0' <= c <= '9') || c == '-' then 2
    else if c == '"' then 3
    else if c == '[' then 4
    else if c == '{' then 5
    else 6
  }

  function Kind(v: Json): nat {
    match v
    case Null => 0
    case Bool(_) => 1
    case Number(_) => 2
    case Str(_) => 3
    case Arr(_) => 4
    case Obj(_) => 5
  }

  lemma FirstChar(v: Json)
    requires Wf(v)
    ensures Print(v) != "" && KindOfChar(Print(v)[0]) == Kind(v)
  {
  }

  /** What may follow a value: nothing, or a character that no number contains. */
  predicate Follows(s: string) {
    s == "" || !NumberChar(s[0])
  }

  lemma StartsWithNumber(y: string, t: string)
    requires y != "" && forall c :: c in y ==> NumberChar(c)
    ensures !Follows(y + t)
  {
    assert y[0] in y;
  }

  lemma {:induction false} NumberUnique(x: string, y: string, s: string, t: string)
    requires (forall c :: c in x ==> NumberChar(c)) && (forall c :: c in y ==> NumberChar(c))
    requires Follows(s) && Follows(t) && x + s == y + t
    ensures x == y && s == t
  {
    assert "" + s == s && "" + t == t;
    if x == "" {
      if y != "" { StartsWithNumber(y, t); }
    } else if y == "" {
      StartsWithNumber(x, s);
    } else {
      assert x + s == [x[0]] + (x[1..] + s) && y + t == [y[0]] + (y[1..] + t);
      Prefixes([x[0]], x[1..] + s, [y[0]], y[1..] + t);
      assert [x[0]][0] == [y[0]][0];
      NumberUnique(x[1..], y[1..], s, t);
      assert x == [x[0]] + x[1..] && y == [y[0]] + y[1..];
    }
  }

  /** A printed value can be told from what follows it. */
  lemma {:induction false} Unique(a: Json, b: Json, s: string, t: string)
    requires Wf(a) && Wf(b) && Follows(s) && Follows(t)
    requires Print(a) + s == Print(b) + t
    ensures Print(a) == Print(b) && s == t
    decreases a, 1
  {
    SameKind(a, b, s, t);
    match a
    case Null => Prefixes(Print(a), s, Print(b), t);
    case Bool(_) =>
      Prefixes(Print(a), s, Print(b), t);
      assert Print(a)[0] == Print(b)[0];
      assert a == b;
    case Number(text) => NumberUnique(text, b.text, s, t);
    case Str(x) =>
      Strip("\"", EscapeAll(x), "\"", s, EscapeAll(b.s), t);
      EscapeAllUnique(x, b.s, s, t);
    case Arr(items) =>
      Strip("[", Items(PrintItems(items)), "]", s, Items(PrintItems(b.items)), t);
      assert items[0..] == items;
      ItemsUnique(a, 0, b.items, s, t);
    case Obj(_) =>
      var ps, qs := SortMembers(PrintMembers(a.members)), SortMembers(PrintMembers(b.members));
      Strip("{", Members(ps), "}", s, Members(qs), t);
      SortContents(PrintMembers(a.members));
      SortContents(PrintMembers(b.members));
      MembersUnique(a, ps, b, qs, s, t);
  }

  lemma SameKind(a: Json, b: Json, s: string, t: string)
    requires Wf(a) && Wf(b) && Print(a) + s == Print(b) + t
    ensures Kind(a) == Kind(b)
  {
    FirstChar(a);
    FirstChar(b);
    Prefixes(Print(a), s, Print(b), t);
  }

  /** The same opening can be taken off both sides. */
  lemma Strip(open: string, x: string, close: string, s: string, y: string, t: string)
    requires open + x + close + s == open + y + close + t
    ensures x + close + s == y + close + t
  {
    assert open + x + close + s == open + (x + close + s);
    assert open + y + close + t == open + (y + close + t);
    Prefixes(open, x + close + s, open, y + close + t);
  }

  function AfterText(texts: seq<string>, s: string): string
    requires texts != []
  {
    if |texts| == 1 then "]" + s else "," + (Items(texts[1..]) + "]" + s)
  }

  lemma TextsSplit(texts: seq<string>, s: string)
    requires texts != []
    ensures Items(texts) + "]" + s == texts[0] + AfterText(texts, s)
    ensures Follows(AfterText(texts, s))
  {
  }

  /** The text of a list starts with the closing bracket only if the list is empty. */
  lemma TextsFirst(texts: seq<string>, s: string)
    requires texts != [] ==> texts[0] != "" && KindOfChar(texts[0][0]) != 6
    ensures var text := Items(texts) + "]" + s;
      text != "" && (texts == [] <==> text[0] == ']')
  {
    if texts == [] {
      assert Items(texts) + "]" + s == "]" + s;
    } else {
      TextsSplit(texts, s);
    }
  }

  lemma {:induction false} ItemsUnique(a: Json, k: nat, ys: seq<Json>, s: string, t: string)
    requires Wf(a) && a.Arr? && k <= |a.items| && forall j :: 0 <= j < |ys| ==> Wf(ys[j])
    requires Items(PrintItems(a.items[k..])) + "]" + s == Items(PrintItems(ys)) + "]" + t
    ensures PrintItems(a.items[k..]) == PrintItems(ys) && s == t
    decreases a, 0, |a.items| - k
  {
    var xs := a.items[k..];
    var ps, qs := PrintItems(xs), PrintItems(ys);
    if xs != [] { FirstChar(xs[0]); }
    if ys != [] { FirstChar(ys[0]); }
    TextsFirst(ps, s);
    TextsFirst(qs, t);
    if ps == [] {
      assert "" + "]" == "]";
      Prefixes("]", s, "]", t);
    } else {
      TextsSplit(ps, s);
      TextsSplit(qs, t);
      assert xs[0] == a.items[k];
      Unique(a.items[k], ys[0], AfterText(ps, s), AfterText(qs, t));
      assert AfterText(ps, s)[0] == AfterText(qs, t)[0];
      if |xs| == 1 {
        Prefixes("]", s, "]", t);
      } else {
        Prefixes(",", AfterText(ps, s)[1..], ",", AfterText(qs, t)[1..]);
        assert xs[1..] == a.items[k + 1..];
        ItemsUnique(a, k + 1, ys[1..], s, t);
      }
      assert ps == [ps[0]] + ps[1..] && qs == [qs[0]] + qs[1..];
    }
  }

  /** Every entry of `ps` is a printed member of `v`. */
  ghost predicate PrintedFrom(ps: seq<Entry>, v: Json)
    requires v.Obj?
  {
    forall p :: p in ps ==> p in PrintMembers(v.members)
  }

  lemma Printed(ps: seq<Entry>, v: Json) returns (i: nat)
    requires v.Obj? && ps != [] && PrintedFrom(ps, v)
    ensures i < |v.members| && ps[0] == Member(v.members[i].key, Print(v.members[i].value))
  {
    assert ps[0] in ps;
    i :| 0 <= i < |PrintMembers(v.members)| && PrintMembers(v.members)[i] == ps[0];
  }

  function AfterMember(ps: seq<Entry>, s: string): string
    requires ps != []
  {
    if |ps| == 1 then "}" + s else "," + (Members(ps[1..]) + "}" + s)
  }

  lemma {:induction false} MembersSplit(ps: seq<Entry>, s: string)
    requires ps != []
    ensures Members(ps) + "}" + s
         == "\"" + (EscapeAll(ps[0].key) + "\"" + (":" + (ps[0].value + AfterMember(ps, s))))
    ensures Follows(AfterMember(ps, s))
  {
    FirstPair(ps, s);
    OpenPair(ps[0], AfterMember(ps, s));
  }

  lemma FirstPair(ps: seq<Entry>, s: string)
    requires ps != []
    ensures Members(ps) + "}" + s == Pair(ps[0]) + AfterMember(ps, s)
  {
    if |ps| > 1 {
      Regroup(Pair(ps[0]), ",", Members(ps[1..]), "}", s);
    }
  }

  lemma Regroup(a: string, b: string, c: string, d: string, e: string)
    ensures a + b + c + d + e == a + (b + (c + d + e))
  {
  }

  lemma OpenPair(m: Entry, rest: string)
    ensures Pair(m) + rest == "\"" + (EscapeAll(m.key) + "\"" + (":" + (m.value + rest)))
  {
  }

  lemma MembersFirst(ps: seq<Entry>, s: string)
    ensures var text := Members(ps) + "}" + s;
      text != "" && (ps == [] <==> text[0] == '}')
  {
    if ps == [] {
      assert Members(ps) + "}" + s == "}" + s;
    } else {
      MembersSplit(ps, s);
    }
  }

  lemma {:induction false} MembersUnique(a: Json, ps: seq<Entry>, b: Json, qs: seq<Entry>, s: string, t: string)
    requires Wf(a) && a.Obj? && Wf(b) && b.Obj? && PrintedFrom(ps, a) && PrintedFrom(qs, b)
    requires Members(ps) + "}" + s == Members(qs) + "}" + t
    ensures ps == qs && s == t
    decreases a, 0, |ps|
  {
    MembersFirst(ps, s);
    MembersFirst(qs, t);
    if ps == [] {
      assert "" + "}" == "}";
      Prefixes("}", s, "}", t);
    } else {
      var i := Printed(ps, a);
      var j := Printed(qs, b);
      var p, q := AfterMember(ps, s), AfterMember(qs, t);
      HeadsEqual(ps, qs, s, t);
      Unique(a.members[i].value, b.members[j].value, p, q);
      assert p[0] == q[0];
      if |ps| == 1 {
        Prefixes("}", s, "}", t);
      } else {
        Prefixes(",", p[1..], ",", q[1..]);
        MembersUnique(a, ps[1..], b, qs[1..], s, t);
      }
      assert ps == [ps[0]] + ps[1..] && qs == [qs[0]] + qs[1..];
    }
  }

  lemma {:induction false} HeadsEqual(ps: seq<Entry>, qs: seq<Entry>, s: string, t: string)
    requires ps != [] && qs != [] && Members(ps) + "}" + s == Members(qs) + "}" + t
    ensures ps[0].key == qs[0].key
    ensures ps[0].value + AfterMember(ps, s) == qs[0].value + AfterMember(qs, t)
    ensures Follows(AfterMember(ps, s)) && Follows(AfterMember(qs, t))
  {
    MembersSplit(ps, s);
    MembersSplit(qs, t);
    var p, q := ps[0].value + AfterMember(ps, s), qs[0].value + AfterMember(qs, t);
    Prefixes("\"", EscapeAll(ps[0].key) + "\"" + (":" + p), "\"", EscapeAll(qs[0].key) + "\"" + (":" + q));
    EscapeAllUnique(ps[0].key, qs[0].key, ":" + p, ":" + q);
    Prefixes(":", p, ":", q);
  }

  // ---------- Canonical ----------

  lemma PrintMembersDistinct(ms: seq<Member<Json>>)
    requires DistinctKeys(ms)
    ensures DistinctKeys(PrintMembers(ms))
  {
  }

  lemma SortedAlike(ps: seq<Entry>, qs: seq<Entry>)
    requires DistinctKeys(ps) && DistinctKeys(qs) && forall x :: x in ps <==> x in qs
    ensures SortMembers(ps) == SortMembers(qs)
  {
    SortContents(ps);
    SortContents(qs);
    SortIncreasing(ps);
    SortIncreasing(qs);
    IncreasingUnique(SortMembers(ps), SortMembers(qs));
  }

  lemma {:induction false} SamePrintsAlike(a: Json, b: Json)
    requires Wf(a) && Wf(b) && Same(a, b)
    ensures Print(a) == Print(b)
    decreases a, 1
  {
    match a
    case Arr(xs) =>
      forall i | 0 <= i < |xs| ensures Print(xs[i]) == Print(b.items[i]) {
        SamePrintsAlike(xs[i], b.items[i]);
      }
      assert PrintItems(xs) == PrintItems(b.items);
    case Obj(ms) =>
      SameMembersPrintAlike(a, b);
      PrintMembersDistinct(ms);
      PrintMembersDistinct(b.members);
      SortedAlike(PrintMembers(ms), PrintMembers(b.members));
    case _ =>
  }

  lemma {:induction false} SameMembersPrintAlike(a: Json, b: Json)
    requires Wf(a) && Wf(b) && a.Obj? && Same(a, b)
    ensures forall x :: x in PrintMembers(a.members) <==> x in PrintMembers(b.members)
    decreases a, 0, 2
  {
    forall x | x in PrintMembers(a.members) ensures x in PrintMembers(b.members) {
      var i: nat :| i < |PrintMembers(a.members)| && PrintMembers(a.members)[i] == x;
      PrintedThere(a, b, i);
    }
    forall x | x in PrintMembers(b.members) ensures x in PrintMembers(a.members) {
      var j: nat :| j < |PrintMembers(b.members)| && PrintMembers(b.members)[j] == x;
      PrintedHere(a, b, j);
    }
  }

  lemma {:induction false} PrintedThere(a: Json, b: Json, i: nat)
    requires Wf(a) && Wf(b) && a.Obj? && Same(a, b) && i < |a.members|
    ensures b.Obj? && PrintMembers(a.members)[i] in PrintMembers(b.members)
    decreases a, 0, 1
  {
    assert FoundIn(a.members[i].key, a.members[i].value, b.members);
    var j :| 0 <= j < |b.members| && a.members[i].key == b.members[j].key
             && Same(a.members[i].value, b.members[j].value);
    MemberPrintsAlike(a, b, i, j);
  }

  lemma {:induction false} PrintedHere(a: Json, b: Json, j: nat)
    requires Wf(a) && Wf(b) && a.Obj? && b.Obj? && Same(a, b) && j < |b.members|
    ensures PrintMembers(b.members)[j] in PrintMembers(a.members)
    decreases a, 0, 1
  {
    assert Provides(a, b.members[j]);
    var i :| 0 <= i < |a.members| && a.members[i].key == b.members[j].key
             && Same(a.members[i].value, b.members[j].value);
    MemberPrintsAlike(a, b, i, j);
  }

  lemma {:induction false} MemberPrintsAlike(a: Json, b: Json, i: nat, j: nat)
    requires Wf(a) && Wf(b) && a.Obj? && b.Obj? && i < |a.members| && j < |b.members|
    requires a.members[i].key == b.members[j].key && Same(a.members[i].value, b.members[j].value)
    ensures PrintMembers(a.members)[i] == PrintMembers(b.members)[j]
    decreases a, 0, 0
  {
    SamePrintsAlike(a.members[i].value, b.members[j].value);
  }

  /** Objects that print alike have the same printed members. */
  lemma MembersPrintAlike(a: Json, b: Json)
    requires Wf(a) && Wf(b) && a.Obj? && b.Obj? && Print(a) == Print(b)
    ensures forall x :: x in PrintMembers(a.members) <==> x in PrintMembers(b.members)
  {
    var ps, qs := SortMembers(PrintMembers(a.members)), SortMembers(PrintMembers(b.members));
    Strip("{", Members(ps), "}", "", Members(qs), "");
    SortContents(PrintMembers(a.members));
    SortContents(PrintMembers(b.members));
    MembersUnique(a, ps, b, qs, "", "");
  }

  lemma ItemsPrintAlike(a: Json, b: Json)
    requires Wf(a) && Wf(b) && a.Arr? && b.Arr? && Print(a) == Print(b)
    ensures PrintItems(a.items) == PrintItems(b.items)
  {
    Strip("[", Items(PrintItems(a.items)), "]", "", Items(PrintItems(b.items)), "");
    assert a.items[0..] == a.items;
    ItemsUnique(a, 0, b.items, "", "");
  }

  lemma {:induction false} PrintedAlikeSame(a: Json, b: Json)
    requires Wf(a) && Wf(b) && Print(a) == Print(b)
    ensures Same(a, b)
    decreases a, 1
  {
    SameKind(a, b, "", "");
    match a
    case Null =>
    case Bool(_) => assert Print(a)[0] == Print(b)[0];
    case Number(_) =>
    case Str(s) =>
      Strip("\"", EscapeAll(s), "\"", "", EscapeAll(b.s), "");
      EscapeAllUnique(s, b.s, "", "");
    case Arr(xs) => ArraysPrintedAlikeSame(a, b);
    case Obj(ms) => ObjectsPrintedAlikeSame(a, b);
  }

  lemma {:induction false} ArraysPrintedAlikeSame(a: Json, b: Json)
    requires Wf(a) && Wf(b) && Print(a) == Print(b) && a.Arr? && b.Arr?
    ensures Same(a, b)
    decreases a, 0
  {
    var xs, ys := a.items, b.items;
    ItemsPrintAlike(a, b);
    assert |PrintItems(xs)| == |PrintItems(ys)|;
    forall i | 0 <= i < |xs| ensures Same(xs[i], ys[i]) {
      assert PrintItems(xs)[i] == PrintItems(ys)[i];
      PrintedAlikeSame(xs[i], ys[i]);
    }
  }

  lemma {:induction false} ObjectsPrintedAlikeSame(a: Json, b: Json)
    requires Wf(a) && Wf(b) && Print(a) == Print(b) && a.Obj? && b.Obj?
    ensures Same(a, b)
    decreases a, 0, 2
  {
    MembersPrintAlike(a, b);
    forall i: nat | i < |a.members| ensures FoundIn(a.members[i].key, a.members[i].value, b.members) {
      MatchThere(a, b, i);
    }
    forall j: nat | j < |b.members| ensures Provides(a, b.members[j]) {
      MatchHere(a, b, j);
    }
  }

  lemma {:induction false} MatchThere(a: Json, b: Json, i: nat)
    requires Wf(a) && Wf(b) && a.Obj? && b.Obj? && i < |a.members|
    requires forall x :: x in PrintMembers(a.members) <==> x in PrintMembers(b.members)
    ensures FoundIn(a.members[i].key, a.members[i].value, b.members)
    decreases a, 0, 1
  {
    var j := Twin(a.members, b.members, i);
    MembersPrintedAlikeSame(a, b, i, j);
  }

  lemma {:induction false} MatchHere(a: Json, b: Json, j: nat)
    requires Wf(a) && Wf(b) && a.Obj? && b.Obj? && j < |b.members|
    requires forall x :: x in PrintMembers(a.members) <==> x in PrintMembers(b.members)
    ensures Provides(a, b.members[j])
    decreases a, 0, 1
  {
    var i := Twin(b.members, a.members, j);
    MembersPrintedAlikeSame(a, b, i, j);
  }

  /** A member with the same printed form on the other side. */
  lemma {:induction false} Twin(ms: seq<Member<Json>>, ns: seq<Member<Json>>, i: nat) returns (j: nat)
    requires i < |ms| && forall x :: x in PrintMembers(ms) <==> x in PrintMembers(ns)
    ensures j < |ns| && PrintMembers(ns)[j] == PrintMembers(ms)[i]
  {
    assert PrintMembers(ms)[i] in PrintMembers(ns);
    j :| 0 <= j < |PrintMembers(ns)| && PrintMembers(ns)[j] == PrintMembers(ms)[i];
  }

  lemma {:induction false} MembersPrintedAlikeSame(a: Json, b: Json, i: nat, j: nat)
    requires Wf(a) && Wf(b) && a.Obj? && b.Obj? && i < |a.members| && j < |b.members|
    requires PrintMembers(a.members)[i] == PrintMembers(b.members)[j]
    ensures a.members[i].key == b.members[j].key && Same(a.members[i].value, b.members[j].value)
    decreases a, 0, 0
  {
    PrintedAlikeSame(a.members[i].value, b.members[j].value);
  }

  /** Main result: two values print to the same text exactly when they are equal up to the order of object keys. */
  lemma {:induction false} TextIsCanonical(a: Json, b: Json)
    requires Wf(a) && Wf(b)
    ensures Print(a) == Print(b) <==> Same(a, b)
  {
    if Print(a) == Print(b) { PrintedAlikeSame(a, b); }
    if Same(a, b) { SamePrintsAlike(a, b); }
  }

  // ---------- build_cache_key ----------

  function Digits(n: nat): (text: string)
    ensures text != "" && '0' <= text[0] <= '9' && (n < 10 <==> |text| == 1)
    ensures forall c :: c in text ==> '0' <= c <= '9'
  {
    if n < 10 then ["0123456789"[n]] else Digits(n / 10) + ["0123456789"[n % 10]]
  }

  function Decimal(n: int): string {
    if n < 0 then "-" + Digits(-n) else Digits(n)
  }

  /** The number that a decimal text denotes. */
  function Value(digits: string): nat {
    if digits == "" then 0
    else 10 * Value(digits[..|digits| - 1]) + DigitValue(digits[|digits| - 1])
  }

  /** It is the number that was printed, with no zero in front. */
  lemma {:induction false} DigitsDenote(n: nat)
    ensures Value(Digits(n)) == n && (Digits(n)[0] == '0' <==> n == 0)
  {
    var text := Digits(n);
    if n >= 10 {
      DigitsDenote(n / 10);
      assert text[..|text| - 1] == Digits(n / 10);
    } else {
      assert text[..0] == "";
    }
  }

  lemma {:induction false} DigitsInjective(m: nat, n: nat)
    requires Digits(m) == Digits(n)
    ensures m == n
  {
    var digits := "0123456789";
    assert Digits(m)[|Digits(m)| - 1] == digits[m % 10] && Digits(n)[|Digits(n)| - 1] == digits[n % 10];
    assert m % 10 == n % 10;
    if m >= 10 && n >= 10 {
      Prefixes(Digits(m / 10), [digits[m % 10]], Digits(n / 10), [digits[n % 10]]);
      assert |Digits(m / 10)| == |Digits(n / 10)|;
      DigitsInjective(m / 10, n / 10);
    }
  }

  lemma DecimalInjective(m: int, n: int)
    requires Decimal(m) == Decimal(n)
    ensures m == n
  {
    if m < 0 && n < 0 {
      assert Decimal(m)[1..] == Digits(-m) && Decimal(n)[1..] == Digits(-n);
      DigitsInjective(-m, -n);
    } else if m >= 0 && n >= 0 {
      DigitsInjective(m, n);
    }
  }

  /** A negative number is printed as the minus sign and its absolute value. */
  lemma DecimalDenotes(n: int)
    ensures n >= 0 ==> Value(Decimal(n)) == n
    ensures n < 0 ==> Decimal(n)[0] == '-' && Value(Decimal(n)[1..]) == -n
  {
    DigitsDenote(if n < 0 then -n else n);
    if n < 0 { assert Decimal(n)[1..] == Digits(-n); }
  }

  /** The text that is hashed: a list of the body and, if there is a namespace, that. */
  lemma KeyTextSays(body: Json, name: string, id: int)
    ensures CacheText(body, None) == "[" + Print(body) + "]"
    ensures CacheText(body, Some(OfName(name))) == "[" + (Print(body) + "," + Print(Str(name))) + "]"
    ensures CacheText(body, Some(OfId(id))) == "[" + (Print(body) + "," + Decimal(id)) + "]"
  {
    forall more: Json ensures Print(Arr([body, more])) == "[" + (Print(body) + "," + Print(more)) + "]" {
      assert [body, more][1..] == [more] && [more][1..] == [];
      assert PrintItems([body, more]) == [Print(body), Print(more)];
      assert [Print(body), Print(more)][1..] == [Print(more)] && Items([Print(more)]) == Print(more);
    }
    assert [body][1..] == [];
    assert [body] + [] == [body];
    assert PrintItems([body]) == [Print(body)];
    assert [body] + [Str(name)] == [body, Str(name)] && [body] + [Number(Decimal(id))] == [body, Number(Decimal(id))];
  }

  /** Whose entry it is: the id of a virtual key, or a name. */
  datatype Namespace = OfId(id: int) | OfName(name: string)

  function NamespaceJson(namespace: Namespace): Json {
    match namespace
    case OfId(id) => Number(Decimal(id))
    case OfName(name) => Str(name)
  }

  /** The body, and the namespace as a second element if there is one. */
  function KeyParts(body: Json, namespace: Option<Namespace>): Json {
    Arr([body] + match namespace case Some(n) => [NamespaceJson(n)] case None => [])
  }

  function CacheText(body: Json, namespace: Option<Namespace>): string {
    Print(KeyParts(body, namespace))
  }

  lemma KeyPartsWf(body: Json, namespace: Option<Namespace>)
    requires Wf(body)
    ensures Wf(KeyParts(body, namespace))
  {
    if namespace.Some? && namespace.value.OfId? {
      var text := Decimal(namespace.value.id);
      assert text[0] in text;
      assert Lexeme(text);
    }
  }

  /** Main result: cache keys are built from the same text exactly for the same body under the same namespace. */
  lemma {:induction false} CacheTextSeparates(body1: Json, ns1: Option<Namespace>, body2: Json, ns2: Option<Namespace>)
    requires Wf(body1) && Wf(body2)
    ensures CacheText(body1, ns1) == CacheText(body2, ns2) <==> Same(body1, body2) && ns1 == ns2
  {
    KeyPartsWf(body1, ns1);
    KeyPartsWf(body2, ns2);
    var a, b := KeyParts(body1, ns1), KeyParts(body2, ns2);
    TextIsCanonical(a, b);
    assert a.items[0] == body1 && b.items[0] == body2;
    if ns1.Some? && ns2.Some? && Same(a, b) {
      assert Same(a.items[1], b.items[1]);
      if ns1.value.OfId? && ns2.value.OfId? {
        DecimalInjective(ns1.value.id, ns2.value.id);
      }
    }
  }
}
