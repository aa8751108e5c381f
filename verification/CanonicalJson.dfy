/** The text that `json.dumps` makes of strings, integers and flat objects with
    sorted keys, no spaces and ASCII output, and that it is unambiguous: the text of
    a value is never a proper beginning of the text of another. */
module CanonicalJson {
  import opened StringOrder

  // ---- texts ----------------------------------------------------------------

  lemma Cut(head: string, a: string, b: string)
    requires head + a == head + b
    ensures a == b
  {
    assert (head + a)[|head|..] == a && (head + b)[|head|..] == b;
  }

  lemma Regroup(head: string, p: string, q: string, x: string)
    ensures head + (p + q) + x == head + (p + (q + x))
  {
  }

  // ---- characters -----------------------------------------------------------

  function Hex(n: nat): char
    requires n < 16
  {
    if n < 10 then ('0' as int + n) as char else ('a' as int + n - 10) as char
  }

  function Hex4(n: nat): string
    requires n < 0x1_0000
  {
    [Hex(n / 4096), Hex(n / 256 % 16), Hex(n / 16 % 16), Hex(n % 16)]
  }

  /** The characters with an escape of their own, as (code, letter). */
  function Short(n: int): char {
    if n == 34 then '"'
    else if n == 92 then '\\'
    else if n == 10 then 'n'
    else if n == 13 then 'r'
    else if n == 9 then 't'
    else if n == 8 then 'b'
    else if n == 12 then 'f'
    else 'u'
  }

  /** Characters outside the basic plane become a pair of surrogates. */
  function EscapeChar(c: char): string {
    var n := c as int;
    if Short(n) != 'u' then ['\\', Short(n)]
    else if 32 <= n <= 126 then [c]
    else if n < 0x1_0000 then ['\\', 'u'] + Hex4(n)
    else ['\\', 'u'] + Hex4(0xD800 + (n - 0x1_0000) / 0x400) + ['\\', 'u'] + Hex4(0xDC00 + (n - 0x1_0000) % 0x400)
  }

  lemma HexInjective(m: nat, n: nat)
    requires m < 16 && n < 16 && Hex(m) == Hex(n)
    ensures m == n
  {
  }

  lemma Hex4Injective(m: nat, n: nat)
    requires m < 0x1_0000 && n < 0x1_0000 && Hex4(m) == Hex4(n)
    ensures m == n
  {
    assert Hex4(m)[0] == Hex4(n)[0] && Hex4(m)[1] == Hex4(n)[1] && Hex4(m)[2] == Hex4(n)[2] && Hex4(m)[3] == Hex4(n)[3];
    HexInjective(m / 4096, n / 4096);
    HexInjective(m / 256 % 16, n / 256 % 16);
    HexInjective(m / 16 % 16, n / 16 % 16);
    HexInjective(m % 16, n % 16);
    FourDigits(m);
    FourDigits(n);
  }

  lemma FourDigits(n: nat)
    ensures n == n / 4096 * 4096 + n / 256 % 16 * 256 + n / 16 % 16 * 16 + n % 16
  {
    assert n / 16 / 16 == n / 256 && n / 256 / 16 == n / 4096;
  }

  lemma HexText(c: char, x: string)
    requires Short(c as int) == 'u' && (c as int < 32 || c as int > 126)
    ensures var n := c as int;
            var t := EscapeChar(c) + x;
            && |t| >= 6 && t[0] == '\\' && t[1] == 'u'
            && (n < 0x1_0000 ==> t[2..6] == Hex4(n) && t[6..] == x)
            && (n >= 0x1_0000 ==>
                  |t| >= 12 && t[2..6] == Hex4(0xD800 + (n - 0x1_0000) / 0x400)
                  && t[8..12] == Hex4(0xDC00 + (n - 0x1_0000) % 0x400) && t[12..] == x)
  {
  }

  /** No escape is the beginning of another. */
  lemma EscapeCharUnique(c: char, x: string, d: char, y: string)
    requires EscapeChar(c) + x == EscapeChar(d) + y
    ensures c == d && x == y
  {
    var t := EscapeChar(c) + x;
    var u := EscapeChar(d) + y;
    if Short(c as int) == 'u' && Short(d as int) == 'u' && t[0] == '\\' {
      HexText(c, x);
      HexText(d, y);
      HexUnique(c, x, d, y);
    } else {
      assert t[0] == u[0];
      if t[0] == '\\' {
        assert t[1] == u[1];
        assert t[2..] == x && u[2..] == y;
      } else {
        assert t[1..] == x && u[1..] == y;
      }
    }
  }

  lemma HexUnique(c: char, x: string, d: char, y: string)
    requires EscapeChar(c) + x == EscapeChar(d) + y
    requires Short(c as int) == 'u' && (c as int < 32 || c as int > 126)
    requires Short(d as int) == 'u' && (d as int < 32 || d as int > 126)
    ensures c == d && x == y
  {
    hide EscapeChar, Hex4, Short;
    HexText(c, x);
    HexText(d, y);
    CodeUnique(c as int, d as int);
  }

  /** The unit of a character in the basic plane, or the first of its two. */
  function HighUnit(n: nat): nat
    requires n < 0x11_0000
  {
    if n < 0x1_0000 then n else 0xD800 + (n - 0x1_0000) / 0x400
  }

  lemma CodeUnique(m: nat, n: nat)
    requires (m < 0xD800 || 0xE000 <= m < 0x11_0000) && (n < 0xD800 || 0xE000 <= n < 0x11_0000)
    requires Hex4(HighUnit(m)) == Hex4(HighUnit(n))
    requires m >= 0x1_0000 && n >= 0x1_0000 ==>
               Hex4(0xDC00 + (m - 0x1_0000) % 0x400) == Hex4(0xDC00 + (n - 0x1_0000) % 0x400)
    ensures m == n
  {
    hide Hex4;
    Hex4Injective(HighUnit(m), HighUnit(n));
    if m >= 0x1_0000 && n >= 0x1_0000 {
      Hex4Injective(0xDC00 + (m - 0x1_0000) % 0x400, 0xDC00 + (n - 0x1_0000) % 0x400);
    }
  }

  lemma EscapeCharNoQuote(c: char)
    ensures EscapeChar(c) != [] && EscapeChar(c)[0] != '"'
  {
  }

  // ---- strings --------------------------------------------------------------

  function Escaped(s: string): string {
    if s == [] then [] else EscapeChar(s[0]) + Escaped(s[1..])
  }

  function Quoted(s: string): string {
    ['"'] + Escaped(s) + ['"']
  }

  lemma EscapedStarts(s: string, x: string, y: string)
    requires s != []
    ensures Escaped(s) + ['"'] + x != Escaped([]) + ['"'] + y
  {
    hide EscapeChar;
    EscapeCharNoQuote(s[0]);
    assert (Escaped(s) + ['"'] + x)[0] == EscapeChar(s[0])[0];
    assert (Escaped([]) + ['"'] + y)[0] == '"';
  }

  lemma {:induction false} EscapedUnique(a: string, x: string, b: string, y: string)
    requires Escaped(a) + ['"'] + x == Escaped(b) + ['"'] + y
    ensures a == b && x == y
    decreases |a|
  {
    hide EscapeChar;
    var ta, tb := Escaped(a) + ['"'] + x, Escaped(b) + ['"'] + y;
    if a == [] && b == [] {
      assert ta[1..] == x && tb[1..] == y;
    } else if a == [] {
      EscapedStarts(b, y, x);
    } else if b == [] {
      EscapedStarts(a, x, y);
    } else {
      var ra, rb := Escaped(a[1..]) + ['"'] + x, Escaped(b[1..]) + ['"'] + y;
      assert ta == EscapeChar(a[0]) + ra && tb == EscapeChar(b[0]) + rb;
      EscapeCharUnique(a[0], ra, b[0], rb);
      EscapedUnique(a[1..], x, b[1..], y);
      assert a == [a[0]] + a[1..] && b == [b[0]] + b[1..];
    }
  }

  /** The text of a string tells the string and where it ends. */
  lemma QuotedUnique(a: string, x: string, b: string, y: string)
    requires Quoted(a) + x == Quoted(b) + y
    ensures a == b && x == y
  {
    hide Escaped;
    Cut("\"", Escaped(a) + ['"'] + x, Escaped(b) + ['"'] + y) by {
      assert Quoted(a) + x == "\"" + (Escaped(a) + ['"'] + x);
      assert Quoted(b) + y == "\"" + (Escaped(b) + ['"'] + y);
    }
    EscapedUnique(a, x, b, y);
  }

  // ---- integers -------------------------------------------------------------

  function Digits(n: nat): string {
    if n < 10 then [('0' as int + n) as char] else Digits(n / 10) + [('0' as int + n % 10) as char]
  }

  function Number(n: int): string {
    if n < 0 then ['-'] + Digits(-n) else Digits(n)
  }

  lemma {:induction false} DigitsUnique(m: nat, n: nat)
    requires Digits(m) == Digits(n)
    ensures m == n
  {
    var a, b := Digits(m), Digits(n);
    DigitsShape(m);
    DigitsShape(n);
    assert a[|a| - 1] == b[|b| - 1];
    if m >= 10 && n >= 10 {
      assert a[..|a| - 1] == Digits(m / 10) && b[..|b| - 1] == Digits(n / 10);
      DigitsUnique(m / 10, n / 10);
    }
  }

  lemma {:induction false} DigitsShape(n: nat)
    ensures Digits(n) != [] && Digits(n)[0] != '-' && (n < 10 <==> |Digits(n)| == 1)
    ensures Digits(n)[|Digits(n)| - 1] == ('0' as int + n % 10) as char
  {
    if n >= 10 {
      DigitsShape(n / 10);
    }
  }

  lemma NumberUnique(m: int, n: int)
    requires Number(m) == Number(n)
    ensures m == n
  {
    var a, b := Number(m), Number(n);
    if m < 0 {
      DigitsShape(-m);
      assert a[1..] == Digits(-m);
    } else {
      DigitsShape(m);
    }
    if n < 0 {
      DigitsShape(-n);
      assert b[1..] == Digits(-n);
    } else {
      DigitsShape(n);
    }
    assert a[0] == b[0];
    if m < 0 {
      DigitsUnique(-m, -n);
    } else {
      DigitsUnique(m, n);
    }
  }

  // ---- objects of strings, sorted by key --------------------------------------

  ghost predicate IsLeast(k: string, keys: set<string>) {
    k in keys && forall j | j in keys :: j == k || Less(k, j)
  }

  lemma {:induction false} LeastExists(keys: set<string>)
    requires keys != {}
    ensures exists k :: IsLeast(k, keys)
    decreases |keys|
  {
    var k :| k in keys;
    if keys == {k} {
      assert IsLeast(k, keys);
    } else {
      LeastExists(keys - {k});
      var rest :| IsLeast(rest, keys - {k});
      Trichotomy(k, rest);
      if Less(k, rest) {
        forall j | j in keys && j != k && j != rest ensures Less(k, j) {
          Transitive(k, rest, j);
        }
        assert IsLeast(k, keys);
      } else {
        assert IsLeast(rest, keys);
      }
    }
  }

  ghost function SortedKeys(keys: set<string>): seq<string>
    decreases |keys|
  {
    if keys == {} then []
    else
      LeastExists(keys);
      var k :| IsLeast(k, keys);
      [k] + SortedKeys(keys - {k})
  }

  lemma {:induction false} SortedKeysElements(keys: set<string>)
    ensures forall k :: k in SortedKeys(keys) <==> k in keys
    decreases |keys|
  {
    if keys != {} {
      LeastExists(keys);
      var rest := keys - {SortedKeys(keys)[0]};
      SortedKeysElements(rest);
      assert SortedKeys(keys) == [SortedKeys(keys)[0]] + SortedKeys(rest);
    }
  }

  /** The remaining members, each after a comma, and the closing brace. */
  function MoreMembers(keys: seq<string>, m: map<string, string>): string
    requires forall k | k in keys :: k in m
  {
    if keys == [] then "}" else [','] + (Member(keys[0], m[keys[0]]) + MoreMembers(keys[1..], m))
  }

  function Member(key: string, value: string): string {
    Quoted(key) + ([':'] + Quoted(value))
  }

  function Members(keys: seq<string>, m: map<string, string>): string
    requires forall k | k in keys :: k in m
  {
    if keys == [] then "{}" else ['{'] + (Member(keys[0], m[keys[0]]) + MoreMembers(keys[1..], m))
  }

  ghost function ObjectText(m: map<string, string>): string {
    SortedKeysElements(m.Keys);
    Members(SortedKeys(m.Keys), m)
  }

  lemma MemberUnique(k: string, v: string, x: string, l: string, w: string, y: string)
    requires Member(k, v) + x == Member(l, w) + y
    ensures k == l && v == w && x == y
  {
    hide Quoted;
    Regroup([], Quoted(k), [':'] + Quoted(v), x);
    Regroup([], Quoted(l), [':'] + Quoted(w), y);
    assert Member(k, v) + x == Quoted(k) + (([':'] + Quoted(v)) + x);
    assert Member(l, w) + y == Quoted(l) + (([':'] + Quoted(w)) + y);
    QuotedUnique(k, [':'] + Quoted(v) + x, l, [':'] + Quoted(w) + y);
    assert [':'] + Quoted(v) + x == [':'] + (Quoted(v) + x) && [':'] + Quoted(w) + y == [':'] + (Quoted(w) + y);
    Cut([':'], Quoted(v) + x, Quoted(w) + y);
    QuotedUnique(v, x, w, y);
  }

  /** The same keys with the same values. */
  predicate SameMembers(k1: seq<string>, m1: map<string, string>, k2: seq<string>, m2: map<string, string>)
    requires (forall k | k in k1 :: k in m1) && forall k | k in k2 :: k in m2
  {
    k1 == k2 && forall k | k in k1 :: m1[k] == m2[k]
  }

  lemma {:induction false} MoreMembersUnique(k1: seq<string>, m1: map<string, string>, x: string,
                                             k2: seq<string>, m2: map<string, string>, y: string)
    requires (forall k | k in k1 :: k in m1) && forall k | k in k2 :: k in m2
    requires MoreMembers(k1, m1) + x == MoreMembers(k2, m2) + y
    ensures SameMembers(k1, m1, k2, m2) && x == y
    decreases |k1|
  {
    hide Member;
    MoreMembersStart(k1, m1, x);
    MoreMembersStart(k2, m2, y);
    if k1 == [] {
      Cut("}", x, y);
    } else {
      var p, q := Member(k1[0], m1[k1[0]]), Member(k2[0], m2[k2[0]]);
      var a, b := MoreMembers(k1[1..], m1), MoreMembers(k2[1..], m2);
      Regroup(",", p, a, x);
      Regroup(",", q, b, y);
      Cut(",", p + (a + x), q + (b + y));
      MemberUnique(k1[0], m1[k1[0]], a + x, k2[0], m2[k2[0]], b + y);
      MoreMembersUnique(k1[1..], m1, x, k2[1..], m2, y);
      assert k1 == [k1[0]] + k1[1..] && k2 == [k2[0]] + k2[1..];
    }
  }

  lemma MoreMembersStart(keys: seq<string>, m: map<string, string>, x: string)
    requires forall k | k in keys :: k in m
    ensures (MoreMembers(keys, m) + x)[0] == '}' <==> keys == []
  {
    hide Member;
  }

  lemma MemberStarts(key: string, value: string, x: string)
    ensures (Member(key, value) + x)[0] == '"'
  {
  }

  lemma ObjectTextStarts(m: map<string, string>)
    ensures ObjectText(m) != [] && ObjectText(m)[0] == '{'
  {
    SortedKeysElements(m.Keys);
  }

  /** The text of an object tells the object and where it ends. */
  lemma ObjectTextUnique(m1: map<string, string>, x: string, m2: map<string, string>, y: string)
    requires ObjectText(m1) + x == ObjectText(m2) + y
    ensures m1 == m2 && x == y
  {
    hide Member, MoreMembers;
    SortedKeysElements(m1.Keys);
    SortedKeysElements(m2.Keys);
    var k1, k2 := SortedKeys(m1.Keys), SortedKeys(m2.Keys);
    MembersUnique(k1, m1, x, k2, m2, y);
    assert forall k :: k in m1.Keys <==> k in m2.Keys;
  }

  lemma MembersStart(keys: seq<string>, m: map<string, string>, x: string)
    requires forall k | k in keys :: k in m
    ensures |Members(keys, m) + x| >= 2 && ((Members(keys, m) + x)[1] == '}' <==> keys == [])
  {
    hide Member;
    if keys != [] {
      MemberStarts(keys[0], m[keys[0]], MoreMembers(keys[1..], m) + x);
      assert Members(keys, m) + x == ['{'] + (Member(keys[0], m[keys[0]]) + (MoreMembers(keys[1..], m) + x));
    }
  }

  lemma MembersUnique(k1: seq<string>, m1: map<string, string>, x: string,
                      k2: seq<string>, m2: map<string, string>, y: string)
    requires (forall k | k in k1 :: k in m1) && forall k | k in k2 :: k in m2
    requires Members(k1, m1) + x == Members(k2, m2) + y
    ensures SameMembers(k1, m1, k2, m2) && x == y
  {
    hide Member, MoreMembers;
    MembersStart(k1, m1, x);
    MembersStart(k2, m2, y);
    if k1 == [] {
      assert (Members(k1, m1) + x)[2..] == x && (Members(k2, m2) + y)[2..] == y;
    } else {
      SomeMembersUnique(k1, m1, x, k2, m2, y);
    }
  }

  lemma SomeMembersUnique(k1: seq<string>, m1: map<string, string>, x: string,
                          k2: seq<string>, m2: map<string, string>, y: string)
    requires (forall k | k in k1 :: k in m1) && (forall k | k in k2 :: k in m2) && k1 != [] && k2 != []
    requires Members(k1, m1) + x == Members(k2, m2) + y
    ensures SameMembers(k1, m1, k2, m2) && x == y
  {
    hide Member, MoreMembers;
    var p, q := Member(k1[0], m1[k1[0]]), Member(k2[0], m2[k2[0]]);
    var a, b := MoreMembers(k1[1..], m1), MoreMembers(k2[1..], m2);
    Regroup("{", p, a, x);
    Regroup("{", q, b, y);
    Cut("{", p + (a + x), q + (b + y));
    MemberUnique(k1[0], m1[k1[0]], a + x, k2[0], m2[k2[0]], b + y);
    MoreMembersUnique(k1[1..], m1, x, k2[1..], m2, y);
    assert k1 == [k1[0]] + k1[1..] && k2 == [k2[0]] + k2[1..];
  }
}
