/**
 * The form decoding the ingestion handler relies on: url.ParseQuery over an
 * "application/x-www-form-urlencoded" body, QueryUnescape, and Values.Get.
 * Strings are read as byte strings: a character stands for one byte.
 */
module Form {

  import opened Wrappers

  /** url.Values: every key with the values given for it, in order. */
  type Values = map<string, seq<string>>

  /** Values.Get: the first value of a key, or "" when the key has none. */
  function Get(v: Values, key: string): string {
    if key in v && |v[key]| > 0 then v[key][0] else ""
  }

  /** Values.Add: append one more value to a key. */
  function Add(m: Values, key: string, value: string): Values {
    m[key := (if key in m then m[key] else []) + [value]]
  }

  /** Values.Set: replace all values of a key by one. */
  function Set(m: Values, key: string, value: string): Values {
    m[key := [value]]
  }

  predicate IsHex(c: char) {
    '0' <= c <= '9' || 'a' <= c <= 'f' || 'A' <= c <= 'F'
  }

  function HexValue(c: char): (d: nat)
    requires IsHex(c)
    ensures d < 16
  {
    if '0' <= c <= '9' then (c as int) - ('0' as int)
    else if 'a' <= c <= 'f' then (c as int) - ('a' as int) + 10
    else (c as int) - ('A' as int) + 10
  }

  /** The upper-case hex digit that QueryEscape writes. */
  function HexDigit(d: nat): (c: char)
    requires d < 16
    ensures IsHex(c) && HexValue(c) == d
  {
    if d < 10 then (d + '0' as int) as char else (d - 10 + 'A' as int) as char
  }

  /**
   * QueryUnescape: "%XY" with two hex digits is the byte 0xXY, '+' is a space,
   * every other character stands for itself; a '%' not followed by two hex
   * digits is an error (None).
   */
  function Unescape(s: string): Option<string> {
    if s == [] then Some([])
    else if s[0] == '%' then
      if |s| >= 3 && IsHex(s[1]) && IsHex(s[2]) then
        match Unescape(s[3..])
        case None => None
        case Some(t) => Some([(HexValue(s[1]) * 16 + HexValue(s[2])) as char] + t)
      else None
    else
      match Unescape(s[1..])
      case None => None
      case Some(t) => Some([if s[0] == '+' then ' ' else s[0]] + t)
  }

  /** strings.Cut on one separator character: the text before its first occurrence and the text after. */
  function Cut(s: string, c: char): (r: (string, string))
    ensures c in s ==> s == r.0 + [c] + r.1 && c !in r.0
    ensures c !in s ==> r == (s, "")
  {
    if s == [] then ("", "")
    else if s[0] == c then ("", s[1..])
    else
      var (before, after) := Cut(s[1..], c);
      assert s == [s[0]] + s[1..];
      ([s[0]] + before, after)
  }

  /**
   * url.ParseQuery: the body is split at '&'; a piece holding ';' is an
   * error, an empty piece is skipped, and every other piece is split at its
   * first '=' into a key and a value, both unescaped, the value appended to
   * the key's values. Any error makes the whole parse an error (None).
   */
  function ParseQueryInto(m: Values, q: string): Option<Values>
    decreases |q|
  {
    if q == [] then Some(m)
    else
      var (piece, rest) := Cut(q, '&');
      if ';' in piece then None
      else if piece == [] then ParseQueryInto(m, rest)
      else
        var (k, v) := Cut(piece, '=');
        match Unescape(k)
        case None => None
        case Some(key) =>
          match Unescape(v)
          case None => None
          case Some(value) => ParseQueryInto(Add(m, key, value), rest)
  }

  function ParseQuery(q: string): Option<Values> {
    ParseQueryInto(map[], q)
  }

  // ---------------------------------------------------------------------------
  // The partner of ParseQuery: an order-preserving form encoder
  // ---------------------------------------------------------------------------

  /** Characters QueryEscape leaves as they are. */
  predicate Unreserved(c: char) {
    'a' <= c <= 'z' || 'A' <= c <= 'Z' || '0' <= c <= '9' || c == '-' || c == '_' || c == '.' || c == '~'
  }

  predicate IsByteString(s: string) {
    forall i :: 0 <= i < |s| ==> s[i] as int < 256
  }

  /** How QueryEscape writes one byte: unreserved as is, a space as '+', any other as "%XY". */
  function EscapeChar(c: char): (r: string)
    requires c as int < 256
    ensures '&' !in r && ';' !in r && '=' !in r
  {
    if Unreserved(c) then [c]
    else if c == ' ' then "+"
    else "%" + [HexDigit(c as int / 16), HexDigit(c as int % 16)]
  }

  /** QueryEscape: every byte escaped in turn. */
  function Escape(s: string): (r: string)
    requires IsByteString(s)
    ensures '&' !in r && ';' !in r && '=' !in r
  {
    if s == [] then []
    else
      var first := EscapeChar(s[0]);
      assert IsByteString(s[1..]) by {
        forall i | 0 <= i < |s[1..]| ensures s[1..][i] as int < 256 { assert s[1..][i] == s[i + 1]; }
      }
      first + Escape(s[1..])
  }

  /** Unescaping reads one escaped byte back and goes on with the rest. */
  lemma UnescapeChar(c: char, rest: string)
    requires c as int < 256 && Unescape(rest).Some?
    ensures Unescape(EscapeChar(c) + rest) == Some([c] + Unescape(rest).value)
  {
    var e := EscapeChar(c) + rest;
    if Unreserved(c) {
      assert e[1..] == rest && e[0] == c && c != '%' && c != '+';
    } else if c == ' ' {
      assert e[1..] == rest && e[0] == '+';
    } else {
      var hi, lo := HexDigit(c as int / 16), HexDigit(c as int % 16);
      assert e[0] == '%' && e[1] == hi && e[2] == lo && e[3..] == rest;
      assert (HexValue(hi) * 16 + HexValue(lo)) as char == c;
    }
  }

  /** Unescaping what Escape writes gives back the string. */
  lemma {:induction false} UnescapeEscape(s: string)
    requires IsByteString(s)
    ensures Unescape(Escape(s)) == Some(s)
  {
    if s != [] {
      var tail := s[1..];
      assert IsByteString(tail) by {
        forall i | 0 <= i < |tail| ensures tail[i] as int < 256 { assert tail[i] == s[i + 1]; }
      }
      UnescapeEscape(tail);
      assert Escape(s) == EscapeChar(s[0]) + Escape(tail);
      UnescapeChar(s[0], Escape(tail));
      assert s == [s[0]] + tail;
    }
  }

  /** One "key=value" piece as an encoder writes it. */
  function Piece(key: string, value: string): string
    requires IsByteString(key) && IsByteString(value)
  {
    Escape(key) + "=" + Escape(value)
  }

  predicate AllByteStrings(pairs: seq<(string, string)>) {
    forall i :: 0 <= i < |pairs| ==> IsByteString(pairs[i].0) && IsByteString(pairs[i].1)
  }

  /** The pieces of all pairs, joined by '&'. */
  function Encode(pairs: seq<(string, string)>): string
    requires AllByteStrings(pairs)
  {
    if pairs == [] then ""
    else if |pairs| == 1 then Piece(pairs[0].0, pairs[0].1)
    else Piece(pairs[0].0, pairs[0].1) + "&" + Encode(pairs[1..])
  }

  /** The values of a list of pairs, collected key by key in order. */
  function Collect(m: Values, pairs: seq<(string, string)>): Values
    decreases |pairs|
  {
    if pairs == [] then m else Collect(Add(m, pairs[0].0, pairs[0].1), pairs[1..])
  }

  /** A string splits at the first occurrence of a character in one way only. */
  lemma CutOf(a: string, c: char, b: string)
    requires c !in a
    ensures Cut(a + [c] + b, c) == (a, b)
  {
    var s := a + [c] + b;
    assert s[|a|] == c;
    var r := Cut(s, c);
    assert forall i :: 0 <= i < |a| ==> s[i] == a[i];
    assert forall i :: 0 <= i < |r.0| ==> s[i] == r.0[i];
    assert s[|r.0|] == c;
    assert |r.0| == |a|;
    assert r.0 == s[..|r.0|] == a;
    assert r.1 == s[|a| + 1..] == b;
  }

  lemma PieceParses(key: string, value: string)
    requires IsByteString(key) && IsByteString(value)
    ensures var p := Piece(key, value);
      p != [] && ';' !in p && '&' !in p && Cut(p, '=') == (Escape(key), Escape(value))
  {
    CutOf(Escape(key), '=', Escape(value));
  }

  /** ParseQuery reads back, key by key and in order, every list of pairs Encode writes. */
  lemma {:induction false} ParseEncode(m: Values, pairs: seq<(string, string)>)
    requires AllByteStrings(pairs)
    ensures ParseQueryInto(m, Encode(pairs)) == Some(Collect(m, pairs))
    decreases |pairs|
  {
    if pairs != [] {
      var (k, v) := pairs[0];
      PieceParses(k, v);
      UnescapeEscape(k);
      UnescapeEscape(v);
      var p := Piece(k, v);
      if |pairs| == 1 {
        assert Cut(p, '&') == (p, "");
        assert Collect(Add(m, k, v), pairs[1..]) == Add(m, k, v);
      } else {
        assert AllByteStrings(pairs[1..]) by {
          forall i | 0 <= i < |pairs[1..]|
            ensures IsByteString(pairs[1..][i].0) && IsByteString(pairs[1..][i].1)
          {
            assert pairs[1..][i] == pairs[i + 1];
          }
        }
        CutOf(p, '&', Encode(pairs[1..]));
        ParseEncode(Add(m, k, v), pairs[1..]);
      }
    }
  }

  /** A body with a ';' anywhere in it is refused. */
  lemma {:induction false} SemicolonRefused(m: Values, q: string)
    requires ';' in q
    ensures ParseQueryInto(m, q) == None
    decreases |q|
  {
    var (piece, rest) := Cut(q, '&');
    if ';' !in piece {
      assert ';' in rest;
      if piece == [] {
        SemicolonRefused(m, rest);
      } else {
        var (k, v) := Cut(piece, '=');
        if Unescape(k).Some? && Unescape(v).Some? {
          SemicolonRefused(Add(m, Unescape(k).value, Unescape(v).value), rest);
        }
      }
    }
  }

  /** A '%' that is not followed by two hex digits is refused. */
  lemma BadEscapeRefused()
    ensures ParseQuery("a=%4") == None
  {
    assert Cut("a=%4", '&') == ("a=%4", "");
    assert Cut("a=%4", '=') == ("a", "%4") by { CutOf("a", '=', "%4"); }
    assert Unescape("a") == Some("a") by { assert "a"[1..] == []; }
  }
}
