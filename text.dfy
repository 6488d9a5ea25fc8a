/**
 * String helpers shared by the back end (PHP) and the browser code (JavaScript):
 * single-character replacement, ASCII case folding, trimming, substring search,
 * decimal rendering and the JavaScript `split`/`join` pair on one separator.
 */
module Text {

  datatype Option<T> = None | Some(value: T)

  // ---------------------------------------------------------------------------
  // Character replacement and case folding
  // ---------------------------------------------------------------------------

  /** `str_replace(from, to, s)` (PHP) or `s.replace(/from/g, to)` (JavaScript) for one character. */
  function Replace(s: string, from: char, to: char): string
  {
    seq(|s|, i requires 0 <= i < |s| => if s[i] == from then to else s[i])
  }

  lemma ReplaceRemoves(s: string, from: char, to: char)
    requires from != to
    ensures from !in Replace(s, from, to)
    ensures forall i :: 0 <= i < |s| && s[i] != from ==> Replace(s, from, to)[i] == s[i]
  {
    var r := Replace(s, from, to);
    assert forall i :: 0 <= i < |r| ==> r[i] != from;
  }

  predicate IsUpper(c: char) { 'A' <= c <= 'Z' }

  /** ASCII case folding, as PHP's `strcasecmp` does it. */
  function LowerChar(c: char): (r: char)
    ensures !IsUpper(r)
    ensures IsUpper(c) ==> r as int == c as int + 32
    ensures !IsUpper(c) ==> r == c
  {
    if IsUpper(c) then (c as int + 32) as char else c
  }

  function Lower(s: string): string
  {
    seq(|s|, i requires 0 <= i < |s| => LowerChar(s[i]))
  }

  predicate NoUpper(s: string) { forall i :: 0 <= i < |s| ==> !IsUpper(s[i]) }

  // ---------------------------------------------------------------------------
  // Trimming
  // ---------------------------------------------------------------------------

  /** PHP `rtrim(s, c)` for one character: drops every trailing `c`. */
  function TrimRight(s: string, c: char): (r: string)
    ensures |r| <= |s| && r == s[..|r|]
    ensures r == [] || r[|r| - 1] != c
    ensures forall i :: |r| <= i < |s| ==> s[i] == c
  {
    if s != [] && s[|s| - 1] == c then TrimRight(s[..|s| - 1], c) else s
  }

  /** Drops the leading characters that satisfy `ws`. */
  function TrimStart(s: string, ws: char -> bool): (r: string)
    ensures |r| <= |s| && r == s[|s| - |r|..]
    ensures r == [] || !ws(r[0])
    ensures forall i :: 0 <= i < |s| - |r| ==> ws(s[i])
  {
    if s != [] && ws(s[0]) then
      var r := TrimStart(s[1..], ws);
      assert forall i :: 1 <= i < |s| ==> s[i] == s[1..][i - 1];
      r
    else s
  }

  /** Drops the trailing characters that satisfy `ws`. */
  function TrimEnd(s: string, ws: char -> bool): (r: string)
    ensures |r| <= |s| && r == s[..|r|]
    ensures r == [] || !ws(r[|r| - 1])
    ensures forall i :: |r| <= i < |s| ==> ws(s[i])
  {
    if s != [] && ws(s[|s| - 1]) then TrimEnd(s[..|s| - 1], ws) else s
  }

  function Trim(s: string, ws: char -> bool): string
  {
    TrimEnd(TrimStart(s, ws), ws)
  }

  /** The characters PHP's `trim` removes by default: " \t\n\r\0\x0B". */
  predicate PhpSpace(c: char)
  {
    c == ' ' || c == '\t' || c == '\n' || c == '\r' || c == '\0' || c == '\U{000B}'
  }

  /** The characters JavaScript's `String.prototype.trim` removes: WhiteSpace and LineTerminator. */
  predicate JsSpace(c: char)
  {
    || c == '\t' || c == '\U{000B}' || c == '\U{000C}' || c == ' ' || c == '\U{00A0}' || c == '\U{FEFF}'
    || c == '\n' || c == '\r' || c == '\U{2028}' || c == '\U{2029}'
    || c == '\U{1680}' || ('\U{2000}' <= c <= '\U{200A}') || c == '\U{202F}' || c == '\U{205F}' || c == '\U{3000}'
  }

  function PhpTrim(s: string): string { Trim(s, PhpSpace) }

  function JsTrim(s: string): string { Trim(s, JsSpace) }

  /** A string that PHP treats as false in a boolean context. */
  predicate PhpFalsy(s: string) { s == "" || s == "0" }

  // ---------------------------------------------------------------------------
  // Substring search
  // ---------------------------------------------------------------------------

  predicate OccursAt(s: string, m: string, i: int)
  {
    0 <= i && i + |m| <= |s| && s[i..i + |m|] == m
  }

  /** PHP `strpos(s, m, from)`: the first index at or after `from` where `m` occurs. */
  function StrPos(s: string, m: string, from: nat): (r: Option<nat>)
    ensures r.Some? ==> from <= r.value && OccursAt(s, m, r.value)
    ensures r.Some? ==> forall j :: from <= j < r.value ==> !OccursAt(s, m, j)
    ensures r.None? ==> forall j :: from <= j ==> !OccursAt(s, m, j)
    decreases |s| - from
  {
    if from + |m| > |s| then None
    else if s[from..from + |m|] == m then Some(from)
    else StrPos(s, m, from + 1)
  }

  /** `strpos(s, m) !== false`. */
  predicate Contains(s: string, m: string)
  {
    StrPos(s, m, 0).Some?
  }

  lemma ContainsIff(s: string, m: string)
    ensures Contains(s, m) <==> exists i :: OccursAt(s, m, i)
  {
    if exists i :: OccursAt(s, m, i) {
      var i :| OccursAt(s, m, i);
      assert 0 <= i;
    }
  }

  // ---------------------------------------------------------------------------
  // Decimal rendering (PHP's int-to-string conversion of a non-negative int)
  // ---------------------------------------------------------------------------

  predicate IsDigit(c: char) { '0' <= c <= '9' }

  function Digit(d: nat): (c: char)
    requires d < 10
    ensures IsDigit(c)
  {
    ('0' as int + d) as char
  }

  function NatToString(n: nat): (r: string)
    ensures |r| >= 1
    ensures forall i :: 0 <= i < |r| ==> IsDigit(r[i])
  {
    if n < 10 then [Digit(n)] else NatToString(n / 10) + [Digit(n % 10)]
  }

  /** PHP's rendering of an integer that may be negative. */
  function IntToString(i: int): (r: string)
    ensures i >= 0 ==> r == NatToString(i)
    ensures i < 0 ==> r == "-" + NatToString(-i)
  {
    if i >= 0 then NatToString(i) else "-" + NatToString(-i)
  }

  // ---------------------------------------------------------------------------
  // JavaScript `s.split(c)` and `parts.join(c)` for a one-character separator
  // ---------------------------------------------------------------------------

  function Split(s: string, c: char): (parts: seq<string>)
    ensures |parts| >= 1
    ensures forall k :: 0 <= k < |parts| ==> c !in parts[k]
  {
    if s == [] then [""]
    else if s[0] == c then [""] + Split(s[1..], c)
    else
      var rest := Split(s[1..], c);
      [[s[0]] + rest[0]] + rest[1..]
  }

  function Join(parts: seq<string>, c: char): string
  {
    if |parts| == 0 then ""
    else if |parts| == 1 then parts[0]
    else parts[0] + [c] + Join(parts[1..], c)
  }

  /** Joining the pieces of a split gives back the original string. */
  lemma {:induction false} JoinSplit(s: string, c: char)
    ensures Join(Split(s, c), c) == s
  {
    if s == [] {
    } else if s[0] == c {
      JoinSplit(s[1..], c);
      assert [""] + Split(s[1..], c) == Split(s, c);
      assert Join(Split(s, c), c) == "" + [c] + Join(Split(s[1..], c), c);
      assert s == [c] + s[1..];
    } else {
      JoinSplit(s[1..], c);
      JoinExtendHead(s[0], Split(s[1..], c), c);
      assert s == [s[0]] + s[1..];
    }
  }

  /** Putting a character in front of the first piece puts it in front of the join. */
  lemma JoinExtendHead(x: char, rest: seq<string>, c: char)
    requires |rest| >= 1
    ensures Join([[x] + rest[0]] + rest[1..], c) == [x] + Join(rest, c)
  {
    var parts := [[x] + rest[0]] + rest[1..];
    assert parts[1..] == rest[1..];
    if |rest| > 1 {
      assert Join(parts, c) == [x] + rest[0] + [c] + Join(rest[1..], c);
    }
  }

  /** Splitting a join of separator-free pieces gives back the pieces. */
  lemma {:induction false} SplitJoin(parts: seq<string>, c: char)
    requires |parts| >= 1
    requires forall k :: 0 <= k < |parts| ==> c !in parts[k]
    ensures Split(Join(parts, c), c) == parts
  {
    if |parts| == 1 {
      SplitFree(parts[0], c);
    } else {
      SplitJoin(parts[1..], c);
      SplitPrefix(parts[0], Join(parts[1..], c), c);
      assert [parts[0]] + parts[1..] == parts;
    }
  }

  lemma {:induction false} SplitFree(s: string, c: char)
    requires c !in s
    ensures Split(s, c) == [s]
  {
    if s != [] {
      SplitFree(s[1..], c);
      assert [s[0]] + s[1..] == s;
    }
  }

  /** Splitting `a + c + b` with a separator-free `a` puts `a` first. */
  lemma {:induction false} SplitPrefix(a: string, b: string, c: char)
    requires c !in a
    ensures Split(a + [c] + b, c) == [a] + Split(b, c)
  {
    if a == [] {
      assert a + [c] + b == [c] + b;
      assert ([c] + b)[1..] == b;
    } else {
      SplitPrefix(a[1..], b, c);
      var s := a + [c] + b;
      assert s[0] == a[0];
      assert s[1..] == a[1..] + [c] + b;
      var rest := Split(s[1..], c);
      assert rest == [a[1..]] + Split(b, c);
      assert [a[0]] + a[1..] == a;
    }
  }

  /** Joining one more piece appends the separator and the piece. */
  lemma {:induction false} JoinSnoc(xs: seq<string>, x: string, c: char)
    requires |xs| >= 1
    ensures Join(xs + [x], c) == Join(xs, c) + [c] + x
  {
    if |xs| == 1 {
      assert xs + [x] == [xs[0], x];
      assert Join([x], c) == x;
    } else {
      JoinSnoc(xs[1..], x, c);
      assert (xs + [x])[1..] == xs[1..] + [x];
      assert (xs + [x])[0] == xs[0];
    }
  }
}
