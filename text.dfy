/** String helpers standing for the Ruby String methods the library calls.
    Case mapping is restricted to ASCII letters; everything else is left unchanged. */
module Text {

  /** The characters Ruby's `strip` removes: NUL, tab, line feed, vertical tab, form feed, carriage return, space. */
  predicate IsSpace(c: char) {
    c == ' ' || c == '\t' || c == '\n' || c == '\r' || c == '\0' || c as int == 11 || c as int == 12
  }

  /** `s.strip.empty?` */
  predicate IsBlankText(s: string) {
    forall i :: 0 <= i < |s| ==> IsSpace(s[i])
  }

  predicate IsUpper(c: char) { 'A' <= c <= 'Z' }

  predicate IsLower(c: char) { 'a' <= c <= 'z' }

  predicate IsDigit(c: char) { '0' <= c <= '9' }

  /** Ruby's `\w` in a regular expression: `[A-Za-z0-9_]`. */
  predicate IsWordChar(c: char) { IsUpper(c) || IsLower(c) || IsDigit(c) || c == '_' }

  function Lower(c: char): (d: char)
    ensures !IsUpper(d)
    ensures IsUpper(c) ==> IsLower(d)
    ensures !IsUpper(c) ==> d == c
  {
    if IsUpper(c) then (c as int + 32) as char else c
  }

  function Upper(c: char): (d: char)
    ensures !IsLower(d)
    ensures IsLower(c) ==> IsUpper(d) && Lower(d) == c
    ensures !IsLower(c) ==> d == c
  {
    if IsLower(c) then (c as int - 32) as char else c
  }

  /** `s.downcase` */
  function Downcase(s: string): (r: string)
    ensures |r| == |s|
    ensures forall i :: 0 <= i < |s| ==> r[i] == Lower(s[i])
  {
    seq(|s|, i requires 0 <= i < |s| => Lower(s[i]))
  }

  /** `s.upcase` */
  function Upcase(s: string): (r: string)
    ensures |r| == |s|
    ensures forall i :: 0 <= i < |s| ==> r[i] == Upper(s[i])
  {
    seq(|s|, i requires 0 <= i < |s| => Upper(s[i]))
  }

  /** `s.capitalize`: first character upcased, the rest downcased. */
  function Capitalize(s: string): (r: string)
    ensures |r| == |s|
    ensures |s| > 0 ==> r[0] == Upper(s[0]) && r[1..] == Downcase(s[1..])
  {
    if s == [] then [] else [Upper(s[0])] + Downcase(s[1..])
  }

  predicate StartsWith(s: string, p: string) {
    |p| <= |s| && s[..|p|] == p
  }

  predicate EndsWith(s: string, p: string) {
    |p| <= |s| && s[|s| - |p|..] == p
  }

  /** `s.include?(sub)`, and a regular expression without anchors that matches `sub` literally. */
  predicate Contains(s: string, sub: string) {
    exists i :: 0 <= i <= |s| && OccursAt(s, sub, i)
  }

  predicate OccursAt(s: string, sub: string, i: nat) {
    i + |sub| <= |s| && s[i..i + |sub|] == sub
  }

  /** The decimal digits of `n`, as Ruby's `Integer#to_s` writes them. */
  function NatToString(n: nat): (r: string)
    ensures |r| > 0
    ensures forall i :: 0 <= i < |r| ==> IsDigit(r[i])
  {
    if n < 10 then [(n + 48) as char] else NatToString(n / 10) + [(n % 10 + 48) as char]
  }

  /** The bytes of `c` in UTF-8, added up. */
  function Utf8ByteSum(c: char): (n: nat)
    ensures (c as int) < 0x80 ==> n == c as int
  {
    var cp := c as int;
    if cp < 0x80 then cp
    else if cp < 0x800 then (0xC0 + cp / 0x40) + (0x80 + cp % 0x40)
    else if cp < 0x1_0000 then (0xE0 + cp / 0x1000) + (0x80 + (cp / 0x40) % 0x40) + (0x80 + cp % 0x40)
    else (0xF0 + cp / 0x4_0000) + (0x80 + (cp / 0x1000) % 0x40) + (0x80 + (cp / 0x40) % 0x40) + (0x80 + cp % 0x40)
  }

  /** The bytes of the UTF-8 text, added up. */
  function ByteTotal(s: string): nat {
    if s == [] then 0 else ByteTotal(s[..|s| - 1]) + Utf8ByteSum(s[|s| - 1])
  }

  /** `String#sum`: the 16-bit checksum, the byte total kept to its low 16 bits. */
  function StringSum(s: string): (n: nat)
    ensures n < 0x1_0000
  {
    ByteTotal(s) % 0x1_0000
  }

  function IntToString(n: int): (r: string)
    ensures |r| > 0
  {
    if n < 0 then "-" + NatToString(-n) else NatToString(n)
  }

  function DigitValue(c: char): (d: nat)
    requires IsDigit(c)
    ensures d < 10
  {
    c as int - 48
  }

  /** The value of a string of decimal digits, read from the left on top of `acc`. */
  function DigitsFold(s: string, acc: nat): nat
    requires forall i :: 0 <= i < |s| ==> IsDigit(s[i])
  {
    if s == [] then acc else DigitsFold(s[1..], acc * 10 + DigitValue(s[0]))
  }

  /** The value of a string of decimal digits (Ruby's `to_i` on such a string). */
  function DigitsValue(s: string): nat
    requires forall i :: 0 <= i < |s| ==> IsDigit(s[i])
  {
    DigitsFold(s, 0)
  }

  /** `s.sub(/^c/, '')` for a character `c`: removes the first `c` that begins a line (`atStart`
      says whether the text before `s` ends a line). */
  function DropAtLineStart(s: string, c: char, atStart: bool): (r: string)
    ensures |r| == |s| || |r| == |s| - 1
    ensures forall x :: x in r ==> x in s
  {
    if s == [] then []
    else if atStart && s[0] == c then s[1..]
    else [s[0]] + DropAtLineStart(s[1..], c, s[0] == '\n')
  }

  /** Some line of `s` starts with `c`. */
  predicate LineStartsWith(s: string, c: char) {
    exists i :: 0 <= i < |s| && s[i] == c && (i == 0 || s[i - 1] == '\n')
  }

  /** Nothing is removed when no line starts with `c`. */
  lemma {:induction false} DropAtLineStartUnchanged(s: string, c: char, atStart: bool)
    requires !(atStart && |s| > 0 && s[0] == c)
    requires forall i :: 1 <= i < |s| ==> !(s[i] == c && s[i - 1] == '\n')
    ensures DropAtLineStart(s, c, atStart) == s
    decreases |s|
  {
    if s != [] {
      assert forall i :: 1 <= i < |s[1..]| ==> s[1..][i] == s[i + 1] && s[1..][i - 1] == s[i];
      DropAtLineStartUnchanged(s[1..], c, s[0] == '\n');
    }
  }

  /** `s.chomp(suffix)`: the suffix removed once, when present. */
  function Chomp(s: string, suffix: string): (r: string)
    ensures EndsWith(s, suffix) ==> r + suffix == s
    ensures !EndsWith(s, suffix) ==> r == s
  {
    if EndsWith(s, suffix) then s[..|s| - |suffix|] else s
  }

  /** `parts.join(sep)` */
  function Join(parts: seq<string>, sep: string): (r: string)
    ensures parts == [] ==> r == ""
    ensures |parts| == 1 ==> r == parts[0]
  {
    if parts == [] then "" else if |parts| == 1 then parts[0] else parts[0] + sep + Join(parts[1..], sep)
  }

  /** Joining two non-empty lists puts one separator between their joins. */
  lemma {:induction false} JoinAppend(p: seq<string>, q: seq<string>, sep: string)
    requires |p| > 0 && |q| > 0
    ensures Join(p + q, sep) == Join(p, sep) + sep + Join(q, sep)
    decreases |p|
  {
    assert (p + q)[0] == p[0];
    if |p| == 1 {
      assert (p + q)[1..] == q;
    } else {
      assert (p + q)[1..] == p[1..] + q;
      JoinAppend(p[1..], q, sep);
    }
  }

  /** A middle part of the list may be joined first: the join of the whole depends on it only
      through its own join. */
  lemma JoinSplice(p: seq<string>, q: seq<string>, r: seq<string>, sep: string)
    requires |q| > 0
    ensures Join(p + q + r, sep) == Join(p + [Join(q, sep)] + r, sep)
  {
    var m := [Join(q, sep)];
    if |r| > 0 {
      JoinAppend(p + q, r, sep);
      JoinAppend(p + m, r, sep);
    } else {
      assert p + q + r == p + q && p + m + r == p + m;
    }
    if |p| > 0 {
      JoinAppend(p, q, sep);
      JoinAppend(p, m, sep);
    } else {
      assert p + q == q && p + m == m;
    }
  }

  /** Splitting on every occurrence of `c`, keeping every field (empty ones too). */
  function SplitFields(s: string, c: char): (r: seq<string>)
    ensures |r| > 0
    ensures Join(r, [c]) == s
    ensures forall i, j :: 0 <= i < |r| && 0 <= j < |r[i]| ==> r[i][j] != c
  {
    if s == [] then [[]]
    else
      var rest := SplitFields(s[1..], c);
      if s[0] == c then [[]] + rest
      else
        var r := [[s[0]] + rest[0]] + rest[1..];
        assert Join(r, [c]) == s by {
          if |rest| > 1 {
            assert Join(rest, [c]) == rest[0] + [c] + Join(rest[1..], [c]);
            assert r[1..] == rest[1..];
          }
        }
        r
  }

  lemma {:induction false} SplitFieldsNoSep(a: string, c: char)
    requires forall i :: 0 <= i < |a| ==> a[i] != c
    ensures SplitFields(a, c) == [a]
    decreases |a|
  {
    if a != [] {
      SplitFieldsNoSep(a[1..], c);
      assert [a[0]] + a[1..] == a;
    }
  }

  lemma {:induction false} SplitFieldsCons(a: string, c: char, rest: string)
    requires forall i :: 0 <= i < |a| ==> a[i] != c
    ensures SplitFields(a + [c] + rest, c) == [a] + SplitFields(rest, c)
    decreases |a|
  {
    if a == [] {
      assert a + [c] + rest == [c] + rest;
      assert ([c] + rest)[1..] == rest;
    } else {
      var s := a + [c] + rest;
      assert s[1..] == a[1..] + [c] + rest;
      SplitFieldsCons(a[1..], c, rest);
      assert [a[0]] + a[1..] == a;
    }
  }

  /** Drops the empty strings at the end of a list of fields. */
  function DropTrailingEmpty(parts: seq<string>): (r: seq<string>)
    ensures |r| <= |parts| && r == parts[..|r|]
    ensures r != [] ==> r[|r| - 1] != []
    ensures forall i :: |r| <= i < |parts| ==> parts[i] == []
  {
    if parts == [] then []
    else if parts[|parts| - 1] == [] then DropTrailingEmpty(parts[..|parts| - 1])
    else parts
  }

  /** `s.split(c)` for a one-character separator other than a space: empty fields are kept,
      except those at the end, which Ruby removes. */
  function Split(s: string, c: char): (r: seq<string>)
    ensures forall i, j :: 0 <= i < |r| && 0 <= j < |r[i]| ==> r[i][j] != c
  {
    var fields := SplitFields(s, c);
    var r := DropTrailingEmpty(fields);
    assert forall i :: 0 <= i < |r| ==> r[i] == fields[i];
    r
  }
}
