/**
 * The JavaScript string operations the application relies on, over `string`
 * (a sequence of `char`). Lower-casing is modelled on ASCII letters only.
 */
module Text {
  import opened Wrappers

  /** `String.prototype.toLowerCase` on one character (ASCII letters). */
  function LowerChar(c: char): (r: char)
    ensures 'A' <= c <= 'Z' ==> 'a' <= r <= 'z' && r as int == c as int + 32
    ensures !('A' <= c <= 'Z') ==> r == c
  {
    if 'A' <= c <= 'Z' then (c as int + 32) as char else c
  }

  /** `s.toLowerCase()`. */
  function ToLower(s: string): (r: string)
    ensures |r| == |s|
    ensures forall i :: 0 <= i < |s| ==> r[i] == LowerChar(s[i])
  {
    seq(|s|, i requires 0 <= i < |s| => LowerChar(s[i]))
  }

  lemma ToLowerIdempotent(s: string)
    ensures ToLower(ToLower(s)) == ToLower(s)
  {
  }

  lemma ToLowerAppend(a: string, b: string)
    ensures ToLower(a + b) == ToLower(a) + ToLower(b)
  {
  }

  /** `s.startsWith(prefix)`. */
  predicate StartsWith(s: string, prefix: string) {
    |prefix| <= |s| && s[..|prefix|] == prefix
  }

  /** `sub` occurs in `s` starting at index `i`. */
  predicate OccursAt(s: string, sub: string, i: int) {
    0 <= i <= |s| - |sub| && s[i..i + |sub|] == sub
  }

  /** `s.includes(sub)`. */
  predicate Includes(s: string, sub: string) {
    exists i | 0 <= i <= |s| - |sub| :: OccursAt(s, sub, i)
  }

  lemma IncludesEmpty(s: string)
    ensures Includes(s, "")
  {
    assert OccursAt(s, "", 0);
  }

  /** `s.replaceAll(from, to)` for one-character patterns. */
  function ReplaceChar(s: string, from: char, to: char): (r: string)
    ensures |r| == |s|
    ensures forall i :: 0 <= i < |s| ==> r[i] == if s[i] == from then to else s[i]
  {
    seq(|s|, i requires 0 <= i < |s| => if s[i] == from then to else s[i])
  }

  /** The parts joined with `sep` between them (`parts.join(sep)`). */
  function Join(parts: seq<string>, sep: char): string
    decreases |parts|
  {
    if |parts| == 0 then ""
    else if |parts| == 1 then parts[0]
    else parts[0] + [sep] + Join(parts[1..], sep)
  }

  /** `s.split(sep)` for a one-character separator. */
  function Split(s: string, sep: char): (parts: seq<string>)
    ensures |parts| >= 1
    ensures forall p :: p in parts ==> sep !in p
    decreases |s|
  {
    if |s| == 0 then [""]
    else
      var rest := Split(s[1..], sep);
      if s[0] == sep then [""] + rest
      else [[s[0]] + rest[0]] + rest[1..]
  }

  /** Joining the pieces of a split gives the text back. */
  lemma {:induction false} JoinSplit(s: string, sep: char)
    ensures Join(Split(s, sep), sep) == s
    decreases |s|
  {
    if |s| > 0 {
      var rest := Split(s[1..], sep);
      JoinSplit(s[1..], sep);
      if s[0] == sep {
        assert Split(s, sep) == [""] + rest;
        assert ([""] + rest)[1..] == rest;
      } else {
        var parts := Split(s, sep);
        assert parts == [[s[0]] + rest[0]] + rest[1..];
        if |rest| > 1 {
          assert parts[1..] == rest[1..];
          assert Join(rest, sep) == rest[0] + [sep] + Join(rest[1..], sep);
        }
        assert s == [s[0]] + s[1..];
      }
    }
  }

  /** Splitting text that already had no separator in any part recovers the parts. */
  lemma {:induction false} SplitJoin(parts: seq<string>, sep: char)
    requires |parts| >= 1
    requires forall p :: p in parts ==> sep !in p
    ensures Split(Join(parts, sep), sep) == parts
    decreases |parts|
  {
    if |parts| == 1 {
      SplitNoSeparator(parts[0], sep);
    } else {
      SplitJoin(parts[1..], sep);
      SplitAfterWord(parts[0], Join(parts[1..], sep), sep);
      assert Join(parts, sep) == parts[0] + [sep] + Join(parts[1..], sep);
      assert [parts[0]] + parts[1..] == parts;
    }
  }

  lemma {:induction false} SplitNoSeparator(s: string, sep: char)
    requires sep !in s
    ensures Split(s, sep) == [s]
    decreases |s|
  {
    if |s| > 0 {
      assert sep !in s[1..] by {
        forall i | 0 <= i < |s| - 1 ensures s[1..][i] != sep { assert s[1..][i] == s[i + 1]; }
      }
      SplitNoSeparator(s[1..], sep);
      assert [s[0]] + s[1..] == s;
    }
  }

  /** A separator-free word, a separator and a tail split into the word and the tail's parts. */
  lemma {:induction false} SplitAfterWord(w: string, tail: string, sep: char)
    requires sep !in w
    ensures Split(w + [sep] + tail, sep) == [w] + Split(tail, sep)
    decreases |w|
  {
    if |w| == 0 {
      assert w + [sep] + tail == [sep] + tail;
      assert ([sep] + tail)[1..] == tail;
    } else {
      var s := w + [sep] + tail;
      assert s[0] == w[0];
      assert sep !in w[1..] by {
        forall i | 0 <= i < |w| - 1 ensures w[1..][i] != sep { assert w[1..][i] == w[i + 1]; }
      }
      assert s[1..] == w[1..] + [sep] + tail;
      SplitAfterWord(w[1..], tail, sep);
      assert [w[0]] + w[1..] == w;
    }
  }

  /** The first piece of `s.split(sep)`: everything before the first separator. */
  function FirstPart(s: string, sep: char): (r: string)
    ensures StartsWith(s, r)
    ensures sep !in r
    ensures |r| < |s| ==> s[|r|] == sep
  {
    FirstPartProperties(s, sep);
    Split(s, sep)[0]
  }

  lemma {:induction false} FirstPartProperties(s: string, sep: char)
    ensures var r := Split(s, sep)[0];
      StartsWith(s, r) && (|r| < |s| ==> s[|r|] == sep)
    decreases |s|
  {
    if |s| > 0 {
      FirstPartProperties(s[1..], sep);
    }
  }

  predicate IsHighSurrogate(u: int) {
    0xD800 <= u < 0xDC00
  }

  predicate IsLowSurrogate(u: int) {
    0xDC00 <= u < 0xE000
  }

  /** A character's UTF-16 code units: the character itself below U+10000, else its surrogate pair. */
  function CodeUnits(c: char): (u: seq<int>)
    ensures |u| == 1 || |u| == 2
    ensures |u| == 1 <==> c as int < 0x1_0000
    ensures |u| == 1 ==> u[0] == c as int && !IsHighSurrogate(u[0]) && !IsLowSurrogate(u[0])
    ensures |u| == 2 ==> IsHighSurrogate(u[0]) && IsLowSurrogate(u[1]) &&
                         (u[0] - 0xD800) * 0x400 + (u[1] - 0xDC00) + 0x1_0000 == c as int
  {
    if c as int < 0x1_0000 then [c as int]
    else
      var v := c as int - 0x1_0000;
      [0xD800 + v / 0x400, 0xDC00 + v % 0x400]
  }

  /**
   * The UTF-16 code units of a string: the key JavaScript's `<` compares
   * strings by. Outside the Basic Multilingual Plane a character takes two.
   */
  function Codes(s: string): (r: seq<int>)
    ensures |s| <= |r| <= 2 * |s|
    ensures forall i :: 0 <= i < |r| ==> 0 <= r[i] < 0x1_0000
    ensures (forall i :: 0 <= i < |s| ==> s[i] as int < 0x1_0000) ==>
              |r| == |s| && forall i :: 0 <= i < |s| ==> r[i] == s[i] as int
    decreases |s|
  {
    if |s| == 0 then [] else CodeUnits(s[0]) + Codes(s[1..])
  }

  /** Reads UTF-16 code units back as text; `None` for a lone surrogate or a unit out of range. */
  function FromCodes(u: seq<int>): (r: Option<string>)
    decreases |u|
  {
    if |u| == 0 then Some([])
    else if |u| >= 2 && IsHighSurrogate(u[0]) && IsLowSurrogate(u[1]) then
      var rest := FromCodes(u[2..]);
      if rest.Some? then Some([((u[0] - 0xD800) * 0x400 + (u[1] - 0xDC00) + 0x1_0000) as char] + rest.value) else None
    else if 0 <= u[0] < 0xD800 || 0xE000 <= u[0] < 0x1_0000 then
      var rest := FromCodes(u[1..]);
      if rest.Some? then Some([u[0] as char] + rest.value) else None
    else None
  }

  /** Round trip: a string's code units read back as the string. */
  lemma {:induction false} FromCodesCodes(s: string)
    ensures FromCodes(Codes(s)) == Some(s)
    decreases |s|
  {
    if |s| > 0 {
      FromCodesCodes(s[1..]);
      var u := CodeUnits(s[0]);
      var all := Codes(s);
      assert all == u + Codes(s[1..]);
      if |u| == 1 {
        assert all[1..] == Codes(s[1..]);
      } else {
        assert all[2..] == Codes(s[1..]);
      }
      assert s == [s[0]] + s[1..];
    }
  }

  /** Strings with the same code units are the same string. */
  lemma CodesInjective(a: string, b: string)
    requires Codes(a) == Codes(b)
    ensures a == b
  {
    FromCodesCodes(a);
    FromCodesCodes(b);
  }

  /** A line terminator, which `.` in a JavaScript regular expression does not match. */
  predicate LineTerminator(c: char) {
    c == '\n' || c == '\r' || c == '\U{2028}' || c == '\U{2029}'
  }

  /**
   * Where the match of `/^.*?\./` in `s` ends: one past the first `.`, when
   * no line terminator comes before it; `None` when the pattern does not match.
   */
  function LeadingDotMatch(s: string): (n: Option<nat>)
    ensures n.Some? ==> 0 < n.value <= |s| && s[n.value - 1] == '.' &&
                        forall j :: 0 <= j < n.value - 1 ==> s[j] != '.' && !LineTerminator(s[j])
    ensures n.None? ==> forall i :: 0 <= i < |s| && s[i] == '.' ==> exists j :: 0 <= j < i && LineTerminator(s[j])
    decreases |s|
  {
    if |s| == 0 then None
    else if s[0] == '.' then Some(1)
    else if LineTerminator(s[0]) then None
    else
      var rest := LeadingDotMatch(s[1..]);
      if rest.Some? then Some(rest.value + 1)
      else
        assert forall i :: 1 <= i < |s| && s[i] == '.' ==> exists j :: 0 <= j < i && LineTerminator(s[j]) by {
          forall i | 1 <= i < |s| && s[i] == '.' ensures exists j :: 0 <= j < i && LineTerminator(s[j]) {
            assert s[1..][i - 1] == '.';
            var j :| 0 <= j < i - 1 && LineTerminator(s[1..][j]);
            assert LineTerminator(s[j + 1]);
          }
        }
        None
  }

  /** `s.replace(/^.*?\./, replacement)`. */
  function ReplaceLeadingDot(s: string, replacement: string): (r: string)
    ensures forall i :: 0 <= i < |s| && s[i] == '.' && (forall j :: 0 <= j < i ==> s[j] != '.' && !LineTerminator(s[j])) ==>
              r == replacement + s[i + 1..]
    ensures '.' !in s ==> r == s
  {
    var n := LeadingDotMatch(s);
    if n.Some? then replacement + s[n.value..] else s
  }
}
