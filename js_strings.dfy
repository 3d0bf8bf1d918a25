/** The JavaScript string built-ins the client relies on, restricted to what
    the modelled code needs: `trim`, `toLowerCase`/`toUpperCase` (ASCII only),
    `includes`, `endsWith`, `replace` of a single character and the
    `replace(/\b\w/g, l => l.toUpperCase())` idiom used for display labels. */
module JsStrings {

  datatype Option<T> = None | Some(value: T)

  /** An optional value is truthy: present and not "" (strings) or not 0
      (numbers); null and undefined are both `None`. */
  predicate TruthyText(o: Option<string>) { o.Some? && o.value != "" }
  predicate TruthyNumber(o: Option<int>) { o.Some? && o.value != 0 }

  /** A date string after `new Date(...)`: null, undefined or "" (all falsy),
      a valid instant in epoch milliseconds, or an Invalid Date. */
  datatype DateField = NoDate | At(ms: int) | InvalidDate

  /** ECMAScript WhiteSpace and LineTerminator code points (the set `trim`,
      `parseInt` and `parseFloat` skip). */
  predicate IsWhitespace(c: char) {
    c == '\t' || c == '\n' || c == '\U{B}' || c == '\U{C}' || c == '\r' || c == ' '
    || c == '\U{A0}' || c == '\U{1680}' || ('\U{2000}' <= c <= '\U{200A}')
    || c == '\U{2028}' || c == '\U{2029}' || c == '\U{202F}' || c == '\U{205F}'
    || c == '\U{3000}' || c == '\U{FEFF}'
  }

  predicate AllWhitespace(s: string) {
    forall i :: 0 <= i < |s| ==> IsWhitespace(s[i])
  }

  /** `String.prototype.trimStart`: drops the leading whitespace run. */
  function TrimStart(s: string): (r: string)
    ensures |r| <= |s| && r == s[|s| - |r|..]
    ensures AllWhitespace(s[..|s| - |r|])
    ensures r == [] || !IsWhitespace(r[0])
  {
    if s == [] || !IsWhitespace(s[0]) then s
    else
      var r := TrimStart(s[1..]);
      var k := |s| - |r|;
      assert s[1..][k - 1..] == s[k..];
      WhitespacePrefixCons(s, k);
      r
  }

  /** A whitespace character followed by a whitespace run is a longer run. */
  lemma WhitespacePrefixCons(s: string, k: int)
    requires 1 <= k <= |s| && IsWhitespace(s[0])
    requires AllWhitespace(s[1..][..k - 1])
    ensures AllWhitespace(s[..k])
  {
    forall i | 0 <= i < k ensures IsWhitespace(s[..k][i]) {
      if i > 0 {
        assert s[..k][i] == s[1..][..k - 1][i - 1];
      }
    }
  }

  /** `String.prototype.trimEnd`: drops the trailing whitespace run. */
  function TrimEnd(s: string): (r: string)
    ensures |r| <= |s| && r == s[..|r|]
    ensures AllWhitespace(s[|r|..])
    ensures r == [] || !IsWhitespace(r[|r| - 1])
  {
    if s == [] || !IsWhitespace(s[|s| - 1]) then s
    else
      var r := TrimEnd(s[..|s| - 1]);
      assert s[..|s| - 1][..|r|] == s[..|r|];
      assert AllWhitespace(s[|r|..]) by {
        forall i | 0 <= i < |s| - |r| ensures IsWhitespace(s[|r|..][i]) {
          if i < |s| - 1 - |r| {
            assert s[|r|..][i] == s[..|s| - 1][|r|..][i];
          }
        }
      }
      r
  }

  /** `String.prototype.trim`. */
  function Trim(s: string): (r: string)
  {
    TrimEnd(TrimStart(s))
  }

  /** Trimming leaves nothing exactly when the string is all whitespace: this
      is what `!name.trim()` tests. */
  lemma TrimEmptyIffAllWhitespace(s: string)
    ensures Trim(s) == [] <==> AllWhitespace(s)
  {
    var t := TrimStart(s);
    if Trim(s) == [] {
      assert AllWhitespace(t[0..]);
      assert t == s[|s| - |t|..];
      forall i | 0 <= i < |s| ensures IsWhitespace(s[i]) {
        if i < |s| - |t| {
          assert s[..|s| - |t|][i] == s[i];
        } else {
          assert t[i - (|s| - |t|)] == s[i];
        }
      }
    }
  }

  /** Trimming is idempotent. */
  lemma TrimIdempotent(s: string)
    ensures Trim(Trim(s)) == Trim(s)
  {
    var r := Trim(s);
    if r != [] {
      assert TrimStart(r) == r;
      assert TrimEnd(r) == r;
    }
  }

  predicate IsUpperAscii(c: char) { 'A' <= c <= 'Z' }
  predicate IsLowerAscii(c: char) { 'a' <= c <= 'z' }

  function LowerChar(c: char): (r: char)
    ensures !IsUpperAscii(r)
  {
    if IsUpperAscii(c) then (c as int + 32) as char else c
  }

  function UpperChar(c: char): (r: char)
    ensures !IsLowerAscii(r)
  {
    if IsLowerAscii(c) then (c as int - 32) as char else c
  }

  /** `toLowerCase`, for the ASCII letters. */
  function Lower(s: string): (r: string)
    ensures |r| == |s|
  {
    seq(|s|, i requires 0 <= i < |s| => LowerChar(s[i]))
  }

  /** `toUpperCase`, for the ASCII letters. */
  function Upper(s: string): (r: string)
    ensures |r| == |s|
  {
    seq(|s|, i requires 0 <= i < |s| => UpperChar(s[i]))
  }

  lemma LowerIdempotent(s: string)
    ensures Lower(Lower(s)) == Lower(s)
  {
  }

  /** `s.includes(t)`: some window of `s` equals `t`. */
  predicate Includes(s: string, t: string) {
    exists i :: 0 <= i <= |s| && OccursAt(s, t, i)
  }

  predicate OccursAt(s: string, t: string, i: int) {
    0 <= i && i + |t| <= |s| && s[i..i + |t|] == t
  }

  lemma IncludesEmpty(s: string)
    ensures Includes(s, [])
  {
    assert OccursAt(s, [], 0);
  }

  /** `s.endsWith(t)`. */
  predicate EndsWith(s: string, t: string) {
    |t| <= |s| && s[|s| - |t|..] == t
  }

  /** `s.replace(from, to)` with one-character strings: only the FIRST
      occurrence is replaced. */
  function ReplaceFirst(s: string, from: char, to: char): (r: string)
    ensures |r| == |s|
  {
    if s == [] then []
    else if s[0] == from then [to] + s[1..]
    else [s[0]] + ReplaceFirst(s[1..], from, to)
  }

  /** `s.indexOf(c)` for a character that occurs. */
  function IndexOf(s: string, c: char): (k: nat)
    requires c in s
    ensures k < |s| && s[k] == c && c !in s[..k]
  {
    if s[0] == c then 0
    else
      var k := IndexOf(s[1..], c);
      assert s[..k + 1] == [s[0]] + s[1..][..k];
      k + 1
  }

  /** Without the character the string is unchanged. */
  lemma {:induction false} ReplaceFirstAbsent(s: string, from: char, to: char)
    requires from !in s
    ensures ReplaceFirst(s, from, to) == s
  {
    if s != [] {
      ReplaceFirstAbsent(s[1..], from, to);
    }
  }

  /** Exactly the first occurrence is replaced; everything else is kept. */
  lemma {:induction false} ReplaceFirstAt(s: string, from: char, to: char)
    requires from in s
    ensures ReplaceFirst(s, from, to) == s[..IndexOf(s, from)] + [to] + s[IndexOf(s, from) + 1..]
  {
    if s[0] != from {
      ReplaceFirstAt(s[1..], from, to);
      var k := IndexOf(s[1..], from);
      assert s[..k + 1] == [s[0]] + s[1..][..k];
      assert s[k + 2..] == s[1..][k + 1..];
    }
  }

  /** Replacing in a string whose first `from` follows the prefix `a`. */
  lemma {:induction false} ReplaceFirstSplit(a: string, b: string, from: char, to: char)
    requires from !in a
    ensures ReplaceFirst(a + [from] + b, from, to) == a + [to] + b
    decreases |a|
  {
    if a == [] {
      assert [from] + b == a + [from] + b;
      assert ([from] + b)[1..] == b;
    } else {
      assert (a + [from] + b)[1..] == a[1..] + [from] + b;
      ReplaceFirstSplit(a[1..], b, from, to);
      assert a + [to] + b == [a[0]] + (a[1..] + [to] + b);
    }
  }

  /** Lower-casing commutes with replacing a character that is not a
      letter by one that is not an upper-case letter. */
  lemma {:induction false} LowerReplaceFirst(s: string, from: char, to: char)
    requires !IsUpperAscii(from) && !IsLowerAscii(from) && !IsUpperAscii(to)
    ensures Lower(ReplaceFirst(s, from, to)) == ReplaceFirst(Lower(s), from, to)
    decreases |s|
  {
    if s != [] {
      LowerReplaceFirst(s[1..], from, to);
      assert Lower(s)[1..] == Lower(s[1..]);
      if s[0] == from {
        assert Lower([to] + s[1..]) == [to] + Lower(s[1..]);
      } else {
        assert Lower([s[0]] + ReplaceFirst(s[1..], from, to)) == [LowerChar(s[0])] + Lower(ReplaceFirst(s[1..], from, to));
      }
    }
  }

  /** `\w` in a regular expression without the `u` flag. */
  predicate IsWordChar(c: char) {
    IsUpperAscii(c) || IsLowerAscii(c) || ('0' <= c <= '9') || c == '_'
  }

  /** `\b\w` matches at `i`: a word character not preceded by one. */
  predicate WordStart(s: string, i: int)
    requires 0 <= i < |s|
  {
    IsWordChar(s[i]) && (i == 0 || !IsWordChar(s[i - 1]))
  }

  /** `s.replace(/\b\w/g, l => l.toUpperCase())`. */
  function CapitaliseWordStarts(s: string): (r: string)
    ensures |r| == |s|
  {
    seq(|s|, i requires 0 <= i < |s| => if WordStart(s, i) then UpperChar(s[i]) else s[i])
  }

  /** Capitalising only changes letters at word starts, and lower-casing the
      result gives back the lower-cased input. */
  lemma CapitaliseWordStartsSpec(s: string)
    ensures forall i :: 0 <= i < |s| && WordStart(s, i) ==> !IsLowerAscii(CapitaliseWordStarts(s)[i])
    ensures forall i :: 0 <= i < |s| && !WordStart(s, i) ==> CapitaliseWordStarts(s)[i] == s[i]
    ensures Lower(CapitaliseWordStarts(s)) == Lower(s)
  {
    var r := CapitaliseWordStarts(s);
    forall i | 0 <= i < |s| ensures LowerChar(r[i]) == LowerChar(s[i]) {
    }
  }
}
