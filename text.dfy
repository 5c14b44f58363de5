/** String helpers the chat widget relies on: ASCII case mapping (the default
    locale-free part of String.prototype.toLowerCase / toUpperCase),
    String.prototype.includes and String.prototype.trim. */
module Text {

  predicate IsUpperAscii(c: char) { 'A' <= c <= 'Z' }

  predicate IsLowerAscii(c: char) { 'a' <= c <= 'z' }

  function LowerChar(c: char): char
  {
    if IsUpperAscii(c) then (c as int + 32) as char else c
  }

  function UpperChar(c: char): char
  {
    if IsLowerAscii(c) then (c as int - 32) as char else c
  }

  /** `s.toLowerCase()`, restricted to the ASCII letters. */
  function Lower(s: string): (r: string)
    ensures |r| == |s|
    ensures forall i :: 0 <= i < |s| ==> r[i] == LowerChar(s[i])
    ensures forall i :: 0 <= i < |r| ==> !IsUpperAscii(r[i])
  {
    seq(|s|, i requires 0 <= i < |s| => LowerChar(s[i]))
  }

  /** `s.toUpperCase()`, restricted to the ASCII letters. */
  function Upper(s: string): (r: string)
    ensures |r| == |s|
    ensures forall i :: 0 <= i < |s| ==> r[i] == UpperChar(s[i])
    ensures forall i :: 0 <= i < |r| ==> !IsLowerAscii(r[i])
  {
    seq(|s|, i requires 0 <= i < |s| => UpperChar(s[i]))
  }

  /** Lower-casing twice is lower-casing once. */
  lemma LowerIdempotent(s: string)
    ensures Lower(Lower(s)) == Lower(s)
  {
    assert forall i :: 0 <= i < |s| ==> LowerChar(Lower(s)[i]) == Lower(s)[i];
  }

  /** `word` occurs in `text` starting at position `i`. */
  predicate OccursAt(text: string, word: string, i: int)
  {
    0 <= i && i + |word| <= |text| && text[i..i + |word|] == word
  }

  /** `text.includes(word)`: `word` is a prefix of some suffix of `text`. */
  predicate Includes(text: string, word: string)
    decreases |text|
  {
    word <= text || (text != [] && Includes(text[1..], word))
  }

  /** Includes is exactly "occurs somewhere", in both directions. */
  lemma IncludesIffOccurs(text: string, word: string)
    ensures Includes(text, word) <==> exists i :: OccursAt(text, word, i)
  {
    if Includes(text, word) {
      var i := IncludedAt(text, word);
    }
    if i :| OccursAt(text, word, i) {
      OccursIncluded(text, word, i);
    }
  }

  /** When `text` includes `word`, a position where it occurs. */
  lemma {:induction false} IncludedAt(text: string, word: string) returns (i: nat)
    requires Includes(text, word)
    ensures OccursAt(text, word, i)
    decreases |text|
  {
    if word <= text {
      i := 0;
    } else {
      var j := IncludedAt(text[1..], word);
      assert text[j + 1..j + 1 + |word|] == text[1..][j..j + |word|];
      i := j + 1;
    }
  }

  /** An occurrence at any position makes `text` include `word`. */
  lemma {:induction false} OccursIncluded(text: string, word: string, i: int)
    requires OccursAt(text, word, i)
    ensures Includes(text, word)
    decreases i
  {
    if i == 0 {
      assert text[..|word|] == word;
    } else {
      assert text[1..][i - 1..i - 1 + |word|] == text[i..i + |word|];
      OccursIncluded(text[1..], word, i - 1);
    }
  }

  /** A word longer than the text never occurs in it. */
  lemma {:induction false} LongerNotIncluded(text: string, word: string)
    requires |text| < |word|
    ensures !Includes(text, word)
    decreases |text|
  {
    if text != [] {
      LongerNotIncluded(text[1..], word);
    }
  }

  /** A word with a character that the text lacks does not occur in it. */
  lemma AbsentCharNotIncluded(text: string, word: string, j: nat)
    requires j < |word| && forall i :: 0 <= i < |text| ==> text[i] != word[j]
    ensures !Includes(text, word)
  {
    IncludesIffOccurs(text, word);
  }

  /** The characters String.prototype.trim removes: ECMAScript WhiteSpace
      (tab, vertical tab, form feed, space, no-break space, the byte order
      mark and the other Zs code points) and LineTerminator. */
  predicate IsSpace(c: char)
  {
    var k := c as int;
    k == 0x09 || k == 0x0A || k == 0x0B || k == 0x0C || k == 0x0D || k == 0x20 ||
    k == 0xA0 || k == 0x1680 || (0x2000 <= k <= 0x200A) || k == 0x2028 ||
    k == 0x2029 || k == 0x202F || k == 0x205F || k == 0x3000 || k == 0xFEFF
  }

  /** `s` with its leading white space removed: a suffix of `s`. */
  function TrimStart(s: string): (r: string)
    ensures |r| <= |s| && r == s[|s| - |r|..]
    ensures forall i :: 0 <= i < |s| - |r| ==> IsSpace(s[i])
    ensures r == [] || !IsSpace(r[0])
  {
    if s != [] && IsSpace(s[0]) then TrimStart(s[1..]) else s
  }

  /** `s` with its trailing white space removed: a prefix of `s`. */
  function TrimEnd(s: string): (r: string)
    ensures |r| <= |s| && r == s[..|r|]
    ensures forall i :: |r| <= i < |s| ==> IsSpace(s[i])
    ensures r == [] || !IsSpace(r[|r| - 1])
  {
    if s != [] && IsSpace(s[|s| - 1]) then TrimEnd(s[..|s| - 1]) else s
  }

  /** `r` is the piece of `s` at position `i`, and everything of `s` before
      and after it is white space. */
  predicate PaddedAt(s: string, r: string, i: int)
  {
    OccursAt(s, r, i) &&
    (forall j :: 0 <= j < i ==> IsSpace(s[j])) &&
    (forall j :: i + |r| <= j < |s| ==> IsSpace(s[j]))
  }

  /** `s.trim()`: the part of `s` between its leading and trailing white
      space; empty exactly when `s` is all white space. */
  function Trim(s: string): (r: string)
    ensures exists i :: PaddedAt(s, r, i)
    ensures r == [] <==> forall i :: 0 <= i < |s| ==> IsSpace(s[i])
    ensures r != [] ==> !IsSpace(r[0]) && !IsSpace(r[|r| - 1])
  {
    var t := TrimStart(s);
    var r := TrimEnd(t);
    assert s[|s| - |t|..][..|r|] == s[|s| - |t|..|s| - |t| + |r|];
    assert PaddedAt(s, r, |s| - |t|);
    r
  }
}
