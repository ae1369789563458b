/**
 * The JavaScript string operations the core relies on, restricted to what it
 * does with them: ASCII lower-casing, UTF-16 length, prefix and substring
 * tests, and join.
 */
module Strings {
  /** `String.prototype.toLowerCase` on ASCII letters; other characters are kept. */
  function LowerChar(c: char): char
  {
    if 'A' <= c <= 'Z' then (c as int + 32) as char else c
  }

  function Lower(s: string): (r: string)
    ensures |r| == |s|
    ensures forall i :: 0 <= i < |s| ==> r[i] == LowerChar(s[i])
  {
    if s == [] then [] else [LowerChar(s[0])] + Lower(s[1..])
  }

  /** `String.prototype.length`: the number of UTF-16 code units, one for a
      character of the Basic Multilingual Plane and two (a surrogate pair)
      for any character above it. */
  function Utf16Length(s: string): (n: nat)
    ensures |s| <= n <= 2 * |s|
    ensures n == |s| <==> forall i :: 0 <= i < |s| ==> s[i] as int < 0x1_0000
  {
    if s == [] then 0
    else (if s[0] as int < 0x1_0000 then 1 else 2) + Utf16Length(s[1..])
  }

  /** Characters above the Basic Multilingual Plane (emoji, say) count twice. */
  lemma {:induction false} AstralLength(s: string)
    requires forall i :: 0 <= i < |s| ==> s[i] as int >= 0x1_0000
    ensures Utf16Length(s) == 2 * |s|
  {
    if s != [] {
      AstralLength(s[1..]);
    }
  }

  predicate StartsWith(s: string, prefix: string)
  {
    |prefix| <= |s| && s[..|prefix|] == prefix
  }

  /** `Array.prototype.join`. */
  function Join(parts: seq<string>, sep: string): string
  {
    if parts == [] then ""
    else if |parts| == 1 then parts[0]
    else parts[0] + sep + Join(parts[1..], sep)
  }

  predicate OccursAt(s: string, needle: string, i: int)
  {
    0 <= i <= |s| - |needle| && s[i..i + |needle|] == needle
  }

  /** `String.prototype.includes`. */
  ghost predicate Contains(s: string, needle: string)
  {
    exists i :: OccursAt(s, needle, i)
  }

  /** A compiled substring test: `needle` is a prefix of `s` or of one of its suffixes. */
  function HasSubstring(s: string, needle: string): (r: bool)
    ensures r <==> Contains(s, needle)
    decreases |s|
  {
    if StartsWith(s, needle) then
      assert OccursAt(s, needle, 0);
      true
    else if s == [] then
      assert forall i :: !OccursAt(s, needle, i);
      false
    else
      var r := HasSubstring(s[1..], needle);
      ShiftOccurrence(s, needle);
      r
  }

  lemma ShiftOccurrence(s: string, needle: string)
    requires s != [] && !StartsWith(s, needle)
    ensures Contains(s, needle) <==> Contains(s[1..], needle)
  {
    if Contains(s, needle) {
      var i :| OccursAt(s, needle, i);
      assert i != 0;
      assert s[1..][i - 1..i - 1 + |needle|] == s[i..i + |needle|];
      assert OccursAt(s[1..], needle, i - 1);
    }
    if Contains(s[1..], needle) {
      var i :| OccursAt(s[1..], needle, i);
      assert s[i + 1..i + 1 + |needle|] == s[1..][i..i + |needle|];
      assert OccursAt(s, needle, i + 1);
    }
  }

  lemma {:induction false} JoinLists(parts: seq<string>, sep: string, i: nat)
    requires i < |parts|
    ensures Contains(Join(parts, sep), parts[i])
    decreases |parts|
  {
    if |parts| == 1 {
      assert OccursAt(Join(parts, sep), parts[0], 0);
    } else if i == 0 {
      assert OccursAt(Join(parts, sep), parts[0], 0);
    } else {
      JoinLists(parts[1..], sep, i - 1);
      var rest := Join(parts[1..], sep);
      var k :| OccursAt(rest, parts[i], k);
      var head := parts[0] + sep;
      assert Join(parts, sep) == head + rest;
      assert (head + rest)[|head| + k..|head| + k + |parts[i]|] == rest[k..k + |parts[i]|];
      assert OccursAt(Join(parts, sep), parts[i], |head| + k);
    }
  }

  lemma ContainsAfter(prefix: string, s: string, needle: string)
    requires Contains(s, needle)
    ensures Contains(prefix + s, needle)
  {
    var k :| OccursAt(s, needle, k);
    assert (prefix + s)[|prefix| + k..|prefix| + k + |needle|] == s[k..k + |needle|];
    assert OccursAt(prefix + s, needle, |prefix| + k);
  }

}
