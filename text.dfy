/**
  The string operations the pages apply to names, search queries and the
  message draft: `toLowerCase`, `includes`, `split(' ')` with the initials
  built from it, and `trim`.  A character is a Unicode scalar value, not a
  UTF-16 code unit; every string the pages compare or split is ASCII, where
  the two coincide.  Lower-casing covers the ASCII letters only.
 */
module Text {

  // ---------------------------------------------------------------- lower case

  predicate IsUpper(c: char)
  {
    'A' <= c <= 'Z'
  }

  /** `toLowerCase` on one character, restricted to ASCII. */
  function LowerChar(c: char): (r: char)
    ensures !IsUpper(r)
    ensures !IsUpper(c) ==> r == c
    ensures IsUpper(c) ==> r as int == c as int + 32
  {
    if IsUpper(c) then (c as int + 32) as char else c
  }

  /** `s.toLowerCase()`: same length, each upper-case letter replaced by the
      letter 32 code points above it (its lower-case form), every other
      character kept, so no upper-case letter is left. */
  function LowerCase(s: string): (r: string)
    ensures |r| == |s|
    ensures forall i :: 0 <= i < |s| ==> !IsUpper(r[i]) && (!IsUpper(s[i]) ==> r[i] == s[i])
    ensures forall i :: 0 <= i < |s| && IsUpper(s[i]) ==> 'a' <= r[i] <= 'z' && r[i] as int == s[i] as int + 32
  {
    seq(|s|, i requires 0 <= i < |s| => LowerChar(s[i]))
  }

  /** Lower-casing twice is lower-casing once. */
  lemma LowerCaseIdempotent(s: string)
    ensures LowerCase(LowerCase(s)) == LowerCase(s)
  {
  }

  // ---------------------------------------------------------------- includes

  /** `needle` occurs in `hay` as the contiguous block starting at index `i`. */
  predicate OccursAt(hay: string, needle: string, i: int)
  {
    0 <= i <= |hay| - |needle| && hay[i..i + |needle|] == needle
  }

  /** `hay.includes(needle)`. */
  predicate Includes(hay: string, needle: string)
  {
    exists i | 0 <= i <= |hay| :: OccursAt(hay, needle, i)
  }

  /** The case-insensitive search every list page applies to a display name. */
  predicate MatchesSearch(name: string, query: string)
  {
    Includes(LowerCase(name), LowerCase(query))
  }

  /** A categorical filter: the select value "all" accepts anything, any
      other value accepts only itself. */
  predicate MatchesChoice(choice: string, value: string)
  {
    choice == "all" || value == choice
  }

  /** An empty search box matches every name. */
  lemma EmptyQueryMatchesAll(name: string)
    ensures MatchesSearch(name, "")
  {
    assert OccursAt(LowerCase(name), LowerCase(""), 0);
  }

  /** The search ignores the case of the query. */
  lemma SearchIgnoresQueryCase(name: string, query: string)
    ensures MatchesSearch(name, LowerCase(query)) == MatchesSearch(name, query)
  {
    LowerCaseIdempotent(query);
  }

  // ---------------------------------------------------------------- split and initials

  /** `s.split(' ')`: the maximal space-free blocks of `s`; empty blocks are kept. */
  function Split(s: string): (parts: seq<string>)
    ensures |parts| >= 1
    ensures forall k :: 0 <= k < |parts| ==> ' ' !in parts[k]
  {
    if s == [] then [[]]
    else
      var rest := Split(s[1..]);
      if s[0] == ' ' then [[]] + rest
      else [[s[0]] + rest[0]] + rest[1..]
  }

  /** `parts.join(' ')`. */
  function Join(parts: seq<string>): string
  {
    if parts == [] then []
    else if |parts| == 1 then parts[0]
    else parts[0] + " " + Join(parts[1..])
  }

  /** Splitting on spaces and joining with spaces gives back the string. */
  lemma {:induction false} JoinSplit(s: string)
    ensures Join(Split(s)) == s
    decreases |s|
  {
    if s != [] {
      var rest := Split(s[1..]);
      JoinSplit(s[1..]);
      if s[0] == ' ' {
        var parts := [[]] + rest;
        assert parts[1..] == rest;
        assert Join(parts) == [] + " " + Join(rest);
      } else {
        var parts := [[s[0]] + rest[0]] + rest[1..];
        assert parts[1..] == rest[1..];
        if |rest| == 1 {
          assert Join(parts) == [s[0]] + rest[0];
        } else {
          assert Join(rest) == rest[0] + " " + Join(rest[1..]);
          assert Join(parts) == ([s[0]] + rest[0]) + " " + Join(rest[1..]);
        }
      }
    }
  }

  /** `parts.map(n => n[0]).join('')`: the first character of each part; an
      empty part gives `undefined`, which `join` renders as nothing. */
  function FirstChars(parts: seq<string>): string
  {
    if parts == [] then []
    else (if parts[0] == [] then [] else [parts[0][0]]) + FirstChars(parts[1..])
  }

  /** The avatar initials: `name.split(' ').map(n => n[0]).join('')`. */
  function Initials(name: string): (r: string)
    ensures r == WordStarts(name, true)
    ensures |r| <= |name|
  {
    InitialsAreWordStarts(name);
    FirstChars(Split(name))
  }

  /** Reference definition of initials: every non-space character that starts
      the string or follows a space, in order. `afterSpace` says whether the
      character before `s` was a space (or there was none). */
  function WordStarts(s: string, afterSpace: bool): (r: string)
    ensures |r| <= |s|
  {
    if s == [] then []
    else (if afterSpace && s[0] != ' ' then [s[0]] else []) + WordStarts(s[1..], s[0] == ' ')
  }

  lemma {:induction false} FirstCharsCons(part: string, parts: seq<string>)
    ensures FirstChars([part] + parts) == (if part == [] then [] else [part[0]]) + FirstChars(parts)
  {
    assert ([part] + parts)[1..] == parts;
  }

  /** Splitting and taking first characters picks exactly the word starts;
      the tail of the split starts right after the first space. */
  lemma {:induction false} InitialsAreWordStarts(s: string)
    ensures FirstChars(Split(s)) == WordStarts(s, true)
    ensures FirstChars(Split(s)[1..]) == WordStarts(s, false)
    decreases |s|
  {
    if s != [] {
      var rest := Split(s[1..]);
      InitialsAreWordStarts(s[1..]);
      if s[0] == ' ' {
        FirstCharsCons([], rest);
        assert ([[]] + rest)[1..] == rest;
      } else {
        FirstCharsCons([s[0]] + rest[0], rest[1..]);
        assert ([[s[0]] + rest[0]] + rest[1..])[1..] == rest[1..];
      }
    }
  }

  /** Whether the character before the end of `prefix` is a space, given
      `afterSpace` for the character before `prefix`. */
  function EndsAfterSpace(prefix: string, afterSpace: bool): bool
  {
    if prefix == [] then afterSpace else prefix[|prefix| - 1] == ' '
  }

  lemma {:induction false} WordStartsAppend(a: string, b: string, afterSpace: bool)
    ensures WordStarts(a + b, afterSpace) == WordStarts(a, afterSpace) + WordStarts(b, EndsAfterSpace(a, afterSpace))
    decreases |a|
  {
    if a == [] {
      assert a + b == b;
    } else {
      var c, t := a[0], a[1..];
      assert a == [c] + t;
      assert a + b == [c] + (t + b);
      WordStartsCons(c, t + b, afterSpace);
      WordStartsCons(c, t, afterSpace);
      EndsAfterSpaceCons(c, t, afterSpace);
      WordStartsAppend(t, b, c == ' ');
    }
  }

  lemma WordStartsCons(c: char, u: string, afterSpace: bool)
    ensures WordStarts([c] + u, afterSpace) == (if afterSpace && c != ' ' then [c] else []) + WordStarts(u, c == ' ')
  {
    assert ([c] + u)[1..] == u;
  }

  lemma EndsAfterSpaceCons(c: char, u: string, afterSpace: bool)
    ensures EndsAfterSpace([c] + u, afterSpace) == EndsAfterSpace(u, c == ' ')
  {
    if u != [] {
      assert ([c] + u)[|u|] == u[|u| - 1];
    }
  }

  /** Inside a word (after its first character) no initial is produced. */
  lemma {:induction false} NoWordStartInsideWord(w: string)
    requires ' ' !in w
    ensures WordStarts(w, false) == []
    decreases |w|
  {
    if w != [] {
      NoWordStartInsideWord(w[1..]);
    }
  }

  /** A two-word name "First Last" has initials first[0] last[0]. */
  lemma InitialsOfTwoWords(first: string, last: string)
    requires first != [] && last != []
    requires ' ' !in first && ' ' !in last
    ensures Initials(first + " " + last) == [first[0], last[0]]
  {
    WordStartsAppend(first + " ", last, true);
    WordStartsAppend(first, " ", true);
    NoWordStartInsideWord(first[1..]);
    NoWordStartInsideWord(last[1..]);
    assert (first + " ")[|first + " "| - 1] == ' ';
  }

  /** The initials of "Sarah Johnson" are "SJ". */
  lemma InitialsExample()
    ensures Initials("Sarah Johnson") == "SJ"
  {
    InitialsOfTwoWords("Sarah", "Johnson");
    assert "Sarah" + " " + "Johnson" == "Sarah Johnson";
  }

  // ---------------------------------------------------------------- trim

  /** The characters `String.prototype.trim` strips: white space and line terminators. */
  predicate IsWhitespace(c: char)
  {
    c == ' ' || c == '\t' || c == '\n' || c == '\r' || c == '\U{000B}' || c == '\U{000C}'
    || c == '\U{00A0}' || c == '\U{1680}' || ('\U{2000}' <= c <= '\U{200A}')
    || c == '\U{2028}' || c == '\U{2029}' || c == '\U{202F}' || c == '\U{205F}'
    || c == '\U{3000}' || c == '\U{FEFF}'
  }

  predicate AllWhitespace(s: string)
  {
    forall k :: 0 <= k < |s| ==> IsWhitespace(s[k])
  }

  /** Drops the leading white space: the result is a suffix of `s` that does
      not start with white space, and what was dropped is all white space. */
  function TrimStart(s: string): (r: string)
    ensures |r| <= |s| && r == s[|s| - |r|..]
    ensures AllWhitespace(s[..|s| - |r|])
    ensures r != [] ==> !IsWhitespace(r[0])
  {
    if s != [] && IsWhitespace(s[0]) then
      var r := TrimStart(s[1..]);
      var n := |s| - |r|;
      assert s[..n] == [s[0]] + s[1..][..n - 1];
      AllWhitespaceCons(s[0], s[1..][..n - 1]);
      r
    else s
  }

  lemma AllWhitespaceCons(c: char, t: string)
    requires IsWhitespace(c) && AllWhitespace(t)
    ensures AllWhitespace([c] + t)
  {
    forall k | 0 <= k < |[c] + t| ensures IsWhitespace(([c] + t)[k]) {
      if k > 0 {
        assert ([c] + t)[k] == t[k - 1];
      }
    }
  }

  /** Drops the trailing white space: the result is a prefix of `s` that does
      not end with white space, and what was dropped is all white space. */
  function TrimEnd(s: string): (r: string)
    ensures |r| <= |s| && r == s[..|r|]
    ensures AllWhitespace(s[|r|..])
    ensures r != [] ==> !IsWhitespace(r[|r| - 1])
  {
    if s != [] && IsWhitespace(s[|s| - 1]) then
      var init := s[..|s| - 1];
      var r := TrimEnd(init);
      assert s[|r|..] == init[|r|..] + [s[|s| - 1]];
      AllWhitespaceSnoc(init[|r|..], s[|s| - 1]);
      r
    else s
  }

  lemma AllWhitespaceSnoc(t: string, c: char)
    requires AllWhitespace(t) && IsWhitespace(c)
    ensures AllWhitespace(t + [c])
  {
    forall k | 0 <= k < |t + [c]| ensures IsWhitespace((t + [c])[k]) {
      if k < |t| {
        assert (t + [c])[k] == t[k];
      }
    }
  }

  /** `r` sits in `s` at position `i` with only white space before and after it. */
  predicate TrimmedAt(s: string, r: string, i: int)
  {
    0 <= i <= |s| - |r| && s[i..i + |r|] == r && AllWhitespace(s[..i]) && AllWhitespace(s[i + |r|..])
  }

  /** `s.trim()`: what is left after dropping white space, and only white
      space, at both ends; it is empty exactly when `s` is all white space. */
  function Trim(s: string): (r: string)
    ensures exists i :: TrimmedAt(s, r, i)
    ensures r == [] <==> AllWhitespace(s)
    ensures r != [] ==> !IsWhitespace(r[0]) && !IsWhitespace(r[|r| - 1])
    ensures Includes(s, r)
  {
    TrimFacts(s);
    TrimEnd(TrimStart(s))
  }

  lemma TrimFacts(s: string)
    ensures var r := TrimEnd(TrimStart(s));
      && (exists i :: TrimmedAt(s, r, i))
      && (r == [] <==> AllWhitespace(s))
      && (r != [] ==> !IsWhitespace(r[0]) && !IsWhitespace(r[|r| - 1]))
      && Includes(s, r)
  {
    TrimOfBlank(s);
    TrimOfNonBlank(s);
    TrimIsBlock(s);
  }

  lemma TrimOfBlank(s: string)
    ensures TrimEnd(TrimStart(s)) == [] ==> AllWhitespace(s)
  {
    TrimIsBlock(s);
    if TrimEnd(TrimStart(s)) == [] {
      BlankBlock(s, |s| - |TrimStart(s)|);
    }
  }

  /** When the block left between the dropped white space is empty, `s` was all white space. */
  lemma BlankBlock(s: string, i: int)
    requires TrimmedAt(s, [], i)
    ensures AllWhitespace(s)
  {
    assert s == s[..i] + s[i + 0..];
    AllWhitespaceAppend(s[..i], s[i + 0..]);
  }

  lemma AllWhitespaceAppend(a: string, b: string)
    requires AllWhitespace(a) && AllWhitespace(b)
    ensures AllWhitespace(a + b)
  {
    forall k | 0 <= k < |a + b| ensures IsWhitespace((a + b)[k]) {
      if k < |a| {
        assert (a + b)[k] == a[k];
      } else {
        assert (a + b)[k] == b[k - |a|];
      }
    }
  }

  lemma TrimOfNonBlank(s: string)
    ensures AllWhitespace(s) ==> TrimEnd(TrimStart(s)) == []
  {
    var front := TrimStart(s);
    var i := |s| - |front|;
    if AllWhitespace(s) {
      assert front == s[i..];
      // a white-space front would contradict TrimStart's postcondition, so it is empty
      assert AllWhitespace(front);
    }
  }

  /** Trimming the start and then the end keeps the block between the dropped
      white space, at the position where the start's trimming stopped. */
  lemma TrimIsBlock(s: string)
    ensures TrimmedAt(s, TrimEnd(TrimStart(s)), |s| - |TrimStart(s)|)
    ensures Includes(s, TrimEnd(TrimStart(s)))
  {
    var front := TrimStart(s);
    var r := TrimEnd(front);
    BlockFromParts(s, front, r);
  }

  /** A prefix `r` of a suffix `front` of `s`, with white space before `front`
      and after `r`, sits in `s` between white space. */
  lemma BlockFromParts(s: string, front: string, r: string)
    requires |front| <= |s| && front == s[|s| - |front|..] && AllWhitespace(s[..|s| - |front|])
    requires |r| <= |front| && r == front[..|r|] && AllWhitespace(front[|r|..])
    ensures TrimmedAt(s, r, |s| - |front|)
    ensures Includes(s, r)
  {
    var i := |s| - |front|;
    PrefixOfSuffixOccurs(s, i, r);
    assert s[i + |r|..] == front[|r|..];
  }

  /** A prefix of the suffix starting at `i` occurs in `s` at `i`. */
  lemma PrefixOfSuffixOccurs(s: string, i: nat, r: string)
    requires i <= |s| && |r| <= |s| - i
    requires r == s[i..][..|r|]
    ensures OccursAt(s, r, i)
  {
    assert s[i..][..|r|] == s[i..i + |r|];
  }
}
