/**
 * The string library calls the plugin makes: strings.Split with a
 * one-character separator, strings.Join, strings.Contains, and the
 * line structure of a document built as a sequence of "\n"-terminated lines.
 */
module Strings {

  /** strings.Split(s, [sep]): the pieces between the occurrences of sep, in order. */
  function Split(s: string, sep: char): (parts: seq<string>)
    ensures |parts| > 0
    ensures forall k :: 0 <= k < |parts| ==> sep !in parts[k]
    decreases |s|
  {
    if s == [] then [[]]
    else
      var rest := Split(s[1..], sep);
      if s[0] == sep then [[]] + rest else [[s[0]] + rest[0]] + rest[1..]
  }

  /** strings.Join(parts, sep): the parts with sep between consecutive ones. */
  function Join(parts: seq<string>, sep: string): string
    decreases |parts|
  {
    if parts == [] then []
    else if |parts| == 1 then parts[0]
    else parts[0] + sep + Join(parts[1..], sep)
  }

  /** The text of lines, each followed by a newline. */
  function Unlines(lines: seq<string>): string
    decreases |lines|
  {
    if lines == [] then [] else lines[0] + "\n" + Unlines(lines[1..])
  }

  /** sub starts at position i of s. */
  predicate OccursAt(s: string, sub: string, i: nat) {
    i + |sub| <= |s| && s[i..i + |sub|] == sub
  }

  /** strings.Contains(s, sub); the empty string is contained in every string. */
  function Contains(s: string, sub: string): bool
    decreases |s|
  {
    (|sub| <= |s| && s[..|sub|] == sub) || (s != [] && Contains(s[1..], sub))
  }

  /** Joining the pieces of a split with the separator gives back the original string. */
  lemma {:induction false} JoinSplit(s: string, sep: char)
    ensures Join(Split(s, sep), [sep]) == s
    decreases |s|
  {
    if s != [] {
      var rest := Split(s[1..], sep);
      JoinSplit(s[1..], sep);
      if s[0] == sep {
        assert Split(s, sep) == [[]] + rest;
        assert ([[]] + rest)[1..] == rest;
      } else if |rest| > 1 {
        var parts := Split(s, sep);
        assert parts[1..] == rest[1..];
        assert Join(rest, [sep]) == rest[0] + [sep] + Join(rest[1..], [sep]);
      }
    }
  }

  /** Splitting a word that has no separator in it, followed by more text. */
  lemma {:induction false} SplitWord(w: string, rest: string, sep: char)
    requires sep !in w
    ensures Split(w + rest, sep) == [w + Split(rest, sep)[0]] + Split(rest, sep)[1..]
    decreases |w|
  {
    if w != [] {
      assert (w + rest)[1..] == w[1..] + rest;
      SplitWord(w[1..], rest, sep);
      assert [w[0]] + (w[1..] + Split(rest, sep)[0]) == w + Split(rest, sep)[0];
    } else {
      var parts := Split(rest, sep);
      assert w == [];
      assert w + rest == rest && w + parts[0] == parts[0];
      assert [parts[0]] + parts[1..] == parts;
    }
  }

  /** Splitting what was joined gives back the parts, when no part contains the separator. */
  lemma {:induction false} SplitJoin(parts: seq<string>, sep: char)
    requires |parts| > 0
    requires forall k :: 0 <= k < |parts| ==> sep !in parts[k]
    ensures Split(Join(parts, [sep]), sep) == parts
    decreases |parts|
  {
    if |parts| == 1 {
      SplitWord(parts[0], [], sep);
      assert Split([], sep) == [[]];
      assert parts[0] + [] == parts[0];
    } else {
      var tail := Join(parts[1..], [sep]);
      SplitJoin(parts[1..], sep);
      assert Join(parts, [sep]) == parts[0] + ([sep] + tail);
      SplitWord(parts[0], [sep] + tail, sep);
      assert ([sep] + tail)[1..] == tail;
      assert Split([sep] + tail, sep) == [[]] + parts[1..];
      assert parts[0] + [] == parts[0];
      assert [parts[0]] + parts[1..] == parts;
    }
  }

  /** Joining one more part appends the separator and that part. */
  lemma {:induction false} JoinSnoc(parts: seq<string>, last: string, sep: string)
    ensures Join(parts + [last], sep) == if parts == [] then last else Join(parts, sep) + sep + last
    decreases |parts|
  {
    if |parts| > 1 {
      JoinSnoc(parts[1..], last, sep);
      assert (parts + [last])[1..] == parts[1..] + [last];
    } else if |parts| == 1 {
      assert (parts + [last])[1..] == [last];
    }
  }

  lemma UnlinesCons(line: string, rest: seq<string>)
    ensures Unlines([line] + rest) == line + "\n" + Unlines(rest)
  {
    assert ([line] + rest)[1..] == rest;
  }

  /** A document of three lines appended to head, written out line by line. */
  lemma AppendLines3(head: string, a: string, b: string, c: string)
    ensures head + Unlines([a, b, c]) == head + a + "\n" + b + "\n" + c + "\n"
  {
    UnlinesCons(c, []);
    assert [b, c] == [b] + [c];
    UnlinesCons(b, [c]);
    assert [a, b, c] == [a] + [b, c];
    UnlinesCons(a, [b, c]);
  }

  /** A document of five lines appended to head, written out line by line. */
  lemma AppendLines5(head: string, a: string, b: string, c: string, d: string, e: string)
    ensures head + Unlines([a, b, c, d, e]) == head + a + "\n" + b + "\n" + c + "\n" + d + "\n" + e + "\n"
  {
    assert [a, b, c, d, e] == [a] + ([b] + [c, d, e]);
    UnlinesCons(a, [b] + [c, d, e]);
    UnlinesCons(b, [c, d, e]);
    AppendLines3(head + a + "\n" + b + "\n", c, d, e);
  }

  /** A document of six lines appended to head, written out line by line. */
  lemma AppendLines6(head: string, a: string, b: string, c: string, d: string, e: string, f: string)
    ensures head + Unlines([a, b, c, d, e, f]) == head + a + "\n" + b + "\n" + c + "\n" + d + "\n" + e + "\n" + f + "\n"
  {
    assert [a, b, c, d, e, f] == [a] + [b, c, d, e, f];
    UnlinesCons(a, [b, c, d, e, f]);
    AppendLines5(head + a + "\n", b, c, d, e, f);
  }

  /** The document of two runs of lines is the two documents one after the other. */
  lemma {:induction false} UnlinesAppend(first: seq<string>, second: seq<string>)
    ensures Unlines(first + second) == Unlines(first) + Unlines(second)
    decreases |first|
  {
    if first == [] {
      assert first + second == second;
    } else {
      UnlinesAppend(first[1..], second);
      assert first + second == [first[0]] + (first[1..] + second);
      UnlinesCons(first[0], first[1..] + second);
    }
  }

  /** A document of lines is the lines joined by newlines, plus a final newline. */
  lemma {:induction false} UnlinesIsJoin(lines: seq<string>)
    ensures Unlines(lines) == Join(lines + [[]], "\n")
    decreases |lines|
  {
    if lines != [] {
      UnlinesIsJoin(lines[1..]);
      assert (lines + [[]])[1..] == lines[1..] + [[]];
    }
  }

  /**
   * Splitting a document of newline-free lines at its newlines gives back its
   * lines, then the empty text after the final newline.
   */
  lemma LinesOfUnlines(lines: seq<string>)
    requires forall k :: 0 <= k < |lines| ==> '\n' !in lines[k]
    ensures Split(Unlines(lines), '\n') == lines + [[]]
  {
    UnlinesIsJoin(lines);
    SplitJoin(lines + [[]], '\n');
  }

  /** strings.Contains(s, sub) holds exactly when sub occurs at some position of s. */
  lemma {:induction false} ContainsIff(s: string, sub: string)
    ensures Contains(s, sub) <==> exists i: nat :: OccursAt(s, sub, i)
    decreases |s|
  {
    if |sub| <= |s| && s[..|sub|] == sub {
      assert OccursAt(s, sub, 0);
    } else if s == [] {
    } else {
      ContainsIff(s[1..], sub);
      if Contains(s[1..], sub) {
        var i: nat :| OccursAt(s[1..], sub, i);
        assert s[i + 1..i + 1 + |sub|] == s[1..][i..i + |sub|];
        assert OccursAt(s, sub, i + 1);
      } else {
        forall i: nat | OccursAt(s, sub, i) ensures false {
          if i != 0 {
            assert s[1..][i - 1..i - 1 + |sub|] == s[i..i + |sub|];
            assert OccursAt(s[1..], sub, i - 1);
          }
        }
      }
    }
  }
}
