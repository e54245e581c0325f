/** JavaScript's string splitting, as the localization code uses it:
    `key.split('.')` for dot-path keys and `tag.split('-')[0]` for the
    primary subtag of a browser language tag. */
module Strings {

  /** `s.split(sep)` for a one-character separator: the maximal runs between
      separators, so that "" splits to [""] and "a..b" to ["a", "", "b"]. */
  function Split(s: string, sep: char): (parts: seq<string>)
    ensures |parts| >= 1
    ensures forall i :: 0 <= i < |parts| ==> sep !in parts[i]
    ensures Join(parts, sep) == s
    decreases |s|
  {
    if s == [] then [""]
    else if s[0] == sep then
      var rest := Split(s[1..], sep);
      assert [s[0]] + s[1..] == s;
      [""] + rest
    else
      var rest := Split(s[1..], sep);
      assert [s[0]] + s[1..] == s;
      [[s[0]] + rest[0]] + rest[1..]
  }

  /** `parts.join(sep)`. */
  function Join(parts: seq<string>, sep: char): string
  {
    if parts == [] then ""
    else if |parts| == 1 then parts[0]
    else parts[0] + [sep] + Join(parts[1..], sep)
  }

  /** Splitting a string that starts with a separator-free run `a` puts `a`
      in front of the first part of the rest. */
  lemma {:induction false} SplitAfterRun(a: string, b: string, sep: char)
    requires sep !in a
    ensures Split(a + b, sep) == [a + Split(b, sep)[0]] + Split(b, sep)[1..]
    decreases |a|
  {
    var rest := Split(b, sep);
    if a == [] {
      assert a + b == b;
      assert a + rest[0] == rest[0];
      assert [rest[0]] + rest[1..] == rest;
    } else {
      SplitAfterRun(a[1..], b, sep);
      assert (a + b)[1..] == a[1..] + b;
      assert [a[0]] + (a[1..] + Split(b, sep)[0]) == a + Split(b, sep)[0];
    }
  }

  /** A string that starts with the separator splits to an empty first part. */
  lemma SplitAtSeparator(t: string, sep: char)
    ensures Split([sep] + t, sep) == [""] + Split(t, sep)
  {
    assert ([sep] + t)[1..] == t;
  }

  /** Split undoes Join whenever no part contains the separator. */
  lemma {:induction false} SplitOfJoin(parts: seq<string>, sep: char)
    requires |parts| >= 1
    requires forall i :: 0 <= i < |parts| ==> sep !in parts[i]
    ensures Split(Join(parts, sep), sep) == parts
    decreases |parts|
  {
    var head := parts[0];
    if |parts| == 1 {
      SplitAfterRun(head, "", sep);
      assert head + "" == head;
    } else {
      var tail := Join(parts[1..], sep);
      assert Join(parts, sep) == head + ([sep] + tail);
      SplitOfJoin(parts[1..], sep);
      SplitAtSeparator(tail, sep);
      SplitAfterRun(head, [sep] + tail, sep);
      assert head + "" == head;
      assert [head] + parts[1..] == parts;
    }
  }

  /** `tag.split('-')[0]`: the primary language subtag of a language tag
      (section 2.2.1 of RFC 5646), i.e. the text before the first '-'. */
  function PrimarySubtag(tag: string): (sub: string)
    ensures sub <= tag
    ensures '-' !in sub
    ensures |sub| < |tag| ==> tag[|sub|] == '-'
  {
    var parts := Split(tag, '-');
    assert parts[0] != [] ==> parts[0][0] != '-';
    Split(tag, '-')[0]
  }

  /** The primary subtag of `lang` followed by nothing or by a '-' and more
      subtags is `lang` itself: "sk-SK" gives "sk", "en" gives "en". */
  lemma {:induction false} PrimarySubtagOf(lang: string, rest: string)
    requires '-' !in lang
    requires rest == [] || rest[0] == '-'
    ensures PrimarySubtag(lang + rest) == lang
  {
    SplitAfterRun(lang, rest, '-');
    if rest != [] {
      assert rest == [rest[0]] + rest[1..];
      SplitAtSeparator(rest[1..], '-');
    }
    assert lang + "" == lang;
  }

  /** An ASCII upper-case letter 'A'..'Z'. */
  predicate IsAsciiUpper(c: char)
  {
    'A' <= c <= 'Z'
  }

  /** A character converted to ASCII lowercase: only 'A'..'Z' change. */
  function LowerChar(c: char): (d: char)
    ensures !IsAsciiUpper(d)
    ensures IsAsciiUpper(c) ==> d as int == c as int + 32
    ensures !IsAsciiUpper(c) ==> d == c
  {
    if IsAsciiUpper(c) then (c as int + 32) as char else c
  }

  /** A string converted to ASCII lowercase, as the DOM Standard does with
      an attribute name passed to `setAttribute` on an HTML element. */
  function AsciiLowercase(s: string): (r: string)
    ensures |r| == |s|
    ensures forall i :: 0 <= i < |s| ==> r[i] == LowerChar(s[i])
    ensures forall i :: 0 <= i < |r| ==> !IsAsciiUpper(r[i])
  {
    seq(|s|, i requires 0 <= i < |s| => LowerChar(s[i]))
  }

  /** A name without ASCII upper-case letters is its own lowercase form, so
      lowercasing twice is lowercasing once. */
  lemma {:induction false} AsciiLowercaseFixes(s: string)
    requires forall i :: 0 <= i < |s| ==> !IsAsciiUpper(s[i])
    ensures AsciiLowercase(s) == s
  {
    var r := AsciiLowercase(s);
    forall i | 0 <= i < |s|
      ensures r[i] == s[i]
    {
      assert r[i] == LowerChar(s[i]);
    }
  }
}
