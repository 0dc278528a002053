/** The two string operations the client applies to received lines: `str.rstrip("\n")` and `str.split(",")`. */
module Text {

  /** Every character is ASCII, so `encode('ascii')` succeeds. */
  predicate IsAscii(s: string) {
    forall i :: 0 <= i < |s| ==> s[i] as int < 128
  }

  /** How often c occurs in s. */
  function Occurrences(s: string, c: char): nat {
    if |s| == 0 then 0 else Occurrences(s[1..], c) + (if s[0] == c then 1 else 0)
  }

  /** `sep.join(fields)`. */
  function Join(fields: seq<string>, sep: char): string {
    if |fields| == 0 then ""
    else if |fields| == 1 then fields[0]
    else fields[0] + [sep] + Join(fields[1..], sep)
  }

  /**
   * `s.split(sep)` with a separator given: never an empty list, no field holds
   * the separator, one more field than separators, and joining gives s back.
   */
  function Split(s: string, sep: char): (fields: seq<string>)
    ensures |fields| == Occurrences(s, sep) + 1
    ensures forall i :: 0 <= i < |fields| ==> sep !in fields[i]
    ensures Join(fields, sep) == s
  {
    if |s| == 0 then [""]
    else
      var rest := Split(s[1..], sep);
      if s[0] == sep then [""] + rest
      else
        assert Join(rest, sep) == rest[0] + if |rest| == 1 then "" else [sep] + Join(rest[1..], sep);
        assert s == [s[0]] + s[1..];
        [[s[0]] + rest[0]] + rest[1..]
  }

  /** A field without the separator, then the separator: the field comes off first. */
  lemma {:induction false} SplitAfterField(a: string, b: string, sep: char)
    requires sep !in a
    ensures Split(a + [sep] + b, sep) == [a] + Split(b, sep)
  {
    if |a| > 0 {
      assert (a + [sep] + b)[1..] == a[1..] + [sep] + b;
      SplitAfterField(a[1..], b, sep);
      assert [a[0]] + a[1..] == a;
    }
  }

  /** A string without the separator is a single field. */
  lemma {:induction false} SplitOfField(a: string, sep: char)
    requires sep !in a
    ensures Split(a, sep) == [a]
  {
    if |a| > 0 {
      SplitOfField(a[1..], sep);
      assert [a[0]] + a[1..] == a;
    }
  }

  /** Splitting a join of separator-free fields gives the fields back. */
  lemma {:induction false} SplitOfJoin(fields: seq<string>, sep: char)
    requires |fields| >= 1
    requires forall i :: 0 <= i < |fields| ==> sep !in fields[i]
    ensures Split(Join(fields, sep), sep) == fields
  {
    if |fields| == 1 {
      SplitOfField(fields[0], sep);
    } else {
      SplitOfJoin(fields[1..], sep);
      SplitAfterField(fields[0], Join(fields[1..], sep), sep);
      assert [fields[0]] + fields[1..] == fields;
    }
  }

  /**
   * `s.rstrip("\n")`: a prefix of s, everything it drops is a newline, and it
   * keeps no trailing newline.
   */
  function RStripNewlines(s: string): (r: string)
    ensures |r| <= |s| && r == s[..|r|]
    ensures forall i :: |r| <= i < |s| ==> s[i] == '\n'
    ensures |r| == 0 || r[|r| - 1] != '\n'
  {
    if |s| > 0 && s[|s| - 1] == '\n' then RStripNewlines(s[..|s| - 1]) else s
  }

  /** Stripping a line that has one terminating newline gives the line's content. */
  lemma RStripOfTerminatedLine(content: string)
    requires |content| == 0 || content[|content| - 1] != '\n'
    ensures RStripNewlines(content + "\n") == content
  {
    assert (content + "\n")[..|content|] == content;
  }
}
