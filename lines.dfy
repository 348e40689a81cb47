/**
 * Line-oriented text: `DataFrame.head(n)` on the rendered rows, the newline
 * join that `DataFrame.to_string` produces, and a split that inverts it.
 */
module Lines {

  /** `head(n)`: the first `n` items, or all of them when there are fewer. */
  function Head<T>(s: seq<T>, n: nat): (r: seq<T>)
    ensures |r| <= n && |r| <= |s|
    ensures |r| == n || |r| == |s|
    ensures r == s[..|r|]
  {
    if |s| <= n then s else s[..n]
  }

  /** The lines joined by '\n', no newline after the last one. */
  function JoinLines(lines: seq<string>): string
    decreases |lines|
  {
    if lines == [] then ""
    else if |lines| == 1 then lines[0]
    else lines[0] + "\n" + JoinLines(lines[1..])
  }

  /** Python's `s.split("\n")`: always at least one piece. */
  function SplitLines(s: string): (r: seq<string>)
    ensures |r| >= 1
    decreases |s|
  {
    if s == [] then [""]
    else
      var rest := SplitLines(s[1..]);
      if s[0] == '\n' then [""] + rest
      else [[s[0]] + rest[0]] + rest[1..]
  }

  predicate NoNewline(line: string) {
    '\n' !in line
  }

  /** A newline-free prefix glues onto the first piece of what follows it. */
  lemma {:induction false} SplitAfterLine(line: string, rest: string)
    requires NoNewline(line)
    ensures SplitLines(line + rest) == [line + SplitLines(rest)[0]] + SplitLines(rest)[1..]
    decreases |line|
  {
    if line == [] {
      var pieces := SplitLines(rest);
      assert line + rest == rest && line + pieces[0] == pieces[0];
      assert [pieces[0]] + pieces[1..] == pieces;
    } else {
      assert (line + rest)[1..] == line[1..] + rest;
      assert NoNewline(line[1..]) by {
        forall i | 0 <= i < |line[1..]| ensures line[1..][i] != '\n' {
          assert line[1..][i] == line[i + 1];
        }
      }
      SplitAfterLine(line[1..], rest);
      assert [line[0]] + (line[1..] + SplitLines(rest)[0]) == line + SplitLines(rest)[0];
    }
  }

  /** Splitting the join of newline-free lines gives back exactly those lines, in order. */
  lemma {:induction false} SplitJoin(lines: seq<string>)
    requires |lines| >= 1
    requires forall i :: 0 <= i < |lines| ==> NoNewline(lines[i])
    ensures SplitLines(JoinLines(lines)) == lines
    decreases |lines|
  {
    if |lines| == 1 {
      SplitAfterLine(lines[0], "");
      assert lines[0] + "" == lines[0];
    } else {
      var tail := JoinLines(lines[1..]);
      assert JoinLines(lines) == lines[0] + ("\n" + tail);
      SplitAfterLine(lines[0], "\n" + tail);
      assert ("\n" + tail)[1..] == tail;
      SplitJoin(lines[1..]);
      assert SplitLines("\n" + tail) == [""] + lines[1..];
      assert lines[0] + "" == lines[0];
    }
  }
}
