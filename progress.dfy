/**
 * The progress heuristic applied to every line the downloader prints on
 * standard output. A line is a sequence of characters, each standing for one
 * byte of the Go string (Go indexes strings by byte).
 */
module Progress {
  import opened Wrappers

  /** The marker the scan looks for. */
  const Percent: char := '%'

  /**
   * The first index of `c` in `s`, or -1 when `c` does not occur
   * (Go's `strings.Index` with a one-byte needle).
   */
  function IndexOf(s: string, c: char): (r: int)
    ensures r == -1 <==> c !in s
    ensures r != -1 ==> 0 <= r < |s| && s[r] == c && c !in s[..r]
  {
    if s == [] then -1
    else if s[0] == c then 0
    else
      var k := IndexOf(s[1..], c);
      if k == -1 then -1 else k + 1
  }

  /**
   * The progress token of a line: when the line contains a percent sign
   * whose FIRST occurrence is at index idx >= 2, the three bytes
   * line[idx-2 .. idx+1]; otherwise nothing.
   */
  function ProgressToken(line: string): (r: Option<string>)
    ensures r.Some? ==> |r.value| == 3 && r.value[2] == Percent
  {
    if Percent in line then
      var idx := IndexOf(line, Percent);
      if idx >= 2 then Some(line[idx - 2..idx + 1]) else None
    else None
  }

  /** `i` is the index of the first percent sign of `line`. */
  predicate FirstPercentAt(line: string, i: int)
  {
    0 <= i < |line| && line[i] == Percent && Percent !in line[..i]
  }

  /**
   * Characterisation of the token by the position of the first percent sign,
   * independent of IndexOf: it is the three bytes ending at that sign when
   * two bytes precede it, and nothing otherwise.
   */
  lemma ProgressTokenAtFirstPercent(line: string, i: int)
    requires FirstPercentAt(line, i)
    ensures ProgressToken(line) == (if i >= 2 then Some(line[i - 2..i + 1]) else None)
  {
  }

  /** A line without a percent sign yields no token. */
  lemma NoPercentNoToken(line: string)
    requires Percent !in line
    ensures ProgressToken(line) == None
  {
  }

  /**
   * A line yields a token exactly when it has a percent sign with at least
   * two bytes before its first occurrence, and the token is a slice of the line.
   */
  lemma ProgressTokenIff(line: string)
    ensures ProgressToken(line).Some? <==> exists i :: FirstPercentAt(line, i) && i >= 2
    ensures ProgressToken(line).Some? ==>
              exists i :: FirstPercentAt(line, i) && ProgressToken(line).value == line[i - 2..i + 1]
  {
    if Percent in line {
      var idx := IndexOf(line, Percent);
      assert FirstPercentAt(line, idx);
      ProgressTokenAtFirstPercent(line, idx);
    }
  }

  /**
   * Only the first percent sign matters: when it sits at index 0 or 1 the
   * line yields nothing, whatever follows it.
   */
  lemma EarlyFirstPercentHidesLater(head: string, rest: string)
    requires |head| <= 1 && Percent !in head
    ensures ProgressToken(head + [Percent] + rest) == None
  {
    var line := head + [Percent] + rest;
    assert line[..|head|] == head;
    assert FirstPercentAt(line, |head|);
    ProgressTokenAtFirstPercent(line, |head|);
  }

  /**
   * When at least two bytes precede the first percent sign, the token is the
   * last two of them followed by the sign, whatever follows it.
   */
  lemma TokenOfPrefix(head: string, rest: string)
    requires |head| >= 2 && Percent !in head
    ensures ProgressToken(head + [Percent] + rest) == Some(head[|head| - 2..] + [Percent])
  {
    var line := head + [Percent] + rest;
    assert line[..|head|] == head;
    assert FirstPercentAt(line, |head|);
    ProgressTokenAtFirstPercent(line, |head|);
    assert line[|head| - 2..|head| + 1] == head[|head| - 2..] + [Percent];
  }

  /**
   * A download line whose percentage carries a decimal digit (` 42.5%`)
   * shows only the decimal point, the tenths digit and the sign.
   */
  lemma DecimalPercentageToken(whole: string, tenth: char, rest: string)
    requires Percent !in whole && tenth != Percent
    ensures ProgressToken(whole + ['.', tenth, Percent] + rest) == Some(['.', tenth, Percent])
  {
    var head := whole + ['.', tenth];
    TokenOfPrefix(head, rest);
    assert head + [Percent] + rest == whole + ['.', tenth, Percent] + rest;
    assert head[|head| - 2..] == ['.', tenth];
    assert head[|head| - 2..] + [Percent] == ['.', tenth, Percent];
  }
}
