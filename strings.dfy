/**
 * The two Go standard-library string operations the renderer uses,
 * `strings.Split` and `strings.Join`, specialised to a one-character
 * separator (the only way the renderer calls them), on `seq<char>`.
 */
module Strings {

  /** `strings.Split(s, string(sep))`: the pieces between occurrences of `sep`.
      Like Go, splitting the empty string gives one empty piece. */
  function Split(s: string, sep: char): (parts: seq<string>)
    ensures |parts| >= 1
    ensures forall i :: 0 <= i < |parts| ==> sep !in parts[i]
  {
    if |s| == 0 then [""]
    else
      var rest := Split(s[1..], sep);
      if s[0] == sep then [""] + rest
      else [[s[0]] + rest[0]] + rest[1..]
  }

  /** `strings.Join(parts, glue)`: the pieces with `glue` between neighbours. */
  function Join(parts: seq<string>, glue: string): string
  {
    if |parts| == 0 then ""
    else if |parts| == 1 then parts[0]
    else parts[0] + glue + Join(parts[1..], glue)
  }

  /** Reference definition: every `from` in `s` replaced by `to`, character by character. */
  function ReplaceChar(s: string, from: char, to: string): (r: string)
    ensures from !in to ==> from !in r
    ensures from !in s ==> r == s
  {
    if |s| == 0 then ""
    else (if s[0] == from then to else [s[0]]) + ReplaceChar(s[1..], from, to)
  }

  /** Joining the split pieces with the separator itself gives back the input. */
  lemma {:induction false} JoinSplit(s: string, sep: char)
    ensures Join(Split(s, sep), [sep]) == s
  {
    if |s| > 0 {
      JoinSplit(s[1..], sep);
      JoinSplitGlue(s, sep, [sep]);
    }
  }

  /** Splitting on `sep` and joining with `glue` replaces each `sep` by `glue`. */
  lemma {:induction false} JoinSplitIsReplace(s: string, sep: char, glue: string)
    ensures Join(Split(s, sep), glue) == ReplaceChar(s, sep, glue)
  {
    if |s| > 0 {
      JoinSplitIsReplace(s[1..], sep, glue);
      JoinSplitGlue(s, sep, glue);
    }
  }

  /** One step of the two lemmas above: how the first character of `s`
      contributes to `Join(Split(s, sep), glue)`. */
  lemma JoinSplitGlue(s: string, sep: char, glue: string)
    requires |s| > 0
    ensures Join(Split(s, sep), glue)
         == (if s[0] == sep then glue else [s[0]]) + Join(Split(s[1..], sep), glue)
  {
    var rest := Split(s[1..], sep);
    if s[0] == sep {
      assert Split(s, sep) == [""] + rest;
      assert ([""] + rest)[1..] == rest;
    } else {
      var parts := [[s[0]] + rest[0]] + rest[1..];
      assert Split(s, sep) == parts;
      if |rest| == 1 {
        assert parts == [[s[0]] + rest[0]];
      } else {
        assert parts[1..] == rest[1..];
        assert Join(rest, glue) == rest[0] + glue + Join(rest[1..], glue);
      }
    }
  }
}
