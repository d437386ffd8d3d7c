/**
 * How JavaScript turns an array of strings into text when it is interpolated
 * into a template literal: `Array.prototype.toString`, that is, the elements
 * joined with "," and nothing else. `SplitOn` undoes it for non-empty arrays
 * whose elements hold no comma (`SplitJoin`).
 */
module ArrayText {
  /** The elements joined with commas; the empty array gives the empty string. */
  function JoinComma(xs: seq<string>): (s: string)
    ensures xs == [] ==> s == ""
    ensures xs != [] ==> |s| >= |xs[0]| && s[..|xs[0]|] == xs[0]
    ensures |xs| > 1 ==> |s| > |xs[0]| && s[|xs[0]|] == ','
  {
    if |xs| == 0 then ""
    else if |xs| == 1 then xs[0]
    else xs[0] + "," + JoinComma(xs[1..])
  }

  /** Cuts a string at every `sep`; always at least one piece. */
  function SplitOn(s: string, sep: char): (pieces: seq<string>)
    ensures |pieces| >= 1
  {
    if s == [] then [""]
    else
      var rest := SplitOn(s[1..], sep);
      if s[0] == sep then [""] + rest else [[s[0]] + rest[0]] + rest[1..]
  }

  /** A prefix with no separator in it glues onto the first piece of what follows. */
  lemma {:induction false} SplitPrepend(x: string, t: string, sep: char)
    requires sep !in x
    ensures SplitOn(x + t, sep) == [x + SplitOn(t, sep)[0]] + SplitOn(t, sep)[1..]
  {
    if x != [] {
      assert (x + t)[1..] == x[1..] + t;
      SplitPrepend(x[1..], t, sep);
      assert [x[0]] + (x[1..] + SplitOn(t, sep)[0]) == x + SplitOn(t, sep)[0];
    } else {
      var p := SplitOn(t, sep);
      assert x + t == t && x + p[0] == p[0];
      assert p == [p[0]] + p[1..];
    }
  }

  /**
   * Joining is undone by splitting at commas, as long as the array is not
   * empty and no element contains a comma: the interpolated list can be read
   * back exactly, element by element and in order.
   */
  lemma {:induction false} SplitJoin(xs: seq<string>)
    requires |xs| >= 1
    requires forall i :: 0 <= i < |xs| ==> ',' !in xs[i]
    ensures SplitOn(JoinComma(xs), ',') == xs
  {
    if |xs| == 1 {
      SplitPrepend(xs[0], "", ',');
      assert xs[0] + "" == xs[0];
    } else {
      SplitJoin(xs[1..]);
      var t := "," + JoinComma(xs[1..]);
      assert JoinComma(xs) == xs[0] + t;
      SplitPrepend(xs[0], t, ',');
      assert t[1..] == JoinComma(xs[1..]);
      assert SplitOn(t, ',') == [""] + xs[1..];
      assert xs[0] + "" == xs[0];
      assert xs == [xs[0]] + xs[1..];
    }
  }
}
