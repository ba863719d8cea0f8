/**
 * Text helpers the test engine relies on: substring search (the C library's
 * `strstr`, which decides whether an expected diagnostic occurs in the
 * compiler's stderr) and the space-separated rendering of a command line
 * that the engine prints so a failing case can be reproduced by hand.
 */
module Text {

  /** `needle` occurs in `hay` starting at position `i`. */
  ghost predicate OccursAt(hay: string, needle: string, i: int) {
    0 <= i && i + |needle| <= |hay| && hay[i..i + |needle|] == needle
  }

  /** Reference meaning of substring containment: some position holds `needle`. */
  ghost predicate IsSubstring(needle: string, hay: string) {
    exists i :: OccursAt(hay, needle, i)
  }

  /**
   * `strstr(hay, needle) != NULL`: scan `hay` left to right for a position at
   * which `needle` starts. The empty needle is contained in every string.
   */
  predicate Contains(hay: string, needle: string)
    decreases |hay|
  {
    |needle| <= |hay| && (hay[..|needle|] == needle || (|hay| > 0 && Contains(hay[1..], needle)))
  }

  /** The scan agrees with the reference meaning, in both directions. */
  lemma {:induction false} ContainsIsSubstring(hay: string, needle: string)
    ensures Contains(hay, needle) <==> IsSubstring(needle, hay)
    decreases |hay|
  {
    var n := |needle|;
    if n > |hay| {
      forall i | OccursAt(hay, needle, i) ensures false { }
    } else if hay[..n] == needle {
      assert OccursAt(hay, needle, 0);
    } else {
      assert |hay| > 0;
      var tail := hay[1..];
      ContainsIsSubstring(tail, needle);
      if Contains(hay, needle) {
        var j :| OccursAt(tail, needle, j);
        var shifted, found := hay[j + 1..j + 1 + n], tail[j..j + n];
        assert forall k :: 0 <= k < n ==> shifted[k] == found[k];
        assert shifted == found;
        assert OccursAt(hay, needle, j + 1);
      }
      if IsSubstring(needle, hay) {
        var i :| OccursAt(hay, needle, i);
        assert i != 0;
        var shifted, found := tail[i - 1..i - 1 + n], hay[i..i + n];
        assert forall k :: 0 <= k < n ==> shifted[k] == found[k];
        assert shifted == found;
        assert OccursAt(tail, needle, i - 1);
      }
    }
  }

  /**
   * The command line as the engine prints it: the executable followed by each
   * argument, every one preceded by a single space (no newline).
   */
  function CommandLine(exe: string, args: seq<string>): string
  {
    if args == [] then exe else CommandLine(exe, args[..|args| - 1]) + " " + args[|args| - 1]
  }

  /** A word in the shell's simplest sense: text without a space. */
  predicate NoSpace(s: string) {
    forall k :: 0 <= k < |s| ==> s[k] != ' '
  }

  /**
   * Split `s` into the fields separated by single spaces (empty fields are
   * kept), as one reads a printed command line back.
   */
  function Split(s: string): (fields: seq<string>)
    ensures |fields| >= 1
  {
    if s == [] then [""]
    else
      var init := Split(s[..|s| - 1]);
      var c := s[|s| - 1];
      if c == ' ' then init + [""]
      else init[..|init| - 1] + [init[|init| - 1] + [c]]
  }

  /** Splitting a word yields that word alone. */
  lemma {:induction false} SplitWord(w: string)
    requires NoSpace(w)
    ensures Split(w) == [w]
  {
    if w != [] {
      SplitWord(w[..|w| - 1]);
      assert w[..|w| - 1] + [w[|w| - 1]] == w;
    }
  }

  /** Appending a space and a word adds exactly that word as a new last field. */
  lemma {:induction false} SplitAppendWord(a: string, w: string)
    requires NoSpace(w)
    ensures Split(a + " " + w) == Split(a) + [w]
    decreases |w|
  {
    if w == [] {
      assert a + " " + w == a + " ";
      assert (a + " ")[..|a|] == a;
    } else {
      var w0 := w[..|w| - 1];
      var s := a + " " + w;
      assert s[..|s| - 1] == a + " " + w0;
      assert s[|s| - 1] == w[|w| - 1];
      SplitAppendWord(a, w0);
      assert w0 + [w[|w| - 1]] == w;
    }
  }

  /**
   * The printed command line reads back as the executable and its arguments,
   * in order, whenever none of them contains a space.
   */
  lemma {:induction false} CommandLineSplits(exe: string, args: seq<string>)
    requires NoSpace(exe)
    requires forall k :: 0 <= k < |args| ==> NoSpace(args[k])
    ensures Split(CommandLine(exe, args)) == [exe] + args
  {
    if args == [] {
      SplitWord(exe);
    } else {
      var init := args[..|args| - 1];
      CommandLineSplits(exe, init);
      SplitAppendWord(CommandLine(exe, init), args[|args| - 1]);
      assert [exe] + init + [args[|args| - 1]] == [exe] + args;
    }
  }

  /** The number of characters in all of `args` together. */
  function TotalLength(args: seq<string>): nat {
    if args == [] then 0 else TotalLength(args[..|args| - 1]) + |args[|args| - 1]|
  }

  /**
   * The printed line starts with the executable, and is exactly as long as the
   * executable, one separating space per argument and the arguments themselves.
   */
  lemma {:induction false} CommandLineLength(exe: string, args: seq<string>)
    ensures |CommandLine(exe, args)| == |exe| + |args| + TotalLength(args)
    ensures CommandLine(exe, args)[..|exe|] == exe
  {
    if args != [] {
      var init := args[..|args| - 1];
      CommandLineLength(exe, init);
      var prev := CommandLine(exe, init);
      assert (prev + " " + args[|args| - 1])[..|exe|] == prev[..|exe|];
    }
  }
}
