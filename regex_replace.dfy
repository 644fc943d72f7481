/**
 * The two regular-expression rewrites the services apply to whole strings, stated
 * character by character: capping runs of one character (`replaceAll("_+", "_")`,
 * `replaceAll("\n{3,}", "\n\n")`) and collapsing runs of a character class into one
 * replacement character (`replaceAll("[^\\w\\-.]+", "_")`).
 */
module RegexReplace {
  import opened JavaStrings

  /** n copies of c. */
  function Rep(c: char, n: nat): (r: string)
    ensures |r| == n && forall i | 0 <= i < n :: r[i] == c
  {
    if n == 0 then [] else [c] + Rep(c, n - 1)
  }

  lemma RepSnoc(c: char, n: nat)
    ensures Rep(c, n) + [c] == Rep(c, n + 1)
  {
    assert (Rep(c, n) + [c])[..n] == Rep(c, n);
  }

  /**
   * Every maximal run of `c` cut down to at most `k` characters, which is what replacing
   * the pattern "c{k+1,}" (or "c+" when k is 1) by k copies of c does, matches being found
   * greedily from the left. `run` counts the copies of c just written.
   */
  function CapRunsFrom(s: string, c: char, k: nat, run: nat): (r: string)
    ensures |r| <= |s|
  {
    if s == [] then []
    else if s[0] == c then
      (if run < k then [c] + CapRunsFrom(s[1..], c, k, run + 1) else CapRunsFrom(s[1..], c, k, run))
    else [s[0]] + CapRunsFrom(s[1..], c, k, 0)
  }

  function CapRuns(s: string, c: char, k: nat): string {
    CapRunsFrom(s, c, k, 0)
  }

  /** The k + 1 characters of t from position i are all c. */
  predicate LongRunAt(t: string, i: nat, k: nat, c: char)
    requires i + k < |t|
  {
    forall j | i <= j <= i + k :: t[j] == c
  }

  /** No k + 1 consecutive copies of c. */
  predicate RunsAtMost(t: string, c: char, k: nat) {
    forall i: nat | i + k < |t| :: !LongRunAt(t, i, k, c)
  }

  /** The capped string, after the copies of c already written, has no run longer than k. */
  lemma {:induction false} CapRunsBounded(s: string, c: char, k: nat, run: nat)
    requires run <= k
    ensures RunsAtMost(Rep(c, run) + CapRunsFrom(s, c, k, run), c, k)
  {
    var t := Rep(c, run) + CapRunsFrom(s, c, k, run);
    if s == [] {
      assert t == Rep(c, run);
    } else if s[0] == c && run < k {
      CapRunsBounded(s[1..], c, k, run + 1);
      RepSnoc(c, run);
      assert t == Rep(c, run + 1) + CapRunsFrom(s[1..], c, k, run + 1);
    } else if s[0] == c {
      CapRunsBounded(s[1..], c, k, run);
    } else {
      var rest := CapRunsFrom(s[1..], c, k, 0);
      CapRunsBounded(s[1..], c, k, 0);
      assert Rep(c, 0) + rest == rest;
      assert t == Rep(c, run) + [s[0]] + rest;
      RunsAfterBreak(c, k, run, s[0], rest);
    }
  }

  /** At most k copies of c, another character, then a string with no run longer than k: no run longer than k. */
  lemma RunsAfterBreak(c: char, k: nat, run: nat, x: char, rest: string)
    requires run <= k && x != c && RunsAtMost(rest, c, k)
    ensures RunsAtMost(Rep(c, run) + [x] + rest, c, k)
  {
    var t := Rep(c, run) + [x] + rest;
    forall i: nat | i + k < |t|
      ensures !LongRunAt(t, i, k, c)
    {
      if i <= run {
        assert t[run] == x;
      } else {
        assert !LongRunAt(rest, i - run - 1, k, c);
        var j :| i - run - 1 <= j < i - run - 1 + k + 1 && rest[j] != c;
        assert t[j + run + 1] == rest[j];
      }
    }
  }

  lemma CapRunsHasNoLongRun(s: string, c: char, k: nat)
    ensures RunsAtMost(CapRuns(s, c, k), c, k)
  {
    CapRunsBounded(s, c, k, 0);
    assert Rep(c, 0) + CapRuns(s, c, k) == CapRuns(s, c, k);
  }

  /** Capping at one leaves no two adjacent copies of c. */
  lemma RunsAtMostOneNoPair(t: string, c: char)
    requires RunsAtMost(t, c, 1)
    ensures NoPair(t, c, c)
  {
    forall i | 0 <= i < |t| - 1
      ensures !(t[i] == c && t[i + 1] == c)
    {
      assert !LongRunAt(t, i, 1, c);
    }
  }

  /** A piece of a string without long runs has none either. */
  lemma RunsAtMostInfix(t: string, i: nat, j: nat, c: char, k: nat)
    requires i <= j <= |t| && RunsAtMost(t, c, k)
    ensures RunsAtMost(t[i..j], c, k)
  {
    var u := t[i..j];
    forall p: nat | p + k < |u|
      ensures !LongRunAt(u, p, k, c)
    {
      assert !LongRunAt(t, i + p, k, c);
      var q :| i + p <= q < i + p + k + 1 && t[q] != c;
      assert u[q - i] == t[q];
    }
  }

  /** A string that does not start with c keeps its first character. */
  lemma CapRunsHead(s: string, c: char, k: nat, run: nat)
    requires s != [] && s[0] != c
    ensures CapRunsFrom(s, c, k, run) != [] && CapRunsFrom(s, c, k, run)[0] == s[0]
  {
  }

  /** Capping only removes characters: every character of the output occurs in the input. */
  lemma {:induction false} CapRunsFromInput(s: string, c: char, k: nat, run: nat)
    ensures forall x | x in CapRunsFrom(s, c, k, run) :: x in s
  {
    if s != [] {
      if s[0] == c && run < k {
        CapRunsFromInput(s[1..], c, k, run + 1);
      } else if s[0] == c {
        CapRunsFromInput(s[1..], c, k, run);
      } else {
        CapRunsFromInput(s[1..], c, k, 0);
      }
    }
  }

  /** Capping runs of c never puts a character a != c right before a c that it did not precede. */
  lemma {:induction false} CapRunsKeepsNoPair(s: string, c: char, k: nat, run: nat, a: char)
    requires a != c && NoPair(s, a, c)
    ensures NoPair(CapRunsFrom(s, c, k, run), a, c)
  {
    if s != [] {
      assert NoPair(s[1..], a, c) by {
        forall i | 0 <= i < |s[1..]| - 1
          ensures !(s[1..][i] == a && s[1..][i + 1] == c)
        {
          assert s[1..][i] == s[i + 1] && s[1..][i + 1] == s[i + 2];
        }
      }
      if s[0] == c && run < k {
        CapRunsKeepsNoPair(s[1..], c, k, run + 1, a);
        NoPairConcat([c], CapRunsFrom(s[1..], c, k, run + 1), a, c);
      } else if s[0] == c {
        CapRunsKeepsNoPair(s[1..], c, k, run, a);
      } else {
        var rest := CapRunsFrom(s[1..], c, k, 0);
        CapRunsKeepsNoPair(s[1..], c, k, 0, a);
        if s[0] == a && rest != [] {
          assert s[1] != c;
          CapRunsHead(s[1..], c, k, 0);
        }
        NoPairConcat([s[0]], rest, a, c);
      }
    }
  }

  /**
   * Every maximal run of characters outside the class `keep` replaced by one `repl`:
   * `replaceAll("[^class]+", repl)`. `inRun` says the previous character was replaced.
   */
  function CollapseOutside(s: string, keep: char -> bool, repl: char, inRun: bool): (r: string)
    ensures |r| <= |s|
  {
    if s == [] then []
    else if keep(s[0]) then [s[0]] + CollapseOutside(s[1..], keep, repl, false)
    else if inRun then CollapseOutside(s[1..], keep, repl, true)
    else [repl] + CollapseOutside(s[1..], keep, repl, true)
  }

  /** Every character of the result is either kept from the input or the replacement. */
  lemma {:induction false} CollapseOutsideChars(s: string, keep: char -> bool, repl: char, inRun: bool)
    ensures forall i | 0 <= i < |CollapseOutside(s, keep, repl, inRun)| ::
              var x := CollapseOutside(s, keep, repl, inRun)[i]; x == repl || (keep(x) && x in s)
  {
    if s != [] {
      CollapseOutsideChars(s[1..], keep, repl, !keep(s[0]));
    }
  }

  /** A string with no character in the class becomes a single replacement character. */
  lemma {:induction false} CollapseOutsideNoKept(s: string, keep: char -> bool, repl: char, inRun: bool)
    requires forall i | 0 <= i < |s| :: !keep(s[i])
    ensures CollapseOutside(s, keep, repl, inRun) == if s == [] || inRun then [] else [repl]
  {
    if s != [] {
      CollapseOutsideNoKept(s[1..], keep, repl, true);
    }
  }
}
