/**
 * The `.env.local` step of the deploy script (public/post-deploy.php,
 * lines 66-81): make sure the file selects the production environment.
 *
 * `strpos($s, $w) !== false` is `Contains(s, w)`. A `preg_replace` with the
 * pattern `/^NAME=.*​/m` rewrites, in every line (text between `\n`
 * characters), a line that starts with `NAME=` to the replacement: `^`
 * matches at the start of the text and after each `\n`, and `.` matches
 * every character but `\n` (so a `\r` before the `\n` is replaced too).
 */
module EnvLocal {
  import opened Wrappers

  const DefaultEnv := "APP_ENV=prod\nAPP_DEBUG=0\n"
  const ProdMarker := "APP_ENV=prod"
  const EnvPrefix := "APP_ENV="
  const DebugPrefix := "APP_DEBUG="
  const DebugLine := "APP_DEBUG=0"

  /** `w` occurs in `s` starting at index `i`. */
  predicate OccursAt(s: string, w: string, i: int) {
    0 <= i <= |s| - |w| && s[i..i + |w|] == w
  }

  /** `strpos($s, $w) !== false` */
  predicate Contains(s: string, w: string) {
    exists i | 0 <= i <= |s| - |w| :: OccursAt(s, w, i)
  }

  /** The position of the first `\n` in `s`. */
  function FirstNewline(s: string): (k: nat)
    requires '\n' in s
    ensures k < |s| && s[k] == '\n' && '\n' !in s[..k]
  {
    if s[0] == '\n' then 0
    else
      var k := FirstNewline(s[1..]);
      assert s[..k + 1] == [s[0]] + s[1..][..k];
      k + 1
  }

  /** The lines of `s`: the pieces between `\n` characters; there is always at least one. */
  function Lines(s: string): (ls: seq<string>)
    ensures |ls| >= 1
    ensures forall k | 0 <= k < |ls| :: '\n' !in ls[k]
    decreases |s|
  {
    if '\n' !in s then [s]
    else
      var k := FirstNewline(s);
      [s[..k]] + Lines(s[k + 1..])
  }

  /** The lines joined by `\n`. */
  function Unlines(ls: seq<string>): string
    requires |ls| >= 1
  {
    if |ls| == 1 then ls[0] else ls[0] + "\n" + Unlines(ls[1..])
  }

  /** Joining the lines of a text gives the text back. */
  lemma {:induction false} UnlinesLines(s: string)
    ensures Unlines(Lines(s)) == s
    decreases |s|
  {
    if '\n' in s {
      var k := FirstNewline(s);
      var rest := s[k + 1..];
      var ls := Lines(s);
      assert ls == [s[..k]] + Lines(rest);
      UnlinesLines(rest);
      assert |ls| >= 2 && ls[0] == s[..k] && ls[1..] == Lines(rest);
      assert Unlines(ls) == s[..k] + "\n" + Unlines(Lines(rest));
      assert s == s[..k] + "\n" + rest;
    } else {
      assert Lines(s) == [s];
    }
  }

  /** A first line `a` followed by `\n` and the rest. */
  lemma LinesAppend(a: string, b: string)
    requires '\n' !in a
    ensures Lines(a + "\n" + b) == [a] + Lines(b)
  {
    var s := a + "\n" + b;
    assert s[|a|] == '\n';
    var k := FirstNewline(s);
    assert k == |a|;
    assert s[..k] == a;
    assert s[k + 1..] == b;
  }

  /** Splitting lines that hold no `\n`, once joined, gives those lines back. */
  lemma {:induction false} LinesUnlines(ls: seq<string>)
    requires |ls| >= 1
    requires forall k | 0 <= k < |ls| :: '\n' !in ls[k]
    ensures Lines(Unlines(ls)) == ls
  {
    if |ls| > 1 {
      var tail := Unlines(ls[1..]);
      LinesUnlines(ls[1..]);
      assert Unlines(ls) == ls[0] + "\n" + tail;
      LinesAppend(ls[0], tail);
    } else {
      assert Unlines(ls) == ls[0];
      assert Lines(ls[0]) == [ls[0]];
    }
  }

  /** One line of `preg_replace('/^prefix.*​/m', replacement, ...)`. */
  function RewriteLine(line: string, prefix: string, replacement: string): string {
    if prefix <= line then replacement else line
  }

  function RewriteEach(ls: seq<string>, prefix: string, replacement: string): (rs: seq<string>)
    ensures |rs| == |ls|
    ensures forall k | 0 <= k < |ls| :: rs[k] == RewriteLine(ls[k], prefix, replacement)
  {
    seq(|ls|, k requires 0 <= k < |ls| => RewriteLine(ls[k], prefix, replacement))
  }

  /** `preg_replace('/^prefix.*​/m', replacement, s)` */
  function ReplaceLines(s: string, prefix: string, replacement: string): string {
    Unlines(RewriteEach(Lines(s), prefix, replacement))
  }

  /** The lines of a substituted text are the substituted lines. */
  lemma ReplaceLinesLines(s: string, prefix: string, replacement: string)
    requires '\n' !in replacement
    ensures Lines(ReplaceLines(s, prefix, replacement)) == RewriteEach(Lines(s), prefix, replacement)
  {
    var rs := RewriteEach(Lines(s), prefix, replacement);
    assert forall k | 0 <= k < |rs| :: '\n' !in rs[k];
    LinesUnlines(rs);
  }

  /** The two substitutions of lines 74-75, in order. */
  function Rewritten(content: string): string {
    ReplaceLines(ReplaceLines(content, EnvPrefix, ProdMarker), DebugPrefix, DebugLine)
  }

  /**
   * The file content after the step, `None` when the file is left as is:
   * it already contains `APP_ENV=prod` anywhere, even inside a longer
   * value or a comment. Otherwise the two substitutions run, and if the
   * result still lacks `APP_ENV=prod` the default two lines are put in front.
   */
  function NormalizeEnv(content: string): Option<string> {
    if Contains(content, ProdMarker) then None
    else
      var c := Rewritten(content);
      Some(if Contains(c, ProdMarker) then c else DefaultEnv + c)
  }

  /** What the step writes: the default content for a missing file, else `NormalizeEnv`. */
  function EnvLocalWrite(existing: Option<string>): (written: Option<string>)
    ensures existing.None? ==> written == Some(DefaultEnv)
    ensures existing.Some? && Contains(existing.value, ProdMarker) ==> written.None?
  {
    if existing.None? then Some(DefaultEnv) else NormalizeEnv(existing.value)
  }

  /** Some line of `ls` starts with `prefix`. */
  predicate SomeLineStartsWith(ls: seq<string>, prefix: string) {
    exists k | 0 <= k < |ls| :: prefix <= ls[k]
  }

  // Substring facts.

  lemma ContainsItself(w: string)
    ensures Contains(w, w)
  {
    assert OccursAt(w, w, 0);
  }

  lemma ContainsLeft(a: string, b: string, w: string)
    requires Contains(a, w)
    ensures Contains(a + b, w)
  {
    var i :| 0 <= i <= |a| - |w| && OccursAt(a, w, i);
    assert (a + b)[i..i + |w|] == a[i..i + |w|];
    assert OccursAt(a + b, w, i);
  }

  lemma ContainsRight(a: string, b: string, w: string)
    requires Contains(b, w)
    ensures Contains(a + b, w)
  {
    var i :| 0 <= i <= |b| - |w| && OccursAt(b, w, i);
    assert (a + b)[|a| + i..|a| + i + |w|] == b[i..i + |w|];
    assert OccursAt(a + b, w, |a| + i);
  }

  /** The character at position `p` of an occurrence of `w` at `i`. */
  lemma CharInWindow(s: string, w: string, i: int, p: int)
    requires OccursAt(s, w, i) && i <= p < i + |w|
    ensures w[p - i] == s[p]
  {
    assert s[i..i + |w|][p - i] == s[p];
  }

  /** An occurrence of a word without `\n` in `a + "\n" + b` lies in `a` or in `b`. */
  lemma ContainsAcrossNewline(a: string, b: string, w: string)
    requires '\n' !in w
    requires Contains(a + "\n" + b, w)
    ensures Contains(a, w) || Contains(b, w)
  {
    var s := a + "\n" + b;
    var i :| 0 <= i <= |s| - |w| && OccursAt(s, w, i);
    if i + |w| <= |a| {
      assert a[i..i + |w|] == s[i..i + |w|];
      assert OccursAt(a, w, i);
    } else if i > |a| {
      assert b[i - |a| - 1..i - |a| - 1 + |w|] == s[i..i + |w|];
      assert OccursAt(b, w, i - |a| - 1);
    } else {
      CharInWindow(s, w, i, |a|);
      assert false;
    }
  }

  /** A word in one of the lines is in the joined text. */
  lemma {:induction false} ContainsLineInUnlines(ls: seq<string>, k: int, w: string)
    requires 0 <= k < |ls| && Contains(ls[k], w)
    ensures Contains(Unlines(ls), w)
  {
    if |ls| > 1 {
      if k == 0 {
        ContainsLeft(ls[0], "\n" + Unlines(ls[1..]), w);
        assert ls[0] + "\n" + Unlines(ls[1..]) == ls[0] + ("\n" + Unlines(ls[1..]));
      } else {
        ContainsLineInUnlines(ls[1..], k - 1, w);
        ContainsRight(ls[0] + "\n", Unlines(ls[1..]), w);
      }
    }
  }

  /** A word without `\n` in the joined text is in one of the lines. */
  lemma {:induction false} ContainsInSomeLine(ls: seq<string>, w: string)
    requires |ls| >= 1 && '\n' !in w
    requires Contains(Unlines(ls), w)
    ensures exists k | 0 <= k < |ls| :: Contains(ls[k], w)
  {
    if |ls| == 1 {
      assert Contains(ls[0], w);
    } else {
      ContainsAcrossNewline(ls[0], Unlines(ls[1..]), w);
      if !Contains(ls[0], w) {
        ContainsInSomeLine(ls[1..], w);
        var k :| 0 <= k < |ls| - 1 && Contains(ls[1..][k], w);
        assert Contains(ls[k + 1], w);
      }
    }
  }

  /**
   * The substitutions, line by line: the lines are the same in number, a
   * line starting with `APP_ENV=` becomes `APP_ENV=prod`, one starting with
   * `APP_DEBUG=` becomes `APP_DEBUG=0`, and every other line is kept.
   */
  lemma RewrittenLines(content: string)
    ensures var before, after := Lines(content), Lines(Rewritten(content));
      && |after| == |before|
      && forall k | 0 <= k < |before| ::
           after[k] == if EnvPrefix <= before[k] then ProdMarker
                       else if DebugPrefix <= before[k] then DebugLine
                       else before[k]
  {
    var before := Lines(content);
    var middle := ReplaceLines(content, EnvPrefix, ProdMarker);
    ReplaceLinesLines(content, EnvPrefix, ProdMarker);
    ReplaceLinesLines(middle, DebugPrefix, DebugLine);
    var first := Lines(middle);
    assert !(DebugPrefix <= ProdMarker) by { assert DebugPrefix[4] != ProdMarker[4]; }
    forall k | 0 <= k < |before|
      ensures Lines(Rewritten(content))[k] ==
                if EnvPrefix <= before[k] then ProdMarker
                else if DebugPrefix <= before[k] then DebugLine
                else before[k]
    {
      assert first[k] == RewriteLine(before[k], EnvPrefix, ProdMarker);
    }
  }

  /** A line that started with `APP_ENV=` leaves `APP_ENV=prod` in the rewritten text. */
  lemma EnvLineGivesProd(content: string)
    requires SomeLineStartsWith(Lines(content), EnvPrefix)
    ensures Contains(Rewritten(content), ProdMarker)
  {
    var before, after := Lines(content), Lines(Rewritten(content));
    RewrittenLines(content);
    var k :| 0 <= k < |before| && EnvPrefix <= before[k];
    assert after[k] == ProdMarker;
    ContainsItself(ProdMarker);
    ContainsLineInUnlines(after, k, ProdMarker);
    UnlinesLines(Rewritten(content));
  }

  /** A word without `\n` that no line contains is not in the joined text. */
  lemma NotInAnyLine(ls: seq<string>, w: string)
    requires |ls| >= 1 && '\n' !in w
    requires forall k | 0 <= k < |ls| :: !Contains(ls[k], w)
    ensures !Contains(Unlines(ls), w)
  {
    if Contains(Unlines(ls), w) {
      ContainsInSomeLine(ls, w);
    }
  }

  /**
   * Without such a line the rewrite cannot produce `APP_ENV=prod`: the
   * marker holds no `\n`, so it would lie in one line, and every line is
   * either an original one or `APP_DEBUG=0`.
   */
  lemma NoEnvLineNoProd(content: string)
    requires !Contains(content, ProdMarker)
    requires !SomeLineStartsWith(Lines(content), EnvPrefix)
    ensures !Contains(Rewritten(content), ProdMarker)
  {
    var before, after := Lines(content), Lines(Rewritten(content));
    RewrittenLines(content);
    UnlinesLines(content);
    UnlinesLines(Rewritten(content));
    MarkerNotIntroduced(before, after);
  }

  /** Lines that are kept or become `APP_DEBUG=0` bring in no `APP_ENV=prod`. */
  lemma MarkerNotIntroduced(before: seq<string>, after: seq<string>)
    requires |before| == |after| >= 1
    requires forall k | 0 <= k < |after| :: after[k] == before[k] || after[k] == DebugLine
    requires !Contains(Unlines(before), ProdMarker)
    ensures !Contains(Unlines(after), ProdMarker)
  {
    forall k | 0 <= k < |after| ensures !Contains(after[k], ProdMarker) {
      if after[k] == before[k] && Contains(before[k], ProdMarker) {
        ContainsLineInUnlines(before, k, ProdMarker);
        assert false;
      }
    }
    NotInAnyLine(after, ProdMarker);
  }

  lemma DefaultEnvSelectsProd(rest: string)
    ensures Contains(DefaultEnv + rest, ProdMarker)
  {
    var s := DefaultEnv + rest;
    assert s[..|ProdMarker|] == DefaultEnv[..|ProdMarker|];
    assert OccursAt(s, ProdMarker, 0);
  }

  /**
   * After a rewrite the content always selects production, and the default
   * two lines are put in front exactly when no line started with `APP_ENV=`.
   */
  lemma NormalizeEnvRewrite(content: string)
    requires !Contains(content, ProdMarker)
    ensures NormalizeEnv(content) == Some(
              if SomeLineStartsWith(Lines(content), EnvPrefix) then Rewritten(content)
              else DefaultEnv + Rewritten(content))
    ensures Contains(NormalizeEnv(content).value, ProdMarker)
  {
    if SomeLineStartsWith(Lines(content), EnvPrefix) {
      EnvLineGivesProd(content);
    } else {
      NoEnvLineNoProd(content);
      DefaultEnvSelectsProd(Rewritten(content));
    }
  }

  /**
   * The step is idempotent: whatever it writes, a second run leaves alone.
   */
  lemma EnvLocalWriteSettles(existing: Option<string>)
    requires EnvLocalWrite(existing).Some?
    ensures EnvLocalWrite(EnvLocalWrite(existing)).None?
  {
    var written := EnvLocalWrite(existing).value;
    if existing.None? {
      DefaultEnvSelectsProd("");
      assert DefaultEnv + "" == DefaultEnv;
    } else {
      NormalizeEnvRewrite(existing.value);
    }
  }

  /**
   * The marker is looked for as a substring, so a longer value or a
   * commented-out line also leaves the file as it is.
   */
  lemma SubstringMarkerSkipsRewrite()
    ensures EnvLocalWrite(Some("APP_ENV=production\n")).None?
    ensures EnvLocalWrite(Some("#APP_ENV=prod\nAPP_ENV=dev\n")).None?
  {
    assert OccursAt("APP_ENV=production\n", ProdMarker, 0);
    var commented := "#APP_ENV=prod\nAPP_ENV=dev\n";
    assert commented == "#" + ProdMarker + "\nAPP_ENV=dev\n";
    assert commented[1..1 + |ProdMarker|] == ProdMarker;
    assert OccursAt(commented, ProdMarker, 1);
  }
}
