/**
  The dangerous-operation classifier: a stateless predicate over a tool name
  and its arguments. Only the PowerShell tool is inspected; its command is
  dangerous when, after stripping surrounding whitespace, it contains one of
  the deletion patterns, matched case-insensitively with word boundaries.
 */
module Safety {
  import opened Values
  import opened Text

  const ShellTool := "execute_powershell"
  const DeletePrefix := "执行删除操作: "

  /** A deletion pattern, with its literals written in lower case. */
  datatype Pattern =
    /** `\bword\b` */
    | Word(word: string)
    /** `\bword\s` */
    | WordThenSpace(word: string)
    /** `\bword\s+flag\b`, where `flag` starts with `-` */
    | WordThenFlag(word: string, flag: string)

  /** The patterns in the order the classifier tries them. */
  const DeletePatterns: seq<Pattern> := [
    Word("remove-item"),
    Word("rm"),
    WordThenSpace("del"),
    WordThenSpace("erase"),
    WordThenSpace("rmdir"),
    WordThenFlag("remove-item", "-force"),
    WordThenFlag("remove-item", "-recurse")
  ]

  datatype Verdict = Verdict(dangerous: bool, description: string)

  /** The classifier's outcome; `Raised` is the exception a non-string command causes. */
  datatype Classification = Classified(verdict: Verdict) | Raised(error: string)

  predicate WordAt(s: string, k: int) {
    0 <= k < |s| && IsWordChar(s[k])
  }

  /** `\b` between positions `i - 1` and `i` */
  predicate Boundary(s: string, i: int) {
    WordAt(s, i - 1) != WordAt(s, i)
  }

  /** `lit` (lower case) occurs at `i`, ignoring ASCII case. */
  predicate LitAt(s: string, i: nat, lit: string) {
    i + |lit| <= |s| && forall m :: 0 <= m < |lit| ==> LowerChar(s[i + m]) == lit[m]
  }

  predicate MatchesAt(s: string, i: nat, p: Pattern)
    requires i <= |s|
  {
    match p
    case Word(w) =>
      Boundary(s, i) && LitAt(s, i, w) && Boundary(s, i + |w|)
    case WordThenSpace(w) =>
      Boundary(s, i) && LitAt(s, i, w) && i + |w| < |s| && IsSpace(s[i + |w|])
    case WordThenFlag(w, f) =>
      Boundary(s, i) && LitAt(s, i, w) && i + |w| <= |s| && FlagAfterSpaces(s, i + |w|, f)
  }

  /** `\s+flag\b` at `n`: the run of whitespace starting at `n` is non-empty and `flag` follows it. */
  predicate FlagAfterSpaces(s: string, n: nat, f: string)
    requires n <= |s|
  {
    var k := SpacesEnd(s, n);
    k > n && LitAt(s, k, f) && Boundary(s, k + |f|)
  }

  /** The end of the run of whitespace that starts at `n`. */
  function SpacesEnd(s: string, n: nat): (k: nat)
    requires n <= |s|
    ensures n <= k <= |s|
    decreases |s| - n
  {
    if n < |s| && IsSpace(s[n]) then SpacesEnd(s, n + 1) else n
  }

  /** `re.search(p, s, re.IGNORECASE)` succeeds */
  predicate Search(s: string, p: Pattern) {
    exists i :: 0 <= i <= |s| && MatchesAt(s, i, p)
  }

  /** The pattern loop: true as soon as one pattern of `ps` is found. */
  function AnyMatches(s: string, ps: seq<Pattern>): (r: bool)
    ensures r <==> exists k :: 0 <= k < |ps| && Search(s, ps[k])
  {
    if ps == [] then false
    else if Search(s, ps[0]) then true
    else
      var r := AnyMatches(s, ps[1..]);
      assert forall k :: 1 <= k < |ps| ==> ps[k] == ps[1..][k - 1];
      r
  }

  function IsDangerousOperation(toolName: string, toolArgs: Dict): (r: Classification)
    ensures toolName != ShellTool ==> r == Classified(Verdict(false, ""))
    ensures toolName == ShellTool && "command" !in toolArgs ==> r == Classified(Verdict(false, ""))
    ensures toolName == ShellTool && "command" in toolArgs && !toolArgs["command"].VStr? ==> r.Raised?
    ensures toolName == ShellTool && "command" in toolArgs && toolArgs["command"].VStr? ==>
      var command := Strip(toolArgs["command"].s);
      r.Classified? && (r.verdict.dangerous <==> exists k :: 0 <= k < |DeletePatterns| && Search(command, DeletePatterns[k])) &&
      r.verdict.description == if r.verdict.dangerous then DeletePrefix + command else ""
  {
    if toolName != ShellTool then Classified(Verdict(false, ""))
    else
      match Get(toolArgs, "command", VStr(""))
      case VStr(raw) =>
        var command := Strip(raw);
        if AnyMatches(command, DeletePatterns) then Classified(Verdict(true, DeletePrefix + command))
        else
          assert Strip("") == "";
          Classified(Verdict(false, ""))
      case other =>
        Raised("'" + TypeName(other) + "' object has no attribute 'strip'")
  }

  lemma FlagMatchIsWordMatch(s: string, i: nat, f: string)
    requires i <= |s| && MatchesAt(s, i, WordThenFlag("remove-item", f))
    ensures MatchesAt(s, i, Word("remove-item"))
  {
    var n := i + |"remove-item"|;
    assert FlagAfterSpaces(s, n, f);
    assert SpacesEnd(s, n) > n;
    assert IsSpace(s[n]);
    assert LowerChar(s[i + 10]) == "remove-item"[10];
  }

  /**
    The two `Remove-Item` flag patterns never change the verdict: whenever one
    of them is found, the first pattern, `\bRemove-Item\b`, is found too.
   */
  lemma FlagPatternsRedundant(s: string)
    ensures Search(s, DeletePatterns[5]) ==> Search(s, DeletePatterns[0])
    ensures Search(s, DeletePatterns[6]) ==> Search(s, DeletePatterns[0])
  {
    if Search(s, DeletePatterns[5]) {
      var i :| 0 <= i <= |s| && MatchesAt(s, i, DeletePatterns[5]);
      FlagMatchIsWordMatch(s, i, "-force");
    }
    if Search(s, DeletePatterns[6]) {
      var i :| 0 <= i <= |s| && MatchesAt(s, i, DeletePatterns[6]);
      FlagMatchIsWordMatch(s, i, "-recurse");
    }
  }

  /** `s` and `t` differ at most in the case of ASCII letters. */
  predicate SameUpToCase(s: string, t: string) {
    |s| == |t| && forall k :: 0 <= k < |s| ==> LowerChar(s[k]) == LowerChar(t[k])
  }

  lemma CaseVariantChars(a: char, b: char)
    requires LowerChar(a) == LowerChar(b)
    ensures IsWordChar(a) == IsWordChar(b) && IsSpace(a) == IsSpace(b)
  {
  }

  lemma BoundaryIgnoresCase(s: string, t: string, i: int)
    requires SameUpToCase(s, t)
    ensures Boundary(t, i) == Boundary(s, i)
  {
    if 0 <= i - 1 < |s| { CaseVariantChars(s[i - 1], t[i - 1]); }
    if 0 <= i < |s| { CaseVariantChars(s[i], t[i]); }
  }

  lemma LitAtIgnoresCase(s: string, t: string, i: nat, lit: string)
    requires SameUpToCase(s, t)
    ensures LitAt(t, i, lit) == LitAt(s, i, lit)
  {
  }

  lemma {:induction false} SpacesEndIgnoresCase(s: string, t: string, n: nat)
    requires SameUpToCase(s, t) && n <= |s|
    ensures SpacesEnd(t, n) == SpacesEnd(s, n)
    decreases |s| - n
  {
    if n < |s| {
      CaseVariantChars(s[n], t[n]);
      SpacesEndIgnoresCase(s, t, n + 1);
    }
  }

  lemma FlagAfterSpacesIgnoresCase(s: string, t: string, n: nat, f: string)
    requires SameUpToCase(s, t) && n <= |s|
    ensures FlagAfterSpaces(t, n, f) == FlagAfterSpaces(s, n, f)
  {
    SpacesEndIgnoresCase(s, t, n);
    var k := SpacesEnd(s, n);
    LitAtIgnoresCase(s, t, k, f);
    BoundaryIgnoresCase(s, t, k + |f|);
  }

  lemma MatchesAtIgnoresCase(s: string, t: string, i: nat, p: Pattern)
    requires SameUpToCase(s, t) && i <= |s|
    ensures MatchesAt(t, i, p) == MatchesAt(s, i, p)
  {
    match p
    case Word(w) => WordAtIgnoresCase(s, t, i, w);
    case WordThenSpace(w) => WordThenSpaceAtIgnoresCase(s, t, i, w);
    case WordThenFlag(w, f) => WordThenFlagAtIgnoresCase(s, t, i, w, f);
  }

  lemma WordAtIgnoresCase(s: string, t: string, i: nat, w: string)
    requires SameUpToCase(s, t) && i <= |s|
    ensures MatchesAt(t, i, Word(w)) == MatchesAt(s, i, Word(w))
  {
    BoundaryIgnoresCase(s, t, i);
    LitAtIgnoresCase(s, t, i, w);
    BoundaryIgnoresCase(s, t, i + |w|);
  }

  lemma WordThenSpaceAtIgnoresCase(s: string, t: string, i: nat, w: string)
    requires SameUpToCase(s, t) && i <= |s|
    ensures MatchesAt(t, i, WordThenSpace(w)) == MatchesAt(s, i, WordThenSpace(w))
  {
    BoundaryIgnoresCase(s, t, i);
    LitAtIgnoresCase(s, t, i, w);
    var n := i + |w|;
    if n < |s| { CaseVariantChars(s[n], t[n]); }
  }

  lemma WordThenFlagAtIgnoresCase(s: string, t: string, i: nat, w: string, f: string)
    requires SameUpToCase(s, t) && i <= |s|
    ensures MatchesAt(t, i, WordThenFlag(w, f)) == MatchesAt(s, i, WordThenFlag(w, f))
  {
    BoundaryIgnoresCase(s, t, i);
    LitAtIgnoresCase(s, t, i, w);
    var n := i + |w|;
    if n <= |s| { FlagAfterSpacesIgnoresCase(s, t, n, f); }
  }

  lemma SearchIgnoresCase(s: string, t: string, p: Pattern)
    requires SameUpToCase(s, t)
    ensures Search(t, p) == Search(s, p)
  {
    if Search(s, p) {
      var i :| 0 <= i <= |s| && MatchesAt(s, i, p);
      MatchesAtIgnoresCase(s, t, i, p);
    }
    if Search(t, p) {
      var i :| 0 <= i <= |t| && MatchesAt(t, i, p);
      MatchesAtIgnoresCase(s, t, i, p);
    }
  }

  /** Whether a command is flagged does not depend on the case of its ASCII letters. */
  lemma VerdictIgnoresCase(s: string, t: string)
    requires SameUpToCase(s, t)
    ensures AnyMatches(t, DeletePatterns) == AnyMatches(s, DeletePatterns)
  {
    forall k | 0 <= k < |DeletePatterns| ensures Search(t, DeletePatterns[k]) == Search(s, DeletePatterns[k]) {
      SearchIgnoresCase(s, t, DeletePatterns[k]);
    }
  }

  lemma StripTrailingDel()
    ensures Strip("del ") == "del"
  {
    assert LeadingIn("del ", IsSpace) == 0;
    assert "del "[0..] == "del ";
    assert "del "[..3] == "del";
    assert TrailingIn("del", IsSpace) == 0;
    assert TrailingIn("del ", IsSpace) == 1;
  }

  lemma NoPatternIn(c: string, k: nat)
    requires c == "del" && k < |DeletePatterns|
    ensures !Search(c, DeletePatterns[k])
  {
    var p := DeletePatterns[k];
    forall i | 0 <= i <= |c| ensures !MatchesAt(c, i, p) {
      if i + |p.word| <= |c| && !(p.WordThenSpace? && p.word == "del") {
        assert LowerChar(c[i]) != p.word[0];
      }
    }
  }

  /** A trailing `del` is not flagged: stripping removes the space `\bdel\s` needs. */
  lemma TrailingDelNotFlagged()
    ensures IsDangerousOperation(ShellTool, map["command" := VStr("del ")]) == Classified(Verdict(false, ""))
  {
    StripTrailingDel();
    forall k | 0 <= k < |DeletePatterns| ensures !Search("del", DeletePatterns[k]) {
      NoPatternIn("del", k);
    }
  }

  lemma StripLeadingSpace()
    ensures Strip(" del x") == "del x"
  {
    assert " del x"[1..] == "del x";
    assert !IsSpace('d') && !IsSpace('x');
    assert LeadingIn("del x", IsSpace) == 0;
    assert LeadingIn(" del x", IsSpace) == 1;
    assert TrailingIn("del x", IsSpace) == 0;
    assert "del x"[..5] == "del x";
  }

  /** `del` followed by an argument is flagged, and the description quotes the stripped command. */
  lemma DelWithArgumentFlagged()
    ensures IsDangerousOperation(ShellTool, map["command" := VStr(" del x")]) == Classified(Verdict(true, DeletePrefix + "del x"))
  {
    StripLeadingSpace();
    DelArgumentMatches();
  }

  lemma DelArgumentMatches()
    ensures AnyMatches("del x", DeletePatterns)
  {
    var c := "del x";
    assert LitAt(c, 0, "del") by {
      assert LowerChar(c[0]) == 'd' && LowerChar(c[1]) == 'e' && LowerChar(c[2]) == 'l';
    }
    assert Boundary(c, 0);
    assert IsSpace(c[3]);
    assert MatchesAt(c, 0, WordThenSpace("del"));
    assert Search(c, DeletePatterns[2]);
  }

  /** `\brm\b` does not match inside `rmdir`; `\brmdir\s` is what catches it. */
  lemma RmdirOnlyByItsOwnPattern()
    ensures !Search("rmdir x", Word("rm"))
    ensures Search("rmdir x", WordThenSpace("rmdir"))
  {
    var c := "rmdir x";
    forall i | 0 <= i <= |c| ensures !MatchesAt(c, i, Word("rm")) {
      if i == 0 {
        assert !Boundary(c, 2);
      } else if i + 2 <= |c| {
        assert LowerChar(c[i]) != 'r' || LowerChar(c[i + 1]) != 'm';
      }
    }
    assert MatchesAt(c, 0, WordThenSpace("rmdir"));
  }
}
