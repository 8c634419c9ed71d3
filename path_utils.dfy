/**
  Resolution of the path aliases users type (`桌面`, `Desktop`, `~`, ...).
  Each alias is a regular expression `^(name|name)(.*)$` matched without
  regard to ASCII case; the first alias that matches gives the base
  directory, and the rest of the input, trimmed of `\`, `/` and spaces, is
  joined under it. Other input has every `~` replaced by the home directory.
 */
module PathUtils {
  import opened Values
  import opened Text

  /** A directory the aliases name: the home directory or one of its children. */
  datatype BaseDir = Home | Under(name: string)

  /** The path returned: a base directory, a base directory joined with a suffix, or the expanded input. */
  datatype Resolved = Base(dir: BaseDir) | Joined(dir: BaseDir, suffix: string) | Expanded(text: string)

  datatype Alias = Alias(names: seq<string>, dir: BaseDir)

  const Aliases: seq<Alias> := [
    Alias(["桌面", "Desktop"], Under("Desktop")),
    Alias(["文档", "Documents"], Under("Documents")),
    Alias(["下载", "Downloads"], Under("Downloads")),
    Alias(["图片", "Pictures"], Under("Pictures")),
    Alias(["视频", "Videos"], Under("Videos")),
    Alias(["音乐", "Music"], Under("Music")),
    HomeAlias
  ]

  const HomeAlias := Alias(["~", "/home"], Home)

  /** `s` starts with `name`, ignoring ASCII case. */
  predicate StartsWithIgnoringCase(s: string, name: string) {
    |name| <= |s| && forall k :: 0 <= k < |name| ==> LowerChar(s[k]) == LowerChar(name[k])
  }

  /**
    The group `(.*)` when `(.*)$` matches the whole of `rest`: `.` stops at a
    line feed, and `$` also matches just before a final line feed, which the
    group then leaves out.
   */
  function LineToEnd(rest: string): (group: Option<string>)
    ensures group.Some? ==> '\n' !in group.value
    ensures group.Some? ==> rest == group.value || rest == group.value + "\n"
    ensures group.None? ==> exists k :: 0 <= k < |rest| - 1 && rest[k] == '\n'
  {
    if '\n' !in rest then Some(rest)
    else if rest[|rest| - 1] == '\n' && '\n' !in rest[..|rest| - 1] then
      assert rest == rest[..|rest| - 1] + "\n";
      Some(rest[..|rest| - 1])
    else
      var k :| 0 <= k < |rest| && rest[k] == '\n';
      if k < |rest| - 1 then None
      else
        var j :| 0 <= j < |rest| - 1 && rest[..|rest| - 1][j] == '\n';
        None
  }

  /** `re.match(r'^(n1|n2)(.*)$', s, re.IGNORECASE)`: the alternatives are tried in order; the result is group 2. */
  function MatchAlternatives(s: string, names: seq<string>): (group: Option<string>)
    decreases |names|
  {
    if names == [] then None
    else if StartsWithIgnoringCase(s, names[0]) && LineToEnd(s[|names[0]|..]).Some? then LineToEnd(s[|names[0]|..])
    else MatchAlternatives(s, names[1..])
  }

  /** The base directory and group 2 of the first alias that matches. */
  function FirstAlias(s: string, aliases: seq<Alias>): Option<(BaseDir, string)>
    decreases |aliases|
  {
    if aliases == [] then None
    else
      var m := MatchAlternatives(s, aliases[0].names);
      if m.Some? then Some((aliases[0].dir, m.value)) else FirstAlias(s, aliases[1..])
  }

  predicate IsSuffixTrim(c: char) {
    c == '\\' || c == '/' || c == ' '
  }

  /** `s.replace('~', home)` */
  function ReplaceTilde(s: string, home: string): (r: string)
    ensures '~' !in home ==> '~' !in r
    ensures '~' !in s ==> r == s
    ensures forall c :: c in r ==> (c in s && c != '~') || c in home
    decreases |s|
  {
    if s == [] then ""
    else (if s[0] == '~' then home else [s[0]]) + ReplaceTilde(s[1..], home)
  }

  /**
    `resolve_path`. The home directory is a parameter; the expansion of
    environment variables and making the fallback path absolute are not part
    of this model, so the fallback result is the text after `~` replacement.
   */
  function ResolvePath(pathStr: string, home: string): (r: Resolved)
    ensures r.Joined? ==> r.suffix != [] && !IsSuffixTrim(r.suffix[0]) && !IsSuffixTrim(r.suffix[|r.suffix| - 1])
    ensures r.Expanded? && '~' !in home ==> '~' !in r.text
  {
    match FirstAlias(pathStr, Aliases)
    case Some((dir, group)) =>
      var suffix := StripBy(group, IsSuffixTrim);
      if suffix != "" then Joined(dir, suffix) else Base(dir)
    case None => Expanded(ReplaceTilde(pathStr, home))
  }

  /** The group 2 an alias gives for `s`, if it matches. */
  function AliasMatch(s: string, a: Alias): Option<string> {
    MatchAlternatives(s, a.names)
  }

  lemma {:induction false} FirstAliasIsFirst(s: string, aliases: seq<Alias>)
    ensures FirstAlias(s, aliases).None? <==> forall i :: 0 <= i < |aliases| ==> AliasMatch(s, aliases[i]).None?
    ensures FirstAlias(s, aliases).Some? ==> exists i :: (0 <= i < |aliases|
      && (forall j :: 0 <= j < i ==> AliasMatch(s, aliases[j]).None?)
      && AliasMatch(s, aliases[i]) == Some(FirstAlias(s, aliases).value.1)
      && aliases[i].dir == FirstAlias(s, aliases).value.0)
    decreases |aliases|
  {
    if aliases != [] {
      FirstAliasIsFirst(s, aliases[1..]);
      if AliasMatch(s, aliases[0]).None? {
        assert forall i :: 1 <= i < |aliases| ==> aliases[i] == aliases[1..][i - 1];
        if FirstAlias(s, aliases).Some? {
          var i :| 0 <= i < |aliases[1..]|
            && (forall j :: 0 <= j < i ==> AliasMatch(s, aliases[1..][j]).None?)
            && AliasMatch(s, aliases[1..][i]) == Some(FirstAlias(s, aliases).value.1)
            && aliases[1..][i].dir == FirstAlias(s, aliases).value.0;
          assert forall j :: 0 <= j < i + 1 ==> AliasMatch(s, aliases[j]).None?;
        }
      }
    }
  }

  /**
    The aliases are tried in their fixed order and the first that matches
    decides: the input falls back to `~` replacement exactly when no alias
    matches, and otherwise the base directory is that of the first matching
    alias and the suffix is its group 2 trimmed of `\`, `/` and spaces.
   */
  lemma ResolveIsFirstMatch(pathStr: string, home: string)
    ensures ResolvePath(pathStr, home).Expanded? <==> forall i :: 0 <= i < |Aliases| ==> AliasMatch(pathStr, Aliases[i]).None?
    ensures !ResolvePath(pathStr, home).Expanded? ==>
      exists i :: 0 <= i < |Aliases|
        && (forall j :: 0 <= j < i ==> AliasMatch(pathStr, Aliases[j]).None?)
        && AliasMatch(pathStr, Aliases[i]).Some?
        && ResolvePath(pathStr, home).dir == Aliases[i].dir
        && var suffix := StripBy(AliasMatch(pathStr, Aliases[i]).value, IsSuffixTrim);
           ResolvePath(pathStr, home) == if suffix == "" then Base(Aliases[i].dir) else Joined(Aliases[i].dir, suffix)
  {
    FirstAliasIsFirst(pathStr, Aliases);
  }

  /** An alias none of whose names begins, up to case, with the first character of `s` does not match `s`. */
  lemma {:induction false} MissesByInitial(s: string, names: seq<string>)
    requires s != [] && forall n :: n in names ==> n != [] && LowerChar(n[0]) != LowerChar(s[0])
    ensures MatchAlternatives(s, names).None?
    decreases |names|
  {
    if names != [] {
      assert names[0] in names;
      assert forall n :: n in names[1..] ==> n in names;
      MissesByInitial(s, names[1..]);
    }
  }

  /** Aliases known not to match can be skipped. */
  lemma {:induction false} SkipAliases(s: string, aliases: seq<Alias>, k: nat)
    requires k <= |aliases| && forall i :: 0 <= i < k ==> AliasMatch(s, aliases[i]).None?
    ensures FirstAlias(s, aliases) == FirstAlias(s, aliases[k..])
    decreases k
  {
    if k > 0 {
      assert forall i :: 0 <= i < k - 1 ==> aliases[1..][i] == aliases[i + 1];
      SkipAliases(s, aliases[1..], k - 1);
      assert aliases[1..][k - 1..] == aliases[k..];
    }
  }

  /** No name of the six named folders begins with `~` or `/`, in either case. */
  lemma FolderInitials(i: nat)
    requires i < 6
    ensures forall n :: n in Aliases[i].names ==> n != [] && LowerChar(n[0]) != '~' && LowerChar(n[0]) != '/'
  {
  }

  /** Input starting with `~` or `/` can only match the home alias, the last one. */
  lemma OnlyHomeAliasFor(s: string)
    requires s != [] && (s[0] == '~' || s[0] == '/')
    ensures FirstAlias(s, Aliases) == FirstAlias(s, [HomeAlias])
  {
    assert LowerChar(s[0]) == s[0];
    forall i | 0 <= i < 6
      ensures AliasMatch(s, Aliases[i]).None?
    {
      FolderInitials(i);
      MissesByInitial(s, Aliases[i].names);
    }
    SkipAliases(s, Aliases, 6);
    assert Aliases[6..] == [HomeAlias];
  }

  /** The first alias decides when it matches. */
  lemma FirstAliasHead(s: string, aliases: seq<Alias>)
    requires aliases != [] && AliasMatch(s, aliases[0]).Some?
    ensures FirstAlias(s, aliases) == Some((aliases[0].dir, AliasMatch(s, aliases[0]).value))
  {
  }

  /** Matching is by prefix, not by path segment, and ignores case: `desktopX` is `X` under Desktop. */
  lemma PrefixNotSegment(home: string)
    ensures ResolvePath("desktopX", home) == Joined(Under("Desktop"), "X")
  {
    var s := "desktopX";
    assert AliasMatch(s, Aliases[0]) == Some("X") by {
      assert !StartsWithIgnoringCase(s, "桌面") by {
        assert LowerChar(s[0]) != LowerChar("桌面"[0]);
      }
      assert StartsWithIgnoringCase(s, "Desktop");
      assert s[|"Desktop"|..] == "X";
      assert LineToEnd("X") == Some("X");
    }
    FirstAliasHead(s, Aliases);
    StripByUnchanged("X", IsSuffixTrim);
  }

  lemma TrimDocs()
    ensures StripBy("/docs/", IsSuffixTrim) == "docs"
  {
    var s := "/docs/";
    assert LeadingIn(s, IsSuffixTrim) == 1 by {
      assert IsSuffixTrim(s[0]) && !IsSuffixTrim(s[1]);
      assert LeadingIn(s[1..], IsSuffixTrim) == 0;
    }
    assert s[1..] == "docs/";
    assert TrailingIn("docs/", IsSuffixTrim) == 1 by {
      assert "docs/"[..4] == "docs";
      assert TrailingIn("docs", IsSuffixTrim) == 0;
    }
  }

  /** `~` alone is the home directory. */
  lemma HomeAlone(home: string)
    ensures ResolvePath("~", home) == Base(Home)
  {
    OnlyHomeAliasFor("~");
    assert AliasMatch("~", HomeAlias) == Some("") by {
      assert StartsWithIgnoringCase("~", "~");
      assert "~"[1..] == "";
    }
    FirstAliasHead("~", [HomeAlias]);
  }

  /** `/home/docs/` matches the second name of the home alias, leaving `/docs/`. */
  lemma HomeDocsMatch()
    ensures AliasMatch("/home/docs/", HomeAlias) == Some("/docs/")
  {
    var s := "/home/docs/";
    assert !StartsWithIgnoringCase(s, "~") by {
      assert LowerChar(s[0]) != LowerChar("~"[0]);
    }
    assert StartsWithIgnoringCase(s, "/home");
    assert s[|"/home"|..] == "/docs/";
    assert LineToEnd("/docs/") == Some("/docs/");
  }

  /** The separators around the rest after `/home` are trimmed. */
  lemma HomeSuffixTrimmed(home: string)
    ensures ResolvePath("/home/docs/", home) == Joined(Home, "docs")
  {
    var s := "/home/docs/";
    OnlyHomeAliasFor(s);
    HomeDocsMatch();
    FirstAliasHead(s, [HomeAlias]);
    TrimDocs();
  }

  /** A line feed inside the rest stops `(.*)$`, so such input falls back to `~` replacement. */
  lemma LineFeedFallsBack(home: string)
    ensures ResolvePath("~\nx", home) == Expanded(home + "\nx")
  {
    var s := "~\nx";
    OnlyHomeAliasFor(s);
    assert AliasMatch(s, HomeAlias).None? by {
      assert s[1..] == "\nx";
      assert LineToEnd("\nx").None? by {
        assert "\nx"[0] == '\n';
        assert "\nx"[..2][0] == '\n';
      }
      assert !StartsWithIgnoringCase(s, "/home") by {
        assert LowerChar(s[0]) != LowerChar("/home"[0]);
      }
    }
    assert FirstAlias(s, [HomeAlias]) == None;
    assert ReplaceTilde(s, home) == home + "\nx" by {
      assert ReplaceTilde(s[1..], home) == "\nx";
    }
  }
}
