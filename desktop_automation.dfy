/**
  Extraction of the JSON text from an LLM answer in the desktop-automation
  skill: a fenced code block first (three backquotes, an optional `json`,
  whitespace, an object, whitespace, three backquotes); failing that, the
  leftmost brace-balanced object nested at most two deep. Both are
  regular-expression searches, modelled here by their exact matching rules.
 */
module JsonExtract {
  import opened Values
  import opened Text

  const Fence := "```"

  /** The position after the whitespace run starting at `p` (`\s*` is greedy). */
  function SkipSpace(s: string, p: nat): (q: nat)
    requires p <= |s|
    ensures p <= q <= |s|
  {
    p + LeadingIn(s[p..], IsSpace)
  }

  /** The skipped run is all whitespace and stops at the first other character. */
  lemma SkipSpaceMaximal(s: string, p: nat)
    requires p <= |s|
    ensures forall k :: p <= k < SkipSpace(s, p) ==> IsSpace(s[k])
    ensures SkipSpace(s, p) < |s| ==> !IsSpace(s[SkipSpace(s, p)])
  {
    var n := LeadingIn(s[p..], IsSpace);
    forall k | p <= k < p + n
      ensures IsSpace(s[k])
    {
      assert s[k] == s[p..][k - p];
    }
    if p + n < |s| {
      assert s[p + n] == s[p..][n];
    }
  }

  /** The first match at or after position `i` among the matches `ms` tried at each position. */
  function FirstMatch(ms: seq<Option<string>>, i: nat): (r: Option<string>)
    requires i <= |ms|
    decreases |ms| - i
  {
    if i == |ms| then None
    else if ms[i].Some? then ms[i]
    else FirstMatch(ms, i + 1)
  }

  /** The first match is the leftmost one, and there is none only when no position matches. */
  lemma {:induction false} FirstMatchLeftmost(ms: seq<Option<string>>, i: nat)
    requires i <= |ms|
    ensures FirstMatch(ms, i).Some? ==>
      exists j :: i <= j < |ms| && ms[j] == FirstMatch(ms, i) && forall k :: i <= k < j ==> ms[k].None?
    ensures FirstMatch(ms, i).None? ==> forall k :: i <= k < |ms| ==> ms[k].None?
    decreases |ms| - i
  {
    if i < |ms| && ms[i].None? {
      FirstMatchLeftmost(ms, i + 1);
    }
  }

  /** `\}\s*```` matches at `e`. */
  predicate ClosesFence(s: string, e: nat) {
    e < |s| && s[e] == '}' && OccursAt(s, SkipSpace(s, e + 1), Fence)
  }

  /** The first position at or after `from` whose flag is set. */
  function FirstTrue(bs: seq<bool>, from: nat): (e: Option<nat>)
    requires from <= |bs|
    ensures e.Some? ==> from <= e.value < |bs|
    decreases |bs| - from
  {
    if from == |bs| then None
    else if bs[from] then Some(from)
    else FirstTrue(bs, from + 1)
  }

  /** The position found is the first set flag, and there is none only when no flag is set. */
  lemma {:induction false} FirstTrueIsFirst(bs: seq<bool>, from: nat)
    requires from <= |bs|
    ensures FirstTrue(bs, from).Some? ==> bs[FirstTrue(bs, from).value]
    ensures FirstTrue(bs, from).Some? ==> forall k :: from <= k < FirstTrue(bs, from).value ==> !bs[k]
    ensures FirstTrue(bs, from).None? ==> forall k :: from <= k < |bs| ==> !bs[k]
    decreases |bs| - from
  {
    if from < |bs| && !bs[from] {
      FirstTrueIsFirst(bs, from + 1);
    }
  }

  /** `\}\s*```` tried at every position of `s`. */
  function Closings(s: string): (bs: seq<bool>)
    ensures |bs| == |s|
  {
    seq(|s|, k requires 0 <= k < |s| => ClosesFence(s, k))
  }

  /** The lazy `.*?\}` followed by `\s*```: the first closing position at or after `from`. */
  function FirstClose(s: string, from: nat): (e: Option<nat>)
    requires from <= |s|
    ensures e.Some? ==> from <= e.value < |s|
  {
    FirstTrue(Closings(s), from)
  }

  /** The closing found is the first one: none comes before it, and there is none when nothing is found. */
  lemma FirstCloseIsFirst(s: string, from: nat)
    requires from <= |s|
    ensures FirstClose(s, from).Some? ==> ClosesFence(s, FirstClose(s, from).value)
    ensures FirstClose(s, from).Some? ==> forall k :: from <= k < FirstClose(s, from).value ==> !ClosesFence(s, k)
    ensures FirstClose(s, from).None? ==> forall k :: from <= k < |s| ==> !ClosesFence(s, k)
  {
    var bs := Closings(s);
    FirstTrueIsFirst(bs, from);
    assert forall k :: 0 <= k < |s| ==> bs[k] == ClosesFence(s, k);
  }

  /** Where the object of a fenced block starting at `i` must open: after the fence, an optional `json` and whitespace. */
  function FenceBody(s: string, i: nat): (p: nat)
    requires OccursAt(s, i, Fence)
    ensures i + 3 <= p <= |s|
  {
    var q := if OccursAt(s, i + 3, "json") then i + 7 else i + 3;
    SkipSpace(s, q)
  }

  /** The object the fenced-block pattern captures when it opens at `p`: up to the first `}` that whitespace and a fence follow. */
  function FencedObject(s: string, p: nat): (r: Option<string>)
    requires p <= |s|
  {
    if p < |s| && s[p] == '{' then
      match FirstClose(s, p + 1)
      case Some(e) => Some(s[p..e + 1])
      case None => None
    else None
  }

  /** Group 1 of the fenced-block pattern when it matches at `i`. */
  function FenceAt(s: string, i: nat): (r: Option<string>)
    ensures r.Some? ==> OccursAt(s, i, Fence)
  {
    if !OccursAt(s, i, Fence) then None else FencedObject(s, FenceBody(s, i))
  }

  /** A captured object opens at `p` and runs to the first closing `}`. */
  lemma FencedObjectShape(s: string, p: nat) returns (e: nat)
    requires p <= |s| && FencedObject(s, p).Some?
    ensures p < e < |s| && s[p] == '{' && FencedObject(s, p).value == s[p..e + 1]
    ensures ClosesFence(s, e) && forall k :: p < k < e ==> !ClosesFence(s, k)
  {
    FirstCloseIsFirst(s, p + 1);
    e := FirstClose(s, p + 1).value;
  }

  /**
    A fenced match at `i` is the object that opens right after the fence, the
    optional `json` and the whitespace, up to the first `}` that whitespace and
    a closing fence follow.
   */
  lemma FenceAtShape(s: string, i: nat)
    ensures FenceAt(s, i).Some? ==> var p := FenceBody(s, i);
      && p < |s| && s[p] == '{'
      && exists e :: p < e < |s| && FenceAt(s, i).value == s[p..e + 1] && ClosesFence(s, e) && forall k :: p < k < e ==> !ClosesFence(s, k)
  {
    if FenceAt(s, i).Some? {
      var p := FenceBody(s, i);
      var e := FencedObjectShape(s, p);
    }
  }

  /** The fenced-block pattern tried at every position of `s`, end included. */
  function FenceMatches(s: string): (ms: seq<Option<string>>)
    ensures |ms| == |s| + 1
  {
    seq(|s| + 1, k requires 0 <= k <= |s| => FenceAt(s, k))
  }

  /** `re.search` of the fenced-block pattern. */
  function SearchFence(s: string): Option<string> {
    FirstMatch(FenceMatches(s), 0)
  }

  /** The fenced search finds the leftmost match, and nothing only when there is no match at all. */
  lemma SearchFenceLeftmost(s: string)
    ensures SearchFence(s).Some? ==>
      exists j :: 0 <= j <= |s| && FenceAt(s, j) == SearchFence(s) && forall k :: 0 <= k < j ==> FenceAt(s, k).None?
    ensures SearchFence(s).None? ==> forall k :: 0 <= k <= |s| ==> FenceAt(s, k).None?
  {
    var ms := FenceMatches(s);
    FirstMatchLeftmost(ms, 0);
    if SearchFence(s).Some? {
      var j :| 0 <= j < |ms| && ms[j] == FirstMatch(ms, 0) && forall k :: 0 <= k < j ==> ms[k].None?;
      assert forall k :: 0 <= k < j ==> FenceAt(s, k) == ms[k];
    } else {
      assert forall k :: 0 <= k <= |s| ==> FenceAt(s, k) == ms[k];
    }
  }

  /** The effect of one character on the brace depth. */
  function Delta(c: char): int {
    if c == '{' then 1 else if c == '}' then -1 else 0
  }

  /** The number of `{` minus the number of `}` in `t`. */
  function Net(t: string): int
    decreases |t|
  {
    if t == [] then 0 else Net(t[..|t| - 1]) + Delta(t[|t| - 1])
  }

  lemma {:induction false} NetConcat(a: string, b: string)
    ensures Net(a + b) == Net(a) + Net(b)
    decreases |b|
  {
    if b == [] {
      assert a + b == a;
    } else {
      NetConcat(a, b[..|b| - 1]);
      assert (a + b)[..|a + b| - 1] == a + b[..|b| - 1];
    }
  }

  /**
    The text the bare-object pattern accepts: it opens with `{`, its brace
    depth stays 1 or 2 inside it, and returns to 0 exactly at its last
    character.
   */
  predicate ShallowObject(t: string) {
    && |t| >= 2 && t[0] == '{' && t[|t| - 1] == '}' && Net(t) == 0
    && forall k :: 1 <= k < |t| ==> 1 <= Net(t[..k]) <= 2
  }

  /** The scan `[^{}]*(?:\{[^{}]*\}[^{}]*)*\}` performs from `k` at depth `depth`: the position of the closing brace. */
  function ObjectEnd(s: string, k: nat, depth: nat): (e: Option<nat>)
    requires 1 <= depth <= 2 && k <= |s|
    ensures e.Some? ==> k <= e.value < |s| && s[e.value] == '}'
    decreases |s| - k
  {
    if k == |s| then None
    else if s[k] == '{' then (if depth == 2 then None else ObjectEnd(s, k + 1, 2))
    else if s[k] == '}' then (if depth == 1 then Some(k) else ObjectEnd(s, k + 1, 1))
    else ObjectEnd(s, k + 1, depth)
  }

  /** The bare-object match starting at `i`, if any. */
  function ObjectAt(s: string, i: nat): (r: Option<string>)
    requires i <= |s|
  {
    if i < |s| && s[i] == '{' then
      match ObjectEnd(s, i + 1, 1)
      case Some(e) => Some(s[i..e + 1])
      case None => None
    else None
  }

  /** The bare-object pattern tried at every position of `s`, end included. */
  function ObjectMatches(s: string): (ms: seq<Option<string>>)
    ensures |ms| == |s| + 1
  {
    seq(|s| + 1, k requires 0 <= k <= |s| => ObjectAt(s, k))
  }

  /** `re.search` of the bare-object pattern. */
  function SearchObject(s: string): Option<string> {
    FirstMatch(ObjectMatches(s), 0)
  }

  /** The bare-object search finds the leftmost match, and nothing only when there is no match at all. */
  lemma SearchObjectLeftmost(s: string)
    ensures SearchObject(s).Some? ==>
      exists j :: 0 <= j <= |s| && ObjectAt(s, j) == SearchObject(s) && forall k :: 0 <= k < j ==> ObjectAt(s, k).None?
    ensures SearchObject(s).None? ==> forall k :: 0 <= k <= |s| ==> ObjectAt(s, k).None?
  {
    var ms := ObjectMatches(s);
    FirstMatchLeftmost(ms, 0);
    if SearchObject(s).Some? {
      var j :| 0 <= j < |ms| && ms[j] == FirstMatch(ms, 0) && forall k :: 0 <= k < j ==> ms[k].None?;
      assert forall k :: 0 <= k < j ==> ObjectAt(s, k) == ms[k];
    } else {
      assert forall k :: 0 <= k <= |s| ==> ObjectAt(s, k) == ms[k];
    }
  }

  /**
    `_extract_json_from_response`: a fenced block takes precedence over a bare
    object. Whatever is returned is a contiguous piece of the answer that opens
    with `{` and closes with `}`, and nothing is returned exactly when neither
    pattern matches anywhere.
   */
  function ExtractJson(response: string): (r: Option<string>)
    ensures SearchFence(response).Some? ==> r == SearchFence(response)
    ensures SearchFence(response).None? ==> r == SearchObject(response)
    ensures r.Some? ==> exists i, j :: BracedPiece(response, r.value, i, j)
    ensures r.None? <==> forall k :: 0 <= k <= |response| ==> FenceAt(response, k).None? && ObjectAt(response, k).None?
  {
    SearchPieces(response);
    SearchFenceLeftmost(response);
    SearchObjectLeftmost(response);
    var fenced := SearchFence(response);
    if fenced.Some? then fenced else SearchObject(response)
  }

  // ---------------------------------------------------------------------------
  // Properties

  /** The depth of the first character of `s[k..m]` can be split off. */
  lemma NetUncons(s: string, k: nat, m: nat)
    requires k < m <= |s|
    ensures Net(s[k..m]) == Delta(s[k]) + Net(s[k + 1..m])
  {
    NetConcat(s[k..k + 1], s[k + 1..m]);
    assert s[k..m] == s[k..k + 1] + s[k + 1..m];
    assert s[k..k + 1][..0] == [];
  }

  /** The depth stays 1 or 2 from `k` up to and including position `e`, starting at depth `d`. */
  ghost predicate DepthWithin(s: string, k: nat, d: int, e: nat)
    requires k <= e < |s|
  {
    forall m :: k <= m <= e ==> 1 <= d + Net(s[k..m]) <= 2
  }

  /** Scanning from `k` at depth `d` ends at `e` exactly when the depth stays 1 or 2 until `e` and reaches 0 just after it. */
  lemma {:induction false} ObjectEndExact(s: string, k: nat, d: nat, e: nat)
    requires 1 <= d <= 2 && k <= e < |s|
    ensures ObjectEnd(s, k, d) == Some(e) <==> DepthWithin(s, k, d, e) && d + Net(s[k..e + 1]) == 0
    decreases e - k
  {
    NetUncons(s, k, k + 1);
    assert s[k + 1..k + 1] == [];
    if k == e {
      assert s[k..k] == [];
      assert DepthWithin(s, k, d, e);
    } else {
      var d' := d + Delta(s[k]);
      forall m | k + 1 <= m <= e + 1
        ensures Net(s[k..m]) == Delta(s[k]) + Net(s[k + 1..m])
      {
        NetUncons(s, k, m);
      }
      if 1 <= d' <= 2 {
        ObjectEndExact(s, k + 1, d', e);
        assert ObjectEnd(s, k, d) == ObjectEnd(s, k + 1, d');
        if DepthWithin(s, k + 1, d', e) {
          forall m | k <= m <= e
            ensures 1 <= d + Net(s[k..m]) <= 2
          {
            if m == k {
              assert s[k..k] == [];
            }
          }
        }
        if DepthWithin(s, k, d, e) {
          var k1 := k + 1;
          forall m | k1 <= m <= e
            ensures 1 <= d' + Net(s[k1..m]) <= 2
          {
            assert 1 <= d + Net(s[k..m]) <= 2;
          }
        }
      } else {
        assert ObjectEnd(s, k, d).None? || ObjectEnd(s, k, d) == Some(k);
        assert !(1 <= d + Net(s[k..k + 1]) <= 2);
      }
    }
  }

  /** The depth inside `s[i..j]`, which opens with `{`, is one more than the depth after the brace. */
  lemma ObjectNet(s: string, i: nat, j: nat)
    requires i < j <= |s| && s[i] == '{'
    ensures forall m :: 1 <= m <= j - i ==> Net(s[i..j][..m]) == 1 + Net(s[i + 1..i + m])
    ensures Net(s[i..j]) == 1 + Net(s[i + 1..j])
  {
    var t := s[i..j];
    forall m | 1 <= m <= |t|
      ensures Net(t[..m]) == 1 + Net(s[i + 1..i + m])
    {
      NetUncons(s, i, i + m);
      assert t[..m] == s[i..i + m];
    }
    assert t[..|t|] == t;
  }

  /** A shallow object keeps the scan after its opening brace at depth 1 or 2 until its closing brace. */
  lemma ShallowScans(s: string, i: nat, j: nat)
    requires i + 2 <= j <= |s| && s[i] == '{' && ShallowObject(s[i..j])
    ensures DepthWithin(s, i + 1, 1, j - 1) && 1 + Net(s[i + 1..j]) == 0
  {
    var t := s[i..j];
    ObjectNet(s, i, j);
    var i1 := i + 1;
    forall m | i1 <= m <= j - 1
      ensures 1 <= 1 + Net(s[i1..m]) <= 2
    {
      assert Net(t[..m - i]) == 1 + Net(s[i + 1..m]);
    }
  }

  /** A scan that closes at `j - 1` has read a shallow object. */
  lemma ScanIsShallow(s: string, i: nat, j: nat)
    requires i + 2 <= j <= |s| && s[i] == '{' && ObjectEnd(s, i + 1, 1) == Some(j - 1)
    ensures ShallowObject(s[i..j])
  {
    var t := s[i..j];
    ObjectNet(s, i, j);
    ObjectEndExact(s, i + 1, 1, j - 1);
    assert t[|t| - 1] == s[j - 1];
    forall m | 1 <= m < |t|
      ensures 1 <= Net(t[..m]) <= 2
    {
      assert 1 <= 1 + Net(s[i + 1..i + m]) <= 2;
    }
  }

  /** The bare-object match at `i` is exactly the shallow balanced object that starts there. */
  lemma ObjectAtExact(s: string, i: nat, j: nat)
    requires i < j <= |s|
    ensures ObjectAt(s, i) == Some(s[i..j]) <==> ShallowObject(s[i..j])
  {
    var t := s[i..j];
    if j >= i + 2 && s[i] == '{' {
      if ShallowObject(t) {
        ShallowScans(s, i, j);
        ObjectEndExact(s, i + 1, 1, j - 1);
      }
      if ObjectAt(s, i) == Some(t) {
        assert ObjectEnd(s, i + 1, 1) == Some(j - 1);
        ScanIsShallow(s, i, j);
      }
    } else if ObjectAt(s, i).Some? {
      var e := ObjectEnd(s, i + 1, 1).value;
      assert |ObjectAt(s, i).value| == e + 1 - i >= 2;
    }
  }

  /** `r` is the piece `s[i..j]` of `s`, opening with `{` and closing with `}`. */
  ghost predicate BracedPiece(s: string, r: string, i: nat, j: nat) {
    i < j <= |s| && r == s[i..j] && r[0] == '{' && r[|r| - 1] == '}'
  }

  /** Where a fenced match lies in the answer. */
  lemma FenceSpan(s: string, a: nat) returns (i: nat, j: nat)
    requires FenceAt(s, a).Some?
    ensures BracedPiece(s, FenceAt(s, a).value, i, j)
  {
    i := FenceBody(s, a);
    var e := FencedObjectShape(s, i);
    j := e + 1;
  }

  /** Where a bare-object match lies in the answer. */
  lemma ObjectSpan(s: string, a: nat) returns (i: nat, j: nat)
    requires a <= |s| && ObjectAt(s, a).Some?
    ensures BracedPiece(s, ObjectAt(s, a).value, i, j)
  {
    i := a;
    j := ObjectEnd(s, a + 1, 1).value + 1;
  }

  /** Each search returns a contiguous piece of the answer that opens with `{` and closes with `}`. */
  lemma SearchPieces(s: string)
    ensures SearchFence(s).Some? ==> exists i, j :: BracedPiece(s, SearchFence(s).value, i, j)
    ensures SearchObject(s).Some? ==> exists i, j :: BracedPiece(s, SearchObject(s).value, i, j)
  {
    SearchFenceLeftmost(s);
    SearchObjectLeftmost(s);
    if SearchFence(s).Some? {
      var a :| 0 <= a <= |s| && FenceAt(s, a) == SearchFence(s);
      var i, j := FenceSpan(s, a);
    }
    if SearchObject(s).Some? {
      var a :| 0 <= a <= |s| && ObjectAt(s, a) == SearchObject(s);
      var i, j := ObjectSpan(s, a);
    }
  }

  /** Without a backquote there is no fenced block, so the bare-object search decides. */
  lemma NoBackquoteNoFence(response: string)
    requires '`' !in response
    ensures ExtractJson(response) == SearchObject(response)
  {
    forall k | 0 <= k <= |response|
      ensures FenceAt(response, k).None?
    {
      NoFenceWithoutBackquote(response, k);
    }
    SearchFenceNone(response);
  }

  /** Without a fenced match anywhere, the fenced search finds nothing. */
  lemma SearchFenceNone(s: string)
    requires forall k :: 0 <= k <= |s| ==> FenceAt(s, k).None?
    ensures SearchFence(s).None?
  {
    SearchFenceLeftmost(s);
  }

  lemma NoFenceWithoutBackquote(s: string, k: nat)
    requires '`' !in s
    ensures !OccursAt(s, k, Fence)
  {
    if k < |s| {
      assert s[k] != Fence[0];
    }
  }

  /** An answer without `{` yields nothing. */
  lemma NoBraceNoJson(response: string)
    requires '{' !in response
    ensures ExtractJson(response).None?
  {
    forall k | 0 <= k <= |response|
      ensures FenceAt(response, k).None? && ObjectAt(response, k).None?
    {
    }
    SearchFenceNone(response);
    SearchObjectLeftmost(response);
  }

  /** The fenced block `"```json{}```"` gives `{}`: the optional `json` tag is not part of the result. */
  lemma FencedExample()
    ensures ExtractJson("```json{}```") == Some("{}")
  {
    var s := "```json{}```";
    assert OccursAt(s, 0, Fence) && OccursAt(s, 3, "json");
    assert SkipSpace(s, 7) == 7 by {
      assert s[7..][0] == '{';
    }
    assert SkipSpace(s, 9) == 9 by {
      assert s[9..][0] == '`';
    }
    assert ClosesFence(s, 8) by {
      assert s[9..12] == Fence;
    }
    assert Closings(s)[8];
    assert FirstClose(s, 8) == Some(8);
    assert FencedObject(s, 7) == Some(s[7..9]);
    assert FenceAt(s, 0) == Some(s[7..9]);
    assert FenceMatches(s)[0] == FenceAt(s, 0);
    assert SearchFence(s) == FenceAt(s, 0);
    assert s[7..9] == "{}";
  }

  /** A bare object nested three deep is not accepted whole: the search moves on to its inner object. */
  lemma TooDeepExample()
    ensures ExtractJson("{{{}}}") == Some("{{}}")
  {
    var s := "{{{}}}";
    NoBackquoteNoFence(s);
    assert ObjectAt(s, 0).None? by {
      assert ObjectEnd(s, 1, 1) == ObjectEnd(s, 2, 2) == None;
    }
    assert ObjectAt(s, 1) == Some(s[1..5]) by {
      assert ObjectEnd(s, 2, 1) == ObjectEnd(s, 3, 2) == ObjectEnd(s, 4, 1) == Some(4);
    }
    var ms := ObjectMatches(s);
    assert ms[0] == ObjectAt(s, 0) && ms[1] == ObjectAt(s, 1);
    assert SearchObject(s) == FirstMatch(ms, 1) == ObjectAt(s, 1);
    assert s[1..5] == "{{}}";
  }
}
