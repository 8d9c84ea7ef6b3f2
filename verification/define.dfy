/**
 * The shared step environment (`ProcessCtx`): a string map threaded through a
 * pipeline's steps, the two keys through which a step signals the pipeline's
 * outcome, and `${NAME}` template rendering.
 */
module Define {
  import opened Wrappers

  /** `ProcessCtx.Env`. Reading a nil Go map behaves as reading an empty one. */
  type Env = map<string, string>

  const BuildIdKey := "CI_BUILD_ID"
  const StatusKey := "CI_BUILD_STATUS"
  const FailReasonKey := "CI_BUILD_FAIL_REASON"
  const BuildSuccess := "success"
  const BuildFailed := "failed"

  /** The pattern allows at most this many characters after a name's first letter. */
  const MaxNameTail := 50

  // ---------------------------------------------------------------- env updates

  /** `AppendEnv`: every key of the overlay takes the overlay's value; other keys keep theirs. */
  function AppendEnv(env: Env, overlay: Env): (r: Env)
    ensures r.Keys == env.Keys + overlay.Keys
    ensures forall k :: k in overlay ==> r[k] == overlay[k]
    ensures forall k :: k in env && k !in overlay ==> r[k] == env[k]
    ensures overlay == map[] ==> r == env
  {
    env + overlay
  }

  /** `PipelineFailed`: the status key is set, to a value that cannot also read as success. */
  predicate PipelineFailed(env: Env): (b: bool)
    ensures b ==> StatusKey in env && env[StatusKey] != BuildSuccess
    ensures StatusKey !in env ==> !b
  {
    StatusKey in env && env[StatusKey] == BuildFailed
  }

  /** `PipelineSucceed`: the status key is set, and the pipeline does not also read as failed. */
  predicate PipelineSucceed(env: Env): (b: bool)
    ensures b ==> StatusKey in env && !PipelineFailed(env)
  {
    StatusKey in env && env[StatusKey] == BuildSuccess
  }

  /** `GetFailReason`: the stored reason, or the empty string when none is stored. */
  function GetFailReason(env: Env): (r: string)
    ensures FailReasonKey !in env ==> r == ""
    ensures r != "" ==> FailReasonKey in env && r in env.Values
  {
    if FailReasonKey in env then env[FailReasonKey] else ""
  }

  /** `Fail`: the pipeline is marked failed with the given reason; nothing else changes. */
  function Fail(env: Env, reason: string): (r: Env)
    ensures PipelineFailed(r) && !PipelineSucceed(r)
    ensures GetFailReason(r) == reason
    ensures r.Keys == env.Keys + {StatusKey, FailReasonKey}
    ensures forall k :: k in env && k != StatusKey && k != FailReasonKey ==> r[k] == env[k]
  {
    env[StatusKey := BuildFailed][FailReasonKey := reason]
  }

  /** The two outcome signals can never both be raised, and an unset reason reads as empty. */
  lemma StatusSignals(env: Env)
    ensures !(PipelineFailed(env) && PipelineSucceed(env))
    ensures StatusKey !in env ==> !PipelineFailed(env) && !PipelineSucceed(env)
    ensures FailReasonKey !in env ==> GetFailReason(env) == ""
  {
  }

  // ------------------------------------------------------------------ templates

  predicate IsLetter(c: char) {
    'a' <= c <= 'z' || 'A' <= c <= 'Z'
  }

  predicate IsNameChar(c: char) {
    c == '_' || IsLetter(c) || '0' <= c <= '9'
  }

  /** A name the template pattern accepts: a letter, then at most 50 of `[_a-zA-Z0-9]`. */
  predicate ValidName(name: string) {
    && 1 <= |name| <= MaxNameTail + 1
    && IsLetter(name[0])
    && forall j :: 1 <= j < |name| ==> IsNameChar(name[j])
  }

  function Placeholder(name: string): string {
    "${" + name + "}"
  }

  /** Length of the longest run of name characters in `s` starting at `i`. */
  function NameRun(s: string, i: nat): (n: nat)
    requires i <= |s|
    ensures i + n <= |s|
    ensures forall j :: i <= j < i + n ==> IsNameChar(s[j])
    ensures i + n == |s| || !IsNameChar(s[i + n])
    decreases |s| - i
  {
    if i == |s| || !IsNameChar(s[i]) then 0 else 1 + NameRun(s, i + 1)
  }

  /**
   * The length of the pattern match that starts `s`, if any. Because `}` is
   * not a name character, the name run is taken maximally: a run longer than
   * 50 characters cannot be followed by `}` at any shorter length either.
   */
  function PlaceholderLength(s: string): (r: Option<nat>)
    ensures r.Some? ==> 4 <= r.value <= |s|
    ensures r.Some? ==> ValidName(s[2..r.value - 1]) && s[..r.value] == Placeholder(s[2..r.value - 1])
  {
    if |s| >= 3 && s[0] == '$' && s[1] == '{' && IsLetter(s[2]) then
      var n := NameRun(s, 3);
      if n <= MaxNameTail && 3 + n < |s| && s[3 + n] == '}' then
        assert s[..n + 4] == Placeholder(s[2..n + 3]);
        Some(n + 4)
      else None
    else None
  }

  /** Every valid placeholder is recognised, whatever follows it, and only as a whole. */
  lemma PlaceholderRecognised(name: string, rest: string)
    requires ValidName(name)
    ensures PlaceholderLength(Placeholder(name) + rest) == Some(|name| + 3)
  {
    var s := Placeholder(name) + rest;
    assert s[2] == name[0];
    var k := |name| - 1;
    forall j | 3 <= j < 3 + k
      ensures IsNameChar(s[j])
    {
      assert s[j] == name[j - 2];
    }
    NameRunExact(s, 3, k);
  }

  lemma NameRunExact(s: string, i: nat, k: nat)
    requires i + k < |s|
    requires forall j :: i <= j < i + k ==> IsNameChar(s[j])
    requires !IsNameChar(s[i + k])
    ensures NameRun(s, i) == k
    decreases k
  {
    if k > 0 {
      NameRunExact(s, i + 1, k - 1);
    }
  }

  /** `getArgNameByPattern`: strips `${` and `}`; too short a pattern gives the empty name. */
  function ArgNameByPattern(pattern: string): (name: string)
    ensures |pattern| <= 3 ==> name == ""
    ensures |pattern| > 3 ==> pattern == pattern[..2] + name + pattern[|pattern| - 1..]
  {
    if |pattern| <= 3 then "" else pattern[2..|pattern| - 1]
  }

  lemma ArgNameOfPlaceholder(name: string)
    requires name != ""
    ensures ArgNameByPattern(Placeholder(name)) == name
  {
    assert Placeholder(name)[2..|Placeholder(name)| - 1] == name;
  }

  /** The replacement callback: the value of a known name, otherwise the matched text itself. */
  function Replacement(env: Env, matched: string): string {
    var k := ArgNameByPattern(matched);
    if k == "" then matched
    else if k in env then env[k]
    else matched
  }

  /**
   * `RenderByEnv`: leftmost, non-overlapping matches are replaced; the text
   * between them is copied and a replacement is never scanned again.
   */
  function RenderByEnv(env: Env, input: string): (output: string)
    ensures |env| == 0 ==> output == input
    decreases |input|
  {
    if input == "" then ""
    else
      match PlaceholderLength(input)
      case Some(n) =>
        assert input == input[..n] + input[n..];
        Replacement(env, input[..n]) + RenderByEnv(env, input[n..])
      case None =>
        assert input == [input[0]] + input[1..];
        [input[0]] + RenderByEnv(env, input[1..])
  }

  /** A placeholder whose name is set becomes its value; the value is not rendered again. */
  lemma RenderKnownName(env: Env, name: string, rest: string)
    requires ValidName(name) && name in env
    ensures RenderByEnv(env, Placeholder(name) + rest) == env[name] + RenderByEnv(env, rest)
  {
    var s := Placeholder(name) + rest;
    PlaceholderRecognised(name, rest);
    assert s[..|name| + 3] == Placeholder(name);
    assert s[|name| + 3..] == rest;
    ArgNameOfPlaceholder(name);
  }

  /** A placeholder whose name is not set stays as written. */
  lemma RenderUnknownName(env: Env, name: string, rest: string)
    requires ValidName(name) && name !in env
    ensures RenderByEnv(env, Placeholder(name) + rest) == Placeholder(name) + RenderByEnv(env, rest)
  {
    var s := Placeholder(name) + rest;
    PlaceholderRecognised(name, rest);
    assert s[..|name| + 3] == Placeholder(name);
    assert s[|name| + 3..] == rest;
    ArgNameOfPlaceholder(name);
  }

  /** Text in which no pattern match starts anywhere is left unchanged. */
  lemma {:induction false} RenderWithoutMatch(env: Env, s: string)
    requires forall i :: 0 <= i < |s| ==> PlaceholderLength(s[i..]) == None
    ensures RenderByEnv(env, s) == s
    decreases |s|
  {
    if s != "" {
      assert s[0..] == s;
      forall i | 0 <= i < |s[1..]|
        ensures PlaceholderLength(s[1..][i..]) == None
      {
        assert s[1..][i..] == s[i + 1..];
      }
      RenderWithoutMatch(env, s[1..]);
    }
  }

  /** No match can start where there is no `$`. */
  lemma NoMatchWithoutDollar(s: string)
    requires |s| == 0 || s[0] != '$'
    ensures PlaceholderLength(s) == None
  {
  }

  /**
   * Malformed placeholders are never changed: a `${` that the pattern rejects,
   * followed by text with no further `$`.
   */
  lemma RenderMalformed(env: Env, s: string)
    requires |s| > 0 && PlaceholderLength(s) == None
    requires forall i :: 1 <= i < |s| ==> s[i] != '$'
    ensures RenderByEnv(env, s) == s
  {
    forall i | 0 <= i < |s|
      ensures PlaceholderLength(s[i..]) == None
    {
      if i > 0 {
        NoMatchWithoutDollar(s[i..]);
      } else {
        assert s[i..] == s;
      }
    }
    RenderWithoutMatch(env, s);
  }

  /** The malformed forms `${}`, `${1abc}` and `${_x}` stay as written. */
  lemma RenderMalformedExamples(env: Env)
    ensures RenderByEnv(env, "${}") == "${}"
    ensures RenderByEnv(env, "${1abc}") == "${1abc}"
    ensures RenderByEnv(env, "${_x}") == "${_x}"
  {
    MalformedStays(env, "${}");
    MalformedStays(env, "${1abc}");
    MalformedStays(env, "${_x}");
  }

  /** A `${` not followed by a letter, with no later `$`, stays as written. */
  lemma MalformedStays(env: Env, s: string)
    requires |s| >= 3 && s[0] == '$' && s[1] == '{' && !IsLetter(s[2])
    requires forall i :: 1 <= i < |s| ==> s[i] != '$'
    ensures RenderByEnv(env, s) == s
  {
    RenderMalformed(env, s);
  }

  /** A name one character longer than the pattern accepts stays as written. */
  lemma RenderOverlongName(env: Env)
    ensures |LongName| == MaxNameTail + 2
    ensures RenderByEnv(env, Placeholder(LongName)) == Placeholder(LongName)
  {
    var s := Placeholder(LongName);
    forall j | 3 <= j < 3 + 51
      ensures IsNameChar(s[j])
    {
      assert s[j] == LongName[j - 2];
    }
    NameRunExact(s, 3, 51);
    assert PlaceholderLength(s) == None;
    forall i | 1 <= i < |s|
      ensures s[i] != '$'
    {
      if 2 <= i < |s| - 1 {
        assert s[i] == LongName[i - 2];
      }
    }
    RenderMalformed(env, s);
  }

  /** A 52-character name: one letter more than the pattern accepts. */
  const LongName: string := seq(MaxNameTail + 2, _ => 'a')

  /** `${FOO}` with `FOO=bar` renders as `bar`. */
  lemma RenderKnownExample()
    ensures RenderByEnv(map["FOO" := "bar"], "${FOO}") == "bar"
  {
    RenderOnePlaceholder(map["FOO" := "bar"], "FOO");
    assert Placeholder("FOO") == "${FOO}";
  }

  /** A substituted value that itself looks like a placeholder is not expanded again. */
  lemma RenderNoRescanExample()
    ensures RenderByEnv(map["A" := "${B}", "B" := "x"], "${A}") == "${B}"
  {
    RenderOnePlaceholder(map["A" := "${B}", "B" := "x"], "A");
    assert Placeholder("A") == "${A}";
  }

  /** A template that is one known placeholder renders to the name's value. */
  lemma RenderOnePlaceholder(env: Env, name: string)
    requires ValidName(name) && name in env
    ensures RenderByEnv(env, Placeholder(name)) == env[name]
  {
    RenderKnownName(env, name, "");
    assert Placeholder(name) + "" == Placeholder(name);
  }

  // ----------------------------------------- rendering as a segment decomposition

  /** A piece of a template: one literal character, or the full text of one pattern match. */
  datatype Segment = Literal(c: char) | Match(text: string)

  /** A complete `${NAME}` with a name the pattern accepts. */
  predicate IsPlaceholder(t: string) {
    |t| >= 4 && ValidName(t[2..|t| - 1]) && t == Placeholder(t[2..|t| - 1])
  }

  /** Cuts a template into literal characters and pattern matches, left to right. */
  function Segments(s: string): (r: seq<Segment>)
    ensures forall i :: 0 <= i < |r| && r[i].Match? ==> IsPlaceholder(r[i].text)
    decreases |s|
  {
    if s == "" then []
    else
      match PlaceholderLength(s)
      case Some(n) => [Match(s[..n])] + Segments(s[n..])
      case None => [Literal(s[0])] + Segments(s[1..])
  }

  /** The template text a segment covers. */
  function SegmentText(g: Segment): string {
    match g
    case Literal(c) => [c]
    case Match(t) => t
  }

  function Join(ss: seq<Segment>): string {
    if ss == [] then "" else SegmentText(ss[0]) + Join(ss[1..])
  }

  /** Literal characters are copied, matches are replaced. */
  function Expand(env: Env, ss: seq<Segment>): string {
    if ss == [] then ""
    else (match ss[0] case Literal(c) => [c] case Match(t) => Replacement(env, t)) + Expand(env, ss[1..])
  }

  lemma JoinCons(g: Segment, rest: seq<Segment>)
    ensures Join([g] + rest) == SegmentText(g) + Join(rest)
  {
    assert ([g] + rest)[1..] == rest;
  }

  /** The first segment of a non-empty template, and how much of it that segment covers. */
  lemma SegmentsHead(s: string)
    requires s != ""
    ensures var n := if PlaceholderLength(s).Some? then PlaceholderLength(s).value else 1;
      0 < n <= |s| && Segments(s) == [if PlaceholderLength(s).Some? then Match(s[..n]) else Literal(s[0])] + Segments(s[n..])
      && SegmentText(Segments(s)[0]) == s[..n]
  {
  }

  /** The decomposition covers the template exactly. */
  lemma {:induction false} SegmentsJoin(s: string)
    ensures Join(Segments(s)) == s
    decreases |s|
  {
    if s != "" {
      var n := if PlaceholderLength(s).Some? then PlaceholderLength(s).value else 1;
      SegmentsHead(s);
      var g := Segments(s)[0];
      var rest := Segments(s[n..]);
      calc {
        Join(Segments(s));
        Join([g] + rest);
        { JoinCons(g, rest); }
        SegmentText(g) + Join(rest);
        { SegmentsJoin(s[n..]); }
        s[..n] + s[n..];
      }
      assert s[..n] + s[n..] == s;
    }
  }

  /** Rendering copies every literal character and replaces each match on its own. */
  lemma {:induction false} RenderIsExpand(env: Env, s: string)
    ensures RenderByEnv(env, s) == Expand(env, Segments(s))
    decreases |s|
  {
    if s != "" {
      match PlaceholderLength(s)
      case Some(n) =>
        var ss := Segments(s);
        assert ss[1..] == Segments(s[n..]);
        RenderIsExpand(env, s[n..]);
      case None =>
        var ss := Segments(s);
        assert ss[1..] == Segments(s[1..]);
        RenderIsExpand(env, s[1..]);
    }
  }
}
