/** What `analyzeImage` (services/geminiService.ts) makes of the model's
    reply text: it trims it, strips a Markdown code fence, decodes the JSON,
    drops a gender other than "Nam" or "Nữ", and falls back to a fixed
    feedback item when anything on the way fails. The JSON decoder is a
    parameter. */
module AnalysisParsing {
  import opened Types
  import opened Strings

  /** The characters `String.prototype.trim` removes and the regular
      expression class `\s` matches: ECMAScript WhiteSpace and
      LineTerminator. */
  predicate IsSpace(c: char) {
    || c == '\t' || c == '\n' || c == '\U{000B}' || c == '\U{000C}' || c == '\r' || c == ' '
    || c == '\U{00A0}' || c == '\U{1680}' || ('\U{2000}' <= c <= '\U{200A}')
    || c == '\U{2028}' || c == '\U{2029}' || c == '\U{202F}' || c == '\U{205F}'
    || c == '\U{3000}' || c == '\U{FEFF}'
  }

  predicate AllSpace(s: string) {
    forall i :: 0 <= i < |s| ==> IsSpace(s[i])
  }

  /** Removes the leading white space and nothing else. */
  function TrimStart(s: string): (r: string)
    ensures EndsWith(s, r) && AllSpace(s[..|s| - |r|])
    ensures r == [] || !IsSpace(r[0])
  {
    if s != [] && IsSpace(s[0]) then
      var r := TrimStart(s[1..]);
      SpaceBefore(s, r);
      r
    else s
  }

  /** Removes the trailing white space and nothing else. */
  function TrimEnd(s: string): (r: string)
    ensures StartsWith(s, r) && AllSpace(s[|r|..])
    ensures r == [] || !IsSpace(r[|r| - 1])
  {
    if s != [] && IsSpace(s[|s| - 1]) then
      var r := TrimEnd(s[..|s| - 1]);
      SpaceAfter(s, r);
      r
    else s
  }

  lemma SpaceBefore(s: string, r: string)
    requires s != [] && IsSpace(s[0])
    requires EndsWith(s[1..], r) && AllSpace(s[1..][..|s| - 1 - |r|])
    ensures EndsWith(s, r) && AllSpace(s[..|s| - |r|])
  {
    assert s[|s| - |r|..] == s[1..][|s| - 1 - |r|..];
    assert s[..|s| - |r|] == [s[0]] + s[1..][..|s| - 1 - |r|];
  }

  lemma SpaceAfter(s: string, r: string)
    requires s != [] && IsSpace(s[|s| - 1])
    requires StartsWith(s[..|s| - 1], r) && AllSpace(s[..|s| - 1][|r|..])
    ensures StartsWith(s, r) && AllSpace(s[|r|..])
  {
    assert s[..|r|] == s[..|s| - 1][..|r|];
    assert s[|r|..] == s[..|s| - 1][|r|..] + [s[|s| - 1]];
  }

  /** `String.prototype.trim` */
  function Trim(s: string): (r: string)
    ensures r == [] || (!IsSpace(r[0]) && !IsSpace(r[|r| - 1]))
    ensures r == [] <==> AllSpace(s)
  {
    TrimEnd(TrimStart(s))
  }

  /** Trimming removes exactly the white space around the text. */
  lemma TrimExact(front: string, body: string, back: string)
    requires AllSpace(front) && AllSpace(back)
    requires body == [] || (!IsSpace(body[0]) && !IsSpace(body[|body| - 1]))
    ensures Trim(front + body + back) == body
  {
    if body == [] {
      assert AllSpace(front + body + back);
    } else {
      StartAfterSpace(front, body + back);
      assert front + body + back == front + (body + back);
      EndBeforeSpace(body, back);
    }
  }

  lemma {:induction false} StartAfterSpace(front: string, rest: string)
    requires AllSpace(front) && (rest == [] || !IsSpace(rest[0]))
    ensures TrimStart(front + rest) == rest
  {
    if front != [] {
      assert (front + rest)[1..] == front[1..] + rest;
      StartAfterSpace(front[1..], rest);
    }
  }

  lemma {:induction false} EndBeforeSpace(body: string, back: string)
    requires AllSpace(back) && (body == [] || !IsSpace(body[|body| - 1]))
    ensures TrimEnd(body + back) == body
  {
    if back != [] {
      var n := |back| - 1;
      assert (body + back)[..|body + back| - 1] == body + back[..n];
      EndBeforeSpace(body, back[..n]);
    } else {
      assert body + back == body;
    }
  }

  const JSON_FENCE := "```json"
  const FENCE := "```"

  /** The length of the match of the first alternative, `^```json\s*`: the
      fence and all white space after it, or 0 when the text does not begin
      with the fence. */
  function OpeningFenceLength(s: string): (n: nat)
    ensures n <= |s|
    ensures n > 0 <==> StartsWith(s, JSON_FENCE)
    ensures n > 0 ==> |JSON_FENCE| <= n && AllSpace(s[|JSON_FENCE|..n]) && (n == |s| || !IsSpace(s[n]))
  {
    if StartsWith(s, JSON_FENCE) then
      var after := s[|JSON_FENCE|..];
      var rest := TrimStart(after);
      var n := |s| - |rest|;
      assert s[|JSON_FENCE|..n] == after[..|after| - |rest|];
      assert n < |s| ==> s[n] == rest[0];
      n
    else 0
  }

  /** The second alternative, ```` ```\s*$ ````, on the text after the
      opening match: it matches where the text minus its trailing white space
      ends in a fence, and then removes the fence and that white space. */
  function StripClosingFence(rest: string): (r: string)
    ensures StartsWith(rest, r)
    ensures r != rest <==> EndsWith(TrimEnd(rest), FENCE)
    ensures r != rest ==>
      |r| + |FENCE| <= |rest| && rest == r + FENCE + rest[|r| + |FENCE|..]
      && AllSpace(rest[|r| + |FENCE|..])
  {
    var t := TrimEnd(rest);
    if EndsWith(t, FENCE) then
      var r := t[..|t| - |FENCE|];
      assert rest[..|r|] == t[..|r|];
      assert t == r + FENCE;
      assert rest == t + rest[|t|..];
      r
    else rest
  }

  /** `s.replace(/^```json\s*|```\s*$/g, '')`; a bare leading fence
      matches neither alternative. */
  function StripFence(s: string): (r: string)
    ensures Occurs(r, s, OpeningFenceLength(s))
  {
    var k := OpeningFenceLength(s);
    var r := StripClosingFence(s[k..]);
    OccursAfter(s, k, r);
    r
  }

  /** A reply wrapped in a `json` code fence loses the fence, the white space
      after the opening and after the closing fence, and nothing else. */
  lemma StripFenceWrapped(inside: string, body: string, after: string)
    requires AllSpace(inside) && AllSpace(after)
    requires body == [] || !IsSpace(body[0])
    ensures StripFence(JSON_FENCE + inside + body + FENCE + after) == body
  {
    var rest := body + FENCE + after;
    assert rest == [] || !IsSpace(rest[0]) by {
      assert rest[0] == if body == [] then '`' else body[0];
    }
    OpeningOfWrapped(inside, rest);
    assert JSON_FENCE + inside + body + FENCE + after == JSON_FENCE + inside + rest;
    ClosingOfWrapped(body, after);
  }

  lemma OpeningOfWrapped(inside: string, rest: string)
    requires AllSpace(inside) && (rest == [] || !IsSpace(rest[0]))
    ensures var s := JSON_FENCE + inside + rest;
      OpeningFenceLength(s) == |JSON_FENCE| + |inside| && s[|JSON_FENCE| + |inside|..] == rest
  {
    var s := JSON_FENCE + inside + rest;
    assert s[..|JSON_FENCE|] == JSON_FENCE;
    assert s[|JSON_FENCE|..] == inside + rest;
    StartAfterSpace(inside, rest);
    assert s[|JSON_FENCE| + |inside|..] == rest;
  }

  lemma ClosingOfWrapped(body: string, after: string)
    requires AllSpace(after)
    ensures StripClosingFence(body + FENCE + after) == body
  {
    var fenced := body + FENCE;
    assert fenced[|fenced| - 1] == '`';
    EndBeforeSpace(fenced, after);
    assert fenced[|fenced| - |FENCE|..] == FENCE;
    assert fenced[..|fenced| - |FENCE|] == body;
  }

  /** A reply that opens a `json` fence but never closes it loses only the
      opening fence and the white space after it. */
  lemma StripFenceOpeningOnly(inside: string, body: string)
    requires AllSpace(inside) && (body == [] || !IsSpace(body[0]))
    requires !EndsWith(TrimEnd(body), FENCE)
    ensures StripFence(JSON_FENCE + inside + body) == body
  {
    OpeningOfWrapped(inside, body);
  }

  /** Without the `json` tag a leading fence is kept: the result is a prefix
      of the text. */
  lemma BareFenceKept(s: string)
    requires !StartsWith(s, JSON_FENCE)
    ensures StartsWith(s, StripFence(s))
  {
  }

  /** Text that is not fenced at either end is passed on unchanged. */
  lemma UnfencedUnchanged(s: string)
    requires !StartsWith(s, JSON_FENCE) && !EndsWith(TrimEnd(s), FENCE)
    ensures StripFence(s) == s
  {
  }

  /** What `JSON.parse` yields, reduced to the fields the app reads. */
  datatype RawAnalysis = RawAnalysis(feedback: seq<FeedbackItem>, gender: Option<string>)

  const PARSE_FAILURE_MESSAGE := "Không thể phân tích ảnh. Vui lòng thử lại."

  /** The result returned from the `catch` block. */
  const FALLBACK := AnalysisResult([FeedbackItem(false, PARSE_FAILURE_MESSAGE)], None)

  /** The decoder's input: the reply trimmed and stripped of its fence. */
  function Cleaned(text: string): string {
    StripFence(Trim(text))
  }

  /** The `try` block of `analyzeImage` and its `catch`: `text` is missing
      when `response.text` is undefined (so `trim` throws), and `decode`
      yields `None` where `JSON.parse` throws. */
  method AnalyzeResponse(text: Option<string>, decode: string -> Option<RawAnalysis>)
    returns (result: AnalysisResult)
    ensures text.None? ==> result == FALLBACK
    ensures text.Some? && decode(Cleaned(text.value)).None? ==> result == FALLBACK
    ensures text.Some? && decode(Cleaned(text.value)).Some? ==>
      var parsed := decode(Cleaned(text.value)).value;
      && result.feedback == parsed.feedback
      && (result.gender.Some? <==> parsed.gender == Some("Nam") || parsed.gender == Some("Nữ"))
      && (result.gender.Some? ==> parsed.gender == Some(result.gender.value.Name()))
  {
    if text.None? {
      return FALLBACK;
    }
    var jsonString := Trim(text.value);
    var cleanedJsonString := StripFence(jsonString);
    var parsed := decode(cleanedJsonString);
    if parsed.None? {
      return FALLBACK;
    }
    var gender := parsed.value.gender;
    if gender != Some("Nam") && gender != Some("Nữ") {
      gender := None;
    }
    result := AnalysisResult(parsed.value.feedback, if gender.Some? then ParseGender(gender.value) else None);
  }
}
