/** What `generateIdPhoto` (services/geminiService.ts) makes of the model's
    reply: the scan over the first candidate's parts that keeps the last
    image (as a data URI) and the last non-empty text, and the `data:` URI
    format that `fileToGenerativePart` takes apart again with `split(',')`. */
module GenerationResponse {
  import opened Types
  import opened Strings

  datatype InlineData = InlineData(mimeType: string, data: string)

  /** A content part: `inlineData` and `text` are both optional. */
  datatype Part = Part(inlineData: Option<InlineData>, text: Option<string>)

  /** `candidate.content` and `content.parts` may be missing (a candidate
      blocked by the safety filters carries no content). */
  datatype Content = Content(parts: Option<seq<Part>>)

  datatype Candidate = Candidate(content: Option<Content>)

  /** `response.candidates` may be missing. */
  datatype Response = Response(candidates: Option<seq<Candidate>>)

  /** `data:${mimeType};base64,${data}` */
  function DataUri(d: InlineData): string {
    "data:" + d.mimeType + ";base64," + d.data
  }

  /** `dataUrl.split(',')[1]`: the second comma-separated field, if any. */
  function SecondField(s: string): Option<string> {
    var fields := Split(s, ',');
    if |fields| > 1 then Some(fields[1]) else None
  }

  /** Reading back a data URI built by `DataUri` gives its payload whenever
      neither the media type nor the payload contains a comma. */
  lemma DataUriRoundTrip(d: InlineData)
    requires ',' !in d.mimeType && ',' !in d.data
    ensures SecondField(DataUri(d)) == Some(d.data)
  {
    var head := "data:" + d.mimeType + ";base64";
    assert ',' !in "data:" && ',' !in ";base64";
    assert DataUri(d) == head + [','] + d.data;
    SplitPair(head, d.data, ',');
  }

  /** The image the scan ends with: the data URI of the last part that has
      inline data. */
  function LastImage(parts: seq<Part>): Option<string> {
    if parts == [] then None
    else
      var p := parts[|parts| - 1];
      if p.inlineData.Some? then Some(DataUri(p.inlineData.value))
      else LastImage(parts[..|parts| - 1])
  }

  /** The text the scan ends with: the last part with non-empty text and no
      inline data. */
  function LastText(parts: seq<Part>): Option<string> {
    if parts == [] then None
    else
      var p := parts[|parts| - 1];
      if p.inlineData.None? && Truthy(p.text) then p.text
      else LastText(parts[..|parts| - 1])
  }

  /** The parts the scan reads: none when there is no candidate, those of
      the first candidate otherwise; `None` when that candidate has no
      `content` or no `parts`, where `for (const part of ...)` throws. */
  function ScannedParts(response: Response): Option<seq<Part>> {
    if response.candidates.None? || |response.candidates.value| == 0 then Some([])
    else
      var content := response.candidates.value[0].content;
      if content.Some? && content.value.parts.Some? then Some(content.value.parts.value)
      else None
  }

  /** How the extraction ends: with the image and text it kept, or with the
      TypeError thrown on a first candidate without parts. */
  datatype ScanOutcome = Scanned(image: Option<string>, text: Option<string>) | ScanThrew

  /** The extraction loop of `generateIdPhoto`. */
  method ExtractOutput(response: Response) returns (outcome: ScanOutcome)
    ensures outcome.ScanThrew? <==> ScannedParts(response).None?
    ensures ScannedParts(response).Some? ==>
      outcome == Scanned(LastImage(ScannedParts(response).value), LastText(ScannedParts(response).value))
    ensures response.candidates.None? || response.candidates.value == [] ==> outcome == Scanned(None, None)
  {
    var image: Option<string> := None;
    var text: Option<string> := None;
    if response.candidates.Some? && |response.candidates.value| > 0 {
      var content := response.candidates.value[0].content;
      if content.None? || content.value.parts.None? {
        return ScanThrew;
      }
      var parts := content.value.parts.value;
      var i := 0;
      while i < |parts|
        invariant 0 <= i <= |parts|
        invariant image == LastImage(parts[..i])
        invariant text == LastText(parts[..i])
      {
        var part := parts[i];
        assert parts[..i + 1][..i] == parts[..i];
        if part.inlineData.Some? {
          image := Some(DataUri(part.inlineData.value));
        } else if Truthy(part.text) {
          text := part.text;
        }
        i := i + 1;
      }
      assert parts[..|parts|] == parts;
    }
    outcome := Scanned(image, text);
  }

  /** The image is exactly the data URI of an inline-data part with no
      inline-data part after it; there is none only when no part has inline
      data. */
  lemma {:induction false} LastImageIsLast(parts: seq<Part>)
    ensures LastImage(parts).None? <==> forall i :: 0 <= i < |parts| ==> parts[i].inlineData.None?
    ensures LastImage(parts).Some? ==>
      exists i :: 0 <= i < |parts| && parts[i].inlineData.Some?
        && LastImage(parts) == Some(DataUri(parts[i].inlineData.value))
        && forall j :: i < j < |parts| ==> parts[j].inlineData.None?
  {
    if parts != [] {
      var init := parts[..|parts| - 1];
      LastImageIsLast(init);
      var n := |parts| - 1;
      if parts[n].inlineData.None? {
        assert forall i :: 0 <= i < n ==> parts[i] == init[i];
        if LastImage(init).Some? {
          var i :| 0 <= i < |init| && init[i].inlineData.Some?
            && LastImage(init) == Some(DataUri(init[i].inlineData.value))
            && forall j :: i < j < |init| ==> init[j].inlineData.None?;
          assert parts[i] == init[i];
        }
      }
    }
  }

  /** The text is exactly that of a text-only part with non-empty text and no
      such part after it; there is none only when no such part exists. */
  lemma {:induction false} LastTextIsLast(parts: seq<Part>)
    ensures LastText(parts).None? <==>
      forall i :: 0 <= i < |parts| ==> !(parts[i].inlineData.None? && Truthy(parts[i].text))
    ensures LastText(parts).Some? ==>
      exists i :: 0 <= i < |parts| && parts[i].inlineData.None? && Truthy(parts[i].text)
        && LastText(parts) == parts[i].text
        && forall j :: i < j < |parts| ==> !(parts[j].inlineData.None? && Truthy(parts[j].text))
  {
    if parts != [] {
      var init := parts[..|parts| - 1];
      LastTextIsLast(init);
      var n := |parts| - 1;
      if !(parts[n].inlineData.None? && Truthy(parts[n].text)) {
        assert forall i :: 0 <= i < n ==> parts[i] == init[i];
        if LastText(init).Some? {
          var i :| 0 <= i < |init| && init[i].inlineData.None? && Truthy(init[i].text)
            && LastText(init) == init[i].text
            && forall j :: i < j < |init| ==> !(init[j].inlineData.None? && Truthy(init[j].text));
          assert parts[i] == init[i];
        }
      }
    }
  }

  /** Text A, image X, text B, image Y: the scan ends with Y and B. */
  lemma InterleavedParts(a: string, x: InlineData, b: string, y: InlineData)
    requires a != "" && b != ""
    ensures var parts := [Part(None, Some(a)), Part(Some(x), None), Part(None, Some(b)), Part(Some(y), None)];
      LastImage(parts) == Some(DataUri(y)) && LastText(parts) == Some(b)
  {
    var parts := [Part(None, Some(a)), Part(Some(x), None), Part(None, Some(b)), Part(Some(y), None)];
    assert parts[..3] == [Part(None, Some(a)), Part(Some(x), None), Part(None, Some(b))];
  }
}
