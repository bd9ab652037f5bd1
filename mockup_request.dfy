/**
 * The request body the generate-mockup edge function sends to the image model: one content
 * entry holding the enhanced prompt as text and, when a reference image came with the request,
 * that image as an inline-data part cut out of its data URL.
 */
module MockupRequest {

  import opened Wrappers
  import opened JsText

  /** An inline-data part; a member that came out `undefined` is dropped by `JSON.stringify`, so it is `None`. */
  datatype InlineData = InlineData(mimeType: Option<string>, data: Option<string>)

  datatype Part = TextPart(text: string) | InlinePart(inlineData: InlineData)

  datatype Content = Content(parts: seq<Part>)

  datatype GenerationConfig = GenerationConfig(
    temperature: real, topK: int, topP: real, maxOutputTokens: int,
    responseMediaType: string, responseType: string)

  datatype RequestBody = RequestBody(contents: seq<Content>, generationConfig: GenerationConfig)

  /** The fixed generation settings of every request. */
  const FixedGenerationConfig: GenerationConfig := GenerationConfig(0.4, 32, 1.0, 2048, "IMAGE", "IMAGE")

  /** `referenceImage.split(';')[0].split(':')[1]`: the MIME type of a data URL. */
  function ReferenceMimeType(referenceImage: string): Option<string>
  {
    Field(Split(referenceImage, ';')[0], ':', 1)
  }

  /** `referenceImage.split(',')[1]`: the payload of a data URL. */
  function ReferenceData(referenceImage: string): Option<string>
  {
    Field(referenceImage, ',', 1)
  }

  /** The inline-data part made from a reference image. */
  function ReferencePart(referenceImage: string): Part
  {
    InlinePart(InlineData(ReferenceMimeType(referenceImage), ReferenceData(referenceImage)))
  }

  /**
   * Lines 71-104 of the handler: the body starts with the enhanced prompt as its only part,
   * and a truthy reference image is pushed onto that part list.
   */
  method BuildRequestBody(enhancedPrompt: string, referenceImage: Option<string>) returns (body: RequestBody)
    ensures body.generationConfig == FixedGenerationConfig
    ensures |body.contents| == 1
    ensures 1 <= |body.contents[0].parts| <= 2
    ensures body.contents[0].parts[0] == TextPart(enhancedPrompt)
    ensures |body.contents[0].parts| == 2 <==> StringTruthy(referenceImage)
    ensures |body.contents[0].parts| == 2 ==> body.contents[0].parts[1] == ReferencePart(referenceImage.value)
  {
    var parts := [TextPart(enhancedPrompt)];
    if StringTruthy(referenceImage) {
      var image := referenceImage.value;
      var imageData := Field(image, ',', 1);
      var mimeType := Field(Split(image, ';')[0], ':', 1);
      parts := parts + [InlinePart(InlineData(mimeType, imageData))];
    }
    body := RequestBody([Content(parts)], FixedGenerationConfig);
  }

  /**
   * A data URL `data:{mime};base64,{data}` splits back into exactly its MIME type and payload,
   * provided the MIME type holds no `:`, `;` or `,` and the payload no `,` (base64 never does).
   */
  lemma DataUrlRoundTrip(mime: string, data: string)
    requires ':' !in mime && ';' !in mime && ',' !in mime && ',' !in data
    ensures ReferenceMimeType("data:" + mime + ";base64," + data) == Some(mime)
    ensures ReferenceData("data:" + mime + ";base64," + data) == Some(data)
  {
    var url := "data:" + mime + ";base64," + data;
    var head := "data:" + mime;
    assert url == head + [';'] + ("base64," + data);
    SplitAtFirstSeparator(head, "base64," + data, ';');
    assert head == "data" + [':'] + mime;
    SplitAtFirstSeparator("data", mime, ':');
    SplitWithoutSeparator(mime, ':');
    var front := "data:" + mime + ";base64";
    assert url == front + [','] + data;
    SplitAtFirstSeparator(front, data, ',');
    SplitWithoutSeparator(data, ',');
  }

  /** The payload is the text between the first comma and the next comma (or the end). */
  lemma ReferenceDataBetweenCommas(before: string, data: string, after: string)
    requires ',' !in before && ',' !in data
    requires after == [] || after[0] == ','
    ensures ReferenceData(before + [','] + data + after) == Some(data)
  {
    assert before + [','] + data + after == before + [','] + (data + after);
    SplitAtFirstSeparator(before, data + after, ',');
    if after == [] {
      assert data + after == data;
      SplitWithoutSeparator(data, ',');
    } else {
      assert data + after == data + [','] + after[1..];
      SplitAtFirstSeparator(data, after[1..], ',');
    }
  }

  /** Without a comma there is no payload: `split(',')[1]` is `undefined`. */
  lemma NoCommaNoData(image: string)
    requires ',' !in image
    ensures ReferenceData(image) == None
  {
    SplitWithoutSeparator(image, ',');
  }

  /**
   * The MIME type is the text after the first `:` of the part before the first `;`, up to the
   * next `:` or `;` (or the end).
   */
  lemma ReferenceMimeTypeAfterColon(before: string, mime: string, after: string)
    requires ':' !in before && ';' !in before && ':' !in mime && ';' !in mime
    requires after == [] || after[0] == ';' || after[0] == ':'
    ensures ReferenceMimeType(before + [':'] + mime + after) == Some(mime)
  {
    var image := before + [':'] + mime + after;
    var head := before + [':'] + mime;
    if after == [] {
      assert image == head;
      SplitWithoutSeparator(image, ';');
      SplitAtFirstSeparator(before, mime, ':');
      SplitWithoutSeparator(mime, ':');
    } else if after[0] == ';' {
      assert image == head + [';'] + after[1..];
      SplitAtFirstSeparator(head, after[1..], ';');
      SplitAtFirstSeparator(before, mime, ':');
      SplitWithoutSeparator(mime, ':');
    } else {
      var front := before + [':'] + mime + [':'];
      assert image == front + after[1..];
      SplitPrepend(front, after[1..], ';');
      var first := front + Split(after[1..], ';')[0];
      assert Split(image, ';')[0] == first;
      assert first == before + [':'] + (mime + [':'] + Split(after[1..], ';')[0]);
      SplitAtFirstSeparator(before, mime + [':'] + Split(after[1..], ';')[0], ':');
      SplitAtFirstSeparator(mime, Split(after[1..], ';')[0], ':');
    }
  }

  /** Without a `:` before the first `;` there is no MIME type: it is `undefined`. */
  lemma NoColonNoMimeType(before: string, after: string)
    requires ':' !in before && ';' !in before
    requires after == [] || after[0] == ';'
    ensures ReferenceMimeType(before + after) == None
  {
    if after == [] {
      assert before + after == before;
      SplitWithoutSeparator(before, ';');
    } else {
      assert before + after == before + [';'] + after[1..];
      SplitAtFirstSeparator(before, after[1..], ';');
    }
    SplitWithoutSeparator(before, ':');
  }
}
