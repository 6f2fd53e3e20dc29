/** Request construction and response parsing around the two calls to the
    hosted generative model: the style analysis of a reference image and the
    generation of one asset of a given category. The model calls themselves
    are oracles passed in as functions from the request sent to the
    response obtained (or the error thrown). */
module GeminiService {
  import opened Wrappers
  import opened Text
  import opened Types

  const AnalysisModel: string := "gemini-3-flash-preview"
  const ImageModel: string := "gemini-2.5-flash-image"
  const PngMimeType: string := "image/png"

  /** The URI prefix put in front of the base64 data of a generated image. */
  const PngDataUriPrefix: string := "data:image/png;base64,"

  /** The style text used when the analysis returns no text. */
  const FallbackStyle: string := "现代专业设计风格"

  /** The message thrown when the generation response holds no image. */
  const NoImageMessage: string := "生成失败，请检查API Key或输入。"

  /** How many words of the style text are kept as keywords. */
  const KeywordLimit: nat := 10

  /** The fixed instruction sent with the image to be analysed. */
  const AnalysisInstruction: string :=
    "作为一个专业的视觉设计师，请精确分析这张图片的风格。\n  重点关注：\n"
    + "  1. 配色方案（主色、辅助色、点缀色）\n"
    + "  2. 材质与质感（如：拉丝金属、流体霓虹、磨砂玻璃、晶莹宝石等）\n"
    + "  3. 视觉符号与装饰元素\n"
    + "  4. 构图风格与光影氛围（如：赛博朋克、极简奢华、二次元、未来主义）。\n  \n"
    + "  请用一段精炼的文字总结该风格，用于后续的AI绘图提示词。"

  // ---------------------------------------------------------------------
  // Requests and responses

  /** Inline image data of a request; `data` is absent when the image
      string has no comma to split on. */
  datatype Blob = Blob(mimeType: string, data: Option<string>)

  datatype RequestPart = TextPart(text: string) | ImagePart(inlineData: Blob)

  datatype AnalysisRequest = AnalysisRequest(model: string, parts: seq<RequestPart>)

  /** The aspect ratios the image model accepts. */
  datatype AspectRatio = Ratio1x1 | Ratio9x16 | Ratio16x9 | Ratio3x4 | Ratio4x3

  function AspectRatioText(ratio: AspectRatio): string {
    match ratio
    case Ratio1x1 => "1:1"
    case Ratio9x16 => "9:16"
    case Ratio16x9 => "16:9"
    case Ratio3x4 => "3:4"
    case Ratio4x3 => "4:3"
  }

  datatype GenerationRequest = GenerationRequest(
    model: string, parts: seq<RequestPart>, aspectRatio: AspectRatio)

  /** Inline image data of a response part; the model may leave `data`
      out. */
  datatype InlineData = InlineData(mimeType: string, data: Option<string>)

  datatype ResponsePart = ResponsePart(text: Option<string>, inlineData: Option<InlineData>)

  datatype Content = Content(parts: Option<seq<ResponsePart>>)

  datatype Candidate = Candidate(content: Option<Content>)

  datatype GenerationResponse = GenerationResponse(candidates: Option<seq<Candidate>>)

  /** The analysis call: the response's text, if any, or the thrown message. */
  type AnalysisOracle = AnalysisRequest -> Result<Option<string>, string>

  /** The generation call: the response, or the thrown message. */
  type GenerationOracle = GenerationRequest -> Result<GenerationResponse, string>

  /** An optional string interpolated into a template literal: absent
      values print as `undefined`. */
  function Interpolated(s: Option<string>): string {
    if s.Some? then s.value else "undefined"
  }

  /** JavaScript truthiness of an optional string: present and non-empty. */
  predicate Truthy(s: Option<string>) {
    s.Some? && s.value != ""
  }

  // ---------------------------------------------------------------------
  // Image payload

  /** `image.split(',')[1]`: the second comma-separated piece of the
      image string, absent when there is none. */
  function DataPayload(image: string): Option<string> {
    var pieces := Split(image, ',');
    if |pieces| >= 2 then Some(pieces[1]) else None
  }

  /** The payload is present exactly when the image string has a comma, and
      is then the text from just after the first comma up to the next comma
      or the end; it never holds a comma itself. */
  lemma DataPayloadBetweenCommas(image: string)
    ensures DataPayload(image).Some? <==> ',' in image
    ensures DataPayload(image).Some? ==> ',' !in DataPayload(image).value
    ensures DataPayload(image).Some? ==>
      var rest := image[IndexOf(image, ',') + 1..];
      DataPayload(image).value == rest[..IndexOf(rest, ',')]
  {
    SplitAtFirst(image, ',');
    if IndexOf(image, ',') < |image| {
      SplitAtFirst(image[IndexOf(image, ',') + 1..], ',');
    }
  }

  /** The payload of a PNG data URI built from comma-free base64 data is
      that data: the generator's output format and the payload extraction
      are inverse. */
  lemma DataPayloadOfPngDataUri(data: string)
    requires ',' !in data
    ensures DataPayload(PngDataUriPrefix + data) == Some(data)
  {
    var scheme := "data:image/png;base64";
    assert PngDataUriPrefix + data == scheme + [','] + data;
    SplitAfterPiece(scheme, ',', data);
    SplitWithoutSeparator(data, ',');
  }

  /** The request part carrying an image, as both calls build it. */
  function ImagePartFor(image: string): RequestPart {
    ImagePart(Blob(PngMimeType, DataPayload(image)))
  }

  // ---------------------------------------------------------------------
  // Style analysis

  function AnalysisRequestFor(image: string): AnalysisRequest {
    AnalysisRequest(AnalysisModel, [ImagePartFor(image), TextPart(AnalysisInstruction)])
  }

  /** The first words of a style text (`text.split(' ').slice(0, 10)`). */
  function Keywords(text: string): (keywords: seq<string>)
    ensures |keywords| <= KeywordLimit
    ensures keywords <= Split(text, ' ')
    ensures |keywords| == KeywordLimit || keywords == Split(text, ' ')
  {
    Take(Split(text, ' '), KeywordLimit)
  }

  /** The analysis built from the response text, falling back to a fixed
      style when the text is absent or empty. */
  function StyleFromText(text: Option<string>): (analysis: StyleAnalysis)
    ensures analysis.prompt != ""
    ensures Truthy(text) ==> analysis.prompt == text.value
    ensures !Truthy(text) ==> analysis.prompt == FallbackStyle
    ensures analysis.keywords == Keywords(analysis.prompt)
  {
    var prompt := if Truthy(text) then text.value else FallbackStyle;
    StyleAnalysis(prompt, Keywords(prompt))
  }

  /** Joined back with spaces, the keywords are the beginning of the style
      text, and all of it when the text has at most ten words. */
  lemma {:induction false} KeywordsStartThePrompt(text: string)
    ensures |Keywords(text)| >= 1
    ensures Join(Keywords(text), ' ') <= text
    ensures |Split(text, ' ')| <= KeywordLimit ==> Join(Keywords(text), ' ') == text
  {
    var pieces := Split(text, ' ');
    var keywords := Keywords(text);
    JoinSplit(text, ' ');
    assert keywords == pieces[..|keywords|];
    JoinOfPrefix(pieces, |keywords|, ' ');
    if |pieces| <= KeywordLimit {
      assert keywords == pieces;
    }
  }

  /** `analyzeStyle`: sends the image with the fixed instruction and turns
      the response text into an analysis; a failed call's error is passed
      on unchanged. */
  function AnalyzeStyle(image: string, analyze: AnalysisOracle): (r: Result<StyleAnalysis, string>)
    ensures r.Err? <==> analyze(AnalysisRequestFor(image)).Err?
    ensures r.Err? ==> r.error == analyze(AnalysisRequestFor(image)).error
    ensures r.Ok? ==> r.value == StyleFromText(analyze(AnalysisRequestFor(image)).value)
    ensures r.Ok? ==> r.value.prompt != "" && |r.value.keywords| <= KeywordLimit
  {
    match analyze(AnalysisRequestFor(image))
    case Err(e) => Err(e)
    case Ok(text) => Ok(StyleFromText(text))
  }

  // ---------------------------------------------------------------------
  // Prompt and aspect ratio per category

  /** The clause combining the style text and the user's own note, shared by
      every category's prompt. */
  function CombinedContext(styleSummary: string, userPrompt: string): (context: string)
    ensures Contains(context, styleSummary)
    ensures Contains(context, userPrompt)
  {
    var open := "【核心风格】：";
    var middle := "。 【用户自定义需求】：";
    var close := "。";
    var context := open + styleSummary + middle + userPrompt + close;
    assert context == open + styleSummary + (middle + userPrompt + close);
    ContainsMiddle(open, styleSummary, middle + userPrompt + close);
    ContainsMiddle(open + styleSummary + middle, userPrompt, close);
    context
  }

  // The four prompt templates, each split around the interpolated context:
  // the head gives the target size and the category's layout rules, the
  // tail the finish directive.

  const AvatarFrameHead: string :=
    "设计一款高端头像框 (512x512)。\n      【布局规范】：\n"
    + "      1. 中心必须是一个完美的、纯黑色的正圆。\n"
    + "      2. 所有的装饰、纹理、光效必须严格设计在中心黑圆之外的区域。\n"
    + "      3. 禁止在黑色圆心内生成任何内容。\n"
    + "      4. 整体呈现出立体的环绕感。\n      "
  const AvatarFrameTail: string :=
    "\n      要求：极高画质，背景纯白，商业级UI表现。"

  const EntranceShowHead: string :=
    "设计一款进场秀横幅组件 (16:9 比例)。\n      【布局规范】：\n"
    + "      1. 左侧：有一个纯黑色的圆框，用于放置头像。\n"
    + "      2. 中间/大部分区域：一个长方形的绿色区域，作为聊天气泡/背景。\n"
    + "      3. 装饰规则：所有的设计元素（流光、装饰物、特效）必须围绕黑色圆框和绿色长方形进行设计。\n"
    + "      4. 禁止在黑色圆框内部生成任何内容。\n"
    + "      5. 禁止出现任何真实的文字、字母或数字。\n      "
  const EntranceShowTail: string :=
    "\n      要求：极具动感，3D质感，顶级游戏或社交软件UI质感。"

  const MedalHead: string :=
    "设计一款对称六边形的成就勋章 (480x480)。\n      【硬性要求】：\n"
    + "      1. 外形必须是严格对称的六边形。\n"
    + "      2. 极强的3D立体感和材质表现（如重金属、发光水晶、浮雕纹理）。\n"
    + "      3. 纹理厚实、结构清晰，即使在缩小的比例下也能一眼辨认。\n"
    + "      4. 禁止出现任何文字或数字。\n      "
  const MedalTail: string :=
    "\n      要求：中心有独特的主题Logo，光影剔透，像实物一样真实。"

  const WallpaperHead: string :=
    "设计一款手机壁纸海报 (720x1280)。\n      【设计原则】：\n"
    + "      1. 基于参考图风格进行更宏大的想象力延展。\n"
    + "      2. 构图大胆、充满细节，有丰富的层次感和色彩渐变。\n"
    + "      3. 禁止出现任何文字或数字。\n"
    + "      4. 创造一个令人沉浸的意境或抽象世界。\n      "
  const WallpaperTail: string :=
    "\n      要求：电影级调色，4K极致细节。"

  /** The part of each category's template before the combined context. */
  function TemplateHead(t: AssetType): string {
    match t
    case AvatarFrame => AvatarFrameHead
    case EntranceShow => EntranceShowHead
    case Medal => MedalHead
    case Wallpaper => WallpaperHead
  }

  /** The part of each category's template after the combined context. */
  function TemplateTail(t: AssetType): string {
    match t
    case AvatarFrame => AvatarFrameTail
    case EntranceShow => EntranceShowTail
    case Medal => MedalTail
    case Wallpaper => WallpaperTail
  }

  /** The prompt of a category: its template with the context interpolated. */
  function PromptFor(t: AssetType, combinedContext: string): string {
    TemplateHead(t) + combinedContext + TemplateTail(t)
  }

  /** The aspect ratio requested for each category. */
  function AspectRatioOf(t: AssetType): AspectRatio {
    match t
    case AvatarFrame => Ratio1x1
    case EntranceShow => Ratio16x9
    case Medal => Ratio1x1
    case Wallpaper => Ratio9x16
  }

  /** The category's rules open its prompt, and both the style text and the
      user's note occur in it, whatever the category. */
  lemma {:induction false} PromptCarriesStyleAndNote(t: AssetType, styleSummary: string, userPrompt: string)
    ensures TemplateHead(t) <= PromptFor(t, CombinedContext(styleSummary, userPrompt))
    ensures Contains(PromptFor(t, CombinedContext(styleSummary, userPrompt)), styleSummary)
    ensures Contains(PromptFor(t, CombinedContext(styleSummary, userPrompt)), userPrompt)
  {
    var context := CombinedContext(styleSummary, userPrompt);
    var prompt := PromptFor(t, context);
    ContainsMiddle(TemplateHead(t), context, TemplateTail(t));
    ContainsTransitive(prompt, context, styleSummary);
    ContainsTransitive(prompt, context, userPrompt);
  }

  /** Square categories are exactly the avatar frame and the medal; the
      entrance show is landscape and the wallpaper portrait. */
  lemma AspectRatioByCategory(t: AssetType)
    ensures AspectRatioText(AspectRatioOf(t)) == "1:1" <==> t == AvatarFrame || t == Medal
    ensures AspectRatioText(AspectRatioOf(t)) == "16:9" <==> t == EntranceShow
    ensures AspectRatioText(AspectRatioOf(t)) == "9:16" <==> t == Wallpaper
  {
  }

  /** The switch of `generateAsset`: chooses the prompt template and the
      aspect ratio of the category. */
  method SelectTemplate(t: AssetType, combinedContext: string)
    returns (specificPrompt: string, aspectRatio: AspectRatio)
    ensures specificPrompt == PromptFor(t, combinedContext)
    ensures aspectRatio == AspectRatioOf(t)
    ensures Contains(specificPrompt, combinedContext)
  {
    specificPrompt := "";
    aspectRatio := Ratio1x1;
    match t {
      case AvatarFrame =>
        specificPrompt := TemplateHead(AvatarFrame) + combinedContext + TemplateTail(AvatarFrame);
        aspectRatio := Ratio1x1;
      case EntranceShow =>
        specificPrompt := TemplateHead(EntranceShow) + combinedContext + TemplateTail(EntranceShow);
        aspectRatio := Ratio16x9;
      case Medal =>
        specificPrompt := TemplateHead(Medal) + combinedContext + TemplateTail(Medal);
        aspectRatio := Ratio1x1;
      case Wallpaper =>
        specificPrompt := TemplateHead(Wallpaper) + combinedContext + TemplateTail(Wallpaper);
        aspectRatio := Ratio9x16;
    }
    ContainsMiddle(TemplateHead(t), combinedContext, TemplateTail(t));
  }

  // ---------------------------------------------------------------------
  // Request parts

  /** The parts of a generation request: the reference image, when one is
      given, ahead of the prompt text. */
  function PartsFor(prompt: string, referenceImage: Option<string>): seq<RequestPart> {
    if Truthy(referenceImage) then [ImagePartFor(referenceImage.value), TextPart(prompt)]
    else [TextPart(prompt)]
  }

  /** Builds the parts list with the text alone and puts the image in front
      of it when there is a reference image. */
  method AssembleParts(prompt: string, referenceImage: Option<string>) returns (parts: seq<RequestPart>)
    ensures parts == PartsFor(prompt, referenceImage)
    ensures Truthy(referenceImage) ==>
      |parts| == 2 && parts[0] == ImagePartFor(referenceImage.value) && parts[1] == TextPart(prompt)
    ensures !Truthy(referenceImage) ==> parts == [TextPart(prompt)]
  {
    parts := [TextPart(prompt)];
    if referenceImage.Some? && referenceImage.value != "" {
      parts := [ImagePartFor(referenceImage.value)] + parts;
    }
  }

  function GenerationRequestFor(
    t: AssetType, styleSummary: string, userPrompt: string, referenceImage: Option<string>): GenerationRequest
  {
    GenerationRequest(
      ImageModel,
      PartsFor(PromptFor(t, CombinedContext(styleSummary, userPrompt)), referenceImage),
      AspectRatioOf(t))
  }

  // ---------------------------------------------------------------------
  // Response parsing

  /** The parts of the first candidate's content, or none. */
  function ResponseParts(response: GenerationResponse): seq<ResponsePart> {
    match response.candidates
    case None => []
    case Some(candidates) =>
      if |candidates| == 0 then []
      else match candidates[0].content
        case None => []
        case Some(content) => if content.parts.Some? then content.parts.value else []
  }

  /** The inline data of the first part that has some. */
  function FirstInlineData(parts: seq<ResponsePart>): Option<InlineData> {
    if |parts| == 0 then None
    else if parts[0].inlineData.Some? then parts[0].inlineData
    else FirstInlineData(parts[1..])
  }

  /** `FirstInlineData` finds the image of the earliest image-bearing part,
      and finds nothing exactly when no part bears an image. */
  lemma {:induction false} FirstInlineDataIsEarliest(parts: seq<ResponsePart>)
    ensures FirstInlineData(parts).None? <==> forall i :: 0 <= i < |parts| ==> parts[i].inlineData.None?
    ensures FirstInlineData(parts).Some? ==>
      exists i :: 0 <= i < |parts| && parts[i].inlineData == FirstInlineData(parts) &&
        forall j :: 0 <= j < i ==> parts[j].inlineData.None?
  {
    if |parts| > 0 && parts[0].inlineData.None? {
      FirstInlineDataIsEarliest(parts[1..]);
      assert forall i :: 1 <= i < |parts| ==> parts[i] == parts[1..][i - 1];
      if FirstInlineData(parts).Some? {
        var i :| 0 <= i < |parts[1..]| && parts[1..][i].inlineData == FirstInlineData(parts[1..]) &&
          forall j :: 0 <= j < i ==> parts[1..][j].inlineData.None?;
        assert parts[i + 1].inlineData == FirstInlineData(parts);
      }
    } else if |parts| > 0 {
      assert parts[0].inlineData == FirstInlineData(parts);
    }
  }

  /** Parts after the first image-bearing one do not affect the result. */
  lemma {:induction false} LaterPartsIgnored(parts: seq<ResponsePart>, later: seq<ResponsePart>)
    requires FirstInlineData(parts).Some?
    ensures FirstInlineData(parts + later) == FirstInlineData(parts)
  {
    if parts[0].inlineData.None? {
      assert (parts + later)[1..] == parts[1..] + later;
      LaterPartsIgnored(parts[1..], later);
    }
  }

  /** Parts without an image ahead of the others do not affect the result,
      however many there are. */
  lemma {:induction false} ImagelessPartsSkipped(skipped: seq<ResponsePart>, parts: seq<ResponsePart>)
    requires forall i :: 0 <= i < |skipped| ==> skipped[i].inlineData.None?
    ensures FirstInlineData(skipped + parts) == FirstInlineData(parts)
  {
    if |skipped| > 0 {
      assert (skipped + parts)[1..] == skipped[1..] + parts;
      ImagelessPartsSkipped(skipped[1..], parts);
    } else {
      assert skipped + parts == parts;
    }
  }

  /** The loop of `generateAsset` over the response parts: the data URI of
      the first part carrying inline data, or the empty string. */
  method ScanForImage(parts: seq<ResponsePart>) returns (imageUrl: string)
    ensures FirstInlineData(parts).None? ==> imageUrl == ""
    ensures FirstInlineData(parts).Some? ==>
      imageUrl == PngDataUriPrefix + Interpolated(FirstInlineData(parts).value.data)
  {
    imageUrl := "";
    var i := 0;
    while i < |parts|
      invariant 0 <= i <= |parts|
      invariant FirstInlineData(parts[i..]) == FirstInlineData(parts)
      invariant imageUrl == ""
    {
      if parts[i].inlineData.Some? {
        imageUrl := PngDataUriPrefix + Interpolated(parts[i].inlineData.value.data);
        break;
      }
      assert parts[i..][1..] == parts[i + 1..];
      i := i + 1;
    }
  }

  /** What `generateAsset` settles to, given what the model call produced:
      the call's error unchanged, the no-image error, or the first image as
      a PNG data URI. */
  function GenerationOutcome(response: Result<GenerationResponse, string>): Result<string, string> {
    match response
    case Err(e) => Err(e)
    case Ok(r) =>
      match FirstInlineData(ResponseParts(r))
      case None => Err(NoImageMessage)
      case Some(image) => Ok(PngDataUriPrefix + Interpolated(image.data))
  }

  /** `generateAsset`: builds the category's prompt and request, calls the
      model and extracts the first image. */
  method GenerateAsset(
    t: AssetType, styleSummary: string, userPrompt: string, referenceImage: Option<string>,
    generate: GenerationOracle)
    returns (r: Result<string, string>)
    ensures r == GenerationOutcome(generate(GenerationRequestFor(t, styleSummary, userPrompt, referenceImage)))
    ensures r.Ok? ==> PngDataUriPrefix <= r.value
    ensures r.Err? ==>
      r.error == NoImageMessage || generate(GenerationRequestFor(t, styleSummary, userPrompt, referenceImage)).Err?
  {
    var combinedContext := CombinedContext(styleSummary, userPrompt);
    var specificPrompt, aspectRatio := SelectTemplate(t, combinedContext);
    var parts := AssembleParts(specificPrompt, referenceImage);
    var response := generate(GenerationRequest(ImageModel, parts, aspectRatio));
    if response.Err? {
      return Err(response.error);
    }
    var imageUrl := ScanForImage(ResponseParts(response.value));
    if imageUrl == "" {
      return Err(NoImageMessage);
    }
    r := Ok(imageUrl);
  }
}
