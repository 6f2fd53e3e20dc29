/** The page's state machine: one status record per asset category plus the
    analysis flag, updated by the upload, analysis and generation events.
    Every asynchronous resolution is an event of its own, applied in some
    sequential order; the composite handlers run their events one after the
    other. */
module Gallery {
  import opened Wrappers
  import opened Text
  import opened Types
  import opened GeminiService

  /** The fixed id of each category's slot. */
  function AssetId(t: AssetType): string {
    match t
    case AvatarFrame => "1"
    case EntranceShow => "2"
    case Medal => "3"
    case Wallpaper => "4"
  }

  /** The gallery before anything has been generated. */
  function InitialAssets(): (assets: Assets)
    ensures IsTotal(assets)
    ensures forall t :: assets[t] == GeneratedAsset(AssetId(t), t, "", Idle, None)
  {
    var assets := map[
      AvatarFrame := GeneratedAsset("1", AvatarFrame, "", Idle, None),
      EntranceShow := GeneratedAsset("2", EntranceShow, "", Idle, None),
      Medal := GeneratedAsset("3", Medal, "", Idle, None),
      Wallpaper := GeneratedAsset("4", Wallpaper, "", Idle, None)];
    FourKeysAreTotal(assets);
    assets
  }

  // ---------------------------------------------------------------------
  // Slot updates

  /** A generate or retry request: the slot is loading and its error is
      cleared; the previous image stays. */
  function MarkLoading(a: GeneratedAsset): GeneratedAsset {
    a.(status := Loading, error := None)
  }

  /** A generation that resolved with an image. */
  function MarkSucceeded(a: GeneratedAsset, url: string): GeneratedAsset {
    a.(imageUrl := url, status := Success)
  }

  /** A generation that was rejected; the previous image stays. */
  function MarkFailed(a: GeneratedAsset, message: string): GeneratedAsset {
    a.(status := Error, error := Some(message))
  }

  /** The slot after a generation resolves one way or the other. */
  function Settle(a: GeneratedAsset, outcome: Result<string, string>): GeneratedAsset {
    match outcome
    case Ok(url) => MarkSucceeded(a, url)
    case Err(message) => MarkFailed(a, message)
  }

  /** What the events maintain of a slot: it is idle only before its first
      request, with no image and no error; a loading slot has no error and a
      failed one has. */
  predicate SlotInvariant(a: GeneratedAsset) {
    && (a.status == Idle ==> a.imageUrl == "" && a.error == None)
    && (a.status == Loading ==> a.error == None)
    && (a.status == Error ==> a.error.Some?)
  }

  /** Every slot update keeps the slot's id and category and its invariant. */
  lemma SlotUpdatesKeepInvariant(a: GeneratedAsset, outcome: Result<string, string>)
    requires SlotInvariant(a)
    ensures SlotInvariant(MarkLoading(a)) && SlotInvariant(Settle(a, outcome))
    ensures MarkLoading(a).id == a.id && MarkLoading(a).assetType == a.assetType
    ensures Settle(a, outcome).id == a.id && Settle(a, outcome).assetType == a.assetType
  {
  }

  /** A retry of a slot that holds an image shows it as loading with the old
      image still in place: a non-empty image does not imply success. */
  lemma RetryKeepsPreviousImage(a: GeneratedAsset, url: string)
    ensures MarkLoading(MarkSucceeded(a, url)).status == Loading
    ensures MarkLoading(MarkSucceeded(a, url)).imageUrl == url
  {
  }

  /** A success that lands on a failed slot (a stale response) keeps the
      failure's message: an error message does not imply the error status. */
  lemma LateSuccessKeepsError(a: GeneratedAsset, message: string, url: string)
    ensures MarkSucceeded(MarkFailed(a, message), url).status == Success
    ensures MarkSucceeded(MarkFailed(a, message), url).error == Some(message)
  {
  }

  /** The slot of category `t` exists, carries that category and its id,
      and keeps the slot invariant. */
  predicate SlotWellFormed(assets: Assets, t: AssetType) {
    && t in assets
    && assets[t].assetType == t
    && assets[t].id == AssetId(t)
    && SlotInvariant(assets[t])
  }

  /** The whole state is well formed: a slot for every category, each one
      well formed. */
  predicate WellFormed(state: AppState) {
    && IsTotal(state.assets)
    && SlotWellFormed(state.assets, AvatarFrame)
    && SlotWellFormed(state.assets, EntranceShow)
    && SlotWellFormed(state.assets, Medal)
    && SlotWellFormed(state.assets, Wallpaper)
  }

  // ---------------------------------------------------------------------
  // Derived values the page shows

  /** `stylePromptOverride || state.analysis?.prompt`, and whether it is
      usable: a non-empty override wins, else a non-empty analysis text. */
  function ResolveStylePrompt(override: Option<string>, analysis: Option<StyleAnalysis>): (p: Option<string>)
    ensures p.Some? ==> p.value != ""
    ensures Truthy(override) ==> p == override
    ensures !Truthy(override) && analysis.Some? && analysis.value.prompt != "" ==>
      p == Some(analysis.value.prompt)
    ensures p.None? <==> !Truthy(override) && (analysis.None? || analysis.value.prompt == "")
  {
    if Truthy(override) then override
    else if analysis.Some? && analysis.value.prompt != "" then Some(analysis.value.prompt)
    else None
  }

  /** After a successful analysis, a request without override always goes
      ahead, with the analysed style. */
  lemma AnalysedStyleEnablesGeneration(image: string, analyze: AnalysisOracle)
    requires AnalyzeStyle(image, analyze).Ok?
    ensures ResolveStylePrompt(None, Some(AnalyzeStyle(image, analyze).value))
      == Some(AnalyzeStyle(image, analyze).value.prompt)
  {
  }

  /** `state.referenceImage || undefined`: the reference image passed to the
      generator. */
  function ReferenceArgument(referenceImage: Option<string>): (r: Option<string>)
    ensures Truthy(r) == Truthy(referenceImage)
    ensures r.Some? ==> r == referenceImage
  {
    if Truthy(referenceImage) then referenceImage else None
  }

  /** The retry button of a slot is disabled while it loads or before any
      analysis exists. */
  predicate RetryDisabled(a: GeneratedAsset, analysis: Option<StyleAnalysis>) {
    a.status == Loading || analysis.None?
  }

  /** The download button is offered only for a successful slot. */
  predicate DownloadOffered(a: GeneratedAsset) {
    a.status == Success
  }

  /** The name of the file a slot's image is saved under. */
  function DownloadFileName(t: AssetType): (name: string)
    ensures |name| == 11 + |AssetTypeValue(t)|
    ensures "design-" <= name
    ensures name[|name| - 4..] == ".png"
    ensures name[7..|name| - 4] == AssetTypeValue(t)
  {
    var name := "design-" + AssetTypeValue(t) + ".png";
    assert name[7..|name| - 4] == AssetTypeValue(t);
    name
  }

  /** Different categories are saved under different names. */
  lemma DownloadFileNamesDistinct(a: AssetType, b: AssetType)
    ensures DownloadFileName(a) == DownloadFileName(b) ==> a == b
  {
    if DownloadFileName(a) == DownloadFileName(b) {
      var n := DownloadFileName(a);
      assert AssetTypeValue(a) == n[7..|n| - 4] == AssetTypeValue(b);
      AssetTypeValueInjective(a, b);
    }
  }

  /** The label shown above each category's slot. */
  function AssetLabel(t: AssetType): string {
    match t
    case AvatarFrame => "精选头像框"
    case EntranceShow => "动态进场秀"
    case Medal => "荣誉勋章"
    case Wallpaper => "极享壁纸"
  }

  /** Each category has its own label. */
  lemma AssetLabelsDistinct(a: AssetType, b: AssetType)
    ensures AssetLabel(a) == AssetLabel(b) ==> a == b
  {
    if a != b {
      assert AssetLabel(a)[0] != AssetLabel(b)[0] || |AssetLabel(a)| != |AssetLabel(b)|;
    }
  }

  // ---------------------------------------------------------------------
  // Generation of one category, and of all four after an analysis

  /** What the page sees of `generateAsset(type, styleSummary, userPrompt,
      referenceImage)`: a promise that resolves with an image URL or is
      rejected with an error message. */
  type AssetGenerator = (AssetType, string, string, Option<string>) -> Result<string, string>

  /** The generator the page uses: the service's `generateAsset` over the
      image model `generate`. */
  function ServiceGenerator(generate: GenerationOracle): AssetGenerator {
    (t: AssetType, styleSummary: string, userPrompt: string, referenceImage: Option<string>) =>
      GenerationOutcome(generate(GenerationRequestFor(t, styleSummary, userPrompt, referenceImage)))
  }

  /** The service's generator resolves with a PNG data URI, or rejects with
      the model's own error or the no-image message. */
  lemma ServiceGeneratorOutcome(
    generate: GenerationOracle, t: AssetType, styleSummary: string, userPrompt: string, referenceImage: Option<string>)
    ensures var r := ServiceGenerator(generate)(t, styleSummary, userPrompt, referenceImage);
      && (r.Ok? ==> PngDataUriPrefix <= r.value)
      && (r.Err? ==>
            r.error == NoImageMessage ||
            generate(GenerationRequestFor(t, styleSummary, userPrompt, referenceImage)) == Err(r.error))
  {
    var response := generate(GenerationRequestFor(t, styleSummary, userPrompt, referenceImage));
    if response.Ok? {
      match FirstInlineData(ResponseParts(response.value))
      case None =>
      case Some(image) =>
        assert PngDataUriPrefix <= PngDataUriPrefix + Interpolated(image.data);
    }
  }

  /** The slot of category `t` after a request with style `stylePrompt` has
      been sent and has resolved. */
  function Generated(
    a: GeneratedAsset, t: AssetType, stylePrompt: string, userPrompt: string,
    referenceImage: Option<string>, gen: AssetGenerator): GeneratedAsset
  {
    Settle(MarkLoading(a), gen(t, stylePrompt, userPrompt, ReferenceArgument(referenceImage)))
  }

  /** A generated slot is settled: on success it holds the generator's image
      and no error, on failure it keeps its previous image and holds the
      generator's message; its id and category stay. */
  lemma GeneratedSlotSettles(
    a: GeneratedAsset, t: AssetType, stylePrompt: string, userPrompt: string,
    referenceImage: Option<string>, gen: AssetGenerator)
    ensures var g := Generated(a, t, stylePrompt, userPrompt, referenceImage, gen);
      var outcome := gen(t, stylePrompt, userPrompt, ReferenceArgument(referenceImage));
      && (g.status == Success <==> outcome.Ok?)
      && (g.status == Error <==> outcome.Err?)
      && (outcome.Ok? ==> g.imageUrl == outcome.value && g.error == None)
      && (outcome.Err? ==> g.imageUrl == a.imageUrl && g.error == Some(outcome.error))
      && g.id == a.id && g.assetType == a.assetType
  {
  }

  /** Download is offered for a generated slot exactly when the generator
      resolved with an image, and the link then points at that image. */
  lemma DownloadOfferedAfterSuccess(
    a: GeneratedAsset, t: AssetType, stylePrompt: string, userPrompt: string,
    referenceImage: Option<string>, gen: AssetGenerator)
    ensures var g := Generated(a, t, stylePrompt, userPrompt, referenceImage, gen);
      var outcome := gen(t, stylePrompt, userPrompt, ReferenceArgument(referenceImage));
      && (DownloadOffered(g) <==> outcome.Ok?)
      && (DownloadOffered(g) ==> g.imageUrl == outcome.value)
  {
    GeneratedSlotSettles(a, t, stylePrompt, userPrompt, referenceImage, gen);
  }

  /** An enabled retry button always sends a request, with the stored
      analysis as style, once that analysis came from the service; it is
      never enabled on a loading slot. */
  lemma {:induction false} EnabledRetryGoesAhead(s: AppState, t: AssetType, image: string, analyze: AnalysisOracle)
    requires t in s.assets
    requires AnalyzeStyle(image, analyze).Ok? && s.analysis == Some(AnalyzeStyle(image, analyze).value)
    ensures !RetryDisabled(s.assets[t], s.analysis) <==> s.assets[t].status != Loading
    ensures ResolveStylePrompt(None, s.analysis) == Some(AnalyzeStyle(image, analyze).value.prompt)
  {
    AnalysedStyleEnablesGeneration(image, analyze);
  }

  /** Every slot after the fan-out that follows an analysis. */
  function FanOut(
    assets: Assets, stylePrompt: string, userPrompt: string,
    referenceImage: Option<string>, gen: AssetGenerator): (after: Assets)
    ensures after.Keys == assets.Keys
  {
    map t | t in assets :: Generated(assets[t], t, stylePrompt, userPrompt, referenceImage, gen)
  }

  // ---------------------------------------------------------------------
  // State transitions: each one is the updater the page hands to its state
  // setter, or a sequence of them

  /** The state after `handleGenerate(t, override)` once its request has
      resolved: unchanged without a usable style, otherwise with the slot
      of `t` generated. */
  function AfterGenerate(s: AppState, t: AssetType, override: Option<string>, gen: AssetGenerator): AppState
    requires t in s.assets
  {
    var stylePrompt := ResolveStylePrompt(override, s.analysis);
    if stylePrompt.None? then s
    else s.(assets := s.assets[t := Generated(s.assets[t], t, stylePrompt.value, s.userPrompt, s.referenceImage, gen)])
  }

  /** The state after `startDesignProcess` once every request has resolved:
      unchanged without a reference image; after a failed analysis only the
      flag is lowered; after a successful one the analysis is stored, the
      flag lowered and every category generated with the analysed style. */
  function AfterDesign(s: AppState, analysis: Result<StyleAnalysis, string>, gen: AssetGenerator): AppState {
    if !Truthy(s.referenceImage) then s
    else match analysis
      case Err(_) => s.(isAnalyzing := false)
      case Ok(a) => s.(
        analysis := Some(a),
        isAnalyzing := false,
        assets := FanOut(s.assets, a.prompt, s.userPrompt, s.referenceImage, gen))
  }

  /** Replacing one slot by a well-formed slot of the same category keeps
      the state well formed. */
  lemma ReplaceSlotKeepsWellFormed(s: AppState, t: AssetType, slot: GeneratedAsset)
    requires WellFormed(s)
    requires slot.assetType == t && slot.id == AssetId(t) && SlotInvariant(slot)
    ensures WellFormed(s.(assets := s.assets[t := slot]))
  {
    FourKeysAreTotal(s.assets[t := slot]);
  }

  /** Updating the same key twice keeps only the second value. */
  lemma UpdateTwice(m: Assets, t: AssetType, first: GeneratedAsset, second: GeneratedAsset)
    ensures m[t := first][t := second] == m[t := second]
  {
  }

  /** A generate request changes nothing but the slot of its category, and
      nothing at all without a usable style; it keeps the state well
      formed. */
  lemma {:induction false} AfterGenerateFrame(s: AppState, t: AssetType, override: Option<string>, gen: AssetGenerator)
    requires WellFormed(s)
    ensures var after := AfterGenerate(s, t, override, gen);
      && after.(assets := s.assets) == s
      && (forall other :: other != t ==> after.assets[other] == s.assets[other])
      && (ResolveStylePrompt(override, s.analysis).None? ==> after == s)
      && WellFormed(after)
  {
    var stylePrompt := ResolveStylePrompt(override, s.analysis);
    FourKeysAreTotal(s.assets);
    if stylePrompt.Some? {
      var slot := Generated(s.assets[t], t, stylePrompt.value, s.userPrompt, s.referenceImage, gen);
      GeneratedSlotSettles(s.assets[t], t, stylePrompt.value, s.userPrompt, s.referenceImage, gen);
      ReplaceSlotKeepsWellFormed(s, t, slot);
    }
  }

  /** The fan-out keeps the state well formed and settles every slot,
      leaving none loading or idle. */
  lemma {:induction false} FanOutSettles(s: AppState, stylePrompt: string, gen: AssetGenerator)
    requires WellFormed(s)
    ensures var after := s.(assets := FanOut(s.assets, stylePrompt, s.userPrompt, s.referenceImage, gen));
      && WellFormed(after)
      && forall t :: after.assets[t].status == Success || after.assets[t].status == Error
  {
    var assets := FanOut(s.assets, stylePrompt, s.userPrompt, s.referenceImage, gen);
    FourKeysAreTotal(s.assets);
    forall t
      ensures SlotWellFormed(assets, t)
      ensures assets[t].status == Success || assets[t].status == Error
    {
      GeneratedSlotSettles(s.assets[t], t, stylePrompt, s.userPrompt, s.referenceImage, gen);
    }
  }

  /** A fan-out through the service where one category's request is
      rejected and the others resolve ends with that one slot in error,
      holding the rejection's message and its previous image, and every
      other slot successful with a PNG data URI. */
  lemma {:induction false} FanOutWithOneFailure(
    s: AppState, stylePrompt: string, generate: GenerationOracle, failed: AssetType, message: string)
    requires WellFormed(s)
    requires ServiceGenerator(generate)(failed, stylePrompt, s.userPrompt, ReferenceArgument(s.referenceImage)) == Err(message)
    requires forall t :: t != failed ==>
      ServiceGenerator(generate)(t, stylePrompt, s.userPrompt, ReferenceArgument(s.referenceImage)).Ok?
    ensures var after := FanOut(s.assets, stylePrompt, s.userPrompt, s.referenceImage, ServiceGenerator(generate));
      && after[failed].status == Error && after[failed].error == Some(message)
      && after[failed].imageUrl == s.assets[failed].imageUrl
      && forall t :: t != failed ==>
           after[t].status == Success && PngDataUriPrefix <= after[t].imageUrl && after[t].imageUrl != ""
  {
    var gen := ServiceGenerator(generate);
    var after := FanOut(s.assets, stylePrompt, s.userPrompt, s.referenceImage, gen);
    forall t
      ensures t == failed ==>
        after[t].status == Error && after[t].error == Some(message) && after[t].imageUrl == s.assets[t].imageUrl
      ensures t != failed ==>
        after[t].status == Success && PngDataUriPrefix <= after[t].imageUrl && after[t].imageUrl != ""
    {
      GeneratedSlotSettles(s.assets[t], t, stylePrompt, s.userPrompt, s.referenceImage, gen);
      ServiceGeneratorOutcome(generate, t, stylePrompt, s.userPrompt, ReferenceArgument(s.referenceImage));
    }
  }

  /** The categories of `types` are pairwise distinct. */
  predicate Distinct(types: seq<AssetType>) {
    forall i, j :: 0 <= i < j < |types| ==> types[i] != types[j]
  }

  /** Dropping the last of distinct categories leaves distinct categories
      without it. */
  lemma DistinctInit(types: seq<AssetType>)
    requires |types| > 0 && Distinct(types)
    ensures Distinct(types[..|types| - 1])
    ensures types[|types| - 1] !in types[..|types| - 1]
  {
    var init := types[..|types| - 1];
    forall i | 0 <= i < |init|
      ensures init[i] != types[|types| - 1]
    {
      assert init[i] == types[i];
    }
  }

  /** The state after `handleGenerate` ran and resolved for each category
      of `types` in turn, with `stylePrompt` as the override. */
  function GenerateInTurn(s: AppState, types: seq<AssetType>, stylePrompt: string, gen: AssetGenerator): (r: AppState)
    requires IsTotal(s.assets)
    ensures IsTotal(r.assets)
    decreases |types|
  {
    if |types| == 0 then s
    else AfterGenerate(GenerateInTurn(s, types[..|types| - 1], stylePrompt, gen), types[|types| - 1], Some(stylePrompt), gen)
  }

  /** After distinct categories have been generated one after the other, in
      whatever order, exactly their slots hold their generated value,
      computed from the slot, note and reference image they started with;
      nothing else has changed. */
  lemma {:induction false} GenerateInTurnSlots(s: AppState, types: seq<AssetType>, stylePrompt: string, gen: AssetGenerator)
    requires WellFormed(s) && stylePrompt != "" && Distinct(types)
    ensures var r := GenerateInTurn(s, types, stylePrompt, gen);
      && WellFormed(r)
      && r.(assets := s.assets) == s
      && forall t :: r.assets[t] == (
           if t in types then Generated(s.assets[t], t, stylePrompt, s.userPrompt, s.referenceImage, gen)
           else s.assets[t])
    decreases |types|
  {
    if |types| > 0 {
      var init := types[..|types| - 1];
      DistinctInit(types);
      assert types == init + [types[|types| - 1]];
      GenerateInTurnSlots(s, init, stylePrompt, gen);
      AfterGenerateFrame(GenerateInTurn(s, init, stylePrompt, gen), types[|types| - 1], Some(stylePrompt), gen);
    }
  }

  /** Generating every category one after the other, in any order, gives
      the fan-out: each slot is generated from the state the sequence
      started in. */
  lemma {:induction false} GenerateInTurnIsFanOut(s: AppState, types: seq<AssetType>, stylePrompt: string, gen: AssetGenerator)
    requires WellFormed(s) && stylePrompt != ""
    requires Distinct(types) && forall t: AssetType :: t in types
    ensures GenerateInTurn(s, types, stylePrompt, gen)
      == s.(assets := FanOut(s.assets, stylePrompt, s.userPrompt, s.referenceImage, gen))
  {
    GenerateInTurnSlots(s, types, stylePrompt, gen);
    var r := GenerateInTurn(s, types, stylePrompt, gen);
    var fan := FanOut(s.assets, stylePrompt, s.userPrompt, s.referenceImage, gen);
    assert forall t :: r.assets[t] == fan[t];
    assert r.assets == fan;
  }

  // ---------------------------------------------------------------------
  // The fan-out as concurrent requests

  /** One step of the concurrent fan-out: the request of a category is sent
      (its slot starts loading), or that request resolves. */
  datatype FanOutEvent = Start(category: AssetType) | Finish(category: AssetType)

  /** The state after `events`, every request having been sent with style
      `stylePrompt` and the note and reference image of `s`. */
  function ApplyEvents(s: AppState, events: seq<FanOutEvent>, stylePrompt: string, gen: AssetGenerator): (r: AppState)
    requires IsTotal(s.assets)
    ensures IsTotal(r.assets)
    decreases |events|
  {
    if |events| == 0 then s
    else
      var previous := ApplyEvents(s, events[..|events| - 1], stylePrompt, gen);
      var t := events[|events| - 1].category;
      var slot :=
        if events[|events| - 1].Start? then MarkLoading(previous.assets[t])
        else Settle(previous.assets[t], gen(t, stylePrompt, s.userPrompt, ReferenceArgument(s.referenceImage)));
      previous.(assets := previous.assets[t := slot])
  }

  /** Each request is sent at most once, and resolves at most once and only
      after it was sent. */
  predicate WellOrdered(events: seq<FanOutEvent>) {
    forall i :: 0 <= i < |events| ==>
      && events[i] !in events[..i]
      && (events[i].Finish? ==> Start(events[i].category) in events[..i])
  }

  /** Where the slot of `t` stands after `events`: generated once its
      request resolved, loading while it is in flight, untouched before. */
  function SlotAfter(
    a: GeneratedAsset, t: AssetType, events: seq<FanOutEvent>, stylePrompt: string, userPrompt: string,
    referenceImage: Option<string>, gen: AssetGenerator): GeneratedAsset
  {
    if Finish(t) in events then Generated(a, t, stylePrompt, userPrompt, referenceImage, gen)
    else if Start(t) in events then MarkLoading(a)
    else a
  }

  /** Whatever the interleaving, each slot depends only on whether its own
      request was sent and has resolved; nothing but the slots changes. */
  lemma {:induction false} ApplyEventsSlots(s: AppState, events: seq<FanOutEvent>, stylePrompt: string, gen: AssetGenerator)
    requires IsTotal(s.assets) && WellOrdered(events)
    ensures var r := ApplyEvents(s, events, stylePrompt, gen);
      && r.(assets := s.assets) == s
      && forall t :: r.assets[t] == SlotAfter(s.assets[t], t, events, stylePrompt, s.userPrompt, s.referenceImage, gen)
    decreases |events|
  {
    if |events| > 0 {
      var n := |events| - 1;
      var init := events[..n];
      var e := events[n];
      WellOrderedInit(events);
      ApplyEventsSlots(s, init, stylePrompt, gen);
      var previous := ApplyEvents(s, init, stylePrompt, gen);
      var r := ApplyEvents(s, events, stylePrompt, gen);
      forall t
        ensures r.assets[t] == SlotAfter(s.assets[t], t, events, stylePrompt, s.userPrompt, s.referenceImage, gen)
      {
        assert Finish(t) in events <==> Finish(t) in init || e == Finish(t);
        assert Start(t) in events <==> Start(t) in init || e == Start(t);
      }
    }
  }

  /** A prefix of a well-ordered sequence is well ordered; the last event is
      new, a start comes before any finish of its category, and a finish
      after its start. */
  lemma WellOrderedInit(events: seq<FanOutEvent>)
    requires |events| > 0 && WellOrdered(events)
    ensures WellOrdered(events[..|events| - 1])
    ensures events[|events| - 1] !in events[..|events| - 1]
    ensures events[|events| - 1].Start? ==> Finish(events[|events| - 1].category) !in events[..|events| - 1]
    ensures events[|events| - 1].Finish? ==> Start(events[|events| - 1].category) in events[..|events| - 1]
  {
    var n := |events| - 1;
    var init := events[..n];
    var e := events[n];
    forall i | 0 <= i < |init|
      ensures init[i] !in init[..i] && (init[i].Finish? ==> Start(init[i].category) in init[..i])
    {
      assert init[..i] == events[..i];
    }
  }

  /** However the four requests interleave, once every one of them has
      resolved the gallery is the fan-out: the order of sending and of
      resolution does not matter. */
  lemma {:induction false} ConcurrentFanOut(s: AppState, events: seq<FanOutEvent>, stylePrompt: string, gen: AssetGenerator)
    requires WellFormed(s) && WellOrdered(events)
    requires forall t: AssetType :: Finish(t) in events
    ensures ApplyEvents(s, events, stylePrompt, gen)
      == s.(assets := FanOut(s.assets, stylePrompt, s.userPrompt, s.referenceImage, gen))
  {
    ApplyEventsSlots(s, events, stylePrompt, gen);
    var r := ApplyEvents(s, events, stylePrompt, gen);
    var fan := FanOut(s.assets, stylePrompt, s.userPrompt, s.referenceImage, gen);
    forall t
      ensures r.assets[t] == fan[t]
    {
      assert Finish(t) in events;
    }
    assert r.assets == fan;
  }

  /** The design process keeps the state well formed; a failed analysis (or
      none, without a reference image) leaves every slot untouched, and a
      successful one settles every slot. */
  lemma {:induction false} AfterDesignSettles(s: AppState, analysis: Result<StyleAnalysis, string>, gen: AssetGenerator)
    requires WellFormed(s)
    ensures WellFormed(AfterDesign(s, analysis, gen))
    ensures !Truthy(s.referenceImage) || analysis.Err? ==> AfterDesign(s, analysis, gen).assets == s.assets
    ensures Truthy(s.referenceImage) && analysis.Ok? ==>
      forall t :: AfterDesign(s, analysis, gen).assets[t].status in {Success, Error}
  {
    if Truthy(s.referenceImage) && analysis.Ok? {
      FanOutSettles(s, analysis.value.prompt, gen);
    }
  }

  // ---------------------------------------------------------------------
  // Buttons of the page

  /** The design button is shown only with a reference image and is
      disabled while an analysis runs. */
  predicate DesignOffered(s: AppState) {
    Truthy(s.referenceImage) && !s.isAnalyzing
  }

  /** Once the design process has started its analysis, the design button
      is disabled, so no second analysis can start; either resolution of
      the analysis enables it again. */
  lemma DesignButtonDuringAnalysis(s: AppState, analysis: StyleAnalysis)
    requires Truthy(s.referenceImage)
    ensures !DesignOffered(s.(isAnalyzing := true))
    ensures DesignOffered(s.(isAnalyzing := true).(analysis := Some(analysis), isAnalyzing := false))
    ensures DesignOffered(s.(isAnalyzing := true).(isAnalyzing := false))
  {
  }

  /** A failed slot shows a regenerate button that is never disabled;
      without an analysis, pressing it changes nothing, and with one it
      regenerates only that slot with the analysed style. */
  lemma ErrorPanelRetry(s: AppState, t: AssetType, gen: AssetGenerator)
    requires WellFormed(s) && s.assets[t].status == Error
    ensures s.analysis.None? ==> AfterGenerate(s, t, None, gen) == s
    ensures s.analysis.Some? && s.analysis.value.prompt != "" ==>
      AfterGenerate(s, t, None, gen).assets[t]
        == Generated(s.assets[t], t, s.analysis.value.prompt, s.userPrompt, s.referenceImage, gen)
  {
  }

  // ---------------------------------------------------------------------
  // The page

  /** The page component: its state and one method per event handler. */
  class App {
    var state: AppState

    ghost predicate Valid()
      reads this
    {
      WellFormed(state)
    }

    constructor ()
      ensures Valid()
      ensures state == AppState(None, "", None, InitialAssets(), false)
    {
      state := AppState(None, "", None, InitialAssets(), false);
    }

    /** The file picker has read an image as a data URL. */
    method UploadReference(dataUrl: string)
      requires Valid()
      modifies this
      ensures Valid()
      ensures state == old(state).(referenceImage := Some(dataUrl))
    {
      state := state.(referenceImage := Some(dataUrl));
    }

    /** The user has edited the free-text note. */
    method EditUserPrompt(text: string)
      requires Valid()
      modifies this
      ensures Valid()
      ensures state == old(state).(userPrompt := text)
    {
      state := state.(userPrompt := text);
    }

    /** Start of the design process: nothing without a reference image,
        otherwise the analysis flag is raised and the image to analyse is
        returned. */
    method BeginAnalysis() returns (image: Option<string>)
      requires Valid()
      modifies this
      ensures Valid()
      ensures image.Some? <==> Truthy(old(state.referenceImage))
      ensures image.Some? ==> image == old(state.referenceImage)
      ensures image.None? ==> state == old(state)
      ensures image.Some? ==> state == old(state).(isAnalyzing := true)
      ensures image.Some? ==> !DesignOffered(state)
    {
      if state.referenceImage.None? || state.referenceImage.value == "" {
        return None;
      }
      image := state.referenceImage;
      state := state.(isAnalyzing := true);
    }

    /** The analysis resolved: it is stored and the flag lowered. */
    method AnalysisSucceeded(analysis: StyleAnalysis)
      requires Valid()
      modifies this
      ensures Valid()
      ensures state == old(state).(analysis := Some(analysis), isAnalyzing := false)
      ensures DesignOffered(state) <==> Truthy(state.referenceImage)
    {
      state := state.(analysis := Some(analysis), isAnalyzing := false);
    }

    /** The analysis was rejected: only the flag is lowered. */
    method AnalysisFailed()
      requires Valid()
      modifies this
      ensures Valid()
      ensures state == old(state).(isAnalyzing := false)
      ensures DesignOffered(state) <==> Truthy(state.referenceImage)
    {
      state := state.(isAnalyzing := false);
    }

    /** A generate or retry request for one category: without a usable style
        nothing happens; otherwise only that slot changes, to loading. */
    method BeginGenerate(t: AssetType, override: Option<string>) returns (stylePrompt: Option<string>)
      requires Valid()
      modifies this
      ensures Valid()
      ensures stylePrompt == ResolveStylePrompt(override, old(state.analysis))
      ensures stylePrompt.None? ==> state == old(state)
      ensures stylePrompt.Some? ==>
        state == old(state).(assets := old(state.assets)[t := MarkLoading(old(state.assets[t]))])
    {
      stylePrompt := ResolveStylePrompt(override, state.analysis);
      if stylePrompt.None? {
        return;
      }
      state := state.(assets := state.assets[t := MarkLoading(state.assets[t])]);
    }

    /** A generation resolved with an image: only that slot changes. */
    method GenerationSucceeded(t: AssetType, url: string)
      requires Valid()
      modifies this
      ensures Valid()
      ensures state == old(state).(assets := old(state.assets)[t := MarkSucceeded(old(state.assets[t]), url)])
    {
      state := state.(assets := state.assets[t := MarkSucceeded(state.assets[t], url)]);
    }

    /** A generation was rejected: only that slot changes, to the error. */
    method GenerationFailed(t: AssetType, message: string)
      requires Valid()
      modifies this
      ensures Valid()
      ensures state == old(state).(assets := old(state.assets)[t := MarkFailed(old(state.assets[t]), message)])
    {
      state := state.(assets := state.assets[t := MarkFailed(state.assets[t], message)]);
    }

    /** `handleGenerate` with its request resolving before any other event:
        the begin event, the service call with the current note and
        reference image, then the success or failure event. */
    method HandleGenerate(t: AssetType, override: Option<string>, generate: GenerationOracle)
      requires Valid()
      modifies this
      ensures Valid()
      ensures state == AfterGenerate(old(state), t, override, ServiceGenerator(generate))
    {
      AfterGenerateFrame(state, t, override, ServiceGenerator(generate));
      var stylePrompt := BeginGenerate(t, override);
      if stylePrompt.None? {
        return;
      }
      ghost var loading := state.assets[t];
      var url := GenerateAsset(t, stylePrompt.value, state.userPrompt, ReferenceArgument(state.referenceImage), generate);
      UpdateTwice(old(state.assets), t, loading, Settle(loading, url));
      match url {
        case Ok(u) => GenerationSucceeded(t, u);
        case Err(message) => GenerationFailed(t, message);
      }
    }

    /** The fan-out of `startDesignProcess`: `handleGenerate` for each
        category, in enumeration order, each resolving before the next
        starts. */
    method GenerateEveryCategory(stylePrompt: string, generate: GenerationOracle)
      requires Valid() && stylePrompt != ""
      modifies this
      ensures Valid()
      ensures state == old(state).(assets := FanOut(old(state.assets), stylePrompt, old(state.userPrompt),
        old(state.referenceImage), ServiceGenerator(generate)))
    {
      for i := 0 to |AllAssetTypes|
        invariant Valid()
        invariant state == GenerateInTurn(old(state), AllAssetTypes[..i], stylePrompt, ServiceGenerator(generate))
      {
        assert AllAssetTypes[..i + 1][..i] == AllAssetTypes[..i];
        HandleGenerate(AllAssetTypes[i], Some(stylePrompt), generate);
      }
      assert AllAssetTypes[..|AllAssetTypes|] == AllAssetTypes;
      AllAssetTypesEnumerated();
      GenerateInTurnIsFanOut(old(state), AllAssetTypes, stylePrompt, ServiceGenerator(generate));
    }

    /** `startDesignProcess` with every request resolving in turn: analyse
        the reference image; on success store the analysis and generate the
        four categories with its style. */
    method StartDesignProcess(analyze: AnalysisOracle, generate: GenerationOracle)
      requires Valid()
      modifies this
      ensures Valid()
      ensures Truthy(old(state.referenceImage)) ==>
        state == AfterDesign(old(state), AnalyzeStyle(old(state.referenceImage.value), analyze), ServiceGenerator(generate))
      ensures !Truthy(old(state.referenceImage)) ==> state == old(state)
    {
      var image := BeginAnalysis();
      if image.None? {
        return;
      }
      var result := AnalyzeStyle(image.value, analyze);
      if result.Err? {
        AnalysisFailed();
        return;
      }
      AnalysisSucceeded(result.value);
      GenerateEveryCategory(result.value.prompt, generate);
    }
  }
}
