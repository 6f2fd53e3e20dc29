# AI-jingtai design studio — a Dafny model

AI-jingtai turns one reference image into a set of four matching social-app
assets: an avatar frame, an entrance-show banner, a medal and a phone
wallpaper. The page asks Gemini to describe the image's style. It then sends
one image-generation request per category, combining that style text, the
user's own note and the category's prompt template. Each category has a slot
that is idle, loading, successful (holding a PNG data URI) or failed
(holding an error message).

The model has five modules:

- `Wrappers` (`wrappers.dfy`): `Option` and `Result`.
- `Text` (`text.dfy`): string and array operations over Dafny sequences.
  The service itself uses `split` with a one-character separator and
  `Array.prototype.slice(0, n)` on the resulting pieces (`Take`). `join`,
  `indexOf` and substring containment are defined only to state properties:
  `join` as the inverse of `split`, containment for the prompts.
- `Types` (`types.ts` → `types.dfy`): the category enumeration, the slot
  record, the style analysis and the page state.
- `GeminiService` (`services/geminiService.ts` → `gemini_service.dfy`):
  - how the analysis request is built and its answer post-processed:
    data-URI payload, fallback style, ten keywords;
  - the per-category template and aspect ratio, as an imperative `match`;
  - the parts list, with the reference image put in front of the text;
  - the loop that finds the first image in the response, and the no-image
    error.

  The two SDK calls are function parameters (oracles). Each maps the exact
  request sent to either the response or the thrown message.
- `Gallery` (`App.tsx` → `gallery.dfy`): the page's state machine, with one
  pure function per state transition and a class `App`. `App` holds the
  state and has one method per event handler. `StartDesignProcess` and
  `HandleGenerate` run their asynchronous steps one after the other, and
  each is proved equal to a pure description of its end state
  (`AfterDesign`, `AfterGenerate`).

  Between the page and the service sits an `AssetGenerator`: what the page
  sees of `generateAsset`, a call that resolves with a URL or rejects with
  a message. `ServiceGenerator(generate)` is the service's own generator
  over the image-model oracle `generate`.

A natural invariant would be that a slot's image is non-empty exactly when
its status is success, and its error message present exactly when its
status is error. The code does not keep it, and the model follows the code:

- A retry (App.tsx:73) and a failure (App.tsx:91) keep the previous image.
- A success (App.tsx:83) does not clear an error message left behind.

`RetryKeepsPreviousImage` and `LateSuccessKeepsError` state both divergences.
The invariant the code does keep is `SlotInvariant`:

- an idle slot has neither image nor error;
- a loading slot has no error;
- a failed slot has an error.

## Model

| member | source | states |
|---|---|---|
| Types.AllAssetTypesEnumerated | types.ts:7-12 | There are exactly four categories, all distinct, and every category value occurs in the enumeration order that `Object.values(AssetType)` yields. |
| Types.AssetTypeValueInjective | types.ts:7-12 | Different categories have different string values (each value is the variant's own name). |
| Types.FourKeysAreTotal | types.ts:26 | A map holding the four category keys is total: the slot record is a `Record<AssetType, …>` with no missing key. |
| Text.Split | services/geminiService.ts:33 | `split(sep)` yields at least one piece, and no piece contains the separator. |
| Text.JoinSplit | services/geminiService.ts:33 | Joining the pieces of `split(sep)` with `sep` gives back the original string. |
| Text.SplitJoin | services/geminiService.ts:33 | Splitting a join of separator-free pieces gives back the pieces. |
| Text.Take | services/geminiService.ts:33 | `slice(0, n)` is a prefix of length `min(n, length)`. |
| GeminiService.DataPayloadBetweenCommas | services/geminiService.ts:12 | `image.split(',')[1]` is defined exactly when the image has a comma. It is then the text from just after the first comma to the next comma or the end, and it holds no comma. |
| GeminiService.DataPayloadOfPngDataUri | services/geminiService.ts:107 | Given a reference image in the generator's own output format (`data:image/png;base64,` + comma-free data), the payload sent is exactly that data. |
| GeminiService.Keywords | services/geminiService.ts:33 | The keywords number at most ten and are a prefix of the text's split on spaces. They are all of the pieces when there are fewer than ten. |
| GeminiService.StyleFromText | services/geminiService.ts:30-34 | The analysed prompt is never empty: it is the response text when that is non-empty and the fixed fallback style otherwise. The keywords are taken from that prompt. |
| GeminiService.KeywordsStartThePrompt | services/geminiService.ts:33 | Joined with spaces, the keywords are a prefix of the prompt, and the whole prompt when it has at most ten words. |
| GeminiService.AnalyzeStyle | services/geminiService.ts:7-35 | The analysis call sends the image payload and the fixed instruction. Its failure is passed on unchanged. Its success gives the text-derived analysis, with a non-empty prompt and at most ten keywords. |
| GeminiService.CombinedContext | services/geminiService.ts:48 | The combined context contains both the style summary and the user's note. |
| GeminiService.PromptCarriesStyleAndNote | services/geminiService.ts:50-99 | For every category the prompt opens with that category's template head, and contains the style summary and the user's note. |
| GeminiService.AspectRatioByCategory | services/geminiService.ts:50-99 | The avatar frame and medal are requested at 1:1, the entrance show at 16:9 and the wallpaper at 9:16, and no other category gets those ratios. |
| GeminiService.SelectTemplate | services/geminiService.ts:45-99 | The switch assigns the category's template with the context interpolated and the category's aspect ratio; the prompt contains the context. |
| GeminiService.AssembleParts | services/geminiService.ts:101-110 | With a non-empty reference image the parts are exactly the image part then the text part; otherwise they are the text part alone. |
| GeminiService.FirstInlineDataIsEarliest | services/geminiService.ts:123-128 | The image found belongs to the earliest part that carries inline data. Nothing is found exactly when no part carries any. |
| GeminiService.LaterPartsIgnored | services/geminiService.ts:123-128 | Parts after the first image-bearing part do not affect the result. |
| GeminiService.ImagelessPartsSkipped | services/geminiService.ts:123-128 | Any number of imageless parts ahead of the rest do not affect the result. |
| GeminiService.ScanForImage | services/geminiService.ts:122-128 | The loop yields the PNG data URI of the first image-bearing part, or the empty string when no part has one. |
| GeminiService.GenerateAsset | services/geminiService.ts:37-132 | `generateAsset` sends the category's request. It passes a failed call's error through unchanged and rejects with the no-image message when no image comes back; otherwise it returns a URL with the PNG data-URI prefix. |
| Gallery.InitialAssets | App.tsx:20-25 | Initially every category has a slot with its fixed id, an empty image, status idle and no error. |
| Gallery.SlotUpdatesKeepInvariant | App.tsx:69-93 | The loading, success and failure updates keep a slot's id and category and its slot invariant. |
| Gallery.RetryKeepsPreviousImage | App.tsx:73 | A retry of a successful slot shows it loading with the old image still in place. |
| Gallery.LateSuccessKeepsError | App.tsx:83 | A success landing on a failed slot keeps the failure's message. |
| Gallery.ResolveStylePrompt | App.tsx:66-67 | A non-empty override wins; otherwise a non-empty analysed prompt is used. Nothing is usable exactly when the override is empty or absent and there is no non-empty analysed prompt. |
| Gallery.AnalysedStyleEnablesGeneration | App.tsx:53-57 | After a successful analysis, a request without override goes ahead with the analysed prompt. |
| Gallery.ReferenceArgument | App.tsx:78 | `state.referenceImage \|\| undefined` passes the image on exactly when it is non-empty. |
| Gallery.DownloadFileName | App.tsx:238 | The download is named `design-` + the category's value + `.png` (the extension is added at App.tsx:100). |
| Gallery.DownloadFileNamesDistinct | App.tsx:238 | Different categories download under different file names. |
| Gallery.AssetLabelsDistinct | App.tsx:106-113 | Each category has its own display label. |
| Gallery.ServiceGeneratorOutcome | services/geminiService.ts:122-131 | What the page receives from the service is a PNG data URI, or either the image model's own error or the no-image message. |
| Gallery.GeneratedSlotSettles | App.tsx:77-94 | After a request resolves, the slot is successful with the returned image and no error, or failed with the rejection's message and its previous image. Its id and category are unchanged. |
| Gallery.DownloadOfferedAfterSuccess | App.tsx:236-238 | Download is offered for a generated slot exactly when its request resolved with an image, and it downloads that image. |
| Gallery.EnabledRetryGoesAhead | App.tsx:245-247 | With an analysis from the service, the retry button is enabled exactly when the slot is not loading, and a retry then always sends a request using the analysed prompt. |
| Gallery.FanOut | App.tsx:56-58 | The fan-out touches exactly the slots that exist: it neither adds nor drops a category. |
| Gallery.FanOutWithOneFailure | App.tsx:56-58 | A fan-out through the service where one category's request is rejected and the others resolve ends with that slot in error, holding the rejection's message and its previous image, and every other slot successful with a PNG data URI. |
| Gallery.AfterGenerateFrame | App.tsx:65-95 | A generate or retry changes only its own category's slot and no other state field, changes nothing without a usable style, and keeps the state well formed. |
| Gallery.FanOutSettles | App.tsx:56-58 | After the fan-out the state is well formed and every slot is successful or failed, none idle or loading. |
| Gallery.GenerateInTurn | App.tsx:56-58 | Running the generations one after another keeps all four slots present. |
| Gallery.DistinctInit | App.tsx:56 | Dropping the last of distinct categories leaves distinct categories that no longer contain it. |
| Gallery.GenerateInTurnSlots | App.tsx:56-58 | After distinct categories are generated one after another, in any order, exactly those slots hold their generated value, computed from the slot, note and image they started with. The other slots and fields are unchanged. |
| Gallery.GenerateInTurnIsFanOut | App.tsx:56-58 | Generating every category one after another, in any order, equals generating each from the common starting state. |
| Gallery.ApplyEvents | App.tsx:56-58 | Any sequence of request starts and resolutions keeps all four slots present. |
| Gallery.ApplyEventsSlots | App.tsx:65-95 | Under any interleaving in which each request starts at most once and resolves at most once after it started, each slot is untouched before its request starts, loading while it is in flight and generated once it resolved; nothing but the slots changes. |
| Gallery.WellOrderedInit | App.tsx:65-95 | A prefix of such an interleaving is one too; its last event is new, a start precedes any resolution of its category, and a resolution follows its start. |
| Gallery.ConcurrentFanOut | App.tsx:56-58 | However the four concurrent requests interleave, once every one has resolved the gallery equals the fan-out: neither the order of sending nor the order of resolution matters. |
| Gallery.AfterDesignSettles | App.tsx:47-63 | The design process keeps the state well formed. Without a reference image or after a failed analysis every slot is untouched; after a successful analysis every slot is successful or failed. |
| Gallery.DesignButtonDuringAnalysis | App.tsx:137-140 | With a reference image the design button is disabled while the analysis runs, so no second analysis starts, and enabled again after either resolution. |
| Gallery.ErrorPanelRetry | App.tsx:278-283 | The regenerate button of a failed slot is never disabled: without an analysis pressing it changes nothing, and with one it regenerates only that slot with the analysed style. |
| Gallery.App.constructor | App.tsx:28-34 | The page starts with no image, an empty note, no analysis, the initial slots and the analysis flag down. |
| Gallery.App.UploadReference | App.tsx:41 | An upload stores the data URL as the reference image and changes nothing else. |
| Gallery.App.EditUserPrompt | App.tsx:190 | Editing the note replaces it and changes nothing else. |
| Gallery.App.BeginAnalysis | App.tsx:48-50 | Without a non-empty reference image nothing happens. Otherwise only the analysis flag is raised, which disables the design button, and that image is the one analysed. |
| Gallery.App.AnalysisSucceeded | App.tsx:53 | A resolved analysis is stored and the flag lowered; nothing else changes, and the design button is offered again exactly when there is a reference image. |
| Gallery.App.AnalysisFailed | App.tsx:59-62 | A rejected analysis only lowers the flag, offering the design button again exactly when there is a reference image. |
| Gallery.App.BeginGenerate | App.tsx:66-75 | Without a usable style nothing changes. Otherwise only the target slot changes: it becomes loading with its error cleared and its image kept. The resolved style is returned. |
| Gallery.App.GenerationSucceeded | App.tsx:79-85 | Only the target slot changes: it takes the URL and becomes successful. |
| Gallery.App.GenerationFailed | App.tsx:86-93 | Only the target slot changes: it becomes failed with the message and keeps its image. |
| Gallery.App.HandleGenerate | App.tsx:65-95 | A generate or retry that resolves before any other event leaves exactly the state `AfterGenerate` describes, and keeps the page well formed. |
| Gallery.App.GenerateEveryCategory | App.tsx:56-58 | Issuing a generate for every category in turn with the analysed prompt replaces the slots by their fan-out and changes nothing else. |
| Gallery.App.StartDesignProcess | App.tsx:47-63 | Without a reference image nothing changes. Otherwise the state becomes `AfterDesign` of the service's analysis: after a failure only the flag is lowered; after a success the analysis is stored, the flag lowered and all four categories generated with the analysed prompt. |

## Left out

- The Gemini SDK, `getAI` and `process.env.API_KEY`: each call is an oracle parameter from the exact request to a result or an error message. Authentication failures are among the oracle's errors.
- Concurrency: each `await` is a separate event, and `HandleGenerate` and `StartDesignProcess` run their events in sequence.
  - The interleavings of the fan-out's own four requests are analysed as event sequences (`ConcurrentFanOut`). Other interleavings (a stale response landing after a retry, a note edited while a generation is in flight) can be written as sequences of the event methods (`BeginGenerate`, `GenerationSucceeded`, `GenerationFailed`) but are not analysed beyond `LateSuccessKeepsError`.
  - A second design trigger is excluded by the page's disabled button (`DesignOffered`), not by `startDesignProcess` itself; the methods model the handler, which does not check the flag.
- Closure staleness: `handleGenerate` reads the note, the image and the analysis from the render that created it. The model reads the current state instead. Under sequential resolution none of those fields change during a fan-out, so the two agree. `startDesignProcess` works around the stale analysis with the override, as the model does.
- `err.message` for a thrown value that is not an `Error` (it would be `undefined`): every rejection carries a message string.
- `console.error` logging, the `FileReader` upload (modelled only as the `UploadReference` event with the resulting data URL), and the DOM anchor-click download. Of the download only the file name is modelled.
- React rendering, the icons (`getAssetIcon`), the per-category subtitle texts and the styling: display only.
- The prompt templates and the analysis instruction are kept verbatim as constants. Only containment of the context and the aspect-ratio choice are proved about them.
- The image response's own `mimeType` is ignored, as in the code: every image is labelled PNG.
