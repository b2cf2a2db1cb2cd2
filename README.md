# ID-photo maker: option resolution and prompt building

A Dafny model of the deterministic core of a small React application that
turns an uploaded portrait into an ID photo through a remote image model.
The model covers:

- the reference catalogs of `constants.ts` (backgrounds, outfits, genders,
  hairstyles, retouch levels, aspect ratios, country templates, document
  types, lighting) as constant sequences, with the well-formedness facts the
  rest of the app relies on (`catalog.dfy`, `catalog_facts.dfy`);
- the derived option views of `App.tsx`: the outfit list filtered by gender
  and ranked by document type, the gender-filtered hairstyle list, the
  country-template lookups and the choice the repair step makes (`options.dfy`);
- the session state of `App.tsx` as a class whose fields are the `useState`
  hooks and whose methods are the user actions, each followed by the effects
  React runs because of it (template cascade, outfit/hairstyle repair,
  adoption of the detected gender), plus the generate guard and reset
  (`session.dfy`);
- the prompt built by `generateIdPhoto` in `services/geminiService.ts`: the
  retouch switch, the growing edit list, the numbering, the join and the
  optional user request (`prompt.dfy`);
- the reply handling of the same file: the last-of-each-kind scan over the
  response parts, the `data:` URI and its `split(',')[1]` inverse
  (`response.dfy`), and the analysis-text clean-up with its fallback
  (`analysis.dfy`);
- shared string helpers: `join`, one-character `split`, decimal numbers
  (`strings.dfy`), and the value types of `types.ts` (`types.dfy`).

The remote model is replaced by inputs: the analysis reply text, the
generation reply parts, and `JSON.parse` as a partial decoder passed in as a
function. An asynchronous handler is split at its `await`: the part before
it (for example `BeginGenerate`, which returns the request it would send) and
the part after it (`FinishGenerate`, `AnalysisFinished`, which take the
outcome as a parameter).

The model follows the code on these points of detail:

- The hairstyle repair prefers the `'none'` entry and the outfit repair takes
  element 0; the repair runs whenever its inputs change, not only on gender
  or document-type changes.
- The generation scan keeps the LAST image part, not the first. Its text is
  the last part with non-empty text and NO inline data (`else if`), not the
  last text part of any kind.
- Reset sets the outfit to the first outfit tagged `'Nữ'`, not to element 0
  of a filtered list; `CatalogFacts.InitialOutfitAgrees` shows the two agree
  for the shipped catalogs.
- The outfit filter uses strict equality on the gender tag, so an untagged
  outfit is never offered.

## Model

| member | source | states |
|---|---|---|
| `Types.ParseGender` | services/geminiService.ts:78 | only the exact literals "Nữ" and "Nam" are read as a gender, and the gender read back names the same literal |
| `Strings.Join` | services/geminiService.ts:134 | definition of `join`; its properties are in the rows for `Split`, `PromptOpening` and `PromptClosing` |
| `Strings.Split` | services/geminiService.ts:11 | `split` on one character: at least one piece, no piece holds the separator, and joining the pieces with it gives back the input |
| `Strings.NatToString` | services/geminiService.ts:134 | the decimal form of the item number: non-empty, digits only, no leading zero, and its value is the number |
| `Options.DefaultTemplateKeeps` | App.tsx:67 | the default template is "custom", so the template effect after mounting or reset keeps whatever background and aspect ratio are selected |
| `Options.ManualSelectionEnabled` | App.tsx:234 | while the background and ratio selectors are enabled (template "custom"), the template effect never overrides a manual choice |
| `Options.FilteredOutfits` | App.tsx:37-53 | definition of `filteredOutfits`; its properties are in the rows for the `FilteredOutfits*` lemmas below |
| `Options.FilteredOutfitsGender` | App.tsx:38 | every offered outfit is tagged with exactly the selected gender and is a flagged copy of a catalog entry |
| `Options.FilteredOutfitsAll` | App.tsx:40-42 | for document type "all" the list is the gender list in catalog order with every flag false |
| `Options.FilteredOutfitsRanked` | App.tsx:44-52 | for any other document type each entry is flagged exactly when its document types contain the id, and every recommended entry precedes every other |
| `Options.FilteredOutfitsLength` | App.tsx:37-53 | the offered list is as long as the gender list |
| `Options.FilteredOutfitsPermutation` | App.tsx:44-52 | with flags cleared, the offered list is a permutation of the gender list |
| `Options.FilteredOutfitsStable` | App.tsx:44-52 | within each bucket the entries keep catalog order |
| `Options.TaggedOutfitOffered` | App.tsx:37-53 | every catalog outfit tagged with the gender is offered under its id, whatever the document type |
| `Options.FilteredHairstyles` | App.tsx:55 | definition of `filteredHairstyles`; its properties are in the rows for `FilteredHairstylesExact` and `SentinelOffered` |
| `Options.FilteredHairstylesExact` | App.tsx:55 | a hairstyle is offered exactly when it is untagged or tagged with the gender, in catalog order |
| `Options.SentinelOffered` | App.tsx:55 | an untagged first hairstyle heads every offered list |
| `Options.RepairedOutfit` | App.tsx:79-82 | a still-offered outfit is kept, otherwise element 0 of a non-empty list replaces it, and afterwards the outfit is offered |
| `Options.RepairedHairstyle` | App.tsx:83-86 | a still-offered hairstyle is kept, otherwise the offered "none" entry or else element 0 replaces it, and afterwards the hairstyle is offered |
| `Options.RepairIdempotent` | App.tsx:78-87 | repairing twice gives what repairing once gives |
| `Options.FemaleOutfitOffered` | App.tsx:169-170 | when some outfit is tagged Nữ, reset finds one and it is offered for Nữ under every document type |
| `Options.ResetChoicesOffered` | App.tsx:164-171 | the outfit and the hairstyle reset picks are offered for the default gender and document type |
| `Options.TemplateBackground` | App.tsx:66-72 | "custom" keeps the background; another template selects the catalog entry with its id when there is one and keeps the background otherwise |
| `Options.TemplateAspectRatio` | App.tsx:70-73 | the same for the aspect ratio |
| `Options.TemplateIdempotent` | App.tsx:66-75 | applying a template twice gives what applying it once gives, and a resolved template forces the same value whatever was selected before |
| `Options.FindGender` | App.tsx:102 | the gender found carries the detected name, and none is found exactly when no entry does |
| `Options.FirstFemaleOutfit` | App.tsx:169 | the outfit found is the FIRST catalog entry tagged Nữ (no earlier entry carries the tag), and none is found exactly when no entry is |
| `Options.Find` | App.tsx:69 | `find`: the first element satisfying the test, and none exactly when no element does |
| `Options.FilterMembership` | App.tsx:38 | `filter` keeps exactly the elements that pass the test |
| `CatalogFacts.TemplatesResolve` | constants.ts:73-78 | every template other than "custom" names a background and an aspect ratio that exist |
| `CatalogFacts.TemplateTargets` | constants.ts:75-77 | vn-cccd forces light-blue and 4x6, us-passport white and 2x2, schengen-visa light-gray and 3.5x4.5cm |
| `CatalogFacts.OutfitsTagged` | constants.ts:11-31 | every outfit carries a gender tag and no catalog entry carries the derived flag |
| `CatalogFacts.EveryGenderHasOutfits` | constants.ts:11-37 | each gender has outfits, so the offered outfit list is never empty |
| `CatalogFacts.CatalogsWellFormed` | constants.ts:3-91 | the catalogs meet everything the session relies on |
| `CatalogFacts.HairstyleSentinel` | constants.ts:40 | the first hairstyle is the untagged "none" / "Giữ nguyên" entry and heads every offered list |
| `CatalogFacts.UniqueIds` | constants.ts:3-91 | ids are unique within each catalog |
| `CatalogFacts.CompilerLiterals` | constants.ts:58-91 | the catalog names are the literals the prompt compiler compares against |
| `CatalogFacts.CatalogClauses` | services/geminiService.ts:105-120 | through those names each retouch entry selects its clause, and only the first hairstyle selects the keep form |
| `CatalogFacts.StudentOutfits` | constants.ts:13-20 | for Nữ and "student": blouse-white, blouse-blue, ao-dai-white recommended, then blazer-black, suit-gray, suit-navy, dress-black, turtleneck-black |
| `CatalogFacts.InitialOutfitAgrees` | App.tsx:57 | the first Nữ outfit (reset) is element 0 of the initial offered list (Nữ, "all") |
| `Session.AppState.constructor` | App.tsx:15-58 | the initial state is valid and holds the index-0 defaults, retouch index 1 and the first offered outfit and hairstyle |
| `Session.AppState.Repair` | App.tsx:78-87 | the outfit and hairstyle become their repaired values and belong to their offered lists |
| `Session.AppState.Offered` | App.tsx:80 | with well-formed catalogs both offered lists are non-empty |
| `Session.AppState.SelectCountryTemplate` | App.tsx:66-75 | the template is stored and forces background and aspect ratio; "custom" leaves them untouched; the state stays valid |
| `Session.AppState.SelectBackground` | App.tsx:234 | a background click takes effect only while the template is "custom" |
| `Session.AppState.SelectAspectRatio` | App.tsx:269 | an aspect-ratio click takes effect only while the template is "custom" |
| `Session.AppState.SelectGender` | App.tsx:279 | the gender is stored and the outfit and hairstyle are repaired for it |
| `Session.AppState.SelectDocumentType` | App.tsx:286 | the document type is stored, the outfit is repaired and the hairstyle kept |
| `Session.AppState.SelectOutfit` | App.tsx:293 | an offered outfit is stored and the state stays valid |
| `Session.AppState.SelectHairstyle` | App.tsx:308 | an offered hairstyle is stored and the state stays valid |
| `Session.AppState.SelectLighting` | App.tsx:323 | the lighting option is stored |
| `Session.AppState.SelectRetouch` | App.tsx:335 | the retouch option is stored |
| `Session.AppState.SetCustomPrompt` | App.tsx:376 | the custom prompt is stored |
| `Session.AppState.SetCustomBackgroundColor` | App.tsx:255 | the custom colour is stored |
| `Session.AppState.Upload` | App.tsx:90-97 | a new photo starts the analysis and clears the previous analysis result |
| `Session.AppState.AdoptedGender` | App.tsx:101-105 | the gender changes only to a catalog entry carrying the detected name, and does change when such an entry exists |
| `Session.AppState.AdoptGender` | App.tsx:98-111 | a finished analysis stores its result and adopts the detected gender; a thrown one keeps the old result; analysing stops |
| `Session.AppState.AnalysisFinished` | App.tsx:98-112 | the analysis outcome is adopted and the repair effect follows, keeping the state valid |
| `Session.AppState.BackgroundArgument` | App.tsx:128-130 | definition of the `backgroundColor` argument (the custom colour for "custom-color", the entry's name otherwise); the value `BeginGenerate` hands to the request |
| `Session.Inputs` | App.tsx:133-143 | definition of the strings a request hands to `generateIdPhoto`: the gender as its name, every other selection as captured |
| `Session.AppState.BeginGenerate` | App.tsx:118-143 | without a photo only the error "Vui lòng tải ảnh lên trước." is set and no request is made; otherwise loading starts, error and image clear and the request carries the selections; an enabled button always yields a request, and once a request is made the button is disabled, so the click cannot be repeated while it is pending |
| `Session.AppState.FinishGenerate` | App.tsx:144-154 | an image is stored; no image sets the error to the reply text or the refusal message; a throw sets the error message; loading stops, so the button is enabled again exactly when a photo is present and no analysis is pending |
| `Session.AppState.Settled` | App.tsx:78-87 | in a valid state the repair step changes nothing |
| `Session.AppState.ClearSession` | App.tsx:158-163 | photo, result, error, loading and analysis are cleared |
| `Session.AppState.RestoreSelections` | App.tsx:164-174 | every selection returns to its default, the outfit to the first Nữ outfit, and the state is valid |
| `Session.AppState.RestoreChoices` | App.tsx:164-174 | template, background, document type, lighting, ratio, retouch index 1 and an empty custom prompt are restored, consistently with the "custom" template |
| `Session.AppState.RestorePerson` | App.tsx:166-171 | gender index 0, the first Nữ outfit and hairstyle index 0 are restored, and both are offered |
| `Session.AppState.GenerateDisabled` | App.tsx:177 | definition of `isGenerateDisabled`; its properties are in the rows for `BeginGenerate` and `FinishGenerate` |
| `Session.Mount` | App.tsx:14-58 | mounting with the catalogs of constants.ts gives a valid state with template "custom", outfit womens-blouse-white and hairstyle "none" |
| `Session.AppState.Reset` | App.tsx:157-175 | reset clears the session, restores the defaults, keeps the custom colour, and leaves a valid state |
| `PromptCompiler.BackgroundClause` | services/geminiService.ts:118 | the background name appears verbatim after the clause head |
| `PromptCompiler.OutfitClause` | services/geminiService.ts:119 | the outfit and gender names appear verbatim at their places |
| `PromptCompiler.HairstyleClause` | services/geminiService.ts:120 | the keep form is chosen exactly for "Giữ nguyên"; any other name is asked for verbatim |
| `PromptCompiler.CroppingClause` | services/geminiService.ts:131 | the aspect-ratio name appears verbatim after the clause head |
| `PromptCompiler.RetouchClause` | services/geminiService.ts:105-115 | "Nhẹ nhàng" gives the gentle text, "Chuyên nghiệp" the professional one, and any other name no text |
| `PromptCompiler.EditList` | services/geminiService.ts:117-132 | background, outfit, hairstyle, lighting exactly when "Bật", retouch when non-empty, cropping, quality; length 5 to 7 |
| `PromptCompiler.Numbered` | services/geminiService.ts:134 | the i-th item is its edit prefixed with its number and ". ", counting from 1 |
| `PromptCompiler.Prompt` | services/geminiService.ts:134-147 | definition of the prompt text; its properties are in the rows for `PromptOpening`, `PromptClosing` and `CustomRequestLast` |
| `PromptCompiler.PromptOpening` | services/geminiService.ts:136-143 | every prompt opens with the preamble and its identity clause, then edits 1 to 3 |
| `PromptCompiler.PromptClosing` | services/geminiService.ts:131-147 | cropping and quality are the last two numbered edits, then the optional request |
| `PromptCompiler.CustomRequestLast` | services/geminiService.ts:145-147 | the user request ends the prompt exactly when the custom prompt is non-empty; otherwise the quality edit does |
| `PromptCompiler.CompilePrompt` | services/geminiService.ts:105-147 | the imperative prompt building yields the prompt of the selections |
| `GenerationResponse.DataUri` | services/geminiService.ts:170 | definition of the `data:` URI built from an inline-data part; its property is in the row for `DataUriRoundTrip` |
| `GenerationResponse.SecondField` | services/geminiService.ts:11 | definition of `split(',')[1]`; its property is in the row for `DataUriRoundTrip` |
| `GenerationResponse.ScannedParts` | services/geminiService.ts:166-167 | definition of the parts the scan walks: an empty list without candidates, and no list (the scan throws) when the first candidate lacks content or parts; its properties are in the row for `ExtractOutput` |
| `GenerationResponse.DataUriRoundTrip` | services/geminiService.ts:170 | splitting the data URI at ',' and taking field 1 gives the payload back when neither part has a comma |
| `GenerationResponse.ExtractOutput` | services/geminiService.ts:163-177 | without candidates both are absent; a first candidate with no content or no parts throws; otherwise the scan yields the last image and the last text of its parts |
| `GenerationResponse.LastImageIsLast` | services/geminiService.ts:168-170 | the image is the data URI of an inline-data part with none after it, absent exactly when no part has inline data |
| `GenerationResponse.LastTextIsLast` | services/geminiService.ts:171-173 | the text is that of a non-empty text-only part with none after it, absent exactly when there is no such part |
| `GenerationResponse.InterleavedParts` | services/geminiService.ts:163-177 | text A, image X, text B, image Y yield Y and B |
| `AnalysisParsing.TrimStart` | services/geminiService.ts:74 | removes exactly the leading white space |
| `AnalysisParsing.TrimEnd` | services/geminiService.ts:74 | removes exactly the trailing white space |
| `AnalysisParsing.Trim` | services/geminiService.ts:74 | the result neither starts nor ends with white space, and is empty exactly for all-space text |
| `AnalysisParsing.TrimExact` | services/geminiService.ts:74 | trimming returns the text between its surrounding white space |
| `AnalysisParsing.OpeningFenceLength` | services/geminiService.ts:76 | the opening match is the "```json" fence and all white space after it, and exists exactly when the text starts with that fence |
| `AnalysisParsing.StripClosingFence` | services/geminiService.ts:76 | text changes exactly when, trailing white space aside, it ends in a fence; then exactly that fence and the white space after it are removed |
| `AnalysisParsing.StripFenceOpeningOnly` | services/geminiService.ts:76 | a reply that opens a json fence but never closes it loses only the opening fence and its white space |
| `AnalysisParsing.StripFence` | services/geminiService.ts:76 | the cleaned text is the input after the opening match, less at most a suffix |
| `AnalysisParsing.StripFenceWrapped` | services/geminiService.ts:76 | a reply wrapped in a json fence loses the fences and their white space and nothing else |
| `AnalysisParsing.BareFenceKept` | services/geminiService.ts:76 | without the json tag nothing is removed from the front |
| `AnalysisParsing.UnfencedUnchanged` | services/geminiService.ts:76 | text fenced at neither end passes unchanged |
| `AnalysisParsing.AnalyzeResponse` | services/geminiService.ts:73-89 | a missing text or a decode failure gives the fixed fallback; otherwise the feedback is kept and the gender kept exactly when it is "Nam" or "Nữ" |

## Left out

- The remote Gemini calls and the client built from the API key: the reply
  text and the reply parts are inputs of the model.
- Reading the uploaded file with `FileReader` into a data URL: browser I/O;
  only the `split(',')[1]` step is modelled (`Strings.Split`).
- `JSON.parse` and the response schema: the decoder is a function parameter
  (`AnalysisParsing.AnalyzeResponse`); a decoded value that is not an object,
  or lacks a `feedback` array, is folded into the decoder's failure case.
  The source does not fail on those: `JSON.parse('42')`, `'"x"'` or
  `'{"gender":"Nam"}'` reaches `return parsed` (services/geminiService.ts:78-82)
  without throwing, and App.tsx:100-104 stores that value and still adopts its
  gender, where the model returns `FALLBACK` and keeps the selected gender.
- The natural-language texts of the analysis prompt and of the edit clauses
  are constants; what they mean cannot be stated, only their presence, order
  and numbering.
- The asynchronous effect lifecycle and the stale-analysis race: each
  handler is modelled as the synchronous update applied when its awaited call
  ends, in the order the caller chooses.
- Session.AppState.SelectBackground, Session.AppState.SelectAspectRatio:
  the source disables the selector rather than ignoring the click; the model
  ignores the click, which is what a disabled selector amounts to.
- Session.AppState.SelectOutfit, Session.AppState.SelectHairstyle: require the
  choice to be one of the offered entries, since the selector only shows
  those; the repair step that would replace anything else is `Repair`.
- A TypeError thrown by the part scan (`GenerationResponse.ExtractOutput`
  returning `ScanThrew`) reaches `Session.AppState.FinishGenerate` as a
  `Threw` outcome carrying its message; the two are connected by the caller,
  not by a lemma.
- The image preview URL, `console.error`, all rendering and the
  presentational components (result slider, download canvas, drag and drop,
  option selectors, collapsible sections, header, feedback display).
- Strings are sequences of characters; the Vietnamese names are compared as
  written, with no Unicode normalisation.
