/** The selection state of App.tsx. Each `useState` hook becomes a field;
    each user action is a method that applies the setter it calls and then
    the effects React runs because of it (the template cascade and the
    outfit / hairstyle repair), so that a method returns the state the next
    render sees. */
module Session {
  import opened Types
  import opened Catalog
  import opened Options
  import opened CatalogFacts
  import PromptCompiler

  /** The arguments `handleGenerateClick` passes to `generateIdPhoto`. */
  datatype GenerateRequest = GenerateRequest(
    image: string,
    background: string,
    outfit: string,
    gender: Gender,
    hairstyle: string,
    aspectRatio: string,
    retouch: string,
    lighting: string,
    customPrompt: string)

  /** The strings `generateIdPhoto` receives for a request: the gender goes
      over as its name, every other selection as it was captured. */
  function Inputs(r: GenerateRequest): PromptCompiler.PromptInputs {
    PromptCompiler.PromptInputs(r.background, r.outfit, r.gender.Name(), r.hairstyle,
      r.aspectRatio, r.retouch, r.lighting, r.customPrompt)
  }

  /** How the awaited `generateIdPhoto` call ended: it resolved with the
      extracted image and text, or it threw (`message` is present when the
      thrown value is an `Error`). */
  datatype GenerateOutcome =
    | Returned(image: Option<string>, text: Option<string>)
    | Threw(message: Option<string>)

  const NO_IMAGE_ERROR := "Vui lòng tải ảnh lên trước."
  const REFUSED_ERROR := "Không thể tạo ảnh. Yêu cầu của bạn có thể đã bị AI từ chối."
  const UNEXPECTED_ERROR := "Đã xảy ra lỗi không mong muốn."
  const DEFAULT_CUSTOM_COLOR := "#4a90e2"

  class AppState {
    /** The catalogs of constants.ts (CATALOGS, fixed by the constructor). The
        invariant keeps of them only what the selection logic relies on. */
    const catalogs: Catalogs

    var uploadedImage: Option<string>
    var generatedImage: Option<string>
    var isLoading: bool
    var error: Option<string>

    var selectedCountryTemplate: CountryTemplate
    var selectedBackground: Background
    var selectedGender: GenderOption
    var selectedDocumentType: DocumentType
    var selectedLighting: LightingOption
    var selectedAspectRatio: AspectRatio
    var selectedRetouch: RetouchOption
    var customPrompt: string
    var customBackgroundColor: string

    var isAnalyzing: bool
    var analysisResult: Option<AnalysisResult>

    var selectedOutfit: Outfit
    var selectedHairstyle: Hairstyle

    /** `filteredOutfits` of the current render. */
    function OfferedOutfits(): seq<Outfit>
      reads this`selectedGender, this`selectedDocumentType
    {
      FilteredOutfits(catalogs.outfits, selectedGender, selectedDocumentType)
    }

    /** `filteredHairstyles` of the current render. */
    function OfferedHairstyles(): seq<Hairstyle>
      reads this`selectedGender
    {
      FilteredHairstyles(catalogs.hairstyles, selectedGender)
    }

    /** What every render sees once the effects have settled: each selection
        is a catalog entry (the outfit and hairstyle: an entry of the list
        offered for the selected gender), and a country template other than
        "custom" has forced its background and aspect ratio. */
    predicate Valid()
      reads this`selectedCountryTemplate, this`selectedBackground, this`selectedDocumentType
      reads this`selectedLighting, this`selectedAspectRatio, this`selectedRetouch
      reads this`selectedGender, this`selectedOutfit, this`selectedHairstyle
    {
      && ChoicesValid()
      && selectedGender in catalogs.genders
      && HasOutfitId(OfferedOutfits(), selectedOutfit.id)
      && HasHairstyleId(OfferedHairstyles(), selectedHairstyle.id)
    }

    /** The part of `Valid` that gender, outfit and hairstyle do not touch. */
    predicate ChoicesValid()
      reads this`selectedCountryTemplate, this`selectedBackground, this`selectedDocumentType
      reads this`selectedLighting, this`selectedAspectRatio, this`selectedRetouch
    {
      && WellFormed(catalogs)
      && selectedCountryTemplate in catalogs.templates
      && selectedBackground in catalogs.backgrounds
      && selectedDocumentType in catalogs.documentTypes
      && selectedLighting in catalogs.lightings
      && selectedAspectRatio in catalogs.aspectRatios
      && selectedRetouch in catalogs.retouches
      && (selectedCountryTemplate.id != "custom" ==>
            selectedBackground.id == selectedCountryTemplate.backgroundId
            && selectedAspectRatio.id == selectedCountryTemplate.aspectRatioId)
    }

    /** The initial `useState` values, for the catalogs `c` (the component is
        mounted with CATALOGS, which `CatalogsWellFormed` shows well formed):
        the first entry of each catalog, the second retouch option ("Nhẹ
        nhàng"), and the first entries of the offered lists. */
    constructor (c: Catalogs)
      requires WellFormed(c)
      ensures Valid() && catalogs == c
      ensures uploadedImage.None? && generatedImage.None? && error.None? && !isLoading
      ensures !isAnalyzing && analysisResult.None?
      ensures selectedCountryTemplate == c.templates[0] && selectedBackground == c.backgrounds[0]
      ensures selectedGender == c.genders[0] && selectedDocumentType == c.documentTypes[0]
      ensures selectedLighting == c.lightings[0] && selectedAspectRatio == c.aspectRatios[0]
      ensures selectedRetouch == c.retouches[1]
      ensures customPrompt == "" && customBackgroundColor == DEFAULT_CUSTOM_COLOR
      ensures selectedOutfit == FilteredOutfits(c.outfits, c.genders[0], c.documentTypes[0])[0]
      ensures selectedHairstyle == c.hairstyles[0]
    {
      catalogs := c;
      uploadedImage := None;
      generatedImage := None;
      isLoading := false;
      error := None;
      selectedCountryTemplate := c.templates[0];
      selectedBackground := c.backgrounds[0];
      selectedGender := c.genders[0];
      selectedDocumentType := c.documentTypes[0];
      selectedLighting := c.lightings[0];
      selectedAspectRatio := c.aspectRatios[0];
      selectedRetouch := c.retouches[1];
      customPrompt := "";
      customBackgroundColor := DEFAULT_CUSTOM_COLOR;
      isAnalyzing := false;
      analysisResult := None;
      FilteredOutfitsLength(c.outfits, c.genders[0], c.documentTypes[0]);
      selectedOutfit := FilteredOutfits(c.outfits, c.genders[0], c.documentTypes[0])[0];
      SentinelOffered(c.hairstyles, c.genders[0]);
      selectedHairstyle := FilteredHairstyles(c.hairstyles, c.genders[0])[0];
      new;
      assert HasOutfitId(OfferedOutfits(), selectedOutfit.id) by {
        assert OfferedOutfits()[0] == selectedOutfit;
      }
      assert HasHairstyleId(OfferedHairstyles(), selectedHairstyle.id);
    }

    /** The gender / outfit effect: an outfit or hairstyle whose id is no
        longer offered is replaced (the hairstyle by the "none" entry when it
        is offered). */
    method Repair()
      modifies this`selectedOutfit, this`selectedHairstyle
      ensures selectedOutfit == RepairedOutfit(old(selectedOutfit), OfferedOutfits())
      ensures selectedHairstyle == RepairedHairstyle(old(selectedHairstyle), OfferedHairstyles())
      ensures OfferedOutfits() != [] ==> HasOutfitId(OfferedOutfits(), selectedOutfit.id)
      ensures OfferedHairstyles() != [] ==> HasHairstyleId(OfferedHairstyles(), selectedHairstyle.id)
    {
      var outfits := OfferedOutfits();
      var hairstyles := OfferedHairstyles();
      var outfitValid := HasOutfitId(outfits, selectedOutfit.id);
      if !outfitValid && |outfits| > 0 {
        selectedOutfit := outfits[0];
      }
      var hairstyleValid := HasHairstyleId(hairstyles, selectedHairstyle.id);
      if !hairstyleValid && |hairstyles| > 0 {
        var none := Find((h: Hairstyle) => h.id == "none", hairstyles);
        selectedHairstyle := if none.Some? then none.value else hairstyles[0];
      }
    }

    /** With well-formed catalogs both offered lists are non-empty. */
    lemma Offered()
      requires WellFormed(catalogs) && selectedGender in catalogs.genders
      ensures OfferedOutfits() != [] && OfferedHairstyles() != []
    {
      FilteredOutfitsLength(catalogs.outfits, selectedGender, selectedDocumentType);
      SentinelOffered(catalogs.hairstyles, selectedGender);
    }

    /** Choosing a country template, followed by the template effect. */
    method SelectCountryTemplate(t: CountryTemplate)
      requires Valid() && t in catalogs.templates
      modifies this`selectedCountryTemplate, this`selectedBackground, this`selectedAspectRatio
      ensures Valid()
      ensures selectedCountryTemplate == t
      ensures selectedBackground == TemplateBackground(t, catalogs.backgrounds, old(selectedBackground))
      ensures selectedAspectRatio == TemplateAspectRatio(t, catalogs.aspectRatios, old(selectedAspectRatio))
      ensures t.id == "custom" ==>
        selectedBackground == old(selectedBackground) && selectedAspectRatio == old(selectedAspectRatio)
    {
      var background, aspectRatio := selectedBackground, selectedAspectRatio;
      if t.id != "custom" {
        var templateBg := Find((b: Background) => b.id == t.backgroundId, catalogs.backgrounds);
        var templateAr := Find((a: AspectRatio) => a.id == t.aspectRatioId, catalogs.aspectRatios);
        if templateBg.Some? {
          background := templateBg.value;
        }
        if templateAr.Some? {
          aspectRatio := templateAr.value;
        }
      }
      assert background == TemplateBackground(t, catalogs.backgrounds, selectedBackground);
      assert aspectRatio == TemplateAspectRatio(t, catalogs.aspectRatios, selectedAspectRatio);
      selectedCountryTemplate, selectedBackground, selectedAspectRatio := t, background, aspectRatio;
    }

    /** A background click; the selector is disabled unless the template is "custom". */
    method SelectBackground(b: Background)
      requires Valid() && b in catalogs.backgrounds
      modifies this`selectedBackground
      ensures Valid()
      ensures selectedBackground == if ManualSelectionEnabled(selectedCountryTemplate) then b else old(selectedBackground)
    {
      if ManualSelectionEnabled(selectedCountryTemplate) {
        selectedBackground := b;
      }
    }

    /** An aspect-ratio click; the selector is disabled unless the template is "custom". */
    method SelectAspectRatio(a: AspectRatio)
      requires Valid() && a in catalogs.aspectRatios
      modifies this`selectedAspectRatio
      ensures Valid()
      ensures selectedAspectRatio == if ManualSelectionEnabled(selectedCountryTemplate) then a else old(selectedAspectRatio)
    {
      if ManualSelectionEnabled(selectedCountryTemplate) {
        selectedAspectRatio := a;
      }
    }

    /** Choosing a gender, followed by the repair effect. */
    method SelectGender(g: GenderOption)
      requires Valid() && g in catalogs.genders
      modifies this`selectedGender, this`selectedOutfit, this`selectedHairstyle
      ensures Valid()
      ensures selectedGender == g
      ensures selectedOutfit == RepairedOutfit(old(selectedOutfit), FilteredOutfits(catalogs.outfits, g, selectedDocumentType))
      ensures selectedHairstyle == RepairedHairstyle(old(selectedHairstyle), FilteredHairstyles(catalogs.hairstyles, g))
    {
      selectedGender := g;
      Offered();
      Repair();
    }

    /** Choosing a document type, followed by the repair effect; the
        hairstyle list does not depend on it. */
    method SelectDocumentType(d: DocumentType)
      requires Valid() && d in catalogs.documentTypes
      modifies this`selectedDocumentType, this`selectedOutfit, this`selectedHairstyle
      ensures Valid()
      ensures selectedDocumentType == d
      ensures selectedOutfit == RepairedOutfit(old(selectedOutfit), FilteredOutfits(catalogs.outfits, selectedGender, d))
      ensures selectedHairstyle == old(selectedHairstyle)
    {
      selectedDocumentType := d;
      Offered();
      Repair();
    }

    /** Choosing one of the offered outfits; the repair effect leaves it in place. */
    method SelectOutfit(o: Outfit)
      requires Valid() && o in OfferedOutfits()
      modifies this`selectedOutfit
      ensures Valid()
      ensures selectedOutfit == o
    {
      selectedOutfit := o;
      var k :| 0 <= k < |OfferedOutfits()| && OfferedOutfits()[k] == o;
    }

    /** Choosing one of the offered hairstyles; the repair effect leaves it in place. */
    method SelectHairstyle(h: Hairstyle)
      requires Valid() && h in OfferedHairstyles()
      modifies this`selectedHairstyle
      ensures Valid()
      ensures selectedHairstyle == h
    {
      selectedHairstyle := h;
      var k :| 0 <= k < |OfferedHairstyles()| && OfferedHairstyles()[k] == h;
    }

    method SelectLighting(l: LightingOption)
      requires Valid() && l in catalogs.lightings
      modifies this`selectedLighting
      ensures Valid() && selectedLighting == l
    {
      selectedLighting := l;
    }

    method SelectRetouch(r: RetouchOption)
      requires Valid() && r in catalogs.retouches
      modifies this`selectedRetouch
      ensures Valid() && selectedRetouch == r
    {
      selectedRetouch := r;
    }

    method SetCustomPrompt(s: string)
      requires Valid()
      modifies this`customPrompt
      ensures Valid() && customPrompt == s
    {
      customPrompt := s;
    }

    method SetCustomBackgroundColor(c: string)
      requires Valid()
      modifies this`customBackgroundColor
      ensures Valid() && customBackgroundColor == c
    {
      customBackgroundColor := c;
    }

    /** A new photo, followed by the start of the analysis effect. */
    method Upload(image: string)
      requires Valid()
      modifies this`uploadedImage, this`isAnalyzing, this`analysisResult
      ensures Valid()
      ensures uploadedImage == Some(image) && isAnalyzing && analysisResult.None?
    {
      uploadedImage := Some(image);
      isAnalyzing := true;
      analysisResult := None;
    }

    /** The awaited `analyzeImage` call has ended: `outcome` is its result, or
        `None` when it threw. A detected gender is adopted only when some
        gender entry carries it, and the repair effect follows. */
    method AnalysisFinished(outcome: Option<AnalysisResult>)
      requires Valid()
      modifies this`analysisResult, this`isAnalyzing, this`selectedGender, this`selectedOutfit, this`selectedHairstyle
      ensures Valid()
      ensures !isAnalyzing
      ensures outcome.Some? ==> analysisResult == outcome
      ensures outcome.None? ==> analysisResult == old(analysisResult)
      ensures selectedGender == AdoptedGender(outcome, old(selectedGender))
      ensures selectedOutfit == RepairedOutfit(old(selectedOutfit), OfferedOutfits())
      ensures selectedHairstyle == RepairedHairstyle(old(selectedHairstyle), OfferedHairstyles())
    {
      AdoptGender(outcome);
      assert ChoicesValid();
      Offered();
      Repair();
    }

    /** The gender selected after an analysis outcome: the entry named by the
        detected gender when there is one, the current one otherwise. */
    function AdoptedGender(outcome: Option<AnalysisResult>, current: GenderOption): (g: GenderOption)
      ensures g != current ==>
        outcome.Some? && outcome.value.gender == Some(g.name) && g in catalogs.genders
      ensures outcome.Some? && outcome.value.gender.Some?
              && (exists e :: e in catalogs.genders && e.name == outcome.value.gender.value) ==>
        g in catalogs.genders && g.name == outcome.value.gender.value
    {
      if outcome.Some? && outcome.value.gender.Some? && FindGender(catalogs.genders, outcome.value.gender.value).Some?
      then FindGender(catalogs.genders, outcome.value.gender.value).value
      else current
    }

    /** The state updates of `performAnalysis` once `analyzeImage` has ended. */
    method AdoptGender(outcome: Option<AnalysisResult>)
      requires selectedGender in catalogs.genders
      modifies this`analysisResult, this`isAnalyzing, this`selectedGender
      ensures !isAnalyzing && selectedGender in catalogs.genders
      ensures outcome.Some? ==> analysisResult == outcome
      ensures outcome.None? ==> analysisResult == old(analysisResult)
      ensures selectedGender == AdoptedGender(outcome, old(selectedGender))
    {
      if outcome.Some? {
        var result := outcome.value;
        analysisResult := Some(result);
        if result.gender.Some? {
          var detected := FindGender(catalogs.genders, result.gender.value);
          if detected.Some? {
            selectedGender := detected.value;
          }
        }
      }
      isAnalyzing := false;
    }

    /** The `backgroundColor` argument: the custom colour for the "custom-color"
        entry, the entry's name otherwise. */
    function BackgroundArgument(): string
      reads this
    {
      if selectedBackground.id == "custom-color" then customBackgroundColor else selectedBackground.name
    }

    /** `isGenerateDisabled` */
    predicate GenerateDisabled()
      reads this
    {
      uploadedImage.None? || isLoading || isAnalyzing
    }

    /** The synchronous part of `handleGenerateClick`: without a photo it only
        sets the error; otherwise it starts loading and returns the request. */
    method BeginGenerate() returns (request: Option<GenerateRequest>)
      requires Valid()
      modifies this`isLoading, this`error, this`generatedImage
      ensures Valid()
      ensures old(uploadedImage).None? ==>
        request.None? && error == Some(NO_IMAGE_ERROR) && isLoading == old(isLoading)
        && generatedImage == old(generatedImage)
      ensures old(uploadedImage).Some? ==>
        request == Some(GenerateRequest(uploadedImage.value, BackgroundArgument(), selectedOutfit.name,
          selectedGender.name, selectedHairstyle.name, selectedAspectRatio.name, selectedRetouch.name,
          selectedLighting.name, customPrompt))
        && isLoading && error.None? && generatedImage.None?
      ensures !old(GenerateDisabled()) ==> request.Some?
      ensures request.Some? ==> GenerateDisabled()
    {
      if uploadedImage.None? {
        error := Some(NO_IMAGE_ERROR);
        return None;
      }
      isLoading := true;
      error := None;
      generatedImage := None;
      request := Some(GenerateRequest(uploadedImage.value, BackgroundArgument(), selectedOutfit.name,
        selectedGender.name, selectedHairstyle.name, selectedAspectRatio.name, selectedRetouch.name,
        selectedLighting.name, customPrompt));
    }

    /** The rest of `handleGenerateClick`, once the awaited call has ended. */
    method FinishGenerate(outcome: GenerateOutcome)
      requires Valid()
      modifies this`isLoading, this`error, this`generatedImage
      ensures Valid()
      ensures !isLoading
      ensures outcome.Returned? && Truthy(outcome.image) ==>
        generatedImage == outcome.image && error == old(error)
      ensures !(outcome.Returned? && Truthy(outcome.image)) ==> generatedImage == old(generatedImage)
      ensures outcome.Returned? && !Truthy(outcome.image) ==>
        error == Some(if Truthy(outcome.text) then outcome.text.value else REFUSED_ERROR)
      ensures outcome.Threw? ==>
        error == Some(if outcome.message.Some? then outcome.message.value else UNEXPECTED_ERROR)
      ensures !GenerateDisabled() <==> uploadedImage.Some? && !isAnalyzing
    {
      match outcome {
        case Returned(image, text) =>
          if Truthy(image) {
            generatedImage := image;
          } else {
            error := Some(if Truthy(text) then text.value else REFUSED_ERROR);
          }
        case Threw(message) =>
          error := Some(if message.Some? then message.value else UNEXPECTED_ERROR);
      }
      isLoading := false;
    }

    /** In a valid state the repair effect has nothing to do. */
    lemma Settled()
      requires Valid()
      ensures RepairedOutfit(selectedOutfit, OfferedOutfits()) == selectedOutfit
      ensures RepairedHairstyle(selectedHairstyle, OfferedHairstyles()) == selectedHairstyle
    {
    }

    /** No photo, no result, no error, no analysis. */
    predicate Cleared()
      reads this`uploadedImage, this`generatedImage, this`error, this`isLoading
      reads this`analysisResult, this`isAnalyzing
    {
      uploadedImage.None? && generatedImage.None? && error.None? && !isLoading
      && analysisResult.None? && !isAnalyzing
    }

    /** Every selection but the outfit and the hairstyle at its default. */
    predicate DefaultSelections()
      reads this`selectedCountryTemplate, this`selectedBackground, this`selectedGender
      reads this`selectedDocumentType, this`selectedLighting, this`selectedAspectRatio
      reads this`selectedRetouch, this`customPrompt
    {
      && WellFormed(catalogs)
      && selectedCountryTemplate == catalogs.templates[0] && selectedBackground == catalogs.backgrounds[0]
      && selectedGender == catalogs.genders[0] && selectedDocumentType == catalogs.documentTypes[0]
      && selectedLighting == catalogs.lightings[0] && selectedAspectRatio == catalogs.aspectRatios[0]
      && selectedRetouch == catalogs.retouches[1] && customPrompt == ""
    }

    /** `handleReset`. The effects it triggers change nothing: the template
        is "custom" again, and the state is valid, so the repair step has
        nothing to do (`Settled`). */
    method Reset()
      requires WellFormed(catalogs)
      modifies this`uploadedImage, this`generatedImage, this`error, this`isLoading
      modifies this`analysisResult, this`isAnalyzing
      modifies this`selectedCountryTemplate, this`selectedBackground, this`selectedGender
      modifies this`selectedDocumentType, this`selectedLighting, this`selectedOutfit
      modifies this`selectedHairstyle, this`selectedAspectRatio, this`selectedRetouch, this`customPrompt
      ensures Valid() && Cleared() && DefaultSelections()
      ensures FirstFemaleOutfit(catalogs.outfits).Some? && selectedOutfit == FirstFemaleOutfit(catalogs.outfits).value
      ensures selectedHairstyle == catalogs.hairstyles[0]
      ensures customBackgroundColor == old(customBackgroundColor)
    {
      ClearSession();
      RestoreSelections();
    }

    /** The first half of `handleReset`: photo, result, error and analysis cleared. */
    method ClearSession()
      modifies this`uploadedImage, this`generatedImage, this`error, this`isLoading
      modifies this`analysisResult, this`isAnalyzing
      ensures Cleared()
    {
      uploadedImage := None;
      generatedImage := None;
      error := None;
      isLoading := false;
      analysisResult := None;
      isAnalyzing := false;
    }

    /** The second half of `handleReset`: every selection back to its default. */
    method RestoreSelections()
      requires WellFormed(catalogs)
      modifies this`selectedCountryTemplate, this`selectedBackground, this`selectedGender
      modifies this`selectedDocumentType, this`selectedLighting, this`selectedOutfit
      modifies this`selectedHairstyle, this`selectedAspectRatio, this`selectedRetouch, this`customPrompt
      ensures DefaultSelections() && Valid()
      ensures FirstFemaleOutfit(catalogs.outfits).Some? && selectedOutfit == FirstFemaleOutfit(catalogs.outfits).value
      ensures selectedHairstyle == catalogs.hairstyles[0]
    {
      RestoreChoices();
      RestorePerson();
    }

    /** The template, background, document type, lighting, aspect ratio,
        retouch and custom prompt return to their defaults; the "custom"
        template forces nothing on the first two. */
    method RestoreChoices()
      requires WellFormed(catalogs)
      modifies this`selectedCountryTemplate, this`selectedBackground, this`selectedDocumentType
      modifies this`selectedLighting, this`selectedAspectRatio, this`selectedRetouch, this`customPrompt
      ensures ChoicesValid()
      ensures selectedCountryTemplate == catalogs.templates[0] && selectedBackground == catalogs.backgrounds[0]
      ensures selectedDocumentType == catalogs.documentTypes[0] && selectedLighting == catalogs.lightings[0]
      ensures selectedAspectRatio == catalogs.aspectRatios[0] && selectedRetouch == catalogs.retouches[1]
      ensures customPrompt == ""
    {
      assert catalogs.templates[0] in catalogs.templates && catalogs.backgrounds[0] in catalogs.backgrounds;
      assert catalogs.documentTypes[0] in catalogs.documentTypes;
      assert catalogs.lightings[0] in catalogs.lightings && catalogs.aspectRatios[0] in catalogs.aspectRatios;
      assert catalogs.retouches[1] in catalogs.retouches;
      selectedCountryTemplate := catalogs.templates[0];
      selectedBackground := catalogs.backgrounds[0];
      selectedDocumentType := catalogs.documentTypes[0];
      selectedLighting := catalogs.lightings[0];
      selectedAspectRatio := catalogs.aspectRatios[0];
      selectedRetouch := catalogs.retouches[1];
      customPrompt := "";
    }

    /** The gender returns to the first entry, the outfit to the first Nữ
        outfit and the hairstyle to the first entry; both are offered. */
    method RestorePerson()
      requires ChoicesValid() && selectedDocumentType == catalogs.documentTypes[0]
      modifies this`selectedGender, this`selectedOutfit, this`selectedHairstyle
      ensures Valid() && selectedGender == catalogs.genders[0]
      ensures FirstFemaleOutfit(catalogs.outfits).Some? && selectedOutfit == FirstFemaleOutfit(catalogs.outfits).value
      ensures selectedHairstyle == catalogs.hairstyles[0]
    {
      ResetChoicesOffered(catalogs);
      assert catalogs.genders[0] in catalogs.genders;
      selectedGender := catalogs.genders[0];
      var defaultFemaleOutfit := FirstFemaleOutfit(catalogs.outfits);
      if defaultFemaleOutfit.Some? {
        selectedOutfit := defaultFemaleOutfit.value;
      }
      selectedHairstyle := catalogs.hairstyles[0];
    }
  }

  /** Mounting the component: the catalogs of constants.ts are well formed,
      so the initial state is valid. */
  method Mount() returns (app: AppState)
    ensures fresh(app) && app.Valid() && app.catalogs == CATALOGS
    ensures app.selectedCountryTemplate.id == "custom" && app.selectedOutfit.id == "womens-blouse-white"
    ensures app.selectedHairstyle.id == "none"
  {
    CatalogsWellFormed();
    InitialOutfitAgrees();
    HairstyleSentinel(GENDERS[0]);
    app := new AppState(CATALOGS);
  }
}
