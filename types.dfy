/** The value shapes of the ID-photo app (types.ts). Optional TypeScript
    properties (`gender?`, `documentTypes?`, `isRecommended?`) become `Option`. */
module Types {

  datatype Option<+T> = None | Some(value: T)

  /** JavaScript truthiness of an optional string: null and "" are falsy. */
  predicate Truthy(s: Option<string>) {
    s.Some? && s.value != ""
  }

  /** `type Gender = 'Nữ' | 'Nam'` */
  datatype Gender = Female | Male {
    /** The literal the source uses for this gender. */
    function Name(): (s: string)
      ensures s == "Nữ" || s == "Nam"
    {
      match this
      case Female => "Nữ"
      case Male => "Nam"
    }
  }

  /** Reads a string as a `Gender`: only the two exact literals are accepted. */
  function ParseGender(s: string): (r: Option<Gender>)
    ensures r.Some? ==> r.value.Name() == s
    ensures r.None? ==> s != "Nữ" && s != "Nam"
  {
    if s == "Nữ" then Some(Female)
    else if s == "Nam" then Some(Male)
    else None
  }

  datatype Background = Background(id: string, name: string, tailwindColor: string)

  datatype Outfit = Outfit(
    id: string,
    name: string,
    previewUrl: string,
    gender: Option<Gender>,
    documentTypes: Option<seq<string>>,
    isRecommended: Option<bool>)

  datatype Hairstyle = Hairstyle(id: string, name: string, previewUrl: string, gender: Option<Gender>)

  datatype RetouchOption = RetouchOption(id: string, name: string, description: string)

  datatype AspectRatio = AspectRatio(id: string, name: string)

  /** Empty `backgroundId` / `aspectRatioId` mark the "custom" template. */
  datatype CountryTemplate = CountryTemplate(id: string, name: string, backgroundId: string, aspectRatioId: string)

  datatype GenderOption = GenderOption(id: Gender, name: Gender)

  datatype DocumentType = DocumentType(id: string, name: string)

  datatype LightingOption = LightingOption(id: string, name: string)

  datatype FeedbackItem = FeedbackItem(isGood: bool, message: string)

  datatype AnalysisResult = AnalysisResult(feedback: seq<FeedbackItem>, gender: Option<Gender>)
}
