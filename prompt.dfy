/** The prompt that `generateIdPhoto` (services/geminiService.ts) sends with
    the photo: a fixed preamble, then a numbered list of edits built from the
    eight user selections, then an optional free-text request. The clause
    texts are kept as constants; only their presence, order and numbering,
    and the verbatim insertion of the selections, are stated. */
module PromptCompiler {
  import opened Strings


  /** The selection names `generateIdPhoto` receives, in its parameter order. */
  datatype PromptInputs = PromptInputs(
    background: string,
    outfit: string,
    gender: string,
    hairstyle: string,
    aspectRatio: string,
    retouch: string,
    lighting: string,
    customPrompt: string)

  // ---------------------------------------------------------------------
  // Fixed clause texts

  const INTRO := "Please edit the user's photo to make it a professional, high-quality ID photo suitable for official documents."
  const IDENTITY_CLAUSE := "**CRUCIAL INSTRUCTION: You MUST NOT alter the person's facial features, identity, or expression.** The primary goal is to preserve the exact likeness of the individual from the original photo. Any changes to the facial structure, eyes, nose, mouth, or skin tone are strictly forbidden. The person in the output image must be perfectly recognizable as the same person in the input image. This is the most important rule."
  const APPLY_LINE := "Apply the following edits based on the user's selections, while strictly adhering to the crucial instruction above:"

  const BACKGROUND_HEAD := "**Background:** Completely replace the current background with a solid, even '"
  const BACKGROUND_TAIL := "' color."
  const OUTFIT_HEAD := "**Outfit:** Dress the person in a '"
  const OUTFIT_MID := "'. The outfit should look natural, fit the person's posture, and be appropriate for their specified gender: '"
  const OUTFIT_TAIL := "'."
  const HAIRSTYLE_HEAD := "**Hairstyle:** "
  const HAIRSTYLE_CHANGE_HEAD := "Change the person's hairstyle to '"
  const HAIRSTYLE_CHANGE_TAIL := "'."
  const HAIRSTYLE_KEPT := "Maintain the original hairstyle."
  const HAIRSTYLE_TAIL := " The new hairstyle must look realistic and suit their face."
  const LIGHTING_CLAUSE := "**Lighting Adjustment (Studio Quality):** Simulate professional studio lighting on the person's face. The lighting must be soft and even. **Eliminate any harsh shadows, especially under the nose, chin, and around the eyes.** Ensure there are no hotspots or blown-out highlights on the skin. The goal is to create a balanced, well-lit portrait where facial features are clear and distinct."
  const RETOUCH_GENTLE := "**Skin Retouching (Gentle):** Perform gentle skin retouching. Smooth out minor blemishes, spots, or redness. Even out the skin tone slightly but you MUST preserve the natural skin texture. **Crucially, maintain the original skin tone and color; do not make it warmer or otherwise alter its hue.** The result should look natural, not overly airbrushed or fake."
  const RETOUCH_PROFESSIONAL := "**Skin Retouching (Professional):** Apply professional-level skin retouching. Smooth the skin and even out the skin tone. **It is absolutely essential to maintain the original skin tone and color palette of the person. Do not make the skin tone warmer, cooler, or change its hue in any way.** Perform subtle dodging and burning to enhance facial contours (cheeks, nose, jawline) and add dimension, making the face look more defined. It is CRITICAL that you preserve essential details like skin texture for a realistic yet polished and high-end look."
  const CROPPING_HEAD := "**Cropping & Aspect Ratio:** The final image must be a front-facing portrait, focusing on the head and shoulders. Crop the photo to a standard ID photo aspect ratio of '"
  const CROPPING_TAIL := "'. If 'Ảnh gốc' (Original) is selected, maintain the original aspect ratio but still apply all other edits."
  const QUALITY_CLAUSE := "**Quality:** The final image must be of the highest possible resolution and quality, free from any digital noise or compression artifacts. Aim for a professional, sharp, and clear result suitable for printing. Do not add any text, watermarks, or other artifacts."
  /** The option names the compiler compares against. */
  const KEEP_HAIRSTYLE := "Giữ nguyên"
  const LIGHTING_ON := "Bật"
  const RETOUCH_GENTLE_NAME := "Nhẹ nhàng"
  const RETOUCH_PROFESSIONAL_NAME := "Chuyên nghiệp"

  const SEPARATOR := "\n\n"
  const REQUEST_HEAD := "\n**Additional User Request:** "
  const REQUEST_TAIL := "\nThis is a high-priority instruction from the user that you must follow carefully."

  // ---------------------------------------------------------------------
  // Clauses with interpolated selections

  function BackgroundClause(background: string): (r: string)
    ensures Occurs(background, r, |BACKGROUND_HEAD|)
  {
    BACKGROUND_HEAD + background + BACKGROUND_TAIL
  }

  function OutfitClause(outfit: string, gender: string): (r: string)
    ensures Occurs(outfit, r, |OUTFIT_HEAD|)
    ensures Occurs(gender, r, |OUTFIT_HEAD| + |outfit| + |OUTFIT_MID|)
  {
    OUTFIT_HEAD + outfit + OUTFIT_MID + gender + OUTFIT_TAIL
  }

  /** The hairstyle edit that keeps the original hairstyle. */
  function KeptHairstyleClause(): string {
    HAIRSTYLE_HEAD + HAIRSTYLE_KEPT + HAIRSTYLE_TAIL
  }

  /** The keep form is chosen exactly for the "Giữ nguyên" entry; any other
      name is asked for by name. */
  function HairstyleClause(hairstyle: string): (r: string)
    ensures r == KeptHairstyleClause() <==> hairstyle == KEEP_HAIRSTYLE
    ensures hairstyle != KEEP_HAIRSTYLE ==>
              Occurs(HAIRSTYLE_CHANGE_HEAD + hairstyle + HAIRSTYLE_CHANGE_TAIL, r, |HAIRSTYLE_HEAD|)
  {
    var choice := if hairstyle != KEEP_HAIRSTYLE
      then HAIRSTYLE_CHANGE_HEAD + hairstyle + HAIRSTYLE_CHANGE_TAIL
      else HAIRSTYLE_KEPT;
    assert choice[0] == 'C' <==> hairstyle != KEEP_HAIRSTYLE;
    var r := HAIRSTYLE_HEAD + choice + HAIRSTYLE_TAIL;
    assert r[|HAIRSTYLE_HEAD|] == choice[0];
    r
  }

  function CroppingClause(aspectRatio: string): (r: string)
    ensures Occurs(aspectRatio, r, |CROPPING_HEAD|)
  {
    CROPPING_HEAD + aspectRatio + CROPPING_TAIL
  }

  /** The `retouch` switch: the gentle and the professional texts for their
      two names, and no text for anything else ("Không" included). */
  function RetouchClause(retouch: string): (r: string)
    ensures r == RETOUCH_GENTLE <==> retouch == RETOUCH_GENTLE_NAME
    ensures r == RETOUCH_PROFESSIONAL <==> retouch == RETOUCH_PROFESSIONAL_NAME
    ensures r == "" <==> retouch != RETOUCH_GENTLE_NAME && retouch != RETOUCH_PROFESSIONAL_NAME
  {
    if retouch == RETOUCH_GENTLE_NAME then RETOUCH_GENTLE
    else if retouch == RETOUCH_PROFESSIONAL_NAME then RETOUCH_PROFESSIONAL
    else ""
  }

  // ---------------------------------------------------------------------
  // The edit list

  /** The edits in the order the source pushes them. */
  function EditList(s: PromptInputs): (edits: seq<string>)
    ensures |edits| == 5 + (if s.lighting == LIGHTING_ON then 1 else 0)
                         + (if RetouchClause(s.retouch) != "" then 1 else 0)
    ensures 5 <= |edits| <= 7
    ensures edits[0] == BackgroundClause(s.background)
    ensures edits[1] == OutfitClause(s.outfit, s.gender)
    ensures edits[2] == HairstyleClause(s.hairstyle)
    ensures edits[3] == LIGHTING_CLAUSE <==> s.lighting == LIGHTING_ON
    ensures RetouchClause(s.retouch) != "" ==> edits[|edits| - 3] == RetouchClause(s.retouch)
    ensures edits[|edits| - 2] == CroppingClause(s.aspectRatio)
    ensures edits[|edits| - 1] == QUALITY_CLAUSE
  {
    var lit := if s.lighting == LIGHTING_ON then [LIGHTING_CLAUSE] else [];
    var touch := if RetouchClause(s.retouch) != "" then [RetouchClause(s.retouch)] else [];
    var edits := [BackgroundClause(s.background), OutfitClause(s.outfit, s.gender), HairstyleClause(s.hairstyle)]
      + lit + touch + [CroppingClause(s.aspectRatio), QUALITY_CLAUSE];
    assert edits[3] == (lit + touch + [CroppingClause(s.aspectRatio)])[0];
    edits
  }

  /** One numbered edit, `${number}. ${edit}`. */
  function Item(number: nat, edit: string): string {
    NatToString(number) + ". " + edit
  }

  /** `edits.map((edit, index) => `${index + 1}. ${edit}`)`, numbering from `first`. */
  function Numbered(edits: seq<string>, first: nat): (r: seq<string>)
    ensures |r| == |edits|
    ensures forall i :: 0 <= i < |edits| ==> r[i] == Item(first + i, edits[i])
  {
    if edits == [] then []
    else [Item(first, edits[0])] + Numbered(edits[1..], first + 1)
  }

  // ---------------------------------------------------------------------
  // The prompt

  function Preamble(): string {
    INTRO + SEPARATOR + IDENTITY_CLAUSE + SEPARATOR + APPLY_LINE + SEPARATOR
  }

  function CustomRequest(customPrompt: string): string {
    REQUEST_HEAD + customPrompt + REQUEST_TAIL
  }

  /** The prompt text for a set of selections. */
  function Prompt(s: PromptInputs): string {
    Preamble() + Join(Numbered(EditList(s), 1), SEPARATOR) + "\n"
      + (if s.customPrompt != "" then CustomRequest(s.customPrompt) else "")
  }

  /** The first three numbered edits, as they open every edit list. */
  function Opening(s: PromptInputs): string {
    Item(1, BackgroundClause(s.background)) + SEPARATOR
      + Item(2, OutfitClause(s.outfit, s.gender)) + SEPARATOR
      + Item(3, HairstyleClause(s.hairstyle)) + SEPARATOR
  }

  /** The last two numbered edits and what follows them. */
  function Closing(s: PromptInputs): string {
    var k := |EditList(s)|;
    Item(k - 1, CroppingClause(s.aspectRatio)) + SEPARATOR
      + Item(k, QUALITY_CLAUSE) + "\n"
      + (if s.customPrompt != "" then CustomRequest(s.customPrompt) else "")
  }

  /** Every prompt opens with the fixed preamble (so the identity
      instruction precedes the list), then background, outfit and hairstyle
      as edits 1 to 3. */
  lemma PromptOpening(s: PromptInputs)
    ensures StartsWith(Prompt(s), Preamble() + Opening(s))
  {
    var n := Numbered(EditList(s), 1);
    JoinOpening(n, SEPARATOR, Preamble(), "\n",
                if s.customPrompt != "" then CustomRequest(s.customPrompt) else "");
  }

  /** Every prompt closes with cropping and quality as the last two numbered
      edits, followed by the user's request exactly when there is one. */
  lemma PromptClosing(s: PromptInputs)
    ensures EndsWith(Prompt(s), SEPARATOR + Closing(s))
  {
    var n := Numbered(EditList(s), 1);
    JoinClosing(n, SEPARATOR, Preamble(), "\n",
                if s.customPrompt != "" then CustomRequest(s.customPrompt) else "");
  }

  /** The "Additional User Request" section ends the prompt if and only if the
      custom prompt is non-empty; otherwise the quality edit does. */
  lemma CustomRequestLast(s: PromptInputs)
    ensures s.customPrompt != "" ==> EndsWith(Prompt(s), CustomRequest(s.customPrompt))
    ensures EndsWith(Prompt(s), REQUEST_TAIL) <==> s.customPrompt != ""
    ensures EndsWith(Prompt(s), QUALITY_CLAUSE + "\n") <==> s.customPrompt == ""
  {
    EndingsDiffer(Prompt(s));
    if s.customPrompt != "" {
      RequestEnding(s);
    } else {
      QualityEnding(s);
    }
  }

  /** No text ends both with the quality edit's line and with the request. */
  lemma EndingsDiffer(p: string)
    ensures !(EndsWith(p, QUALITY_CLAUSE + "\n") && EndsWith(p, REQUEST_TAIL))
  {
    var q := QUALITY_CLAUSE + "\n";
    assert q[|q| - 1] == '\n';
    assert REQUEST_TAIL[|REQUEST_TAIL| - 1] == '.';
    if EndsWith(p, q) && EndsWith(p, REQUEST_TAIL) {
      EndsWithLast(p, q);
      EndsWithLast(p, REQUEST_TAIL);
    }
  }

  lemma RequestEnding(s: PromptInputs)
    requires s.customPrompt != ""
    ensures EndsWith(Prompt(s), CustomRequest(s.customPrompt))
    ensures EndsWith(Prompt(s), REQUEST_TAIL)
  {
    PromptClosing(s);
    var k := |EditList(s)|;
    var front := SEPARATOR + (Item(k - 1, CroppingClause(s.aspectRatio)) + SEPARATOR
      + Item(k, QUALITY_CLAUSE) + "\n");
    var c := CustomRequest(s.customPrompt);
    assert SEPARATOR + Closing(s) == front + c;
    EndsWithSuffix(Prompt(s), front, c);
    EndsWithSuffix(Prompt(s), REQUEST_HEAD + s.customPrompt, REQUEST_TAIL);
  }

  lemma QualityEnding(s: PromptInputs)
    requires s.customPrompt == ""
    ensures EndsWith(Prompt(s), QUALITY_CLAUSE + "\n")
  {
    PromptClosing(s);
    var k := |EditList(s)|;
    var crop, num := Item(k - 1, CroppingClause(s.aspectRatio)), NatToString(k);
    assert Closing(s) == crop + SEPARATOR + (num + ". " + QUALITY_CLAUSE) + "\n" + "";
    LastItemEnding(Prompt(s), SEPARATOR, crop, num, ". ", QUALITY_CLAUSE, "\n");
  }

  /** The closing text without a request ends with the last edit's line. */
  lemma LastItemEnding(t: string, sep: string, crop: string, num: string, dot: string, q: string, nl: string)
    requires EndsWith(t, sep + (crop + sep + (num + dot + q) + nl + ""))
    ensures EndsWith(t, q + nl)
  {
    var front := sep + crop + sep + num + dot;
    assert sep + (crop + sep + (num + dot + q) + nl + "") == front + (q + nl);
    EndsWithSuffix(t, front, q + nl);
  }

  /** The prompt building of `generateIdPhoto`: the retouch switch, the
      growing edit list, the numbering, and the optional request appended
      with `+=`. */
  method CompilePrompt(s: PromptInputs) returns (prompt: string)
    ensures prompt == Prompt(s)
  {
    var retouchPromptPart := "";
    if s.retouch == RETOUCH_GENTLE_NAME {
      retouchPromptPart := RETOUCH_GENTLE;
    } else if s.retouch == RETOUCH_PROFESSIONAL_NAME {
      retouchPromptPart := RETOUCH_PROFESSIONAL;
    }
    assert retouchPromptPart == RetouchClause(s.retouch);
    var edits := [BackgroundClause(s.background), OutfitClause(s.outfit, s.gender), HairstyleClause(s.hairstyle)];
    if s.lighting == LIGHTING_ON {
      edits := edits + [LIGHTING_CLAUSE];
    }
    if retouchPromptPart != "" {
      edits := edits + [retouchPromptPart];
    }
    edits := edits + [CroppingClause(s.aspectRatio)];
    edits := edits + [QUALITY_CLAUSE];
    assert edits == EditList(s);
    var numberedEdits := Join(Numbered(edits, 1), SEPARATOR);
    prompt := Preamble() + numberedEdits + "\n";
    if s.customPrompt != "" {
      prompt := prompt + CustomRequest(s.customPrompt);
    }
  }
}
