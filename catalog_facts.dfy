/** Well-formedness of the catalogs in constants.ts: the facts the selection
    state and the prompt compiler rely on. */
module CatalogFacts {
  import opened Types
  import opened Catalog
  import opened Options
  import PromptCompiler

  /** Every non-custom template names a background and an aspect ratio that exist. */
  lemma TemplatesResolve()
    ensures forall t :: t in COUNTRY_TEMPLATES && t.id != "custom" ==>
      (exists b :: b in BACKGROUNDS && b.id == t.backgroundId) &&
      (exists a :: a in ASPECT_RATIOS && a.id == t.aspectRatioId)
    ensures COUNTRY_TEMPLATES[0].id == "custom"
  {
    assert BACKGROUNDS[2] in BACKGROUNDS && ASPECT_RATIOS[1] in ASPECT_RATIOS;
    assert BACKGROUNDS[0] in BACKGROUNDS && ASPECT_RATIOS[3] in ASPECT_RATIOS;
    assert BACKGROUNDS[1] in BACKGROUNDS && ASPECT_RATIOS[4] in ASPECT_RATIOS;
  }

  /** The three country templates and the entries they force, whatever was selected before. */
  lemma TemplateTargets(b: Background, a: AspectRatio)
    ensures TemplateBackground(COUNTRY_TEMPLATES[1], BACKGROUNDS, b).id == "light-blue"
    ensures TemplateAspectRatio(COUNTRY_TEMPLATES[1], ASPECT_RATIOS, a).id == "4x6"
    ensures TemplateBackground(COUNTRY_TEMPLATES[2], BACKGROUNDS, b).id == "white"
    ensures TemplateAspectRatio(COUNTRY_TEMPLATES[2], ASPECT_RATIOS, a).id == "2x2"
    ensures TemplateBackground(COUNTRY_TEMPLATES[3], BACKGROUNDS, b).id == "light-gray"
    ensures TemplateAspectRatio(COUNTRY_TEMPLATES[3], ASPECT_RATIOS, a).id == "3.5x4.5cm"
    ensures COUNTRY_TEMPLATES[1].id == "vn-cccd" && COUNTRY_TEMPLATES[2].id == "us-passport"
         && COUNTRY_TEMPLATES[3].id == "schengen-visa"
  {
    TemplatesResolve();
    assert COUNTRY_TEMPLATES[1] in COUNTRY_TEMPLATES;
    assert COUNTRY_TEMPLATES[2] in COUNTRY_TEMPLATES;
    assert COUNTRY_TEMPLATES[3] in COUNTRY_TEMPLATES;
  }

  /** Every outfit is tagged with a gender, and no catalog entry carries the derived flag. */
  lemma OutfitsTagged()
    ensures forall o :: o in OUTFITS ==> o.gender.Some? && o.isRecommended.None?
  {
  }

  /** Each gender has outfits, so the offered outfit list is never empty. */
  lemma EveryGenderHasOutfits(g: GenderOption, doc: DocumentType)
    requires g in GENDERS
    ensures GenderOutfits(OUTFITS, g) != []
    ensures |FilteredOutfits(OUTFITS, g, doc)| == |GenderOutfits(OUTFITS, g)|
  {
    var o := OUTFITS[if g.name == Female then 0 else 8];
    assert o in OUTFITS && TaggedFor(o, g);
    FilterMembership(ForGender(g), OUTFITS);
    assert o in GenderOutfits(OUTFITS, g);
    FilteredOutfitsLength(OUTFITS, g, doc);
  }

  /** The catalogs meet what the selection state relies on. */
  lemma CatalogsWellFormed()
    ensures WellFormed(CATALOGS)
  {
    TemplatesResolve();
    HairstyleSentinel(GENDERS[0]);
    forall g | g in GENDERS
      ensures GenderOutfits(OUTFITS, g) != []
    {
      EveryGenderHasOutfits(g, DOCUMENT_TYPES[0]);
    }
  }

  /** The first hairstyle is the untagged "keep as is" entry, offered to every gender first. */
  lemma HairstyleSentinel(g: GenderOption)
    ensures HAIRSTYLES[0].id == "none" && HAIRSTYLES[0].name == "Giữ nguyên" && HAIRSTYLES[0].gender.None?
    ensures FilteredHairstyles(HAIRSTYLES, g) != [] && FilteredHairstyles(HAIRSTYLES, g)[0] == HAIRSTYLES[0]
  {
    SentinelOffered(HAIRSTYLES, g);
  }

  /** Ids are unique within each catalog. */
  lemma UniqueIds()
    ensures forall i, j :: 0 <= i < j < |BACKGROUNDS| ==> BACKGROUNDS[i].id != BACKGROUNDS[j].id
    ensures forall i, j :: 0 <= i < j < |OUTFITS| ==> OUTFITS[i].id != OUTFITS[j].id
    ensures forall i, j :: 0 <= i < j < |GENDERS| ==> GENDERS[i].id != GENDERS[j].id
    ensures forall i, j :: 0 <= i < j < |HAIRSTYLES| ==> HAIRSTYLES[i].id != HAIRSTYLES[j].id
    ensures forall i, j :: 0 <= i < j < |RETOUCH_OPTIONS| ==> RETOUCH_OPTIONS[i].id != RETOUCH_OPTIONS[j].id
    ensures forall i, j :: 0 <= i < j < |ASPECT_RATIOS| ==> ASPECT_RATIOS[i].id != ASPECT_RATIOS[j].id
    ensures forall i, j :: 0 <= i < j < |COUNTRY_TEMPLATES| ==> COUNTRY_TEMPLATES[i].id != COUNTRY_TEMPLATES[j].id
    ensures forall i, j :: 0 <= i < j < |DOCUMENT_TYPES| ==> DOCUMENT_TYPES[i].id != DOCUMENT_TYPES[j].id
    ensures forall i, j :: 0 <= i < j < |LIGHTING_OPTIONS| ==> LIGHTING_OPTIONS[i].id != LIGHTING_OPTIONS[j].id
  {
    UniqueOutfitIds();
    UniqueHairstyleIds();
    UniqueSmallCatalogIds();
  }

  lemma UniqueOutfitIds()
    ensures forall i, j :: 0 <= i < j < |OUTFITS| ==> OUTFITS[i].id != OUTFITS[j].id
  {
  }

  lemma UniqueHairstyleIds()
    ensures forall i, j :: 0 <= i < j < |HAIRSTYLES| ==> HAIRSTYLES[i].id != HAIRSTYLES[j].id
  {
  }

  lemma UniqueSmallCatalogIds()
    ensures forall i, j :: 0 <= i < j < |BACKGROUNDS| ==> BACKGROUNDS[i].id != BACKGROUNDS[j].id
    ensures forall i, j :: 0 <= i < j < |GENDERS| ==> GENDERS[i].id != GENDERS[j].id
    ensures forall i, j :: 0 <= i < j < |RETOUCH_OPTIONS| ==> RETOUCH_OPTIONS[i].id != RETOUCH_OPTIONS[j].id
    ensures forall i, j :: 0 <= i < j < |ASPECT_RATIOS| ==> ASPECT_RATIOS[i].id != ASPECT_RATIOS[j].id
    ensures forall i, j :: 0 <= i < j < |COUNTRY_TEMPLATES| ==> COUNTRY_TEMPLATES[i].id != COUNTRY_TEMPLATES[j].id
    ensures forall i, j :: 0 <= i < j < |DOCUMENT_TYPES| ==> DOCUMENT_TYPES[i].id != DOCUMENT_TYPES[j].id
    ensures forall i, j :: 0 <= i < j < |LIGHTING_OPTIONS| ==> LIGHTING_OPTIONS[i].id != LIGHTING_OPTIONS[j].id
  {
  }

  /** The catalog names are the literals the prompt compiler tests against. */
  lemma CompilerLiterals()
    ensures RETOUCH_OPTIONS[0].name == "Không"
    ensures RETOUCH_OPTIONS[1].name == PromptCompiler.RETOUCH_GENTLE_NAME
    ensures RETOUCH_OPTIONS[2].name == PromptCompiler.RETOUCH_PROFESSIONAL_NAME
    ensures LIGHTING_OPTIONS[0].id == "on" && LIGHTING_OPTIONS[0].name == PromptCompiler.LIGHTING_ON
    ensures LIGHTING_OPTIONS[1].name != PromptCompiler.LIGHTING_ON
    ensures ASPECT_RATIOS[5].id == "original" && ASPECT_RATIOS[5].name == "Ảnh gốc"
    ensures HAIRSTYLES[0].name == PromptCompiler.KEEP_HAIRSTYLE
    ensures forall i :: 1 <= i < |HAIRSTYLES| ==> HAIRSTYLES[i].name != PromptCompiler.KEEP_HAIRSTYLE
    ensures BACKGROUNDS[4].id == "custom-color" && DOCUMENT_TYPES[0].id == "all"
  {
  }

  /** Through those names each retouch entry selects its clause, and only
      the first hairstyle entry selects the keep form. */
  lemma CatalogClauses()
    ensures PromptCompiler.RetouchClause(RETOUCH_OPTIONS[0].name) == ""
    ensures PromptCompiler.RetouchClause(RETOUCH_OPTIONS[1].name) == PromptCompiler.RETOUCH_GENTLE
    ensures PromptCompiler.RetouchClause(RETOUCH_OPTIONS[2].name) == PromptCompiler.RETOUCH_PROFESSIONAL
    ensures PromptCompiler.HairstyleClause(HAIRSTYLES[0].name) == PromptCompiler.KeptHairstyleClause()
    ensures forall i :: 1 <= i < |HAIRSTYLES| ==>
      PromptCompiler.HairstyleClause(HAIRSTYLES[i].name) != PromptCompiler.KeptHairstyleClause()
  {
    CompilerLiterals();
  }

  /** Gender Nữ, document type "student": the recommended outfits first, then
      the rest, each bucket in catalog order. */
  lemma StudentOutfits()
    ensures var r := FilteredOutfits(OUTFITS, GENDERS[0], DOCUMENT_TYPES[3]);
      |r| == 8 &&
      r[0].id == "womens-blouse-white" && r[1].id == "womens-blouse-blue" && r[2].id == "womens-ao-dai-white" &&
      r[3].id == "womens-blazer-black" && r[4].id == "womens-suit-gray" && r[5].id == "womens-suit-navy" &&
      r[6].id == "womens-dress-black" && r[7].id == "womens-turtleneck-black" &&
      (forall i :: 0 <= i < 3 ==> r[i].isRecommended == Some(true)) &&
      (forall i :: 3 <= i < 8 ==> r[i].isRecommended == Some(false))
  {
    var ws := OUTFITS[..8];
    StudentList(ws);
    WomenIds(ws);
    StudentRanks(ws);
  }

  /** The two flagged buckets, read entry by entry. */
  lemma StudentRanks(ws: seq<Outfit>)
    requires |ws| == 8
    ensures var r := Flagged([ws[0], ws[1], ws[7]], true) + Flagged([ws[2], ws[3], ws[4], ws[5], ws[6]], false);
      |r| == 8 && r[0].id == ws[0].id && r[1].id == ws[1].id && r[2].id == ws[7].id && r[3].id == ws[2].id
      && r[4].id == ws[3].id && r[5].id == ws[4].id && r[6].id == ws[5].id && r[7].id == ws[6].id &&
      (forall i :: 0 <= i < 3 ==> r[i].isRecommended == Some(true)) &&
      (forall i :: 3 <= i < 8 ==> r[i].isRecommended == Some(false))
  {
  }

  lemma StudentList(ws: seq<Outfit>)
    requires ws == OUTFITS[..8]
    ensures FilteredOutfits(OUTFITS, GENDERS[0], DOCUMENT_TYPES[3])
         == Flagged([ws[0], ws[1], ws[7]], true) + Flagged([ws[2], ws[3], ws[4], ws[5], ws[6]], false)
  {
    WomenOutfits();
    StudentBuckets(ws);
    assert DOCUMENT_TYPES[3].id == "student";
  }

  lemma WomenIds(ws: seq<Outfit>)
    requires ws == OUTFITS[..8]
    ensures ws[0].id == "womens-blouse-white" && ws[1].id == "womens-blouse-blue" && ws[7].id == "womens-ao-dai-white"
    ensures ws[2].id == "womens-blazer-black" && ws[3].id == "womens-suit-gray" && ws[4].id == "womens-suit-navy"
    ensures ws[5].id == "womens-dress-black" && ws[6].id == "womens-turtleneck-black"
  {
  }

  /** The two buckets of the Nữ outfits for document type "student". */
  lemma StudentBuckets(ws: seq<Outfit>)
    requires ws == OUTFITS[..8]
    ensures Filter(SuitedTo("student"), ws) == [ws[0], ws[1], ws[7]]
    ensures Filter(NotSuitedTo("student"), ws) == [ws[2], ws[3], ws[4], ws[5], ws[6]]
  {
    var p := SuitedTo("student");
    var q := NotSuitedTo("student");
    StudentSuited(ws);
    FilterEach(p, ws);
    FilterEach(q, ws);
  }

  lemma StudentSuited(ws: seq<Outfit>)
    requires ws == OUTFITS[..8]
    ensures |ws| == 8
    ensures Recommends(ws[0], "student") && Recommends(ws[1], "student") && Recommends(ws[7], "student")
    ensures !Recommends(ws[2], "student") && !Recommends(ws[3], "student") && !Recommends(ws[4], "student")
         && !Recommends(ws[5], "student") && !Recommends(ws[6], "student")
  {
  }

  /** The Nữ outfits are the first eight catalog entries. */
  lemma WomenOutfits()
    ensures GenderOutfits(OUTFITS, GENDERS[0]) == OUTFITS[..8]
  {
    var tag := ForGender(GENDERS[0]);
    FemaleHalfKept();
    MaleHalfDropped();
    assert OUTFITS == OUTFITS[..8] + OUTFITS[8..];
    FilterAppend(tag, OUTFITS[..8], OUTFITS[8..]);
  }

  lemma FemaleHalfKept()
    ensures Filter(ForGender(GENDERS[0]), OUTFITS[..8]) == OUTFITS[..8]
  {
    assert forall i :: 0 <= i < 8 ==> OUTFITS[i].gender == Some(Female);
    FilterAll(ForGender(GENDERS[0]), OUTFITS[..8]);
  }

  lemma MaleHalfDropped()
    ensures Filter(ForGender(GENDERS[0]), OUTFITS[8..]) == []
  {
    assert forall i :: 8 <= i < 16 ==> OUTFITS[i].gender == Some(Male);
    FilterNone(ForGender(GENDERS[0]), OUTFITS[8..]);
  }

  /** A filter that keeps every element returns its input. */
  lemma {:induction false} FilterAll<T>(p: T -> bool, xs: seq<T>)
    requires forall i :: 0 <= i < |xs| ==> p(xs[i])
    ensures Filter(p, xs) == xs
  {
    if xs != [] {
      FilterAll(p, xs[1..]);
    }
  }

  /** A filter that keeps no element returns the empty list. */
  lemma {:induction false} FilterNone<T>(p: T -> bool, xs: seq<T>)
    requires forall i :: 0 <= i < |xs| ==> !p(xs[i])
    ensures Filter(p, xs) == []
  {
    if xs != [] {
      FilterNone(p, xs[1..]);
    }
  }

  /** Unfolds a filter over an eight-entry list one entry at a time. */
  lemma FilterEach<T>(p: T -> bool, xs: seq<T>)
    requires |xs| == 8
    ensures Filter(p, xs) == Keep(p, xs[0]) + (Keep(p, xs[1]) + (Keep(p, xs[2]) + (Keep(p, xs[3])
                           + (Keep(p, xs[4]) + (Keep(p, xs[5]) + (Keep(p, xs[6]) + Keep(p, xs[7])))))))
  {
    assert xs[8..] == [];
    assert xs[0..] == xs;
    FilterStep(p, xs, 7);
    assert Filter(p, xs[7..]) == Keep(p, xs[7]);
    FilterStep(p, xs, 6);
    FilterStep(p, xs, 5);
    FilterStep(p, xs, 4);
    FilterStep(p, xs, 3);
    FilterStep(p, xs, 2);
    FilterStep(p, xs, 1);
    FilterStep(p, xs, 0);
  }

  lemma FilterStep<T>(p: T -> bool, xs: seq<T>, k: nat)
    requires k < |xs|
    ensures Filter(p, xs[k..]) == Keep(p, xs[k]) + Filter(p, xs[k + 1..])
  {
    assert xs[k..] == [xs[k]] + xs[k + 1..];
    FilterCons(p, xs[k], xs[k + 1..]);
  }

  function Keep<T>(p: T -> bool, x: T): seq<T> {
    if p(x) then [x] else []
  }

  /** The first Nữ outfit (used by reset) is also the first entry of the
      initial outfit list (gender Nữ, document type "all"). */
  lemma InitialOutfitAgrees()
    ensures FirstFemaleOutfit(OUTFITS) == Some(OUTFITS[0])
    ensures FilteredOutfits(OUTFITS, GENDERS[0], DOCUMENT_TYPES[0]) != []
    ensures FilteredOutfits(OUTFITS, GENDERS[0], DOCUMENT_TYPES[0])[0] == OUTFITS[0].(isRecommended := Some(false))
    ensures OUTFITS[0].id == "womens-blouse-white"
  {
    FirstOutfitIsFemale();
    WomenOutfits();
    assert DOCUMENT_TYPES[0].id == "all";
    FilteredOutfitsAll(OUTFITS, GENDERS[0], DOCUMENT_TYPES[0]);
  }

  lemma FirstOutfitIsFemale()
    ensures FirstFemaleOutfit(OUTFITS) == Some(OUTFITS[0])
    ensures OUTFITS[0].id == "womens-blouse-white"
  {
    assert OUTFITS[0].gender == Some(Female);
  }
}
