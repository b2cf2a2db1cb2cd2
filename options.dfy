/** The derived option views of App.tsx: the gender / document-type outfit
    list, the gender hairstyle list, the template lookups and the choice the
    repair step makes. All of them are pure functions of catalog sequences. */
module Options {
  import opened Types

  /** The nine catalogs of constants.ts that the component reads. */
  datatype Catalogs = Catalogs(
    backgrounds: seq<Background>,
    outfits: seq<Outfit>,
    genders: seq<GenderOption>,
    hairstyles: seq<Hairstyle>,
    retouches: seq<RetouchOption>,
    aspectRatios: seq<AspectRatio>,
    templates: seq<CountryTemplate>,
    documentTypes: seq<DocumentType>,
    lightings: seq<LightingOption>)

  /** What the selection state relies on: every default index exists, the
      first template is "custom" and every other template names a background
      and an aspect ratio that exist, the first gender is Nữ and every gender
      has outfits, and the hairstyles open with the untagged "keep as is" entry. */
  predicate WellFormed(c: Catalogs) {
    && c.backgrounds != [] && c.documentTypes != [] && c.lightings != []
    && c.aspectRatios != [] && |c.retouches| > 1
    && c.templates != [] && c.templates[0].id == "custom"
    && (forall t :: t in c.templates && t.id != "custom" ==>
          (exists b :: b in c.backgrounds && b.id == t.backgroundId)
          && (exists a :: a in c.aspectRatios && a.id == t.aspectRatioId))
    && c.genders != [] && c.genders[0].name == Female
    && (forall g :: g in c.genders ==> GenderOutfits(c.outfits, g) != [])
    && c.hairstyles != [] && c.hairstyles[0].id == "none" && c.hairstyles[0].gender.None?
  }

  /** The default template is "custom", so the template effect that follows
      the initial render and reset leaves the default background and aspect
      ratio in place, and those defaults need not match any template. */
  lemma DefaultTemplateKeeps(c: Catalogs, b: Background, a: AspectRatio)
    requires WellFormed(c)
    ensures TemplateBackground(c.templates[0], c.backgrounds, b) == b
    ensures TemplateAspectRatio(c.templates[0], c.aspectRatios, a) == a
  {
  }

  // ---------------------------------------------------------------------
  // Array.prototype.filter / find, and what "keeps catalog order" means

  /** `xs.filter(p)` */
  function Filter<T>(p: T -> bool, xs: seq<T>): seq<T> {
    if xs == [] then []
    else (if p(xs[0]) then [xs[0]] else []) + Filter(p, xs[1..])
  }

  /** The filter keeps exactly the elements satisfying `p`, and no more of them. */
  lemma {:induction false} FilterMembership<T>(p: T -> bool, xs: seq<T>)
    ensures |Filter(p, xs)| <= |xs|
    ensures forall x :: x in Filter(p, xs) <==> x in xs && p(x)
  {
    if xs != [] {
      FilterMembership(p, xs[1..]);
      assert xs == [xs[0]] + xs[1..];
    }
  }

  lemma {:induction false} FilterCons<T>(p: T -> bool, x: T, xs: seq<T>)
    ensures Filter(p, [x] + xs) == (if p(x) then [x] else []) + Filter(p, xs)
  {
    assert ([x] + xs)[1..] == xs;
  }

  /** `xs.find(p)`: the first element satisfying `p`, if any. */
  function Find<T(!new)>(p: T -> bool, xs: seq<T>): (r: Option<T>)
    ensures r.Some? ==> r.value in xs && p(r.value)
    ensures r.Some? ==> exists i :: 0 <= i < |xs| && xs[i] == r.value && forall j :: 0 <= j < i ==> !p(xs[j])
    ensures r.None? <==> forall x :: x in xs ==> !p(x)
  {
    if xs == [] then None
    else if p(xs[0]) then Some(xs[0])
    else Find(p, xs[1..])
  }

  /** `a` can be obtained from `b` by deleting elements: `a` keeps `b`'s order. */
  predicate IsSubsequence<T(==)>(a: seq<T>, b: seq<T>)
    decreases |b|
  {
    a == [] || (b != [] && ((a[0] == b[0] && IsSubsequence(a[1..], b[1..])) || IsSubsequence(a, b[1..])))
  }

  lemma {:induction false} FilterIsSubsequence<T>(p: T -> bool, xs: seq<T>)
    ensures IsSubsequence(Filter(p, xs), xs)
  {
    if xs != [] {
      FilterIsSubsequence(p, xs[1..]);
      if p(xs[0]) {
        assert Filter(p, xs)[0] == xs[0];
        assert Filter(p, xs)[1..] == Filter(p, xs[1..]);
      } else {
        assert Filter(p, xs) == Filter(p, xs[1..]);
      }
    }
  }

  lemma {:induction false} SubsequenceTransitive<T>(a: seq<T>, b: seq<T>, c: seq<T>)
    requires IsSubsequence(a, b) && IsSubsequence(b, c)
    ensures IsSubsequence(a, c)
    decreases |c|
  {
    if a != [] {
      assert b != [] && c != [];
      if b[0] == c[0] && IsSubsequence(b[1..], c[1..]) {
        if a[0] == b[0] && IsSubsequence(a[1..], b[1..]) {
          SubsequenceTransitive(a[1..], b[1..], c[1..]);
        } else {
          SubsequenceTransitive(a, b[1..], c[1..]);
        }
      } else {
        SubsequenceTransitive(a, b, c[1..]);
      }
    }
  }

  lemma {:induction false} FilterAppend<T>(p: T -> bool, xs: seq<T>, ys: seq<T>)
    ensures Filter(p, xs + ys) == Filter(p, xs) + Filter(p, ys)
  {
    if xs == [] {
      assert xs + ys == ys;
    } else {
      var zs := xs + ys;
      assert zs[0] == xs[0] && zs[1..] == xs[1..] + ys;
      FilterAppend(p, xs[1..], ys);
      assert Filter(p, zs) == (if p(xs[0]) then [xs[0]] else []) + Filter(p, zs[1..]);
    }
  }

  /** Splitting by `p` and by its negation loses and duplicates nothing. */
  lemma {:induction false} FilterSplitsMultiset<T>(p: T -> bool, q: T -> bool, xs: seq<T>)
    requires forall x :: q(x) == !p(x)
    ensures multiset(Filter(p, xs)) + multiset(Filter(q, xs)) == multiset(xs)
  {
    if xs != [] {
      var x, tail := xs[0], xs[1..];
      FilterSplitsMultiset(p, q, tail);
      assert xs == [x] + tail;
      assert q(x) == !p(x);
      if p(x) {
        assert Filter(p, xs) == [x] + Filter(p, tail);
        assert Filter(q, xs) == Filter(q, tail);
      } else {
        assert Filter(p, xs) == Filter(p, tail);
        assert Filter(q, xs) == [x] + Filter(q, tail);
      }
    }
  }

  // ---------------------------------------------------------------------
  // Outfit view (App.tsx filteredOutfits)

  /** `outfit.gender === selectedGender.name`: an untagged outfit never matches. */
  predicate TaggedFor(o: Outfit, g: GenderOption) {
    o.gender == Some(g.name)
  }

  /** `o.documentTypes?.includes(documentTypeId)`; a missing list is falsy. */
  predicate Recommends(o: Outfit, documentTypeId: string) {
    o.documentTypes.Some? && documentTypeId in o.documentTypes.value
  }

  /** The filter callbacks of App.tsx, each defined once so that every use
      refers to the same function value. */
  function ForGender(g: GenderOption): Outfit -> bool {
    o => TaggedFor(o, g)
  }

  function SuitedTo(documentTypeId: string): Outfit -> bool {
    o => Recommends(o, documentTypeId)
  }

  function NotSuitedTo(documentTypeId: string): Outfit -> bool {
    o => !Recommends(o, documentTypeId)
  }

  function FlaggedAs(flag: bool): Outfit -> bool {
    (o: Outfit) => o.isRecommended == Some(flag)
  }

  /** `xs.map(o => ({ ...o, isRecommended: flag }))` */
  function Flagged(xs: seq<Outfit>, flag: bool): (r: seq<Outfit>)
    ensures |r| == |xs|
    ensures forall i :: 0 <= i < |xs| ==> r[i] == xs[i].(isRecommended := Some(flag))
  {
    if xs == [] then [] else [xs[0].(isRecommended := Some(flag))] + Flagged(xs[1..], flag)
  }

  /** An outfit with the derived flag cleared: the catalog entry it was copied from. */
  function Plain(o: Outfit): Outfit {
    o.(isRecommended := None)
  }

  function Plains(xs: seq<Outfit>): (r: seq<Outfit>)
    ensures |r| == |xs|
    ensures forall i :: 0 <= i < |xs| ==> r[i] == Plain(xs[i])
  {
    if xs == [] then [] else [Plain(xs[0])] + Plains(xs[1..])
  }

  function GenderOutfits(outfits: seq<Outfit>, g: GenderOption): seq<Outfit> {
    Filter(ForGender(g), outfits)
  }

  /** The outfit list offered for the selected gender and document type. */
  function FilteredOutfits(outfits: seq<Outfit>, g: GenderOption, doc: DocumentType): seq<Outfit> {
    var genderFiltered := GenderOutfits(outfits, g);
    if doc.id == "all" then
      Flagged(genderFiltered, false)
    else
      Flagged(Filter(SuitedTo(doc.id), genderFiltered), true)
      + Flagged(Filter(NotSuitedTo(doc.id), genderFiltered), false)
  }

  /** Only outfits tagged with exactly the selected gender are offered. */
  lemma FilteredOutfitsGender(outfits: seq<Outfit>, g: GenderOption, doc: DocumentType)
    ensures forall o :: o in FilteredOutfits(outfits, g, doc) ==> o.gender == Some(g.name)
    ensures forall o :: o in FilteredOutfits(outfits, g, doc) ==> Plain(o) in Plains(outfits)
  {
    var gf := GenderOutfits(outfits, g);
    var rec := Filter(SuitedTo(doc.id), gf);
    var oth := Filter(NotSuitedTo(doc.id), gf);
    FilterMembership(ForGender(g), outfits);
    FilterMembership(SuitedTo(doc.id), gf);
    FilterMembership(NotSuitedTo(doc.id), gf);
    forall o | o in FilteredOutfits(outfits, g, doc)
      ensures o.gender == Some(g.name) && Plain(o) in Plains(outfits)
    {
      var src :| src in gf && o == src.(isRecommended := o.isRecommended);
      var k :| 0 <= k < |outfits| && outfits[k] == src;
      assert Plains(outfits)[k] == Plain(o);
    }
  }

  /** Document type "all": the gender list in catalog order, none recommended. */
  lemma FilteredOutfitsAll(outfits: seq<Outfit>, g: GenderOption, doc: DocumentType)
    requires doc.id == "all"
    ensures |FilteredOutfits(outfits, g, doc)| == |GenderOutfits(outfits, g)|
    ensures forall i :: 0 <= i < |GenderOutfits(outfits, g)| ==>
      FilteredOutfits(outfits, g, doc)[i] == GenderOutfits(outfits, g)[i].(isRecommended := Some(false))
  {
  }

  /** Any other document type: each entry is flagged by whether it suits the
      document type, and every recommended entry comes before every other. */
  lemma FilteredOutfitsRanked(outfits: seq<Outfit>, g: GenderOption, doc: DocumentType)
    requires doc.id != "all"
    ensures forall i :: 0 <= i < |FilteredOutfits(outfits, g, doc)| ==>
      FilteredOutfits(outfits, g, doc)[i].isRecommended == Some(Recommends(FilteredOutfits(outfits, g, doc)[i], doc.id))
    ensures forall i, j :: 0 <= i < j < |FilteredOutfits(outfits, g, doc)| && FilteredOutfits(outfits, g, doc)[j].isRecommended == Some(true) ==>
      FilteredOutfits(outfits, g, doc)[i].isRecommended == Some(true)
  {
    var gf := GenderOutfits(outfits, g);
    var rec := Filter(SuitedTo(doc.id), gf);
    var oth := Filter(NotSuitedTo(doc.id), gf);
    var r := FilteredOutfits(outfits, g, doc);
    assert r == Flagged(rec, true) + Flagged(oth, false);
    FilterMembership(SuitedTo(doc.id), gf);
    FilterMembership(NotSuitedTo(doc.id), gf);
    forall i | 0 <= i < |r|
      ensures r[i].isRecommended == Some(Recommends(r[i], doc.id))
    {
      if i < |rec| {
        assert rec[i] in rec;
      } else {
        assert oth[i - |rec|] in oth;
      }
    }
  }

  /** The offered list is exactly as long as the gender list. */
  lemma FilteredOutfitsLength(outfits: seq<Outfit>, g: GenderOption, doc: DocumentType)
    ensures |FilteredOutfits(outfits, g, doc)| == |GenderOutfits(outfits, g)|
  {
    var gf := GenderOutfits(outfits, g);
    if doc.id != "all" {
      var p := SuitedTo(doc.id);
      var q := NotSuitedTo(doc.id);
      FilterSplitsMultiset(p, q, gf);
      assert |multiset(Filter(p, gf))| + |multiset(Filter(q, gf))| == |multiset(gf)|;
    }
  }

  /** The offered list is a permutation of the gender list (flags aside). */
  lemma FilteredOutfitsPermutation(outfits: seq<Outfit>, g: GenderOption, doc: DocumentType)
    ensures multiset(Plains(FilteredOutfits(outfits, g, doc))) == multiset(Plains(GenderOutfits(outfits, g)))
  {
    var gf := GenderOutfits(outfits, g);
    var r := FilteredOutfits(outfits, g, doc);
    if doc.id == "all" {
      assert Plains(r) == Plains(gf);
    } else {
      var p := SuitedTo(doc.id);
      var q := NotSuitedTo(doc.id);
      var rec := Filter(p, gf);
      var oth := Filter(q, gf);
      assert Plains(r) == Plains(rec) + Plains(oth);
      PlainsFilter(p, gf);
      PlainsFilter(q, gf);
      FilterSplitsMultiset(p, q, Plains(gf));
    }
  }

  /** Clearing the flag commutes with a filter that does not look at the flag. */
  lemma {:induction false} PlainsFilter(p: Outfit -> bool, xs: seq<Outfit>)
    requires forall o {:trigger Plain(o)} :: p(Plain(o)) == p(o)
    ensures Plains(Filter(p, xs)) == Filter(p, Plains(xs))
  {
    if xs != [] {
      var x, tail := xs[0], xs[1..];
      PlainsFilter(p, tail);
      assert p(Plain(x)) == p(x);
      FilterCons(p, Plain(x), Plains(tail));
      if p(x) {
        assert ([x] + Filter(p, tail))[1..] == Filter(p, tail);
      }
    }
  }

  lemma {:induction false} PlainsSubsequence(a: seq<Outfit>, b: seq<Outfit>)
    requires IsSubsequence(a, b)
    ensures IsSubsequence(Plains(a), Plains(b))
    decreases |b|
  {
    if a != [] {
      assert Plains(a)[1..] == Plains(a[1..]);
      assert Plains(b)[1..] == Plains(b[1..]);
      if a[0] == b[0] && IsSubsequence(a[1..], b[1..]) {
        PlainsSubsequence(a[1..], b[1..]);
      } else {
        PlainsSubsequence(a, b[1..]);
      }
    }
  }

  /** The entries of one bucket of the offered list. */
  function Bucket(xs: seq<Outfit>, flag: bool): seq<Outfit> {
    Filter(FlaggedAs(flag), xs)
  }

  /** Within each bucket the entries keep their catalog order. */
  lemma FilteredOutfitsStable(outfits: seq<Outfit>, g: GenderOption, doc: DocumentType, flag: bool)
    ensures IsSubsequence(Plains(Bucket(FilteredOutfits(outfits, g, doc), flag)), Plains(outfits))
  {
    var gf := GenderOutfits(outfits, g);
    var sel := FlaggedAs(flag);
    FilterIsSubsequence(ForGender(g), outfits);
    var part: seq<Outfit>;
    if doc.id == "all" {
      part := if flag then [] else gf;
      FlaggedBucket(gf, false, flag);
      assert IsSubsequence(part, gf) by {
        if flag { } else { SubsequenceReflexive(gf); }
      }
    } else {
      var rec := Filter(SuitedTo(doc.id), gf);
      var oth := Filter(NotSuitedTo(doc.id), gf);
      FilterAppend(sel, Flagged(rec, true), Flagged(oth, false));
      FlaggedBucket(rec, true, flag);
      FlaggedBucket(oth, false, flag);
      part := if flag then rec else oth;
      assert Bucket(FilteredOutfits(outfits, g, doc), flag)
          == (if flag then Flagged(rec, true) else []) + (if flag then [] else Flagged(oth, false));
      FilterIsSubsequence(SuitedTo(doc.id), gf);
      FilterIsSubsequence(NotSuitedTo(doc.id), gf);
    }
    assert Bucket(FilteredOutfits(outfits, g, doc), flag) == Flagged(part, flag) || Bucket(FilteredOutfits(outfits, g, doc), flag) == [];
    SubsequenceTransitive(part, gf, outfits);
    PlainsSubsequence(part, outfits);
    assert Plains(Flagged(part, flag)) == Plains(part);
  }

  lemma {:induction false} SubsequenceReflexive<T>(a: seq<T>)
    ensures IsSubsequence(a, a)
  {
    if a != [] {
      SubsequenceReflexive(a[1..]);
    }
  }

  /** Filtering a flagged list by its own flag keeps all or nothing. */
  lemma {:induction false} FlaggedBucket(xs: seq<Outfit>, flag: bool, want: bool)
    ensures Bucket(Flagged(xs, flag), want) == if flag == want then Flagged(xs, flag) else []
  {
    if xs != [] {
      FlaggedBucket(xs[1..], flag, want);
      assert Flagged(xs, flag)[1..] == Flagged(xs[1..], flag);
    }
  }

  // ---------------------------------------------------------------------
  // Hairstyle view (App.tsx filteredHairstyles)

  /** `!style.gender || style.gender === selectedGender.name` */
  predicate OfferedTo(h: Hairstyle, g: GenderOption) {
    h.gender.None? || h.gender == Some(g.name)
  }

  function OfferedFor(g: GenderOption): Hairstyle -> bool {
    h => OfferedTo(h, g)
  }

  /** The hairstyle list offered for the selected gender. */
  function FilteredHairstyles(hairstyles: seq<Hairstyle>, g: GenderOption): seq<Hairstyle> {
    Filter(OfferedFor(g), hairstyles)
  }

  /** Untagged hairstyles are offered to every gender, tagged ones only to
      their own, and the list keeps catalog order. */
  lemma FilteredHairstylesExact(hairstyles: seq<Hairstyle>, g: GenderOption)
    ensures forall h :: h in FilteredHairstyles(hairstyles, g) <==>
      h in hairstyles && (h.gender.None? || h.gender == Some(g.name))
    ensures IsSubsequence(FilteredHairstyles(hairstyles, g), hairstyles)
  {
    FilterMembership(OfferedFor(g), hairstyles);
    FilterIsSubsequence(OfferedFor(g), hairstyles);
  }

  /** An untagged entry at the head of the catalog heads every offered list. */
  lemma SentinelOffered(hairstyles: seq<Hairstyle>, g: GenderOption)
    requires hairstyles != [] && hairstyles[0].gender.None?
    ensures FilteredHairstyles(hairstyles, g) != [] && FilteredHairstyles(hairstyles, g)[0] == hairstyles[0]
  {
    assert hairstyles == [hairstyles[0]] + hairstyles[1..];
    FilterCons(OfferedFor(g), hairstyles[0], hairstyles[1..]);
  }

  // ---------------------------------------------------------------------
  // Repair step (App.tsx gender / outfit effect)

  /** `list.some(x => x.id === id)` */
  predicate HasOutfitId(xs: seq<Outfit>, id: string) {
    exists i :: 0 <= i < |xs| && xs[i].id == id
  }

  predicate HasHairstyleId(xs: seq<Hairstyle>, id: string) {
    exists i :: 0 <= i < |xs| && xs[i].id == id
  }

  /** The outfit kept after the repair step. */
  function RepairedOutfit(current: Outfit, offered: seq<Outfit>): (r: Outfit)
    ensures HasOutfitId(offered, current.id) ==> r == current
    ensures !HasOutfitId(offered, current.id) && offered != [] ==> r == offered[0]
    ensures offered == [] ==> r == current
    ensures offered != [] ==> HasOutfitId(offered, r.id)
  {
    if !HasOutfitId(offered, current.id) && |offered| > 0 then offered[0] else current
  }

  /** The hairstyle kept after the repair step: the "none" entry is preferred. */
  function RepairedHairstyle(current: Hairstyle, offered: seq<Hairstyle>): (r: Hairstyle)
    ensures HasHairstyleId(offered, current.id) ==> r == current
    ensures !HasHairstyleId(offered, current.id) && (exists h :: h in offered && h.id == "none") ==>
      r in offered && r.id == "none"
    ensures !HasHairstyleId(offered, current.id) && offered != [] && (forall h :: h in offered ==> h.id != "none") ==>
      r == offered[0]
    ensures offered == [] ==> r == current
    ensures offered != [] ==> HasHairstyleId(offered, r.id)
  {
    if !HasHairstyleId(offered, current.id) && |offered| > 0 then
      match Find((h: Hairstyle) => h.id == "none", offered)
      case Some(h) => h
      case None => offered[0]
    else current
  }

  /** Repairing twice is the same as repairing once. */
  lemma RepairIdempotent(o: Outfit, os: seq<Outfit>, h: Hairstyle, hs: seq<Hairstyle>)
    ensures RepairedOutfit(RepairedOutfit(o, os), os) == RepairedOutfit(o, os)
    ensures RepairedHairstyle(RepairedHairstyle(h, hs), hs) == RepairedHairstyle(h, hs)
  {
  }

  /** Every catalog outfit tagged with the selected gender is offered, under
      its own id, whatever the document type. */
  lemma TaggedOutfitOffered(outfits: seq<Outfit>, g: GenderOption, doc: DocumentType, o: Outfit)
    requires o in outfits && TaggedFor(o, g)
    ensures HasOutfitId(FilteredOutfits(outfits, g, doc), o.id)
  {
    var gf := GenderOutfits(outfits, g);
    var r := FilteredOutfits(outfits, g, doc);
    FilterMembership(ForGender(g), outfits);
    assert o in gf;
    if doc.id == "all" {
      var k :| 0 <= k < |gf| && gf[k] == o;
      assert r[k].id == o.id;
    } else {
      var rec := Filter(SuitedTo(doc.id), gf);
      var oth := Filter(NotSuitedTo(doc.id), gf);
      FilterMembership(SuitedTo(doc.id), gf);
      FilterMembership(NotSuitedTo(doc.id), gf);
      if Recommends(o, doc.id) {
        assert o in rec;
        var k :| 0 <= k < |rec| && rec[k] == o;
        assert r[k].id == o.id;
      } else {
        assert o in oth;
        var k :| 0 <= k < |oth| && oth[k] == o;
        assert r[|rec| + k].id == o.id;
      }
    }
  }


  /** When some outfit is tagged Nữ, reset finds one, and it is offered for Nữ
      under every document type. */
  lemma FemaleOutfitOffered(outfits: seq<Outfit>, g: GenderOption, doc: DocumentType)
    requires g.name == Female && GenderOutfits(outfits, g) != []
    ensures FirstFemaleOutfit(outfits).Some?
    ensures HasOutfitId(FilteredOutfits(outfits, g, doc), FirstFemaleOutfit(outfits).value.id)
  {
    FilterMembership(ForGender(g), outfits);
    assert GenderOutfits(outfits, g)[0] in GenderOutfits(outfits, g);
    TaggedOutfitOffered(outfits, g, doc, FirstFemaleOutfit(outfits).value);
  }

  /** The outfit and the hairstyle reset picks are offered for the default
      gender and document type, so the repair step that follows keeps them. */
  lemma ResetChoicesOffered(c: Catalogs)
    requires WellFormed(c)
    ensures FirstFemaleOutfit(c.outfits).Some?
    ensures HasOutfitId(FilteredOutfits(c.outfits, c.genders[0], c.documentTypes[0]), FirstFemaleOutfit(c.outfits).value.id)
    ensures HasHairstyleId(FilteredHairstyles(c.hairstyles, c.genders[0]), c.hairstyles[0].id)
  {
    FemaleOutfitOffered(c.outfits, c.genders[0], c.documentTypes[0]);
    SentinelOffered(c.hairstyles, c.genders[0]);
    assert FilteredHairstyles(c.hairstyles, c.genders[0])[0].id == c.hairstyles[0].id;
  }

  // ---------------------------------------------------------------------
  // Template cascade (App.tsx country-template effect)

  /** The background after the template effect has run. */
  function TemplateBackground(t: CountryTemplate, backgrounds: seq<Background>, current: Background): (r: Background)
    ensures t.id == "custom" ==> r == current
    ensures t.id != "custom" && (exists b :: b in backgrounds && b.id == t.backgroundId) ==>
      r in backgrounds && r.id == t.backgroundId
    ensures t.id != "custom" && (forall b :: b in backgrounds ==> b.id != t.backgroundId) ==> r == current
  {
    if t.id == "custom" then current
    else match Find((b: Background) => b.id == t.backgroundId, backgrounds)
      case Some(b) => b
      case None => current
  }

  /** The aspect ratio after the template effect has run. */
  function TemplateAspectRatio(t: CountryTemplate, ratios: seq<AspectRatio>, current: AspectRatio): (r: AspectRatio)
    ensures t.id == "custom" ==> r == current
    ensures t.id != "custom" && (exists a :: a in ratios && a.id == t.aspectRatioId) ==>
      r in ratios && r.id == t.aspectRatioId
    ensures t.id != "custom" && (forall a :: a in ratios ==> a.id != t.aspectRatioId) ==> r == current
  {
    if t.id == "custom" then current
    else match Find((a: AspectRatio) => a.id == t.aspectRatioId, ratios)
      case Some(a) => a
      case None => current
  }

  /** Applying a template twice gives what applying it once gives, and a
      resolved template forces the same value whatever was selected before. */
  lemma TemplateIdempotent(t: CountryTemplate, bs: seq<Background>, b: Background, b': Background,
                           rs: seq<AspectRatio>, a: AspectRatio)
    ensures TemplateBackground(t, bs, TemplateBackground(t, bs, b)) == TemplateBackground(t, bs, b)
    ensures TemplateAspectRatio(t, rs, TemplateAspectRatio(t, rs, a)) == TemplateAspectRatio(t, rs, a)
    ensures t.id != "custom" && (exists x :: x in bs && x.id == t.backgroundId) ==>
      TemplateBackground(t, bs, b) == TemplateBackground(t, bs, b')
  {
  }

  /** `BACKGROUNDS` / `ASPECT_RATIOS` selectors are disabled unless the template is "custom". */
  predicate ManualSelectionEnabled(t: CountryTemplate)
    ensures ManualSelectionEnabled(t) ==>
      forall bs, b :: TemplateBackground(t, bs, b) == b
    ensures ManualSelectionEnabled(t) ==>
      forall rs, a :: TemplateAspectRatio(t, rs, a) == a
  {
    t.id == "custom"
  }

  /** `GENDERS.find(g => g.name === detected)` */
  function FindGender(genders: seq<GenderOption>, detected: Gender): (r: Option<GenderOption>)
    ensures r.Some? ==> r.value in genders && r.value.name == detected
    ensures r.None? <==> forall g :: g in genders ==> g.name != detected
  {
    Find((g: GenderOption) => g.name == detected, genders)
  }

  /** `OUTFITS.find(o => o.gender === 'Nữ')` */
  function FirstFemaleOutfit(outfits: seq<Outfit>): (r: Option<Outfit>)
    ensures r.Some? ==> r.value in outfits && r.value.gender == Some(Female)
    ensures r.Some? ==>
      exists i :: 0 <= i < |outfits| && outfits[i] == r.value && forall j :: 0 <= j < i ==> outfits[j].gender != Some(Female)
    ensures r.None? <==> forall o :: o in outfits ==> o.gender != Some(Female)
  {
    Find((o: Outfit) => o.gender == Some(Female), outfits)
  }
}
