/**
 * The SiliconFlow model catalogue: which chat models accept images, which of
 * them only do text recognition, their display names and the modes offered.
 */
module Catalogue {
  import opened Wrappers
  import opened Text

  /** A model id is a vision model when it matches one of the known name patterns. */
  predicate IsVisionModel(id: string) {
    var upper := ToUpper(id);
    Contains(upper, "VL") || Contains(upper, "OCR") || Contains(upper, "PADDLEOCR")
    || Contains(upper, "OMNI") || Contains(upper, "CAPTIONER") || Contains(id, "vl2")
    || Contains(id, "Kimi-K2.5")
    || (var last := AfterLast(id, '/'); Contains(last, "GLM-") && EndsWith(last, "V"))
  }

  /** Models that only transcribe text and are offered for OCR alone. */
  predicate IsOcrOnlyModel(id: string) {
    var upper := ToUpper(id);
    Contains(upper, "PADDLEOCR") || Contains(upper, "DEEPSEEK-OCR") || Contains(upper, "CAPTIONER")
  }

  /** Every OCR-only model passes the vision filter, so none is lost from the catalogue. */
  lemma OcrOnlyIsVision(id: string)
    ensures IsOcrOnlyModel(id) ==> IsVisionModel(id)
  {
    var upper := ToUpper(id);
    if Contains(upper, "DEEPSEEK-OCR") {
      ContainsAt("DEEPSEEK-OCR", "OCR", 9);
      ContainsTransitive(upper, "DEEPSEEK-OCR", "OCR");
    }
  }

  const InstructSuffix: string := "-Instruct"
  const ProPrefix: string := "Pro/"
  const ProMarker: string := " (Pro)"

  /** `k` copies of `x`. */
  function Repeat(x: string, k: nat): string {
    if k == 0 then "" else Repeat(x, k - 1) + x
  }

  /** `trim_end_matches(x)`: remove copies of `x` from the end for as long as there is one. */
  function TrimEndMatches(s: string, x: string): (r: string)
    requires |x| > 0
    ensures !EndsWith(r, x)
    decreases |s|
  {
    if EndsWith(s, x) then TrimEndMatches(s[..|s| - |x|], x) else s
  }

  /** How many copies of `x` `TrimEndMatches` removes. */
  function CopiesTrimmed(s: string, x: string): nat
    requires |x| > 0
    decreases |s|
  {
    if EndsWith(s, x) then CopiesTrimmed(s[..|s| - |x|], x) + 1 else 0
  }

  /** What `TrimEndMatches` removed is a run of copies of `x`. */
  lemma {:induction false} TrimEndMatchesSplit(s: string, x: string)
    requires |x| > 0
    ensures s == TrimEndMatches(s, x) + Repeat(x, CopiesTrimmed(s, x))
    decreases |s|
  {
    if EndsWith(s, x) {
      var t := s[..|s| - |x|];
      TrimEndMatchesSplit(t, x);
      assert s == t + x;
    }
  }

  /**
   * `name` is the display name of the path segment `seg`: the segment with
   * every trailing `-Instruct` removed.
   */
  ghost predicate NameOfSegment(seg: string, name: string) {
    '/' !in name && !EndsWith(name, InstructSuffix)
    && exists k: nat :: seg == name + Repeat(InstructSuffix, k)
  }

  lemma {:induction false} RepeatAppend(x: string, j: nat, k: nat)
    ensures Repeat(x, j + k) == Repeat(x, j) + Repeat(x, k)
    decreases k
  {
    if k > 0 {
      RepeatAppend(x, j, k - 1);
    }
  }

  /** A segment has only one display name: the characterisation fixes the result. */
  lemma NameOfSegmentUnique(seg: string, a: string, b: string)
    requires NameOfSegment(seg, a) && NameOfSegment(seg, b)
    ensures a == b
  {
    var j: nat :| seg == a + Repeat(InstructSuffix, j);
    var k: nat :| seg == b + Repeat(InstructSuffix, k);
    if j < k {
      LongerRunEndsWithSuffix(a, b, j, k);
    } else if k < j {
      LongerRunEndsWithSuffix(b, a, k, j);
    } else {
      SameSuffixSamePrefix(a, b, Repeat(InstructSuffix, j));
    }
  }

  /** If `a` followed by `j` copies equals `b` followed by more copies, `a` ends with a copy. */
  lemma LongerRunEndsWithSuffix(a: string, b: string, j: nat, k: nat)
    requires j < k && a + Repeat(InstructSuffix, j) == b + Repeat(InstructSuffix, k)
    ensures EndsWith(a, InstructSuffix)
  {
    RepeatAppend(InstructSuffix, k - j, j);
    var c := b + Repeat(InstructSuffix, k - j - 1) + InstructSuffix;
    assert b + Repeat(InstructSuffix, k) == c + Repeat(InstructSuffix, j);
    SameSuffixSamePrefix(a, c, Repeat(InstructSuffix, j));
  }

  lemma SameSuffixSamePrefix(a: string, b: string, t: string)
    requires a + t == b + t
    ensures a == b
  {
    assert a == (a + t)[..|a|];
    assert b == (b + t)[..|b|];
  }

  /**
   * `model_id_to_name`: the last path segment without trailing `-Instruct`;
   * a `Pro/` id is named after the rest of the id and marked ` (Pro)`.
   */
  function ModelIdToName(id: string): (name: string)
    ensures StartsWith(id, ProPrefix) ==>
      EndsWith(name, ProMarker)
      && NameOfSegment(AfterLast(id[|ProPrefix|..], '/'), name[..|name| - |ProMarker|])
    ensures !StartsWith(id, ProPrefix) ==> NameOfSegment(AfterLast(id, '/'), name)
  {
    var isPro := StartsWith(id, ProPrefix);
    var stripped := if isPro then id[|ProPrefix|..] else id;
    var seg := AfterLast(stripped, '/');
    var base := TrimEndMatches(seg, InstructSuffix);
    assert NameOfSegment(seg, base) by {
      TrimEndMatchesSplit(seg, InstructSuffix);
      assert forall c :: c in base ==> c in seg;
    }
    if isPro then
      var name := base + ProMarker;
      assert name[..|name| - |ProMarker|] == base;
      name
    else base
  }

  /** A non-`Pro/` name contains no `/` and does not end in `-Instruct`. */
  lemma PlainNameShape(id: string)
    requires !StartsWith(id, ProPrefix)
    ensures '/' !in ModelIdToName(id) && !EndsWith(ModelIdToName(id), InstructSuffix)
  {
  }

  /** The modes a SiliconFlow model is offered for. */
  function SfModes(id: string): (modes: seq<string>)
    ensures "ocr" in modes
    ensures "formula" in modes <==> !IsOcrOnlyModel(id)
    ensures forall m :: m in modes ==> m == "ocr" || m == "formula"
    ensures |modes| == if IsOcrOnlyModel(id) then 1 else 2
  {
    if IsOcrOnlyModel(id) then ["ocr"] else ["formula", "ocr"]
  }

  /**
   * The price of a model as read from the pricing page: not listed, free
   * (input and output price zero), or paid, with the two prices as printed.
   */
  datatype Price = Unlisted | Free | Paid(input: string, output: string)

  /** A catalogue entry; the numeric prices are not modelled. */
  datatype SfModel = SfModel(id: string, name: string, pricing: string, modes: seq<string>, free: bool)

  const UnknownPriceLabel: string := "价格未知"
  const FreeLabel: string := "免费"

  /** The price column: the label tells an unlisted, a free and a paid model apart. */
  function PricingLabel(p: Price): (l: string)
    ensures p.Unlisted? <==> l == UnknownPriceLabel
    ensures p.Free? <==> l == FreeLabel
    ensures p.Paid? ==> l == "入¥" + p.input + "/出¥" + p.output
  {
    match p
    case Unlisted => UnknownPriceLabel
    case Free => FreeLabel
    case Paid(input, output) => "入¥" + input + "/出¥" + output
  }

  function PriceOf(prices: map<string, Price>, id: string): Price {
    if id in prices then prices[id] else Unlisted
  }

  /** The catalogue entry built for one vision model id. */
  function EntryOf(id: string, prices: map<string, Price>): (m: SfModel)
    ensures m.id == id && m.name == ModelIdToName(id) && m.modes == SfModes(id)
    ensures m.free <==> PriceOf(prices, id) == Free
    ensures m.pricing == PricingLabel(PriceOf(prices, id))
  {
    var p := PriceOf(prices, id);
    SfModel(id, ModelIdToName(id), PricingLabel(p), SfModes(id), p.Free?)
  }

  /**
   * The catalogue for a list of chat model ids: `filter(is_vision_model)`
   * then `map` to entries, so one entry per vision model, in the order of
   * the ids (`CatalogueInOrder`, `CatalogueCounted`).
   */
  function VisionCatalogue(ids: seq<string>, prices: map<string, Price>): (ms: seq<SfModel>)
    ensures |ms| <= |ids|
    ensures forall k :: 0 <= k < |ms| ==> IsVisionModel(ms[k].id)
  {
    var vision := Filter(IsVisionModel, ids);
    seq(|vision|, k requires 0 <= k < |vision| => EntryOf(vision[k], prices))
  }

  /** The ids of the catalogue entries, in catalogue order. */
  function CatalogueIds(ms: seq<SfModel>): (ids: seq<string>)
    ensures |ids| == |ms|
    ensures forall k :: 0 <= k < |ms| ==> ids[k] == ms[k].id
  {
    seq(|ms|, k requires 0 <= k < |ms| => ms[k].id)
  }

  /** The catalogue holds exactly the vision model ids, and each entry is the one built for its id. */
  lemma CatalogueIsVisionIds(ids: seq<string>, prices: map<string, Price>)
    ensures CatalogueIds(VisionCatalogue(ids, prices)) == Filter(IsVisionModel, ids)
    ensures forall m :: m in VisionCatalogue(ids, prices) ==> m == EntryOf(m.id, prices)
  {
    var ms := VisionCatalogue(ids, prices);
    assert forall m :: m in ms ==> exists k :: 0 <= k < |ms| && m == ms[k];
  }

  /** Every catalogue entry is the entry built for one of the listed ids. */
  lemma CatalogueEntriesFromIds(ids: seq<string>, prices: map<string, Price>)
    ensures forall m :: m in VisionCatalogue(ids, prices) ==> m.id in ids && m == EntryOf(m.id, prices)
  {
    var ms := VisionCatalogue(ids, prices);
    var vision := Filter(IsVisionModel, ids);
    CatalogueIsVisionIds(ids, prices);
    FilterMembers(IsVisionModel, ids);
    forall m | m in ms
      ensures m.id in ids
    {
      var k :| 0 <= k < |ms| && ms[k] == m;
      assert vision[k] == m.id;
      assert m.id in vision;
    }
  }

  /** Every listed vision model has its entry in the catalogue. */
  lemma CatalogueComplete(ids: seq<string>, prices: map<string, Price>)
    ensures forall id :: id in ids && IsVisionModel(id) ==> EntryOf(id, prices) in VisionCatalogue(ids, prices)
  {
    forall id | id in ids && IsVisionModel(id)
      ensures EntryOf(id, prices) in VisionCatalogue(ids, prices)
    {
      CatalogueHasEntry(ids, prices, id);
    }
  }

  lemma CatalogueHasEntry(ids: seq<string>, prices: map<string, Price>, id: string)
    requires id in ids && IsVisionModel(id)
    ensures EntryOf(id, prices) in VisionCatalogue(ids, prices)
  {
    var vision := Filter(IsVisionModel, ids);
    FilterMembers(IsVisionModel, ids);
    assert id in vision;
    var k :| 0 <= k < |vision| && vision[k] == id;
    var ms := VisionCatalogue(ids, prices);
    assert ms[k] == EntryOf(id, prices);
  }

  /** The catalogue keeps the order of the listed ids. */
  lemma CatalogueInOrder(ids: seq<string>, prices: map<string, Price>)
    ensures IsSubsequence(CatalogueIds(VisionCatalogue(ids, prices)), ids)
  {
    CatalogueIsVisionIds(ids, prices);
    FilterInOrder(IsVisionModel, ids);
  }

  /**
   * Nothing is merged or dropped: each vision model id has as many entries
   * as it occurs in the list, and no other id has any.
   */
  lemma CatalogueCounted(ids: seq<string>, prices: map<string, Price>)
    ensures forall id ::
      multiset(CatalogueIds(VisionCatalogue(ids, prices)))[id] == (if IsVisionModel(id) then multiset(ids)[id] else 0)
  {
    CatalogueIsVisionIds(ids, prices);
    FilterCounted(IsVisionModel, ids);
  }
}
