/** What a knowledge card shows for an item: the type icon and badge colour, the meta
    lines, and the tag badges, in the featured and in the regular variant. */
module KnowledgeCard {
  import opened Common
  import opened KnowledgeTypes

  datatype Icon = FileText | Image | Play | Download

  const IconMap: map<string, Icon> :=
    map["article" := FileText, "gallery" := Image, "tutorial" := Play, "factsheet" := Download]

  const ColorMap: map<string, string> :=
    map["article" := "bg-blue-500", "gallery" := "bg-purple-500",
        "tutorial" := "bg-green-500", "factsheet" := "bg-orange-500"]

  const Fallback := "bg-gray-500"

  /** `getIconForType`: gallery, tutorial and factsheet have their own icon; article
      and every unknown type show `FileText`. */
  function IconForType(t: string): (icon: Icon)
    ensures icon == Image <==> t == "gallery"
    ensures icon == Play <==> t == "tutorial"
    ensures icon == Download <==> t == "factsheet"
    ensures icon == FileText <==> t != "gallery" && t != "tutorial" && t != "factsheet"
  {
    if t in IconMap then IconMap[t] else FileText
  }

  /** `getColorForType`: each of the four types has its own colour and every other
      string falls back to gray, which no known type uses. */
  function ColorForType(t: string): (color: string)
    ensures t == "article" ==> color == "bg-blue-500"
    ensures t == "gallery" ==> color == "bg-purple-500"
    ensures t == "tutorial" ==> color == "bg-green-500"
    ensures t == "factsheet" ==> color == "bg-orange-500"
    ensures color == Fallback <==> t !in ColorMap
  {
    if t in ColorMap then ColorMap[t] else Fallback
  }

  /** Every item kind gets a colour of its own. */
  lemma KnownTypesAreColoured(k: ItemType)
    ensures ColorForType(TypeName(k)) != Fallback
  {
  }

  // ---------------------------------------------------------------------------
  // Numbers as text
  // ---------------------------------------------------------------------------

  function DigitChar(d: nat): (c: char)
    requires d < 10
    ensures '0' <= c <= '9'
  {
    ('0' as int + d) as char
  }

  /** The number a string of decimal digits denotes, read from the left. */
  function DigitsValue(s: string): nat
    requires forall i :: 0 <= i < |s| ==> '0' <= s[i] <= '9'
  {
    if s == [] then 0 else DigitsValue(s[..|s| - 1]) * 10 + (s[|s| - 1] as int - '0' as int)
  }

  /** The decimal digits of `n`: they denote `n`, and only zero itself starts with `0`. */
  function NatToString(n: nat): (s: string)
    ensures |s| >= 1
    ensures forall i :: 0 <= i < |s| ==> '0' <= s[i] <= '9'
    ensures DigitsValue(s) == n
    ensures s[0] == '0' <==> n == 0
  {
    if n < 10 then [DigitChar(n)]
    else
      var s := NatToString(n / 10) + [DigitChar(n % 10)];
      assert s[..|s| - 1] == NatToString(n / 10);
      s
  }

  /** `${n}` of an integer. */
  function IntToString(n: int): string
  {
    if n < 0 then "-" + NatToString(-n) else NatToString(n)
  }

  // ---------------------------------------------------------------------------
  // Meta lines
  // ---------------------------------------------------------------------------

  /** 1 for a truthy field, 0 for a falsy one. */
  function OneIf(b: bool): nat { if b then 1 else 0 }

  /** The featured variant prints one line per truthy field, in the order read time,
      video length, image count. */
  function FeaturedMetaLines(item: KnowledgeItem): (lines: seq<string>)
    ensures |lines| ==
      OneIf(TruthyText(item.readTime)) + OneIf(TruthyText(item.videoLength))
      + OneIf(TruthyCount(item.imageCount))
    ensures lines == [] <==>
      !TruthyText(item.readTime) && !TruthyText(item.videoLength) && !TruthyCount(item.imageCount)
    ensures TruthyText(item.readTime) ==> lines[0] == item.readTime.value
    ensures TruthyText(item.videoLength) ==>
      lines[OneIf(TruthyText(item.readTime))] == "Video: " + item.videoLength.value
    ensures TruthyCount(item.imageCount) ==>
      lines[|lines| - 1] == IntToString(item.imageCount.value) + " images"
  {
    (if TruthyText(item.readTime) then [item.readTime.value] else [])
    + (if TruthyText(item.videoLength) then ["Video: " + item.videoLength.value] else [])
    + (if TruthyCount(item.imageCount) then [IntToString(item.imageCount.value) + " images"] else [])
  }

  /** `{item.imageCount && <p>…</p>}` evaluates to the number 0 for a zero count, and
      React prints a number child as text: the featured card shows a bare "0" where the
      image line would be. An empty read time or video length prints nothing. */
  predicate FeaturedStrayZero(item: KnowledgeItem)
  {
    item.imageCount == Some(0)
  }

  /** The regular variant's single meta line, as written:
      `(readTime || videoLength || imageCount) && (readTime || \`Video: ${videoLength}\` || ...)`.
      The template string is never empty, so the image-count alternative is dead. */
  function RegularMetaLine(item: KnowledgeItem): (line: Option<string>)
    ensures line.Some? <==>
      TruthyText(item.readTime) || TruthyText(item.videoLength) || TruthyCount(item.imageCount)
    ensures line.Some? ==>
      if TruthyText(item.readTime) then line.value == item.readTime.value
      else line.value == "Video: " + Interpolate(item.videoLength)
  {
    if !(TruthyText(item.readTime) || TruthyText(item.videoLength) || TruthyCount(item.imageCount))
    then None
    else if TruthyText(item.readTime) then Some(item.readTime.value)
    else Some("Video: " + Interpolate(item.videoLength))
  }

  /** The guard `(readTime || videoLength || imageCount) && <p>…</p>` of the regular card:
      with both texts falsy, the guard is the image count itself, so a zero count leaves
      a bare "0" on the card. */
  predicate RegularStrayZero(item: KnowledgeItem)
  {
    !TruthyText(item.readTime) && !TruthyText(item.videoLength) && item.imageCount == Some(0)
  }

  /** The regular meta line as evidently intended: the first of the featured lines. */
  function RegularMetaLineIntended(item: KnowledgeItem): (line: Option<string>)
    ensures line.Some? <==>
      TruthyText(item.readTime) || TruthyText(item.videoLength) || TruthyCount(item.imageCount)
    ensures line.Some? ==> line.value in FeaturedMetaLines(item)
    ensures line.Some? ==> |FeaturedMetaLines(item)| > 0 && line.value == FeaturedMetaLines(item)[0]
    ensures !TruthyText(item.readTime) && !TruthyText(item.videoLength) && TruthyCount(item.imageCount)
            ==> line == Some(IntToString(item.imageCount.value) + " images")
  {
    var lines := FeaturedMetaLines(item);
    if lines == [] then None else Some(lines[0])
  }

  /** Both meta lines agree except on an item whose only truthy field is its image count,
      where the line as written prints the absent video length. */
  lemma MetaLinesDifferOnlyForImageOnlyItems(item: KnowledgeItem)
    ensures TruthyText(item.readTime) || TruthyText(item.videoLength) || !TruthyCount(item.imageCount)
            ==> RegularMetaLine(item) == RegularMetaLineIntended(item)
    ensures !TruthyText(item.readTime) && !TruthyText(item.videoLength) && TruthyCount(item.imageCount)
            ==> RegularMetaLine(item) == Some("Video: " + Interpolate(item.videoLength))
  {
  }

  // ---------------------------------------------------------------------------
  // The card
  // ---------------------------------------------------------------------------

  datatype Variant = FeaturedVariant | RegularVariant

  /** What a card shows. `categoryBadge` is only shown by the featured variant;
      `strayZero` is a bare "0" printed after the meta lines; `overflow` is the N of the
      "+N" badge. */
  datatype Card = Card(
    icon: Icon,
    color: string,
    typeLabel: string,
    categoryBadge: Option<string>,
    title: string,
    description: string,
    metaLines: seq<string>,
    strayZero: bool,
    tags: seq<string>,
    overflow: Option<nat>)

  function Min(a: nat, b: nat): nat { if a <= b then a else b }

  /** `KnowledgeCard`: both variants show the item's title and description; the featured
      variant lists every tag and every meta line; the regular one at most the first three
      tags, in order, plus a "+N" badge for exactly the ones it leaves out, and its single
      meta line as written. */
  function RenderCard(item: KnowledgeItem, variant: Variant): (c: Card)
    ensures c.icon == IconForType(TypeName(item.kind)) && c.color == ColorForType(TypeName(item.kind))
    ensures c.typeLabel == TypeName(item.kind)
    ensures c.title == item.title && c.description == item.description
    ensures variant == FeaturedVariant ==>
      c.tags == item.tags && c.overflow == None && c.categoryBadge == Some(item.category)
      && c.metaLines == FeaturedMetaLines(item)
      && (c.strayZero <==> item.imageCount == Some(0))
    ensures variant == RegularVariant ==>
      && c.tags <= item.tags
      && |c.tags| == Min(3, |item.tags|)
      && (c.overflow.Some? <==> |item.tags| > 3)
      && (c.overflow.Some? ==> |c.tags| + c.overflow.value == |item.tags|)
      && c.categoryBadge == None
      && c.metaLines == (if RegularMetaLine(item).Some? then [RegularMetaLine(item).value] else [])
      && (c.strayZero <==>
            !TruthyText(item.readTime) && !TruthyText(item.videoLength) && item.imageCount == Some(0))
  {
    var name := TypeName(item.kind);
    match variant
    case FeaturedVariant =>
      Card(IconForType(name), ColorForType(name), name, Some(item.category), item.title,
           item.description, FeaturedMetaLines(item), FeaturedStrayZero(item), item.tags, None)
    case RegularVariant =>
      var meta := RegularMetaLine(item);
      Card(IconForType(name), ColorForType(name), name, None, item.title, item.description,
           if meta.Some? then [meta.value] else [], RegularStrayZero(item),
           item.tags[..Min(3, |item.tags|)],
           if |item.tags| > 3 then Some(|item.tags| - 3) else None)
  }

  /** A stray "0" takes the place of the image line: the featured card then shows only
      the text lines, and the regular card shows no meta line at all. */
  lemma StrayZeroReplacesImageLine(item: KnowledgeItem, variant: Variant)
    ensures RenderCard(item, variant).strayZero ==>
      |RenderCard(item, variant).metaLines| ==
        if variant == RegularVariant then 0
        else OneIf(TruthyText(item.readTime)) + OneIf(TruthyText(item.videoLength))
  {
  }
}
