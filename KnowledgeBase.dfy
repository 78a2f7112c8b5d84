/** The knowledge-base page: the category list, the search-and-category filter over the
    fixed dataset, the featured/regular split, and the two pieces of page state. */
module KnowledgeBase {
  import opened Common
  import opened Text
  import opened KnowledgeTypes
  import opened KnowledgeData
  import opened KnowledgeCard

  /** The sentinel category that disables category filtering. */
  const All := "all"

  /** The page's own icon and colour lookups are the card's: any type outside the four
      known ones shows the `FileText` icon on the gray fallback. */
  lemma UnknownTypeFallsBack(t: string)
    requires t != "article" && t != "gallery" && t != "tutorial" && t != "factsheet"
    ensures IconForType(t) == FileText && ColorForType(t) == Fallback
  {
  }

  /** The case-insensitive text test: the lowered term occurs in the lowered title,
      the lowered description or some lowered tag. */
  predicate TextMatches(item: KnowledgeItem, term: string)
  {
    var needle := Lower(term);
    || Contains(Lower(item.title), needle)
    || Contains(Lower(item.description), needle)
    || exists tag :: tag in item.tags && Contains(Lower(tag), needle)
  }

  /** The category test: exact, case-sensitive equality unless the sentinel is selected. */
  predicate CategoryMatches(item: KnowledgeItem, category: string)
  {
    category == All || item.category == category
  }

  predicate ItemMatches(item: KnowledgeItem, term: string, category: string)
  {
    TextMatches(item, term) && CategoryMatches(item, category)
  }

  /** `filteredItems`. */
  function FilteredItems(items: seq<KnowledgeItem>, term: string, category: string): seq<KnowledgeItem>
  {
    Filter(items, item => ItemMatches(item, term, category))
  }

  /** The filter keeps exactly the matching items, in their original order. */
  lemma FilteredItemsSpec(items: seq<KnowledgeItem>, term: string, category: string)
    ensures forall x :: x in FilteredItems(items, term, category) <==> x in items && ItemMatches(x, term, category)
    ensures IsSubsequence(FilteredItems(items, term, category), items)
  {
    FilterIsSubsequence(items, item => ItemMatches(item, term, category));
  }

  /** With an empty term and the sentinel category every item is shown, in order. */
  lemma EmptyQueryShowsEverything(items: seq<KnowledgeItem>)
    ensures FilteredItems(items, "", All) == items
  {
    forall x | x in items ensures ItemMatches(x, "", All) {
      ContainsEmpty(Lower(x.title));
    }
    FilterAll(items, item => ItemMatches(item, "", All));
  }

  /** The text test ignores the case of the term... */
  lemma TermCaseIsIgnored(items: seq<KnowledgeItem>, term: string, category: string)
    ensures FilteredItems(items, Lower(term), category) == FilteredItems(items, term, category)
  {
    LowerIdempotent(term);
    assert forall x :: ItemMatches(x, Lower(term), category) == ItemMatches(x, term, category);
    FilterSamePredicate(items, item => ItemMatches(item, Lower(term), category),
                        item => ItemMatches(item, term, category));
  }

  /** ...but the category test does not: a category that differs from the item's in
      case alone drops it. */
  lemma CategoryCaseMatters(item: KnowledgeItem, term: string)
    requires item.category != All && Lower(item.category) != item.category
    requires Lower(item.category) != All
    ensures FilteredItems([item], term, Lower(item.category)) == []
  {
  }

  /** `categories`: the sentinel, then each item category once, in first-occurrence order. */
  function Categories(items: seq<KnowledgeItem>): (r: seq<string>)
    ensures |r| >= 1 && r[0] == All
    ensures forall c :: c in r[1..] <==> exists i :: 0 <= i < |items| && items[i].category == c
    ensures NoDuplicates(r[1..])
  {
    var cats := seq(|items|, i requires 0 <= i < |items| => items[i].category);
    forall c ensures c in cats <==> exists i :: 0 <= i < |items| && items[i].category == c {
      if c in cats {
        var k :| 0 <= k < |cats| && cats[k] == c;
        assert items[k].category == c;
      }
      if i :| 0 <= i < |items| && items[i].category == c {
        assert cats[i] == c;
      }
    }
    [All] + Distinct(cats)
  }

  /** The categories after the sentinel follow the order in which they first appear. */
  lemma CategoriesInFirstOccurrenceOrder(items: seq<KnowledgeItem>)
    ensures var cats := seq(|items|, i requires 0 <= i < |items| => items[i].category);
            forall i, j :: 1 <= i < j < |Categories(items)| ==>
              FirstIndex(cats, Categories(items)[i]) < FirstIndex(cats, Categories(items)[j])
  {
    var cats := seq(|items|, i requires 0 <= i < |items| => items[i].category);
    DistinctFirstOccurrenceOrder(cats);
    assert Categories(items)[1..] == Distinct(cats);
  }

  lemma MockCategories()
    ensures Categories(MockKnowledgeItems)
            == ["all", "Materials", "Techniques", "Monuments", "Science", "Conservation", "Industry"]
  {
    var cats := seq(|MockKnowledgeItems|, i requires 0 <= i < |MockKnowledgeItems|
                    => MockKnowledgeItems[i].category);
    assert cats == ["Materials", "Techniques", "Monuments", "Science", "Conservation", "Industry"];
    assert Distinct(cats[..1]) == ["Materials"];
    assert cats[..2][..1] == cats[..1];
    assert Distinct(cats[..2]) == ["Materials", "Techniques"];
    assert cats[..3][..2] == cats[..2];
    assert Distinct(cats[..3]) == ["Materials", "Techniques", "Monuments"];
    assert cats[..4][..3] == cats[..3];
    assert Distinct(cats[..4]) == ["Materials", "Techniques", "Monuments", "Science"];
    assert cats[..5][..4] == cats[..4];
    assert Distinct(cats[..5]) == ["Materials", "Techniques", "Monuments", "Science", "Conservation"];
    assert cats[..5] == cats[..|cats| - 1];
  }

  // ---------------------------------------------------------------------------
  // Featured / regular
  // ---------------------------------------------------------------------------

  /** `item.featured` is truthy only when it is present and true. */
  predicate IsFeatured(item: KnowledgeItem)
  {
    item.featured == Some(true)
  }

  function FeaturedItems(filtered: seq<KnowledgeItem>): seq<KnowledgeItem>
  {
    Filter(filtered, item => IsFeatured(item))
  }

  function RegularItems(filtered: seq<KnowledgeItem>): seq<KnowledgeItem>
  {
    Filter(filtered, item => !IsFeatured(item))
  }

  /** The two buckets partition the filtered list: each occurrence lands in exactly one,
      each keeps the original order, the lengths add up, and an item without a
      `featured` flag is regular. */
  lemma FeaturedRegularPartition(filtered: seq<KnowledgeItem>)
    ensures multiset(FeaturedItems(filtered)) + multiset(RegularItems(filtered)) == multiset(filtered)
    ensures |FeaturedItems(filtered)| + |RegularItems(filtered)| == |filtered|
    ensures IsSubsequence(FeaturedItems(filtered), filtered)
    ensures IsSubsequence(RegularItems(filtered), filtered)
    ensures forall x :: x in filtered && x.featured == None ==> x in RegularItems(filtered)
  {
    FilterPartition(filtered, item => IsFeatured(item), item => !IsFeatured(item));
    FilterIsSubsequence(filtered, item => IsFeatured(item));
    FilterIsSubsequence(filtered, item => !IsFeatured(item));
  }

  /** The "No content found" block is shown exactly when no item matches. */
  predicate ShowsNoContent(items: seq<KnowledgeItem>, term: string, category: string)
  {
    |FilteredItems(items, term, category)| == 0
  }

  lemma NoContentIffNothingMatches(items: seq<KnowledgeItem>, term: string, category: string)
    ensures ShowsNoContent(items, term, category) <==> forall x :: x in items ==> !ItemMatches(x, term, category)
  {
    var r := FilteredItems(items, term, category);
    if r != [] {
      assert r[0] in r;
    }
  }

  /** With an empty term only the category decides. */
  lemma EmptyTermFiltersByCategoryOnly(items: seq<KnowledgeItem>, category: string)
    ensures FilteredItems(items, "", category) == Filter(items, item => CategoryMatches(item, category))
  {
    forall x ensures ItemMatches(x, "", category) == CategoryMatches(x, category) {
      ContainsEmpty(Lower(x.title));
    }
    FilterSamePredicate(items, item => ItemMatches(item, "", category),
                        item => CategoryMatches(item, category));
  }

  /** Only the first item of the dataset is in the "Materials" category. */
  lemma OnlyFirstItemIsMaterials()
    ensures Filter(MockKnowledgeItems, item => CategoryMatches(item, "Materials")) == [MarbleHistory]
  {
    var p := item => CategoryMatches(item, "Materials");
    var rest := MockKnowledgeItems[1..];
    assert forall x :: x in rest ==> x.category != "Materials";
    FilterNone(rest, p);
  }

  /** Selecting "Materials" shows the Carrara article only, as a featured card. */
  lemma MockMaterialsCategory()
    ensures FilteredItems(MockKnowledgeItems, "", "Materials") == [MarbleHistory]
    ensures FeaturedItems(FilteredItems(MockKnowledgeItems, "", "Materials")) == [MarbleHistory]
  {
    EmptyTermFiltersByCategoryOnly(MockKnowledgeItems, "Materials");
    OnlyFirstItemIsMaterials();
    assert Filter([MarbleHistory], item => IsFeatured(item)) == [MarbleHistory];
  }

  /** The gallery item of the dataset is regular, and its regular card prints
      "Video: undefined" where "24 images" was intended. */
  lemma GalleryCardShowsUndefinedVideo()
    ensures !IsFeatured(FamousMonuments)
    ensures RenderCard(FamousMonuments, RegularVariant).metaLines == ["Video: undefined"]
    ensures RegularMetaLineIntended(FamousMonuments) == Some("24 images")
  {
    assert NatToString(24) == NatToString(2) + [DigitChar(4)] == "24";
    assert IntToString(24) + " images" == "24 images";
    assert "Video: " + Interpolate(None) == "Video: undefined";
  }

  // ---------------------------------------------------------------------------
  // Page state
  // ---------------------------------------------------------------------------

  /** The two `useState` fields of the page and what they make visible. */
  class KnowledgeBasePage {
    var searchTerm: string
    var selectedCategory: string

    constructor ()
      ensures searchTerm == "" && selectedCategory == All
    {
      searchTerm := "";
      selectedCategory := All;
    }

    /** The items the page lists; on a fresh page, every item (`EmptyQueryShowsEverything`). */
    function Visible(): (shown: seq<KnowledgeItem>)
      reads this
      ensures forall x :: x in shown <==>
                x in MockKnowledgeItems && ItemMatches(x, searchTerm, selectedCategory)
      ensures IsSubsequence(shown, MockKnowledgeItems)
    {
      FilteredItemsSpec(MockKnowledgeItems, searchTerm, selectedCategory);
      FilteredItems(MockKnowledgeItems, searchTerm, selectedCategory)
    }

    /** The search box's `onChange`. */
    method SetSearchTerm(term: string)
      modifies this
      ensures searchTerm == term && selectedCategory == old(selectedCategory)
    {
      searchTerm := term;
    }

    /** A category button's `onClick`. */
    method SelectCategory(category: string)
      modifies this
      ensures selectedCategory == category && searchTerm == old(searchTerm)
    {
      selectedCategory := category;
    }
  }
}
