/** The discussions page: the fixed topic list, the search-and-category filter over the
    fixed discussions, the category badge colour and label, and the page state. */
module Discussions {
  import opened Common
  import opened Text

  datatype Topic = Topic(id: string, name: string, count: nat)

  datatype Discussion = Discussion(
    id: nat,
    title: string,
    author: string,
    avatar: string,
    category: string,
    replies: nat,
    views: nat,
    likes: nat,
    lastActivity: string,
    lastUser: string,
    isPinned: bool,
    excerpt: string)

  /** The sentinel topic that disables category filtering. */
  const All := "all"

  const Topics: seq<Topic> := [
    Topic("all", "All Topics", 347),
    Topic("conservation", "Conservation", 89),
    Topic("architecture", "Architecture", 124),
    Topic("industry", "Industry", 67),
    Topic("research", "Research", 45),
    Topic("general", "General", 22)
  ]

  const MarbleRestoration := Discussion(
    1, "Best practices for marble restoration in humid climates", "Dr. Maria Santos",
    "/placeholder.svg", "conservation", 23, 1248, 45, "2 hours ago", "John Smith", true,
    "I've been working on a 15th-century marble facade in a coastal environment...")

  const GothicStoneTypes := Discussion(
    2, "Identifying stone types in Gothic cathedrals", "Prof. James Wilson",
    "/placeholder.svg", "architecture", 41, 2156, 78, "4 hours ago", "Sarah Chen", false,
    "Can anyone help identify the limestone variety used in Notre-Dame's construction?")

  const QuarryingMethods := Discussion(
    3, "Modern quarrying techniques vs traditional methods", "Mike Rodriguez",
    "/placeholder.svg", "industry", 17, 834, 32, "6 hours ago", "Anna Mueller", false,
    "Comparing environmental impact and stone quality between old and new methods...")

  const PompeiiFindings := Discussion(
    4, "New archaeological findings in Pompeii stone analysis", "Dr. Alessandro Bianchi",
    "/placeholder.svg", "research", 56, 3421, 127, "1 day ago", "Emma Thompson", true,
    "Recent analysis reveals previously unknown volcanic stone compositions...")

  const MockDiscussions: seq<Discussion> :=
    [MarbleRestoration, GothicStoneTypes, QuarryingMethods, PompeiiFindings]

  // ---------------------------------------------------------------------------
  // The filter
  // ---------------------------------------------------------------------------

  /** The lowered term occurs in the lowered title or the lowered excerpt; the author,
      the last poster and the counters are never searched. */
  predicate SearchMatches(d: Discussion, term: string)
  {
    Contains(Lower(d.title), Lower(term)) || Contains(Lower(d.excerpt), Lower(term))
  }

  predicate DiscussionMatches(d: Discussion, term: string, category: string)
  {
    SearchMatches(d, term) && (category == All || d.category == category)
  }

  /** `filteredDiscussions`. */
  function FilteredDiscussions(ds: seq<Discussion>, term: string, category: string): seq<Discussion>
  {
    Filter(ds, d => DiscussionMatches(d, term, category))
  }

  /** The filter keeps exactly the matching discussions, in their original order. */
  lemma FilteredDiscussionsSpec(ds: seq<Discussion>, term: string, category: string)
    ensures forall d :: d in FilteredDiscussions(ds, term, category) <==>
                          d in ds && DiscussionMatches(d, term, category)
    ensures IsSubsequence(FilteredDiscussions(ds, term, category), ds)
  {
    FilterIsSubsequence(ds, d => DiscussionMatches(d, term, category));
  }

  /** With an empty term and the sentinel topic every discussion is shown, in order. */
  lemma EmptyQueryShowsAll(ds: seq<Discussion>)
    ensures FilteredDiscussions(ds, "", All) == ds
  {
    forall d | d in ds ensures DiscussionMatches(d, "", All) {
      ContainsEmpty(Lower(d.title));
    }
    FilterAll(ds, d => DiscussionMatches(d, "", All));
  }

  /** Author, last poster and pin never take part in the match: a discussion that differs
      only in those is kept or dropped alike. So a term found only in the author's name
      drops the discussion, and pinned discussions are not moved ahead of the others. */
  lemma AuthorLastUserAndPinAreIgnored(d: Discussion, term: string, category: string,
                                       author: string, lastUser: string, pinned: bool)
    ensures DiscussionMatches(d.(author := author, lastUser := lastUser, isPinned := pinned), term, category)
            == DiscussionMatches(d, term, category)
  {
  }

  /** A term found in neither the title nor the excerpt drops the discussion, whatever
      its author and last poster are called. */
  lemma TermOnlyInAuthorDrops(d: Discussion, term: string, category: string)
    requires Contains(Lower(d.author), Lower(term)) || Contains(Lower(d.lastUser), Lower(term))
    requires !Contains(Lower(d.title), Lower(term)) && !Contains(Lower(d.excerpt), Lower(term))
    ensures FilteredDiscussions([d], term, category) == []
  {
  }

  // ---------------------------------------------------------------------------
  // Badges
  // ---------------------------------------------------------------------------

  const Gray := "bg-gray-100 text-gray-800"

  const TopicColors: map<string, string> := map[
    "conservation" := "bg-green-100 text-green-800",
    "architecture" := "bg-blue-100 text-blue-800",
    "industry" := "bg-orange-100 text-orange-800",
    "research" := "bg-purple-100 text-purple-800",
    "general" := Gray]

  /** `getCategoryColor`: each topic its colour, anything else the gray default
      (which the "general" topic shares). */
  function CategoryColor(category: string): (color: string)
    ensures category == "conservation" ==> color == "bg-green-100 text-green-800"
    ensures category == "architecture" ==> color == "bg-blue-100 text-blue-800"
    ensures category == "industry" ==> color == "bg-orange-100 text-orange-800"
    ensures category == "research" ==> color == "bg-purple-100 text-purple-800"
    ensures color == Gray <==> category !in TopicColors || category == "general"
  {
    if category in TopicColors then TopicColors[category] else Gray
  }

  /** `categories.find(c => c.id === id)?.name`: the name of the first topic with that id. */
  function TopicName(topics: seq<Topic>, id: string): (name: Option<string>)
    ensures name.None? <==> forall i :: 0 <= i < |topics| ==> topics[i].id != id
    ensures name.Some? ==> exists i :: 0 <= i < |topics| && topics[i].id == id && topics[i].name == name.value
                                       && forall j :: 0 <= j < i ==> topics[j].id != id
  {
    if topics == [] then None
    else if topics[0].id == id then Some(topics[0].name)
    else
      var rest := TopicName(topics[1..], id);
      assert forall i :: 1 <= i < |topics| ==> topics[i] == topics[1..][i - 1];
      if rest.Some? then
        var k :| 0 <= k < |topics| - 1 && topics[1..][k].id == id && topics[1..][k].name == rest.value
                 && forall j :: 0 <= j < k ==> topics[1..][j].id != id;
        assert topics[k + 1] == topics[1..][k];
        rest
      else rest
  }

  /** Every discussion of the dataset has a labelled badge. */
  lemma EveryDiscussionHasATopic()
    ensures forall d :: d in MockDiscussions ==> TopicName(Topics, d.category).Some?
  {
    assert Topics[1].id == "conservation" && Topics[2].id == "architecture";
    assert Topics[3].id == "industry" && Topics[4].id == "research";
  }

  // ---------------------------------------------------------------------------
  // Sidebar and page state
  // ---------------------------------------------------------------------------

  /** `categories.slice(1)`: every topic except the leading sentinel, in order. */
  function Sidebar(topics: seq<Topic>): (r: seq<Topic>)
    ensures |topics| >= 1 ==> |r| == |topics| - 1 && forall i :: 0 <= i < |r| ==> r[i] == topics[i + 1]
    ensures |topics| == 0 ==> r == []
  {
    if |topics| == 0 then [] else topics[1..]
  }

  /** The fixed sidebar never offers the sentinel. */
  lemma SidebarOmitsAll()
    ensures forall t :: t in Sidebar(Topics) ==> t.id != All
    ensures |Sidebar(Topics)| == |Topics| - 1
  {
  }

  /** The page's two `useState` fields. */
  class DiscussionsPage {
    var searchTerm: string
    var selectedCategory: string

    constructor ()
      ensures searchTerm == "" && selectedCategory == All
    {
      searchTerm := "";
      selectedCategory := All;
    }

    /** The discussions listed under the "Latest" tab. */
    function Visible(): (shown: seq<Discussion>)
      reads this
      ensures forall d :: d in shown <==>
                d in MockDiscussions && DiscussionMatches(d, searchTerm, selectedCategory)
      ensures IsSubsequence(shown, MockDiscussions)
    {
      FilteredDiscussionsSpec(MockDiscussions, searchTerm, selectedCategory);
      FilteredDiscussions(MockDiscussions, searchTerm, selectedCategory)
    }

    /** The search box's `onChange`. */
    method SetSearchTerm(term: string)
      modifies this
      ensures searchTerm == term && selectedCategory == old(selectedCategory)
    {
      searchTerm := term;
    }

    /** The topic select's `onValueChange`. */
    method SelectCategory(id: string)
      modifies this
      ensures selectedCategory == id && searchTerm == old(searchTerm)
    {
      selectedCategory := id;
    }

    /** A click on the `i`-th sidebar entry selects that topic's id. */
    method ClickSidebarTopic(i: nat)
      requires i < |Sidebar(Topics)|
      modifies this
      ensures selectedCategory == Sidebar(Topics)[i].id && selectedCategory != All
      ensures searchTerm == old(searchTerm)
    {
      SidebarOmitsAll();
      selectedCategory := Sidebar(Topics)[i].id;
    }
  }
}
