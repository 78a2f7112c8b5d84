# stone-stories-unveiled — a Dafny model of the front end's logic

stone-stories-unveiled is a React front end about stone heritage: a knowledge base,
discussion and event listings, a community post page, a social feed, an AI chat with
canned answers, and admin forms for posts and locations. It has no backend, and every list
is a hard-coded array. This project models the deterministic logic under its JSX:

- **Search, filter and partition**:
  - the knowledge-base filter, category list and featured/regular split
    (`KnowledgeBase`);
  - the card's icon, colour, tag truncation and meta line (`KnowledgeCard`);
  - the discussion filter and sidebar (`Discussions`);
  - the event status tabs (`Events`).

  The item record and the six-item dataset are in `KnowledgeTypes` and `KnowledgeData`.
- **The post renderer** (`PostDetail`). Content is split at blank lines. Each block is
  classified as `h2`, `h3`, numbered list or paragraph. A list line is parsed by the
  regular expression `\d+\. \*\*(.*?)\*\*: (.*)`, modelled as a leftmost, lazy match.
- **In-place state updates**, each a `class` whose fields are the component's `useState`
  variables:
  - likes and comments in the social feed (`SocialFeed`);
  - the duplicate-free tag list (`ContributionForm`);
  - the type checkboxes and filter chips (`AdvancedSearch`);
  - the append-only post and location tables (`AdminDashboard`).
- **Parsers and lookups**:
  - the comma-separated tag parser (`PostEditor`);
  - address suggestions and the city table (`LocationForm`);
  - the first-keyword-wins responder (`AiChat`).
- **Sign-in state**: the `AuthProvider` login/logout state (`AuthContext`) and the
  sign-in dialog (`AuthModal`).
- **Required-field validators**: `CreateEvent`, `CreateContent` and `CreateDiscussion`,
  plus the submit handlers of `PostEditor` and `LocationForm`.

Shared pieces:

- `Text` holds the JavaScript string built-ins the code relies on:
  - `toLowerCase`, restricted to ASCII;
  - `includes`, `indexOf` and `split`, with `split` proved to round-trip through
    `join`;
  - `trim`, using ECMAScript white space;
  - `replace` of a first occurrence.
- `Common` holds `filter` and `map` over sequences, with their order, partition and
  de-duplication lemmas, plus the toast record.

Toasts, `navigate` targets and `onSave` payloads are values that handlers return.
The clock (`Date.now()`, `new Date()`) becomes a parameter: a fresh id or a date string.

## Model

| member | source | states |
|---|---|---|
| KnowledgeBase.FilteredItemsSpec | src/components/KnowledgeBase.tsx:112-119 | an item is kept iff the lowercased term occurs in its lowercased title, description or some tag, and the category is `'all'` or equal; the result is an order-preserving subsequence of the input |
| KnowledgeBase.EmptyQueryShowsEverything | src/components/KnowledgeBase.tsx:112-119 | an empty term with category `'all'` keeps every item, in order |
| KnowledgeBase.TermCaseIsIgnored | src/components/KnowledgeBase.tsx:113-115 | lowercasing the search term never changes the result |
| KnowledgeBase.CategoryCaseMatters | src/components/KnowledgeBase.tsx:116 | the category test is exact: the lowercased spelling of a mixed-case category drops the item whatever the term |
| KnowledgeBase.EmptyTermFiltersByCategoryOnly | src/components/KnowledgeBase.tsx:112-119 | with an empty term the filter is the category test alone |
| KnowledgeBase.Categories | src/components/KnowledgeBase.tsx:110 | `'all'` first, then exactly the categories the items carry, each once |
| KnowledgeBase.CategoriesInFirstOccurrenceOrder | src/components/KnowledgeBase.tsx:110 | the categories after `'all'` appear in the order of their first occurrence among the items |
| KnowledgeBase.MockCategories | src/components/KnowledgeBase.tsx:110 | on the dataset of src/data/knowledgeData.ts the list is `all, Materials, Techniques, Monuments, Science, Conservation, Industry` |
| KnowledgeBase.FeaturedRegularPartition | src/components/KnowledgeBase.tsx:121-122 | featured and regular items together are the filtered items as a multiset, their lengths sum to the filtered length, both keep the filtered order, and an item with no `featured` field is regular |
| KnowledgeBase.NoContentIffNothingMatches | src/components/KnowledgeBase.tsx:263 | the "No content found" block is shown iff no item matches |
| KnowledgeBase.UnknownTypeFallsBack | src/components/KnowledgeBase.tsx:86-104 | a type outside the four known ones gets the `FileText` icon and `bg-gray-500` |
| KnowledgeBase.OnlyFirstItemIsMaterials | src/data/knowledgeData.ts:4-65 | in the dataset only the first item has category `Materials` |
| KnowledgeBase.MockMaterialsCategory | src/components/KnowledgeBase.tsx:112-121 | selecting `Materials` with an empty term shows the marble-history item, and it is featured |
| KnowledgeBase.GalleryCardShowsUndefinedVideo | src/components/knowledge/KnowledgeCard.tsx:93-96 | the dataset's gallery item is regular; its card prints `Video: undefined` where `24 images` was intended |
| KnowledgeBase.KnowledgeBasePage.constructor | src/components/KnowledgeBase.tsx:107-108 | the search term starts empty and the category starts at `'all'` |
| KnowledgeBase.KnowledgeBasePage.Visible | src/components/KnowledgeBase.tsx:112-119 | the listed items are exactly the dataset's items matching the current term and category, in dataset order |
| KnowledgeBase.KnowledgeBasePage.SetSearchTerm | src/components/KnowledgeBase.tsx:145 | sets the term and keeps the category |
| KnowledgeBase.KnowledgeBasePage.SelectCategory | src/components/KnowledgeBase.tsx:155 | sets the category and keeps the term |
| KnowledgeCard.IconForType | src/components/knowledge/KnowledgeCard.tsx:13-21 | gallery, tutorial and factsheet map to their icons, each iff the type is that name; every other type, `article` included, maps to `FileText` |
| KnowledgeCard.ColorForType | src/components/knowledge/KnowledgeCard.tsx:23-31 | the four types map to blue, purple, green and orange; the fallback `bg-gray-500` is returned iff the type is not a table key |
| KnowledgeCard.KnownTypesAreColoured | src/components/knowledge/KnowledgeCard.tsx:23-31 | no item type of the record falls back to gray |
| KnowledgeCard.NatToString | src/components/knowledge/KnowledgeCard.tsx:64 | a number prints as a non-empty string of decimal digits whose value is the number, with a leading `0` only for zero itself |
| KnowledgeCard.FeaturedMetaLines | src/components/knowledge/KnowledgeCard.tsx:57-65 | one line per truthy field and no other: the read time first if truthy, then `Video: ` and the video length if truthy, and `N images` last if the image count is truthy |
| KnowledgeCard.RegularMetaLine | src/components/knowledge/KnowledgeCard.tsx:93-96 | a line is shown iff some meta field is truthy; it is the read time if truthy, and otherwise always `Video: ` followed by the video length, printing `undefined` when that is absent |
| KnowledgeCard.RegularMetaLineIntended | src/components/knowledge/KnowledgeCard.tsx:57-65 | shown under the same condition; the line is the first of the featured lines, so an image-only item gets `N images` |
| KnowledgeCard.MetaLinesDifferOnlyForImageOnlyItems | src/components/knowledge/KnowledgeCard.tsx:93-96 | the line as written equals the intended one except on items whose only truthy field is the image count |
| KnowledgeCard.RenderCard | src/components/knowledge/KnowledgeCard.tsx:33-114 | icon, colour and type label come from the type, title and description from the item; the featured card lists every tag and its meta lines; the regular card lists the first min(3, n) tags in order, shows a "+N" badge iff there are more than three, with N the number left out, and shows exactly the as-written meta line; a bare `0` is printed iff the image count is 0 (featured) or iff it is 0 and both text fields are falsy (regular) |
| KnowledgeCard.StrayZeroReplacesImageLine | src/components/knowledge/KnowledgeCard.tsx:63-96 | when a bare `0` is printed, the featured card shows only its text lines and the regular card no meta line |
| Discussions.FilteredDiscussionsSpec | src/pages/Discussions.tsx:85-90 | a discussion is kept iff the lowercased term occurs in its lowercased title or excerpt and the category is `'all'` or equal; the result is an order-preserving subsequence |
| Discussions.EmptyQueryShowsAll | src/pages/Discussions.tsx:85-90 | an empty term with `'all'` keeps every discussion, in order |
| Discussions.AuthorLastUserAndPinAreIgnored | src/pages/Discussions.tsx:86-88 | changing author, last user or the pinned flag never changes whether a discussion matches |
| Discussions.TermOnlyInAuthorDrops | src/pages/Discussions.tsx:86-87 | a term found only in the author or last user drops the discussion |
| Discussions.CategoryColor | src/pages/Discussions.tsx:92-101 | the four topic colours; gray iff the category is `general` or unknown |
| Discussions.TopicName | src/pages/Discussions.tsx:178 | the name of the first topic with that id, or nothing iff no topic has it |
| Discussions.EveryDiscussionHasATopic | src/pages/Discussions.tsx:17-83 | every listed discussion's category names a topic |
| Discussions.Sidebar | src/pages/Discussions.tsx:244 | the topics without the first, in order |
| Discussions.SidebarOmitsAll | src/pages/Discussions.tsx:244 | the sidebar never offers `'all'` and lists one topic fewer |
| Discussions.DiscussionsPage.constructor | src/pages/Discussions.tsx:14-15 | the term starts empty and the category at `'all'` |
| Discussions.DiscussionsPage.Visible | src/pages/Discussions.tsx:85-90 | the listed discussions are exactly the mock discussions matching the current term and category, in order |
| Discussions.DiscussionsPage.SetSearchTerm | src/pages/Discussions.tsx:127 | sets the term and keeps the category |
| Discussions.DiscussionsPage.SelectCategory | src/pages/Discussions.tsx:131 | sets the category and keeps the term |
| Discussions.DiscussionsPage.ClickSidebarTopic | src/pages/Discussions.tsx:248 | the clicked topic's id becomes the category, never `'all'` |
| Events.StatusTabs | src/pages/Events.tsx:135-136 | upcoming holds exactly the events with status `upcoming`, past exactly those with `past`, each in order; they are disjoint, any other status is in neither, and their lengths sum to at most the number of events |
| Events.MockEventTabs | src/pages/Events.tsx:13-104 | on the page's five events, the first four are upcoming and the webinar is past |
| Events.EventTypeColor | src/pages/Events.tsx:106-115 | the five event types get their colours; gray iff the type is not a table key |
| Events.StatusColor | src/pages/Events.tsx:117-124 | `upcoming` is green and `ongoing` yellow; every other status is gray |
| Events.MockEventTypesAreColoured | src/pages/Events.tsx:106-115 | no listed event falls back to gray |
| PostDetail.DigitRun | src/pages/PostDetail.tsx:185 | the `\d+` run stays within the string |
| PostDetail.DigitRunSpec | src/pages/PostDetail.tsx:185 | the run is all digits and maximal |
| PostDetail.LazyClose | src/pages/PostDetail.tsx:185 | a found closing `**: ` lies at or after the start |
| PostDetail.LazyCloseSpec | src/pages/PostDetail.tsx:185 | `(.*?)` stops at the nearest `**: `, with no line terminator before it; nothing is found iff a terminator or the end comes first |
| PostDetail.LineEnd | src/pages/PostDetail.tsx:185 | `(.*)` ends within the string |
| PostDetail.LineEndSpec | src/pages/PostDetail.tsx:185 | `(.*)` runs to the first line terminator or the end |
| PostDetail.MatchAtSpells | src/pages/PostDetail.tsx:185 | a match at a position spells digits, `. **`, the bold group, `**: ` and the rest |
| PostDetail.MatchAtOnOneLine | src/pages/PostDetail.tsx:185 | neither captured group contains a line terminator |
| PostDetail.MatchAtLazy | src/pages/PostDetail.tsx:185 | the bold group contains no earlier `**: `, so the lazy group is the shortest |
| PostDetail.MatchAtComplete | src/pages/PostDetail.tsx:185 | digits, `. **` and a `**: ` later on the same line always give a match |
| PostDetail.MatchFromIsLeftmost | src/pages/PostDetail.tsx:185 | `match` returns the match at the leftmost position that has one, and nothing iff no position does |
| PostDetail.MatchAtShape | src/pages/PostDetail.tsx:185 | one digit, `. **`, a bold text without `*` or line breaks, `**: ` and a one-line rest match as exactly that pair |
| PostDetail.ListLineShape | src/pages/PostDetail.tsx:185-189 | an indented list line yields its bold text and rest |
| PostDetail.SampleListLine | src/pages/PostDetail.tsx:31 | the sample post's first list line yields `Precision Measuring` and its description |
| PostDetail.MatchedItems | src/pages/PostDetail.tsx:181-194 | exactly one item per line that matches, in line order (two equal lines give two items), each the parse of its line; a line that does not match gives nothing |
| PostDetail.MatchedItemsMembership | src/pages/PostDetail.tsx:181-194 | an item appears iff some line parses to it |
| PostDetail.ClassifyBlock | src/pages/PostDetail.tsx:166-202 | `h2` iff the block starts with `## `, the text then losing that prefix; `h3` iff it starts with `### ` but not `## `; a list iff neither and it contains `1. **`, `2. **` or `3. **`, its items being those of the block's non-blank lines; otherwise the block verbatim as a paragraph |
| PostDetail.IndentedBlockIsNoHeading | src/pages/PostDetail.tsx:166-178 | a block starting with a space is never a heading |
| PostDetail.IndentedPlainBlockIsParagraph | src/pages/PostDetail.tsx:198-202 | an indented block without list markers is a paragraph of itself |
| PostDetail.SampleIndentedHeading | src/pages/PostDetail.tsx:23 | the sample's indented `## Key Findings` renders as a paragraph |
| PostDetail.RenderContent | src/pages/PostDetail.tsx:165 | one block per piece of the `\n\n` split, in order |
| PostDetail.RenderContentCoversContent | src/pages/PostDetail.tsx:165 | the pieces joined with `\n\n` give back the content, no piece contains `\n\n`, and there is at least one block |
| PostDetail.Capitalize | src/pages/PostDetail.tsx:89 | only the first character changes, to its ASCII upper case; the rest is kept |
| PostDetail.CapitalizeIdempotent | src/pages/PostDetail.tsx:89 | capitalising twice is capitalising once |
| PostDetail.CategoryColor | src/pages/PostDetail.tsx:62-70 | the four category colours; gray iff the category is not a table key |
| PostDetail.HeaderTags | src/pages/PostDetail.tsx:91 | a prefix of the tags of length min(2, n) |
| SocialFeed.ToggleLike | src/components/SocialFeed.tsx:82-86 | flips `isLiked`; likes go down by one if it was liked and up by one otherwise; nothing else changes |
| SocialFeed.ToggleLikeTwice | src/components/SocialFeed.tsx:82-86 | toggling twice restores the post |
| SocialFeed.LikePost | src/components/SocialFeed.tsx:80-88 | same length; posts with the id are toggled, every other post is unchanged |
| SocialFeed.LikeTwiceRestores | src/components/SocialFeed.tsx:79-89 | liking the same id twice restores the list |
| SocialFeed.AddComment | src/components/SocialFeed.tsx:101 | the comment counter goes up by one; nothing else changes |
| SocialFeed.CommentPost | src/components/SocialFeed.tsx:99-103 | same length; posts with the id gain a comment, others are unchanged |
| SocialFeed.CommentTotal | src/components/SocialFeed.tsx:99-103 | the total comment count grows by the number of posts carrying the id |
| SocialFeed.ToggleShown | src/components/SocialFeed.tsx:199 | the open post's id closes the panel; any other id opens that post |
| SocialFeed.ToggleShownTwice | src/components/SocialFeed.tsx:199 | a second click on the same post restores the panel state unless another post's panel was open; then every panel ends closed |
| SocialFeed.LikeSecondInitialPost | src/components/SocialFeed.tsx:28-75 | liking the initially liked post `2` gives 155 likes and clears its flag, leaving post `1` as it was |
| SocialFeed.SocialFeedPage.constructor | src/components/SocialFeed.tsx:28-77 | the three initial posts, an empty draft and no open panel |
| SocialFeed.SocialFeedPage.HandleLike | src/components/SocialFeed.tsx:79-89 | `posts` becomes the liked list; draft and panel are kept |
| SocialFeed.SocialFeedPage.SetNewComment | src/components/SocialFeed.tsx:228 | sets the draft; posts and panel are kept |
| SocialFeed.SocialFeedPage.HandleComment | src/components/SocialFeed.tsx:91-107 | a blank draft changes nothing and raises no toast; otherwise the toast, the commented list, an empty draft and a closed panel |
| SocialFeed.SocialFeedPage.ToggleComments | src/components/SocialFeed.tsx:199 | toggles the panel; posts and draft are kept |
| ContributionForm.TrimmedIsTrim | src/components/ContributionForm.tsx:39-40 | trimming is idempotent, and a trimmed tag is blank iff the input is |
| ContributionForm.AddTagEffect | src/components/ContributionForm.tsx:38-43 | a non-blank tag ends up in the list; a blank one, or one whose trimmed form is already a tag, changes neither list nor draft; an addable one is appended trimmed and clears the draft; the old list is kept as a prefix, growing by at most one |
| ContributionForm.AddTagKeepsValid | src/components/ContributionForm.tsx:39-40 | adding keeps the list free of duplicates and of blank or untrimmed tags |
| ContributionForm.RemoveTagEffect | src/components/ContributionForm.tsx:45-47 | the tag is gone, every other tag stays, the order is kept, and validity is preserved |
| ContributionForm.AddThenRemove | src/components/ContributionForm.tsx:38-47 | adding a new tag and removing it restores the list |
| ContributionForm.ContributionFormState.constructor | src/components/ContributionForm.tsx:17-29 | empty form, images, tags and draft |
| ContributionForm.ContributionFormState.SetCurrentTag | src/components/ContributionForm.tsx:166 | sets the draft only |
| ContributionForm.ContributionFormState.AddTag | src/components/ContributionForm.tsx:38-43 | tags and draft become their added values, the rest is kept, and validity is preserved |
| ContributionForm.ContributionFormState.RemoveTag | src/components/ContributionForm.tsx:45-47 | tags lose the given tag, the rest is kept, and validity is preserved |
| ContributionForm.ContributionFormState.HandleInputChange | src/components/ContributionForm.tsx:49-51 | only the named field of the form changes |
| AdvancedSearch.CheckAppends | src/components/AdvancedSearch.tsx:35-36 | checking appends the type at the end, even when it is already present |
| AdvancedSearch.UncheckRemovesAll | src/components/AdvancedSearch.tsx:37 | unchecking removes every occurrence and keeps the other types in order |
| AdvancedSearch.CheckTwiceUncheckOnce | src/components/AdvancedSearch.tsx:32-39 | checking twice and unchecking once removes the type altogether |
| AdvancedSearch.CheckThenUncheck | src/components/AdvancedSearch.tsx:32-39 | checking an absent type and unchecking it restores the list |
| AdvancedSearch.ActiveChips | src/components/AdvancedSearch.tsx:197-216 | the selected types in order, then exactly the non-empty values among material, era and region, in that order |
| AdvancedSearch.PanelIffChips | src/components/AdvancedSearch.tsx:193-216 | the panel is shown iff there is a chip; after the types there is one chip per non-empty select, material first and region last |
| AdvancedSearch.QueryAndDateRangeNeverCount | src/components/AdvancedSearch.tsx:193 | query and date range change neither the panel nor the chips |
| AdvancedSearch.AdvancedSearchState.constructor | src/components/AdvancedSearch.tsx:21-30 | empty filters, collapsed |
| AdvancedSearch.AdvancedSearchState.HandleTypeChange | src/components/AdvancedSearch.tsx:32-39 | only the type list changes |
| AdvancedSearch.AdvancedSearchState.SetQuery | src/components/AdvancedSearch.tsx:76 | only the query changes |
| AdvancedSearch.AdvancedSearchState.SetMaterial | src/components/AdvancedSearch.tsx:120 | only the material changes |
| AdvancedSearch.AdvancedSearchState.SetEra | src/components/AdvancedSearch.tsx:143 | only the era changes |
| AdvancedSearch.AdvancedSearchState.SetRegion | src/components/AdvancedSearch.tsx:165 | only the region changes |
| AdvancedSearch.AdvancedSearchState.ClearFilters | src/components/AdvancedSearch.tsx:46-55 | every filter is empty, so no panel shows |
| AdvancedSearch.AdvancedSearchState.ToggleExpanded | src/components/AdvancedSearch.tsx:80 | flips the expanded flag only |
| PostEditor.ParseSingleTag | src/components/PostEditor.tsx:44 | a comma-free string saves its trimmed self, or nothing if blank |
| PostEditor.ParseEmptyTags | src/components/PostEditor.tsx:44 | an empty tag string saves no tags |
| PostEditor.ParseTagsAround | src/components/PostEditor.tsx:44 | parsing distributes over a comma: the pieces on both sides, in input order |
| PostEditor.ParsedTagsAreClean | src/components/PostEditor.tsx:44 | every saved tag is non-empty, trimmed and comma-free |
| PostEditor.SaveDropsWhatPreviewShows | src/components/PostEditor.tsx:44-96 | the saved tags are the preview's with the empty pieces dropped |
| PostEditor.PreviewParagraphs | src/components/PostEditor.tsx:84-86 | the preview paragraphs join back with `\n` into the content, and none contains `\n` |
| PostEditor.PostEditorState.constructor | src/components/PostEditor.tsx:18-27 | the initial form (author `Administrator`, status `draft`) and edit mode |
| PostEditor.PostEditorState.HandleSubmit | src/components/PostEditor.tsx:29-61 | an empty title or content saves nothing, raises the destructive toast and keeps the form; otherwise the form's fields, the date and the parsed tags are saved, the toast names the status, and the form resets |
| PostEditor.PostEditorState.SetTitle | src/components/PostEditor.tsx:121 | only the title changes |
| PostEditor.PostEditorState.SetContent | src/components/PostEditor.tsx:163 | only the content changes |
| PostEditor.PostEditorState.SetCategory | src/components/PostEditor.tsx:130 | only the category changes |
| PostEditor.PostEditorState.SetStatus | src/components/PostEditor.tsx:146 | only the status changes |
| PostEditor.PostEditorState.SetTags | src/components/PostEditor.tsx:175 | only the tag string changes |
| PostEditor.PostEditorState.SetPreview | src/components/PostEditor.tsx:63-110 | switches mode and keeps the form |
| AiChat.FindKey | src/pages/AiChat.tsx:45 | the first key from the start index contained in the text, or nothing iff none is |
| AiChat.SimulateResponseSpec | src/pages/AiChat.tsx:36-47 | if key i is the first key in the lowercased question, the answer is the i-th |
| AiChat.NoKeyGetsDefault | src/pages/AiChat.tsx:42-46 | with no key in the question, the default answer |
| AiChat.CarraraWins | src/pages/AiChat.tsx:38-45 | any question mentioning carrara, in any case, gets the Carrara answer whatever else it mentions |
| AiChat.QuickQuestionCarrara | src/pages/AiChat.tsx:29 | the quick question "What is Carrara marble?" gets the Carrara answer |
| AiChat.ResponseIgnoresCase | src/pages/AiChat.tsx:45 | lowercasing the question never changes the answer |
| AiChat.MessageToSend | src/pages/AiChat.tsx:50-51 | a non-empty argument is sent untrimmed; otherwise the trimmed input; nothing is sent iff there is no argument and the input is blank |
| AiChat.AiChatPage.constructor | src/pages/AiChat.tsx:17-26 | only the greeting, an empty input, not loading |
| AiChat.AiChatPage.SetInput | src/pages/AiChat.tsx:160 | only the input changes |
| AiChat.AiChatPage.HandleSend | src/pages/AiChat.tsx:49-62 | nothing to send changes nothing; otherwise exactly one user message is appended at the end, the input is cleared and loading is set |
| AiChat.AiChatPage.ReceiveReply | src/pages/AiChat.tsx:65-74 | appends the simulated answer as a bot message and clears loading |
| LocationForm.AddressSuggestions | src/components/LocationForm.tsx:29-45 | none for a query shorter than 3; otherwise exactly 3, the query followed by `, Rome, Italy`, `, Florence, Italy` and `, Paris, France` |
| LocationForm.SuggestionsExtendQuery | src/components/LocationForm.tsx:36-44 | every suggestion starts with the query, and the London and New York ones are cut off |
| LocationForm.TableKeysSplitToCities | src/components/LocationForm.tsx:52-61 | `key.split(',')[0]` of each table key is its city name |
| LocationForm.FindCity | src/components/LocationForm.tsx:60-62 | the first table city contained in the address, or nothing iff none is |
| LocationForm.RomeWins | src/components/LocationForm.tsx:52-62 | an address containing `Rome` gets Rome's coordinates |
| LocationForm.SuggestionsGeocode | src/components/LocationForm.tsx:36-62 | every suggestion finds coordinates |
| LocationForm.NoCityNoCoordinates | src/components/LocationForm.tsx:64-70 | an address naming no table city finds none |
| LocationForm.SelectedFields | src/components/LocationForm.tsx:47-71 | the address is stored; the coordinates are those of the found city, or unchanged when none is found |
| LocationForm.WithField | src/components/LocationForm.tsx:117-227 | a field setter never touches the address |
| LocationForm.OnlyRequiredFieldsDecide | src/components/LocationForm.tsx:76 | only name, type and address decide whether submit succeeds |
| LocationForm.LocationFormState.constructor | src/components/LocationForm.tsx:16-27 | empty fields and no suggestions |
| LocationForm.LocationFormState.SetField | src/components/LocationForm.tsx:117-227 | only the named field changes |
| LocationForm.LocationFormState.TypeAddress | src/components/LocationForm.tsx:156-158 | the address is set and the suggestions are recomputed |
| LocationForm.LocationFormState.SelectAddress | src/components/LocationForm.tsx:47-71 | the fields after selection, and no suggestions |
| LocationForm.LocationFormState.HandleSubmit | src/components/LocationForm.tsx:73-107 | a missing name, type or address saves nothing and keeps the form; otherwise the fields with status `active` and the time are saved, and the form resets |
| AdminDashboard.PostRow | src/components/AdminDashboard.tsx:121 | the saved post with the fresh id |
| AdminDashboard.LocationRow | src/components/AdminDashboard.tsx:172 | the saved location with the fresh id |
| AdminDashboard.SavedLocationsAreActive | src/components/LocationForm.tsx:87 | a row added from the location form is `active` |
| AdminDashboard.Stats | src/components/AdminDashboard.tsx:66-71 | four stats: `Total Posts` is the post count, `Locations` the location count, `Active Users` the fixed `1,247` and `Pending Reviews` the fixed `23` |
| AdminDashboard.SaveRaisesCount | src/components/AdminDashboard.tsx:66-71 | appending a post raises only the post count by one; appending a location raises only the location count |
| AdminDashboard.AdminDashboardState.constructor | src/components/AdminDashboard.tsx:30-64 | the two initial posts and locations |
| AdminDashboard.AdminDashboardState.SavePost | src/components/AdminDashboard.tsx:120-122 | exactly one row appended at the end, earlier posts and locations untouched |
| AdminDashboard.AdminDashboardState.SaveLocation | src/components/AdminDashboard.tsx:171-173 | exactly one row appended at the end, earlier locations and posts untouched |
| AuthContext.IsAdmin | src/contexts/AuthContext.tsx:59 | true iff a user is signed in with role `admin` |
| AuthContext.CheckCredentials | src/contexts/AuthContext.tsx:43-52 | a user iff the pair is exactly the admin's, and then the admin user |
| AuthContext.CredentialsAreExact | src/contexts/AuthContext.tsx:43 | a different case or a trailing space in the email or password is rejected |
| AuthContext.ValueOf | src/contexts/AuthContext.tsx:59-62 | the context carries the user and `isAdmin` |
| AuthContext.UseAuth | src/contexts/AuthContext.tsx:20-26 | an error iff there is no provider; otherwise the provided value |
| AuthContext.AuthProvider.constructor | src/contexts/AuthContext.tsx:34-39 | the admin is signed in |
| AuthContext.AuthProvider.Login | src/contexts/AuthContext.tsx:41-53 | the right pair signs in the admin; any other pair fails with `Invalid credentials` and keeps the user |
| AuthContext.AuthProvider.Logout | src/contexts/AuthContext.tsx:55-57 | nobody is signed in, so `isAdmin` is false |
| AuthModal.RegisterOutcome | src/components/AuthModal.tsx:36-52 | success iff the passwords are equal; the toast is destructive iff they differ |
| AuthModal.RegisterIgnoresNameAndEmail | src/components/AuthModal.tsx:36-52 | name and email never affect registering |
| AuthModal.PasswordsCompareExactly | src/components/AuthModal.tsx:38 | the comparison is case-sensitive and does not trim |
| AuthModal.AuthModalState.constructor | src/components/AuthModal.tsx:17-24 | closed, with empty forms |
| AuthModal.AuthModalState.SetOpen | src/components/AuthModal.tsx:55 | sets the open flag only |
| AuthModal.AuthModalState.SetLoginForm | src/components/AuthModal.tsx:18 | sets the login form only |
| AuthModal.AuthModalState.SetRegisterForm | src/components/AuthModal.tsx:19-24 | sets the register form only |
| AuthModal.AuthModalState.HandleLogin | src/components/AuthModal.tsx:26-34 | always the success toast, and the dialog closes |
| AuthModal.AuthModalState.HandleRegister | src/components/AuthModal.tsx:36-52 | matching passwords close the dialog; otherwise the error toast and the open flag is kept |
| CreateEvent.WithField | src/pages/CreateEvent.tsx:106-264 | no input control changes `isOnline` |
| CreateEvent.Submit | src/pages/CreateEvent.tsx:56-71 | rejected iff title, description, type or date is empty, with the destructive toast; otherwise the created toast and navigation to `/events` |
| CreateEvent.OnlyFourFieldsDecide | src/pages/CreateEvent.tsx:56 | forms agreeing on those four fields have the same outcome |
| CreateEvent.CategoryIsNotChecked | src/pages/CreateEvent.tsx:56-128 | an empty category, marked required in the form, still passes |
| CreateEvent.BlankTitlePasses | src/pages/CreateEvent.tsx:56 | a whitespace-only title passes |
| CreateEvent.CreateEventPage.constructor | src/pages/CreateEvent.tsx:16-32 | the empty form, which submit rejects |
| CreateEvent.CreateEventPage.SetField | src/pages/CreateEvent.tsx:106-264 | only the named field changes |
| CreateEvent.CreateEventPage.HandleSubmit | src/pages/CreateEvent.tsx:54-72 | the outcome of the required-field check on the current form |
| CreateContent.CreatedToast | src/pages/CreateContent.tsx:50-53 | the success toast names the content type |
| CreateContent.Submit | src/pages/CreateContent.tsx:40-55 | rejected iff title, description or location is empty; otherwise the toast naming the type and navigation to `/admin` |
| CreateContent.OnlyThreeFieldsDecide | src/pages/CreateContent.tsx:40 | only title, description and location decide acceptance, whatever the type |
| CreateContent.ToastNamesTheType | src/pages/CreateContent.tsx:52 | different types give different toasts and the same route |
| CreateContent.CreateContentPage.constructor | src/pages/CreateContent.tsx:17-28 | type `monument` and the empty form |
| CreateContent.CreateContentPage.SwitchTab | src/pages/CreateContent.tsx:81 | the type changes and the shared form is kept |
| CreateContent.CreateContentPage.SetField | src/pages/CreateContent.tsx:104-224 | only the named field changes |
| CreateContent.CreateContentPage.HandleSubmit | src/pages/CreateContent.tsx:38-56 | the outcome of the check for the current type and form |
| CreateDiscussion.Submit | src/pages/CreateDiscussion.tsx:34-49 | rejected iff title, content or category is empty; otherwise the created toast and navigation to `/discussions` |
| CreateDiscussion.TagsNeverDecide | src/pages/CreateDiscussion.tsx:34-119 | the optional tags never change the outcome |
| CreateDiscussion.BlankTitlePasses | src/pages/CreateDiscussion.tsx:34 | a whitespace-only title passes |
| CreateDiscussion.CreateDiscussionPage.constructor | src/pages/CreateDiscussion.tsx:16-21 | the empty form, which submit rejects |
| CreateDiscussion.CreateDiscussionPage.SetField | src/pages/CreateDiscussion.tsx:82-119 | only the named field changes |
| CreateDiscussion.CreateDiscussionPage.HandleSubmit | src/pages/CreateDiscussion.tsx:32-50 | the outcome of the check on the current form |
| Common.Filter | src/components/KnowledgeBase.tsx:112 | `Array.prototype.filter`: no longer than the input; an element is kept iff it is in the input and satisfies the predicate |
| Common.Map | src/pages/PostDetail.tsx:165 | `Array.prototype.map`: same length, element by element |
| Common.FilterIsSubsequence | src/components/KnowledgeBase.tsx:112 | a filter keeps the input order |
| Common.FilterPartition | src/components/KnowledgeBase.tsx:121-122 | a filter and its negation split the input as a multiset and by length |
| Common.FilterDisjoint | src/pages/Events.tsx:135-136 | filters with exclusive predicates share no element and together are no longer than the input |
| Common.FilterSamePredicate | src/components/KnowledgeBase.tsx:112-119 | filters by predicates that agree on every value give the same list |
| Common.FilterNoDuplicates | src/components/ContributionForm.tsx:46 | filtering keeps a duplicate-free list duplicate-free |
| Common.Distinct | src/components/KnowledgeBase.tsx:110 | `Array.from(new Set(...))`: the same elements, each once |
| Common.DistinctFirstOccurrenceOrder | src/components/KnowledgeBase.tsx:110 | the distinct elements keep the order of their first occurrence |
| Text.Lower | src/components/KnowledgeBase.tsx:113 | `toLowerCase`: same length, character by character |
| Text.LowerIdempotent | src/components/KnowledgeBase.tsx:113 | lowercasing twice is lowercasing once |
| Text.ContainsIff | src/components/KnowledgeBase.tsx:113 | `includes` holds iff the pattern occurs at some position |
| Text.IndexOfSpec | src/pages/PostDetail.tsx:165 | `indexOf` gives the leftmost occurrence, or nothing iff there is none |
| Text.ReplacePrefix | src/pages/PostDetail.tsx:169 | replacing the first occurrence of a prefix with nothing drops that prefix |
| Text.JoinSplit | src/pages/PostDetail.tsx:165 | joining the pieces of `split` with the separator gives back the string |
| Text.SplitPiecesLackSeparator | src/pages/PostDetail.tsx:165 | no piece of `split` contains the separator |
| Text.SplitWithoutSeparator | src/components/PostEditor.tsx:44 | a string without the separator splits to itself |
| Text.SplitAround | src/components/PostEditor.tsx:44 | splitting at a one-character separator distributes over an occurrence of it |
| Text.TrimStart | src/components/ContributionForm.tsx:39 | a suffix whose removed prefix is all white space and which does not start with white space |
| Text.TrimEnd | src/components/ContributionForm.tsx:39 | a prefix whose removed suffix is all white space and which does not end with white space |
| Text.Trim | src/components/ContributionForm.tsx:39 | `trim`: no longer than the input, with no white space at either end |
| Text.TrimIdempotent | src/components/ContributionForm.tsx:39 | trimming twice is trimming once |
| Text.IsBlankIff | src/components/SocialFeed.tsx:92 | a string trims to empty iff it is all white space |

## Left out

- Markup: JSX, Tailwind classes, routing and icons beyond their identity are not modelled.
- Clock: `Date.now()` ids and `new Date().toISOString()` become parameters (`freshId`, `today`, `now`). `formatDate` and `toLocaleDateString` in src/pages/Events.tsx:126-133 are not modelled, because they depend on the locale and the clock.
- Message timestamps in src/pages/AiChat.tsx: a message holds id, content and sender only.
- Timers: the one-second delayed reply of src/pages/AiChat.tsx:65-74 is `AiChatPage.ReceiveReply`, which the caller invokes; the timer itself is not modelled.
- Side effects: toasts, `navigate` and `onSave` are values returned by the handlers. `console.log`, `onClose` and the handlers' form events are not modelled.
- ContributionForm.ContributionFormState: `handleSubmit` (src/components/ContributionForm.tsx:31-36) only logs and calls `onClose`, so it has no member.
- The `handleSearch` stub of src/components/AdvancedSearch.tsx:41-44 only logs, so it has no member.
- LocationForm.SelectedFields: coordinates are floating-point numbers in the source; the model keeps each city's `toString()` text as an opaque string.
- Text.Lower: ASCII letters only; full Unicode case mapping is not modelled.
- PostDetail.Capitalize: upper-cases an ASCII first letter only. `toUpperCase` maps every Unicode letter (`é` to `É`) and can lengthen the string (`ß` to `SS`); neither is modelled, so the same length holds of the model only.
- KnowledgeCard.FeaturedMetaLines: the image count is an integer. A JavaScript `number` may be fractional or `NaN` (`2.5 images`, or a bare `NaN` printed like the stray `0`); neither is modelled.
- KnowledgeCard.RegularMetaLine: the `<p>` line only. The bare `0` its guard leaves for a zero image count is the card's `strayZero`, stated by `KnowledgeCard.RenderCard`. The image count is an integer here too, so the bare `NaN` of a `NaN` count is not modelled.
- Lengths count characters, not UTF-16 code units; this matters only for the three-character threshold of `LocationForm.AddressSuggestions` on non-BMP input.
- Table lookups (`colors[type] || default`) are `map` lookups over the table's own keys; keys inherited from `Object.prototype`, such as `constructor`, are not modelled.
- Events: the `selectedFilter` state (src/pages/Events.tsx:11) is declared but never read, so it has no field.
- CreateEvent.WithField: `isOnline` has no input control on the page, so no setter changes it.
- CreateContent: the `images` field is a string in the form record and is kept as one.
- The `Select` controls' option lists are not modelled: any string can be set where the page offers a fixed list.

## Findings

| source | as written | input that shows it | evidently intended | confidence | as-written member | corrected member |
|---|---|---|---|---|---|---|
| src/components/knowledge/KnowledgeCard.tsx:93-96 | the regular meta line falls back from the read time to the template string "Video: " + video length, and only then to the image count; the template string is never empty, so an item with only an image count shows `Video: undefined` | the `World Famous Stone Monuments` gallery item of src/data/knowledgeData.ts:25-34 (no read time, no video length, 24 images, not featured) | `24 images`, the first line the featured variant would show | not executed | KnowledgeCard.RegularMetaLine, exhibited by KnowledgeBase.GalleryCardShowsUndefinedVideo | KnowledgeCard.RegularMetaLineIntended, related to it by KnowledgeCard.MetaLinesDifferOnlyForImageOnlyItems |

`KnowledgeCard.RenderCard` keeps the line as written, because the card model states what the
page shows. `KnowledgeCard.RegularMetaLineIntended` is the corrected definition. Its
contract proves it picks the first of the featured lines.
