/** The social feed: a list of posts whose like and comment counters the handlers update
    by replacing the list, the comment draft, and which post's comment panel is open. */
module SocialFeed {
  import opened Common
  import opened Text

  datatype SocialPost = SocialPost(
    id: string,
    author: string,
    authorAvatar: string,
    location: string,
    date: string,
    image: string,
    title: string,
    description: string,
    likes: int,
    comments: int,
    views: int,
    tags: seq<string>,
    isLiked: bool)

  // ---------------------------------------------------------------------------
  // The list updates of `handleLike` and `handleComment`
  // ---------------------------------------------------------------------------

  /** A like on one post: the flag flips and the counter follows it. */
  function ToggleLike(p: SocialPost): (r: SocialPost)
    ensures r.isLiked == !p.isLiked
    ensures r.likes == if p.isLiked then p.likes - 1 else p.likes + 1
    ensures r.(isLiked := p.isLiked, likes := p.likes) == p
  {
    p.(isLiked := !p.isLiked, likes := if p.isLiked then p.likes - 1 else p.likes + 1)
  }

  /** Liking twice is not liking at all. */
  lemma ToggleLikeTwice(p: SocialPost)
    ensures ToggleLike(ToggleLike(p)) == p
  {
  }

  /** `posts.map(post => post.id === postId ? <toggled> : post)`. */
  function LikePost(posts: seq<SocialPost>, id: string): (r: seq<SocialPost>)
    ensures |r| == |posts|
    ensures forall i :: 0 <= i < |posts| && posts[i].id == id ==> r[i] == ToggleLike(posts[i])
    ensures forall i :: 0 <= i < |posts| && posts[i].id != id ==> r[i] == posts[i]
  {
    if posts == [] then []
    else [if posts[0].id == id then ToggleLike(posts[0]) else posts[0]] + LikePost(posts[1..], id)
  }

  /** A second like on the same post undoes the first, for the whole list. */
  lemma LikeTwiceRestores(posts: seq<SocialPost>, id: string)
    ensures LikePost(LikePost(posts, id), id) == posts
  {
    var r := LikePost(LikePost(posts, id), id);
    forall i | 0 <= i < |posts| ensures r[i] == posts[i] {
      ToggleLikeTwice(posts[i]);
    }
  }

  /** A comment on one post: its counter goes up by one and nothing else changes. */
  function AddComment(p: SocialPost): (r: SocialPost)
    ensures r.comments == p.comments + 1
    ensures r.(comments := p.comments) == p
  {
    p.(comments := p.comments + 1)
  }

  /** `posts.map(post => post.id === postId ? {...post, comments: post.comments + 1} : post)`. */
  function CommentPost(posts: seq<SocialPost>, id: string): (r: seq<SocialPost>)
    ensures |r| == |posts|
    ensures forall i :: 0 <= i < |posts| && posts[i].id == id ==> r[i] == AddComment(posts[i])
    ensures forall i :: 0 <= i < |posts| && posts[i].id != id ==> r[i] == posts[i]
  {
    if posts == [] then []
    else [if posts[0].id == id then AddComment(posts[0]) else posts[0]] + CommentPost(posts[1..], id)
  }

  /** Total of the comment counters. */
  function TotalComments(posts: seq<SocialPost>): int
  {
    if posts == [] then 0 else posts[0].comments + TotalComments(posts[1..])
  }

  /** How many posts carry the id. */
  function CountId(posts: seq<SocialPost>, id: string): nat
  {
    if posts == [] then 0 else (if posts[0].id == id then 1 else 0) + CountId(posts[1..], id)
  }

  /** Commenting adds one comment per post with that id: exactly one when ids are unique,
      none when no post has it. */
  lemma {:induction false} CommentTotal(posts: seq<SocialPost>, id: string)
    ensures TotalComments(CommentPost(posts, id)) == TotalComments(posts) + CountId(posts, id)
  {
    if posts != [] {
      CommentTotal(posts[1..], id);
      assert CommentPost(posts, id)[1..] == CommentPost(posts[1..], id);
    }
  }

  /** The comment panel toggle: the open post closes, any other post opens. */
  function ToggleShown(shown: Option<string>, id: string): (r: Option<string>)
    ensures shown == Some(id) ==> r == None
    ensures shown != Some(id) ==> r == Some(id)
  {
    if shown == Some(id) then None else Some(id)
  }

  /** Clicking the same Comment button twice restores the panel state unless another
      post's panel was open; then every panel ends closed. */
  lemma ToggleShownTwice(shown: Option<string>, id: string)
    ensures shown != Some(id) ==> ToggleShown(ToggleShown(shown, id), id) == None
    ensures shown == Some(id) ==> ToggleShown(ToggleShown(shown, id), id) == Some(id)
  {
  }

  // ---------------------------------------------------------------------------
  // The component state
  // ---------------------------------------------------------------------------

  const CommentAdded := Toast("Comment Added!", "Your comment has been posted successfully.", false)

  const InitialPosts: seq<SocialPost> := [
    SocialPost("1", "Dr. Maria Santos", "/placeholder.svg", "Carrara, Italy", "2 hours ago",
      "/placeholder.svg", "Incredible Carrara Marble Extraction",
      "Witnessed the most beautiful marble extraction today at the historic Carrara quarries. The precision and care these artisans put into their work is truly remarkable. #CarraraMarble #StoneHeritage",
      234, 45, 1200, ["Marble", "Quarry", "Heritage"], false),
    SocialPost("2", "James McLeod", "/placeholder.svg", "Edinburgh, Scotland", "4 hours ago",
      "/placeholder.svg", "Medieval Stone Church Restoration",
      "Amazing progress on the 12th-century church restoration project. Working with original limestone blocks to maintain historical authenticity. Each stone tells a story! \U{1F3F0}",
      156, 23, 890, ["Restoration", "Medieval", "Limestone"], true),
    SocialPost("3", "Prof. Elena Rodriguez", "/placeholder.svg", "Athens, Greece", "6 hours ago",
      "/placeholder.svg", "Pentelic Marble Discovery",
      "Exciting day at the Pentelic marble quarries! Found evidence of ancient extraction techniques that date back to the construction of the Parthenon. History lives in stone! \U{26B1}\U{FE0F}",
      298, 67, 1500, ["Ancient", "Pentelic", "Discovery"], false)
  ]

  /** Liking the second post, which is already liked, unlikes it: 156 becomes 155. */
  lemma LikeSecondInitialPost()
    ensures LikePost(InitialPosts, "2")[1].likes == 155 && !LikePost(InitialPosts, "2")[1].isLiked
    ensures LikePost(InitialPosts, "2")[0] == InitialPosts[0]
  {
  }

  /** The feed's three `useState` fields. */
  class SocialFeedPage {
    var posts: seq<SocialPost>
    var newComment: string
    var showComments: Option<string>

    constructor ()
      ensures posts == InitialPosts && newComment == "" && showComments == None
    {
      posts := InitialPosts;
      newComment := "";
      showComments := None;
    }

    /** `handleLike`. */
    method HandleLike(id: string)
      modifies this
      ensures posts == LikePost(old(posts), id)
      ensures newComment == old(newComment) && showComments == old(showComments)
    {
      posts := LikePost(posts, id);
    }

    /** The comment input's `onChange`. */
    method SetNewComment(text: string)
      modifies this
      ensures newComment == text && posts == old(posts) && showComments == old(showComments)
    {
      newComment := text;
    }

    /** `handleComment`: a blank draft changes nothing and raises no toast; otherwise the
      target's counter goes up, the draft is cleared and the panel closes. */
    method HandleComment(id: string) returns (toast: Option<Toast>)
      modifies this
      ensures IsBlank(old(newComment)) ==>
        toast == None && posts == old(posts) && newComment == old(newComment)
        && showComments == old(showComments)
      ensures !IsBlank(old(newComment)) ==>
        toast == Some(CommentAdded) && posts == CommentPost(old(posts), id)
        && newComment == "" && showComments == None
    {
      if IsBlank(newComment) {
        return None;
      }
      toast := Some(CommentAdded);
      posts := CommentPost(posts, id);
      newComment := "";
      showComments := None;
    }

    /** The Comment button's `onClick`. */
    method ToggleComments(id: string)
      modifies this
      ensures showComments == ToggleShown(old(showComments), id)
      ensures posts == old(posts) && newComment == old(newComment)
    {
      showComments := ToggleShown(showComments, id);
    }
  }
}
