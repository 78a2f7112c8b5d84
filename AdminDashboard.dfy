/** The admin dashboard: the post and location tables the editor dialogs append to, and
    the statistics shown above them. */
module AdminDashboard {
  import opened Common
  import PostEditor
  import LocationForm

  /** A row of the posts table. Rows saved from the editor also carry the category and
      the tags of the payload, which the two seeded rows do not have. */
  datatype Post = Post(
    id: string,
    title: string,
    content: string,
    author: string,
    status: PostEditor.PostStatus,
    createdAt: string,
    category: Option<string>,
    tags: Option<seq<string>>)

  /** A row of the locations table. Rows saved from the form also carry the rest of the
      form and the creation time, which the two seeded rows do not have. */
  datatype Location = Location(
    id: string,
    name: string,
    kind: string,
    address: string,
    status: string,
    details: Option<LocationForm.SavedLocation>)

  const InitialPosts: seq<Post> := [
    Post("1", "Ancient Roman Quarries Discovery", "Recent archaeological findings...", "Dr. Smith",
         PostEditor.Published, "2024-01-15", None, None),
    Post("2", "Marble Restoration Techniques", "Traditional methods for...", "Prof. Johnson",
         PostEditor.Draft, "2024-01-10", None, None)
  ]

  const InitialLocations: seq<Location> := [
    Location("1", "Carrara Marble Quarry", "quarry", "Carrara, Tuscany, Italy", "active", None),
    Location("2", "Pantheon Rome", "monument", "Piazza della Rotonda, Rome, Italy", "active", None)
  ]

  /** `{ ...post, id }`: the editor's payload under a fresh id. */
  function PostRow(p: PostEditor.SavedPost, id: string): (r: Post)
    ensures r.id == id
    ensures r.title == p.title && r.content == p.content && r.author == p.author
    ensures r.status == p.status && r.createdAt == p.createdAt
    ensures r.category == Some(p.category) && r.tags == Some(p.tags)
  {
    Post(id, p.title, p.content, p.author, p.status, p.createdAt, Some(p.category), Some(p.tags))
  }

  /** `{ ...location, id }`: the form's payload under a fresh id. */
  function LocationRow(l: LocationForm.SavedLocation, id: string): (r: Location)
    ensures r.id == id
    ensures r.name == l.fields.name && r.kind == l.fields.kind && r.address == l.fields.address
    ensures r.status == l.status && r.details == Some(l)
  {
    Location(id, l.fields.name, l.fields.kind, l.fields.address, l.status, Some(l))
  }

  /** A location saved from the form is always active. */
  lemma SavedLocationsAreActive(f: LocationForm.LocationFields, now: string, id: string)
    ensures LocationRow(LocationForm.SavedLocation(f, "active", now), id).status == "active"
  {
  }

  /** A value on a statistics card: a live count, or a fixed label. */
  datatype StatValue = Count(n: nat) | Fixed(text: string)

  datatype Stat = Stat(caption: string, value: StatValue)

  /** The four statistics cards. */
  function Stats(posts: seq<Post>, locations: seq<Location>): (r: seq<Stat>)
    ensures |r| == 4
    ensures r[0] == Stat("Total Posts", Count(|posts|))
    ensures r[1] == Stat("Locations", Count(|locations|))
    ensures r[2] == Stat("Active Users", Fixed("1,247"))
    ensures r[3] == Stat("Pending Reviews", Fixed("23"))
  {
    [Stat("Total Posts", Count(|posts|)), Stat("Locations", Count(|locations|)),
     Stat("Active Users", Fixed("1,247")), Stat("Pending Reviews", Fixed("23"))]
  }

  /** Each save raises its own count by one and leaves the other alone; the last two
      cards never change. */
  lemma SaveRaisesCount(posts: seq<Post>, locations: seq<Location>, p: Post, l: Location)
    ensures Stats(posts + [p], locations)[0].value.n == Stats(posts, locations)[0].value.n + 1
    ensures Stats(posts + [p], locations)[1] == Stats(posts, locations)[1]
    ensures Stats(posts, locations + [l])[1].value.n == Stats(posts, locations)[1].value.n + 1
    ensures Stats(posts, locations + [l])[0] == Stats(posts, locations)[0]
    ensures Stats(posts, locations)[2..] == Stats([], [])[2..]
  {
  }

  class AdminDashboardState {
    var posts: seq<Post>
    var locations: seq<Location>

    constructor ()
      ensures posts == InitialPosts && locations == InitialLocations
    {
      posts := InitialPosts;
      locations := InitialLocations;
    }

    /** The editor dialog's `onSave`: exactly one row at the end, the earlier rows as
      they were. */
    method SavePost(p: PostEditor.SavedPost, freshId: string)
      modifies this
      ensures posts == old(posts) + [PostRow(p, freshId)]
      ensures |posts| == |old(posts)| + 1 && posts[..|old(posts)|] == old(posts)
      ensures locations == old(locations)
    {
      posts := posts + [PostRow(p, freshId)];
      assert posts[..|old(posts)|] == old(posts);
    }

    /** The location dialog's `onSave`. */
    method SaveLocation(l: LocationForm.SavedLocation, freshId: string)
      modifies this
      ensures locations == old(locations) + [LocationRow(l, freshId)]
      ensures |locations| == |old(locations)| + 1 && locations[..|old(locations)|] == old(locations)
      ensures posts == old(posts)
    {
      locations := locations + [LocationRow(l, freshId)];
      assert locations[..|old(locations)|] == old(locations);
    }
  }
}
