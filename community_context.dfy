/**
 * The community feed provider (context/CommunityContext.tsx): the only
 * state the application persists. Posts are kept in memory and written,
 * encrypted, to the `festplan_community` slot once the initial load has
 * finished.
 */
module CommunityContext {
  import opened Wrappers
  import opened Json
  import opened Types
  import opened Constants
  import opened StorageService

  /** The slot that holds the encrypted post list. */
  const COMMUNITY_STORAGE := "festplan_community"

  // ---------------------------------------------------------------------------
  // Posts as JSON (what JSON.stringify writes and the `as CommunityPost[]` cast reads)
  // ---------------------------------------------------------------------------

  function StringsJson(xs: seq<string>): (j: Json)
    ensures j.JArr? && |j.items| == |xs|
  {
    JArr(seq(|xs|, i requires 0 <= i < |xs| => JStr(xs[i])))
  }

  function StringsOf(j: Json): Option<seq<string>> {
    if j.JArr? && forall i :: 0 <= i < |j.items| ==> j.items[i].JStr? then
      Some(seq(|j.items|, i requires 0 <= i < |j.items| && j.items[i].JStr? => j.items[i].s))
    else None
  }

  lemma StringsRoundTrip(xs: seq<string>)
    ensures StringsOf(StringsJson(xs)) == Some(xs)
  {
    var r := StringsOf(StringsJson(xs));
    assert r.Some?;
    assert r.value == xs;
  }

  /** A post's fields in declaration order; `image` is omitted when undefined. */
  function PostJson(post: CommunityPost): Json {
    var fields := [("id", JStr(post.id)), ("author", JStr(post.author)), ("avatar", JStr(post.avatar)),
                   ("title", JStr(post.title)), ("content", JStr(post.content)),
                   ("likes", JNum(post.likes)), ("comments", JNum(post.comments)),
                   ("tags", StringsJson(post.tags)), ("timestamp", JStr(post.timestamp))];
    JObj(if post.image.Some? then fields + [("image", JStr(post.image.value))] else fields)
  }

  /** The string member at position `i`, if it has that name. */
  function StrAt(m: seq<(string, Json)>, i: nat, name: string): Option<string> {
    if i < |m| && m[i].0 == name && m[i].1.JStr? then Some(m[i].1.s) else None
  }

  function NumAt(m: seq<(string, Json)>, i: nat, name: string): Option<int> {
    if i < |m| && m[i].0 == name && m[i].1.JNum? then Some(m[i].1.n) else None
  }

  /** Reads a post back from the shape PostJson writes; any other shape is None. */
  function PostOf(j: Json): Option<CommunityPost> {
    if !j.JObj? || !(|j.members| == 9 || |j.members| == 10) then None
    else
      var m := j.members;
      var id, author, avatar := StrAt(m, 0, "id"), StrAt(m, 1, "author"), StrAt(m, 2, "avatar");
      var title, content := StrAt(m, 3, "title"), StrAt(m, 4, "content");
      var likes, comments := NumAt(m, 5, "likes"), NumAt(m, 6, "comments");
      var tags := if m[7].0 == "tags" then StringsOf(m[7].1) else None;
      var timestamp := StrAt(m, 8, "timestamp");
      var image := StrAt(m, 9, "image");
      if id.None? || author.None? || avatar.None? || title.None? || content.None? || likes.None?
         || comments.None? || tags.None? || timestamp.None? || (|m| == 10 && image.None?)
      then None
      else Some(CommunityPost(id.value, author.value, avatar.value, title.value, content.value,
                              likes.value, comments.value, image, tags.value, timestamp.value))
  }

  lemma PostRoundTrip(post: CommunityPost)
    ensures PostOf(PostJson(post)) == Some(post)
  {
    StringsRoundTrip(post.tags);
  }

  function PostsJson(posts: seq<CommunityPost>): (j: Json)
    ensures j.JArr? && |j.items| == |posts|
  {
    JArr(seq(|posts|, i requires 0 <= i < |posts| => PostJson(posts[i])))
  }

  function PostsOfItems(items: seq<Json>): Option<seq<CommunityPost>>
    decreases |items|
  {
    if items == [] then Some([])
    else
      var first := PostOf(items[0]);
      var rest := PostsOfItems(items[1..]);
      if first.None? || rest.None? then None else Some([first.value] + rest.value)
  }

  /** The post list a stored JSON value denotes, if it has that shape. */
  function PostsOf(j: Json): Option<seq<CommunityPost>> {
    if j.JArr? then PostsOfItems(j.items) else None
  }

  /** Writing a post list as JSON and reading it back gives the same list. */
  lemma {:induction false} PostsRoundTrip(posts: seq<CommunityPost>)
    ensures PostsOf(PostsJson(posts)) == Some(posts)
    decreases |posts|
  {
    if posts != [] {
      assert PostsJson(posts).items[1..] == PostsJson(posts[1..]).items;
      PostsRoundTrip(posts[1..]);
      PostRoundTrip(posts[0]);
      assert [posts[0]] + posts[1..] == posts;
    }
  }

  // ---------------------------------------------------------------------------
  // Loading and saving as functions of storage
  // ---------------------------------------------------------------------------

  /**
   * The load effect: the seed posts when the slot is empty, otherwise
   * decryptData with the seed posts as default. Returns the new post list
   * and the storage afterwards.
   */
  function LoadStep(p: Platform, slots: Slots, generated: Option<Key>): (r: (seq<CommunityPost>, Slots))
    ensures !Filled(slots, COMMUNITY_STORAGE) ==> r == (MOCK_COMMUNITY_POSTS, slots)
    ensures r.1 == slots || r.1 == KeyStep(p, slots, generated).1
  {
    var stored := Item(slots, COMMUNITY_STORAGE);
    if stored.Some? && stored.value != "" then
      var (value, slots1) := DecryptStep(p, slots, generated, stored, PostsJson(MOCK_COMMUNITY_POSTS));
      (PostsOf(value).GetOr(MOCK_COMMUNITY_POSTS), slots1)
    else
      (MOCK_COMMUNITY_POSTS, slots)
  }

  /** The save effect once it fires: the encrypted list in the community slot. */
  function SaveStep(p: Platform, slots: Slots, generated: Option<Key>, iv: seq<byte>, posts: seq<CommunityPost>)
    : (r: Slots)
    requires |iv| == IV_LENGTH
    ensures Item(r, COMMUNITY_STORAGE) == Some(EncryptStep(p, slots, generated, iv, PostsJson(posts)).0)
    ensures forall n :: n != COMMUNITY_STORAGE && n != ENCRYPTION_KEY_STORAGE ==> Item(r, n) == Item(slots, n)
  {
    var (text, slots1) := EncryptStep(p, slots, generated, iv, PostsJson(posts));
    slots1[COMMUNITY_STORAGE := text]
  }

  /**
   * What was saved is what the next load reads, whether or not encryption
   * succeeded: an envelope decrypts back to the list, and the plaintext
   * fallback is an array, which the legacy path returns as it is.
   */
  lemma SaveThenLoad(p: Platform, slots: Slots, g1: Option<Key>, g2: Option<Key>, iv: seq<byte>, posts: seq<CommunityPost>)
    requires Lawful(p)
    requires |iv| == IV_LENGTH
    ensures LoadStep(p, SaveStep(p, slots, g1, iv, posts), g2).0 == posts
  {
    var v := PostsJson(posts);
    var d := PostsJson(MOCK_COMMUNITY_POSTS);
    var (text, slots1) := EncryptStep(p, slots, g1, iv, v);
    var later := SaveStep(p, slots, g1, iv, posts);
    EncryptStepShape(p, slots, g1, iv, v);
    assert text != "";
    assert Item(later, ENCRYPTION_KEY_STORAGE) == Item(slots1, ENCRYPTION_KEY_STORAGE);
    if Encrypts(p, slots, g1, iv, v) {
      EncryptThenDecrypt(p, slots, g1, g2, iv, v, d, later);
    } else {
      FallbackReadAsLegacy(p, slots, g1, g2, iv, v, d, later);
    }
    PostsRoundTrip(posts);
  }

  // ---------------------------------------------------------------------------
  // The updaters
  // ---------------------------------------------------------------------------

  /** The post addPost builds: an author and avatar from the user when they are non-empty, no likes or comments yet. */
  function NewPost(user: Option<User>, id: string, content: string, tags: seq<string>, image: Option<string>)
    : CommunityPost
  {
    CommunityPost(id,
      if user.Some? && user.value.name != "" then user.value.name else "Anonymous",
      if user.Some? && user.value.avatar != "" then user.value.avatar else "?",
      "New Update", content, 0, 0, image, tags, "Just now")
  }

  function TotalLikes(posts: seq<CommunityPost>): int
    decreases |posts|
  {
    if posts == [] then 0 else posts[0].likes + TotalLikes(posts[1..])
  }

  function CountWithId(posts: seq<CommunityPost>, id: string): nat
    decreases |posts|
  {
    if posts == [] then 0 else (if posts[0].id == id then 1 else 0) + CountWithId(posts[1..], id)
  }

  /** likePost's map: one more like on every post with that id, everything else as it was. */
  function Liked(posts: seq<CommunityPost>, id: string): (r: seq<CommunityPost>)
    ensures |r| == |posts|
    ensures forall i :: 0 <= i < |posts| && posts[i].id != id ==> r[i] == posts[i]
    ensures forall i :: 0 <= i < |posts| && posts[i].id == id ==>
      r[i] == posts[i].(likes := posts[i].likes + 1)
    decreases |posts|
  {
    if posts == [] then []
    else
      var first := if posts[0].id == id then posts[0].(likes := posts[0].likes + 1) else posts[0];
      [first] + Liked(posts[1..], id)
  }

  /** Liking adds one like per post carrying the id, and nothing when no post does. */
  lemma {:induction false} LikedTotal(posts: seq<CommunityPost>, id: string)
    ensures TotalLikes(Liked(posts, id)) == TotalLikes(posts) + CountWithId(posts, id)
    decreases |posts|
  {
    if posts != [] {
      var r := Liked(posts, id);
      assert r[1..] == Liked(posts[1..], id);
      LikedTotal(posts[1..], id);
    }
  }

  /** A freshly added post, with an id no other post has, has exactly one like after it is liked. */
  lemma LikeNewPost(posts: seq<CommunityPost>, user: Option<User>, id: string, content: string,
                    tags: seq<string>, image: Option<string>)
    requires forall i :: 0 <= i < |posts| ==> posts[i].id != id
    ensures var r := Liked([NewPost(user, id, content, tags, image)] + posts, id);
      r[0].likes == 1 && r[1..] == posts
  {
    var all := [NewPost(user, id, content, tags, image)] + posts;
    var r := Liked(all, id);
    assert forall i :: 1 <= i < |all| ==> all[i] == posts[i - 1];
    assert r[1..] == posts;
  }

  // ---------------------------------------------------------------------------
  // The provider
  // ---------------------------------------------------------------------------

  class CommunityStore {
    var posts: seq<CommunityPost>
    var isLoading: bool
    const storage: LocalStorage

    /** Mounting: no posts yet, loading. */
    constructor (storage: LocalStorage)
      ensures posts == [] && isLoading && this.storage == storage
    {
      posts := [];
      isLoading := true;
      this.storage := storage;
    }

    /**
     * The load effect, which runs once after mounting. The list is replaced
     * wholesale: posts added before it completes are dropped.
     */
    method Load(p: Platform, generated: Option<Key>)
      requires isLoading
      modifies this, storage
      ensures !isLoading
      ensures (posts, storage.slots) == LoadStep(p, old(storage.slots), generated)
    {
      var stored := storage.GetItem(COMMUNITY_STORAGE);
      if stored.Some? && stored.value != "" {
        var decrypted := storage.DecryptData(p, generated, stored, PostsJson(MOCK_COMMUNITY_POSTS));
        posts := PostsOf(decrypted).GetOr(MOCK_COMMUNITY_POSTS);
      } else {
        posts := MOCK_COMMUNITY_POSTS;
      }
      isLoading := false;
    }

    /**
     * The save effect, which runs whenever `posts` or `isLoading` changes:
     * nothing is written while loading or when the list is empty.
     */
    method Save(p: Platform, generated: Option<Key>, iv: seq<byte>)
      requires |iv| == IV_LENGTH
      modifies storage
      ensures isLoading || |posts| == 0 ==> storage.slots == old(storage.slots)
      ensures !isLoading && |posts| > 0 ==>
        storage.slots == SaveStep(p, old(storage.slots), generated, iv, posts)
    {
      if !isLoading && |posts| > 0 {
        var encrypted := storage.EncryptData(p, generated, iv, PostsJson(posts));
        storage.SetItem(COMMUNITY_STORAGE, encrypted);
      }
    }

    /** addPost: prepends one new post. `id` stands for `post_${Date.now()}`. */
    method AddPost(user: Option<User>, id: string, content: string, tags: seq<string>, image: Option<string>)
      modifies this
      ensures posts == [NewPost(user, id, content, tags, image)] + old(posts)
      ensures isLoading == old(isLoading)
    {
      posts := [NewPost(user, id, content, tags, image)] + posts;
    }

    method LikePost(postId: string)
      modifies this
      ensures posts == Liked(old(posts), postId)
      ensures isLoading == old(isLoading)
    {
      posts := Liked(posts, postId);
    }
  }
}
