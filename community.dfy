/**
 * The community page (pages/Community.tsx): the challenge filter over the
 * feed and the guarded post box.
 */
module Community {
  import opened Wrappers
  import opened Strings
  import opened Types
  import opened Seqs
  import opened CommunityContext

  /** A post belongs to the #GreenDiwali2024 challenge when it carries either challenge tag. */
  predicate IsChallengeEntry(p: CommunityPost) {
    "Challenge" in p.tags || "GreenDiwali2024" in p.tags
  }

  /**
   * `displayPosts`: only the "Challenge" filter narrows the feed; every other
   * value, including the category buttons, shows the posts as they are.
   */
  function DisplayPosts(posts: seq<CommunityPost>, filter: string): (r: seq<CommunityPost>)
    ensures filter != "Challenge" ==> r == posts
    ensures filter == "Challenge" ==> SubsequenceOf(r, posts)
    ensures filter == "Challenge" ==> forall p :: p in r <==> p in posts && IsChallengeEntry(p)
    ensures filter == "Challenge" ==> forall p :: multiset(r)[p] == if IsChallengeEntry(p) then multiset(posts)[p] else 0
  {
    FilterCounts(IsChallengeEntry, posts);
    if filter == "Challenge" then Filter(IsChallengeEntry, posts) else posts
  }

  /** The Post button is disabled while the trimmed input is empty. */
  predicate PostDisabled(content: string) {
    IsBlank(content)
  }

  /** What the page holds: the feed (from the community store) and the post box. */
  datatype PageState = PageState(posts: seq<CommunityPost>, input: string)

  /**
   * handlePost: a blank input does nothing; otherwise the text is posted with
   * the single tag "Community" and no image, and the box is cleared.
   */
  function HandlePost(s: PageState, user: Option<User>, id: string): (r: PageState)
    ensures PostDisabled(s.input) ==> r == s
    ensures !PostDisabled(s.input) ==>
      r.input == "" && |r.posts| == |s.posts| + 1 && r.posts[1..] == s.posts
      && r.posts[0].content == s.input && r.posts[0].tags == ["Community"]
      && r.posts[0].likes == 0 && r.posts[0].image.None?
  {
    if IsBlank(s.input) then s
    else PageState([NewPost(user, id, s.input, ["Community"], None)] + s.posts, "")
  }

  /** The feed changes exactly when the button is enabled. */
  lemma PostingChangesFeedIffEnabled(s: PageState, user: Option<User>, id: string)
    ensures HandlePost(s, user, id).posts != s.posts <==> !PostDisabled(s.input)
  {
    if !PostDisabled(s.input) {
      assert |HandlePost(s, user, id).posts| != |s.posts|;
    }
  }

  /** A post made from the page is not a challenge entry, so the "Challenge" view does not change. */
  lemma NewPostOutsideChallenge(s: PageState, user: Option<User>, id: string)
    ensures DisplayPosts(HandlePost(s, user, id).posts, "Challenge") == DisplayPosts(s.posts, "Challenge")
  {
    var r := HandlePost(s, user, id);
    if !PostDisabled(s.input) {
      assert !IsChallengeEntry(r.posts[0]);
      assert r.posts == [r.posts[0]] + s.posts;
      assert r.posts[1..] == s.posts;
    }
  }
}
