/**
 * The feed page: a list of posts that can be liked and reposted, and a
 * composer that prepends a new post written by the signed-in user.
 *
 * The list transforms (`LikeById`, `RetweetById`, `PrependPost`) are
 * functions; `FeedPage` holds the component's state and its handlers
 * overwrite that state with the functions' results.
 */
module Feed {
  import opened Common

  datatype Post = Post(
    id: int,
    author: string,
    username: string,
    content: string,
    likes: int,
    comments: int,
    retweets: int,
    liked: bool,
    retweeted: bool)

  datatype User = User(name: string, username: string, avatarUrl: string)

  const PublishedNotice := "Post published successfully!"

  /** The ids of the posts, in list order. */
  function Ids(posts: seq<Post>): (r: seq<int>)
    ensures |r| == |posts|
    ensures forall i :: 0 <= i < |posts| ==> r[i] == posts[i].id
  {
    seq(|posts|, i requires 0 <= i < |posts| => posts[i].id)
  }

  /**
   * The counters a post may show: never negative, and a post the user
   * likes (reposts) counts at least that one like (repost).
   */
  predicate CountsOk(p: Post) {
    && p.likes >= 0 && (p.liked ==> p.likes >= 1)
    && p.retweets >= 0 && (p.retweeted ==> p.retweets >= 1)
  }

  predicate AllCountsOk(posts: seq<Post>) {
    forall i :: 0 <= i < |posts| ==> CountsOk(posts[i])
  }

  // ---------------------------------------------------------------------
  // handleLike
  // ---------------------------------------------------------------------

  /**
   * The map callback of `handleLike` on the matching post: the flag
   * flips, the count follows it by one, nothing else changes, and
   * consistent counters stay consistent.
   */
  function ToggleLike(p: Post): (r: Post)
    ensures r.liked == !p.liked
    ensures r.likes == (if r.liked then p.likes + 1 else p.likes - 1)
    ensures r.(liked := p.liked, likes := p.likes) == p
    ensures CountsOk(p) ==> CountsOk(r)
  {
    p.(liked := !p.liked, likes := if p.liked then p.likes - 1 else p.likes + 1)
  }

  /**
   * `handleLike(id)`: every post with that id has its `liked` flag flipped
   * and its like count moved one step in the same direction; every other
   * post, and every other field, stays as it was.
   */
  function LikeById(posts: seq<Post>, id: int): (r: seq<Post>)
    ensures |r| == |posts|
    ensures forall i :: 0 <= i < |posts| && posts[i].id != id ==> r[i] == posts[i]
    ensures forall i :: 0 <= i < |posts| && posts[i].id == id ==>
              && r[i].liked == !posts[i].liked
              && r[i].likes == (if r[i].liked then posts[i].likes + 1 else posts[i].likes - 1)
              && r[i].(liked := posts[i].liked, likes := posts[i].likes) == posts[i]
  {
    seq(|posts|, i requires 0 <= i < |posts| => if posts[i].id == id then ToggleLike(posts[i]) else posts[i])
  }

  /** Liking the same post twice gives back the original list. */
  lemma LikeTwiceRestores(posts: seq<Post>, id: int)
    ensures LikeById(LikeById(posts, id), id) == posts
  {
    var r := LikeById(LikeById(posts, id), id);
    forall i | 0 <= i < |posts| ensures r[i] == posts[i] {
      if posts[i].id == id {
        assert r[i].(liked := posts[i].liked, likes := posts[i].likes) == posts[i];
      }
    }
  }

  /** Liking never touches repost state, ids or the order of the list. */
  lemma LikeKeepsRetweetsAndIds(posts: seq<Post>, id: int)
    ensures Ids(LikeById(posts, id)) == Ids(posts)
    ensures forall i :: 0 <= i < |posts| ==>
              && LikeById(posts, id)[i].retweets == posts[i].retweets
              && LikeById(posts, id)[i].retweeted == posts[i].retweeted
              && LikeById(posts, id)[i].content == posts[i].content
  {
  }

  /** Liking keeps the counters consistent. */
  lemma LikeKeepsCounts(posts: seq<Post>, id: int)
    requires AllCountsOk(posts)
    ensures AllCountsOk(LikeById(posts, id))
  {
  }

  // ---------------------------------------------------------------------
  // handleRetweet
  // ---------------------------------------------------------------------

  /** The map callback of `handleRetweet` on the matching post, in the same terms as `ToggleLike`. */
  function ToggleRetweet(p: Post): (r: Post)
    ensures r.retweeted == !p.retweeted
    ensures r.retweets == (if r.retweeted then p.retweets + 1 else p.retweets - 1)
    ensures r.(retweeted := p.retweeted, retweets := p.retweets) == p
    ensures CountsOk(p) ==> CountsOk(r)
  {
    p.(retweeted := !p.retweeted, retweets := if p.retweeted then p.retweets - 1 else p.retweets + 1)
  }

  /**
   * `handleRetweet(id)`: every post with that id has its `retweeted` flag
   * flipped and its repost count moved one step in the same direction;
   * nothing else changes.
   */
  function RetweetById(posts: seq<Post>, id: int): (r: seq<Post>)
    ensures |r| == |posts|
    ensures forall i :: 0 <= i < |posts| && posts[i].id != id ==> r[i] == posts[i]
    ensures forall i :: 0 <= i < |posts| && posts[i].id == id ==>
              && r[i].retweeted == !posts[i].retweeted
              && r[i].retweets == (if r[i].retweeted then posts[i].retweets + 1 else posts[i].retweets - 1)
              && r[i].(retweeted := posts[i].retweeted, retweets := posts[i].retweets) == posts[i]
  {
    seq(|posts|, i requires 0 <= i < |posts| => if posts[i].id == id then ToggleRetweet(posts[i]) else posts[i])
  }

  /** Reposting the same post twice gives back the original list. */
  lemma RetweetTwiceRestores(posts: seq<Post>, id: int)
    ensures RetweetById(RetweetById(posts, id), id) == posts
  {
    var r := RetweetById(RetweetById(posts, id), id);
    forall i | 0 <= i < |posts| ensures r[i] == posts[i] {
      if posts[i].id == id {
        assert r[i].(retweeted := posts[i].retweeted, retweets := posts[i].retweets) == posts[i];
      }
    }
  }

  /** Reposting never touches like state, ids or the order of the list. */
  lemma RetweetKeepsLikesAndIds(posts: seq<Post>, id: int)
    ensures Ids(RetweetById(posts, id)) == Ids(posts)
    ensures forall i :: 0 <= i < |posts| ==>
              && RetweetById(posts, id)[i].likes == posts[i].likes
              && RetweetById(posts, id)[i].liked == posts[i].liked
              && RetweetById(posts, id)[i].content == posts[i].content
  {
  }

  /** Reposting keeps the counters consistent. */
  lemma RetweetKeepsCounts(posts: seq<Post>, id: int)
    requires AllCountsOk(posts)
    ensures AllCountsOk(RetweetById(posts, id))
  {
  }

  /** Like and repost act on disjoint fields, so they commute. */
  lemma LikeRetweetCommute(posts: seq<Post>, a: int, b: int)
    ensures LikeById(RetweetById(posts, b), a) == RetweetById(LikeById(posts, a), b)
  {
  }

  // ---------------------------------------------------------------------
  // handleCreatePost
  // ---------------------------------------------------------------------

  /**
   * `handleCreatePost(content)`: one new post goes in front of the list;
   * its id is the old length plus one, it is signed with the user's name
   * and handle, and it starts with no likes, comments or reposts.
   */
  function PrependPost(posts: seq<Post>, user: User, content: string): (r: seq<Post>)
    ensures |r| == |posts| + 1 && r[1..] == posts
    ensures r[0].id == |posts| + 1 && r[0].content == content
    ensures r[0].author == user.name && r[0].username == user.username
    ensures r[0].likes == r[0].comments == r[0].retweets == 0
    ensures !r[0].liked && !r[0].retweeted
  {
    [Post(|posts| + 1, user.name, user.username, content, 0, 0, 0, false, false)] + posts
  }

  /** Ids 1..n before a create are ids 1..n+1 after it, so they stay unique. */
  lemma PrependKeepsIdsOneToN(posts: seq<Post>, user: User, content: string)
    requires OneToN(Ids(posts))
    ensures OneToN(Ids(PrependPost(posts, user, content)))
  {
    var ids, ids' := Ids(posts), Ids(PrependPost(posts, user, content));
    assert ids' == [|posts| + 1] + ids by {
      forall i | 0 < i < |ids'| ensures ids'[i] == ids[i - 1] {
        assert PrependPost(posts, user, content)[i] == posts[i - 1];
      }
    }
    PrependNextId(ids);
  }

  /** A fresh post has consistent counters. */
  lemma PrependKeepsCounts(posts: seq<Post>, user: User, content: string)
    requires AllCountsOk(posts)
    ensures AllCountsOk(PrependPost(posts, user, content))
  {
    var r := PrependPost(posts, user, content);
    forall i | 0 <= i < |r| ensures CountsOk(r[i]) {
      if i > 0 {
        assert r[i] == posts[i - 1];
      }
    }
  }

  /** The two sample posts the page starts with. */
  function InitialPosts(): (r: seq<Post>)
    ensures OneToN(Ids(r)) && AllCountsOk(r)
  {
    [ Post(1, "Jane Smith", "@janesmith", "Hello world! This is my first post.", 5, 2, 1, false, false),
      Post(2, "Alice Johnson", "@alicej", "Just enjoying a sunny day at the park!", 15, 4, 3, false, false) ]
  }

  /** The state of the feed page component. */
  class FeedPage {
    const user: User
    var posts: seq<Post>
    var notification: string
    var newPostContent: string

    /** The properties every handler keeps: ids 1..n, consistent counters. */
    ghost predicate Valid()
      reads this
    {
      OneToN(Ids(posts)) && AllCountsOk(posts)
    }

    constructor ()
      ensures Valid()
      ensures user == User("Jean Carlo", "@jean", "/placeholder-avatar.jpg")
      ensures posts == InitialPosts() && notification == "" && newPostContent == ""
    {
      user := User("Jean Carlo", "@jean", "/placeholder-avatar.jpg");
      posts := InitialPosts();
      notification := "";
      newPostContent := "";
    }

    /** The draft input's `onChange`. */
    method SetNewPostContent(value: string)
      modifies this
      ensures newPostContent == value
      ensures posts == old(posts) && notification == old(notification)
    {
      newPostContent := value;
    }

    method CreatePost(content: string)
      requires Valid()
      modifies this
      ensures Valid()
      ensures posts == PrependPost(old(posts), user, content)
      ensures newPostContent == "" && notification == PublishedNotice
    {
      PrependKeepsIdsOneToN(posts, user, content);
      PrependKeepsCounts(posts, user, content);
      posts := PrependPost(posts, user, content);
      newPostContent := "";
      notification := PublishedNotice;
    }

    /**
     * The page's own Post button, which is disabled while the draft is
     * blank: a click publishes the draft as typed through `CreatePost`.
     */
    method PublishDraft() returns (published: bool)
      requires Valid()
      modifies this
      ensures Valid()
      ensures published <==> !IsBlank(old(newPostContent))
      ensures published ==> && posts == PrependPost(old(posts), user, old(newPostContent))
                            && newPostContent == "" && notification == PublishedNotice
      ensures !published ==> && posts == old(posts) && newPostContent == old(newPostContent)
                             && notification == old(notification)
    {
      published := !IsBlank(newPostContent);
      if published {
        CreatePost(newPostContent);
      }
    }

    method Like(id: int)
      requires Valid()
      modifies this
      ensures Valid()
      ensures posts == LikeById(old(posts), id)
      ensures newPostContent == old(newPostContent) && notification == old(notification)
    {
      LikeKeepsRetweetsAndIds(posts, id);
      LikeKeepsCounts(posts, id);
      posts := LikeById(posts, id);
    }

    method Retweet(id: int)
      requires Valid()
      modifies this
      ensures Valid()
      ensures posts == RetweetById(old(posts), id)
      ensures newPostContent == old(newPostContent) && notification == old(notification)
    {
      RetweetKeepsLikesAndIds(posts, id);
      RetweetKeepsCounts(posts, id);
      posts := RetweetById(posts, id);
    }
  }
}
