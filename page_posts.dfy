/**
 * The communities and messages pages each keep a local list of posts, of
 * the same shape, which the shell's composer feeds through the same
 * `handleCreatePost`: a post by the fixed placeholder user goes in front
 * of the list with id "length plus one".
 */
module PagePosts {
  import opened Common

  datatype Post = Post(
    id: int,
    author: string,
    username: string,
    content: string,
    likes: int,
    comments: int,
    liked: bool)

  const CurrentAuthor := "Current User"
  const CurrentUsername := "@current_user"

  function Ids(posts: seq<Post>): (r: seq<int>)
    ensures |r| == |posts|
    ensures forall i :: 0 <= i < |posts| ==> r[i] == posts[i].id
  {
    seq(|posts|, i requires 0 <= i < |posts| => posts[i].id)
  }

  /**
   * `handleCreatePost(content)`: one post in front, id old length plus one,
   * written by the placeholder user, no likes or comments, not liked.
   */
  function PrependPost(posts: seq<Post>, content: string): (r: seq<Post>)
    ensures |r| == |posts| + 1 && r[1..] == posts
    ensures r[0].id == |posts| + 1 && r[0].content == content
    ensures r[0].author == CurrentAuthor && r[0].username == CurrentUsername
    ensures r[0].likes == 0 && r[0].comments == 0 && !r[0].liked
  {
    [Post(|posts| + 1, CurrentAuthor, CurrentUsername, content, 0, 0, false)] + posts
  }

  /** Starting from the empty list, ids stay exactly 1..n. */
  lemma PrependKeepsIdsOneToN(posts: seq<Post>, content: string)
    requires OneToN(Ids(posts))
    ensures OneToN(Ids(PrependPost(posts, content)))
  {
    var ids, ids' := Ids(posts), Ids(PrependPost(posts, content));
    assert ids' == [|posts| + 1] + ids by {
      forall i | 0 < i < |ids'| ensures ids'[i] == ids[i - 1] {
        assert PrependPost(posts, content)[i] == posts[i - 1];
      }
    }
    PrependNextId(ids);
  }
}
