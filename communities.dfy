/**
 * The communities page: a list of communities to which the user can add
 * one by name, and the page's own post list.
 */
module Communities {
  import opened Common
  import PagePosts

  datatype Community = Community(id: int, name: string, members: int)

  function Ids(cs: seq<Community>): (r: seq<int>)
    ensures |r| == |cs|
    ensures forall i :: 0 <= i < |cs| ==> r[i] == cs[i].id
  {
    seq(|cs|, i requires 0 <= i < |cs| => cs[i].id)
  }

  /** The four communities the page starts with. */
  function InitialCommunities(): (r: seq<Community>)
    ensures OneToN(Ids(r))
  {
    [ Community(1, "Computer Science 101", 120),
      Community(2, "Data Structures", 85),
      Community(3, "Algorithms", 95),
      Community(4, "Web Development", 150) ]
  }

  /**
   * The submit of the "create community" form, as a function of the list
   * and the text field: a blank name leaves both as they are; any other
   * name, kept exactly as typed (not trimmed), becomes a one-member
   * community appended with id old length plus one, and the field is
   * cleared.
   */
  function CreateCommunity(cs: seq<Community>, input: string): (r: (seq<Community>, string))
    ensures IsBlank(input) ==> r == (cs, input)
    ensures !IsBlank(input) ==>
              && |r.0| == |cs| + 1 && r.0[..|cs|] == cs
              && r.0[|cs|] == Community(|cs| + 1, input, 1)
              && r.1 == ""
  {
    if !IsBlank(input) then (cs + [Community(|cs| + 1, input, 1)], "") else (cs, input)
  }

  /** The list changes exactly when the text field is cleared, i.e. only on success. */
  lemma InputClearedOnlyOnCreate(cs: seq<Community>, input: string)
    requires input != ""
    ensures CreateCommunity(cs, input).1 == "" <==> |CreateCommunity(cs, input).0| == |cs| + 1
  {
  }

  /** A name of white space only never creates a community. */
  lemma WhiteSpaceNameRejected(cs: seq<Community>, input: string)
    requires AllWhiteSpace(input)
    ensures CreateCommunity(cs, input) == (cs, input)
  {
  }

  /** Ids 1..n stay ids 1..n(+1) after a create. */
  lemma CreateKeepsIdsOneToN(cs: seq<Community>, input: string)
    requires OneToN(Ids(cs))
    ensures OneToN(Ids(CreateCommunity(cs, input).0))
  {
    if !IsBlank(input) {
      var ids, ids' := Ids(cs), Ids(CreateCommunity(cs, input).0);
      assert ids' == ids + [|cs| + 1];
      AppendNextId(ids);
    }
  }

  /** The state of the communities page component. */
  class CommunitiesPage {
    var communities: seq<Community>
    var posts: seq<PagePosts.Post>
    var newCommunity: string

    ghost predicate Valid()
      reads this
    {
      OneToN(Ids(communities)) && OneToN(PagePosts.Ids(posts))
    }

    constructor ()
      ensures Valid()
      ensures communities == InitialCommunities() && posts == [] && newCommunity == ""
    {
      communities := InitialCommunities();
      posts := [];
      newCommunity := "";
    }

    /** The name field's `onChange`. */
    method SetNewCommunity(value: string)
      modifies this
      ensures newCommunity == value
      ensures communities == old(communities) && posts == old(posts)
    {
      newCommunity := value;
    }

    /** `handleCreateCommunity`. */
    method SubmitCommunity()
      requires Valid()
      modifies this
      ensures Valid()
      ensures (communities, newCommunity) == CreateCommunity(old(communities), old(newCommunity))
      ensures posts == old(posts)
    {
      CreateKeepsIdsOneToN(communities, newCommunity);
      if !IsBlank(newCommunity) {
        communities := communities + [Community(|communities| + 1, newCommunity, 1)];
        newCommunity := "";
      }
    }

    /** `handleCreatePost`, called by the shell's composer. */
    method CreatePost(content: string)
      requires Valid()
      modifies this
      ensures Valid()
      ensures posts == PagePosts.PrependPost(old(posts), content)
      ensures communities == old(communities) && newCommunity == old(newCommunity)
    {
      PagePosts.PrependKeepsIdsOneToN(posts, content);
      posts := PagePosts.PrependPost(posts, content);
    }
  }
}
