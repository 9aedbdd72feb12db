/**
 The posts API: five endpoints over a REST-like JSON backend. Each endpoint
 has a `query` callback that turns its argument into a request, and the list
 query and the three mutations have tag callbacks. A query result carries the
 tags its `providesTags` callback returns; a finished mutation marks stale
 every cached result one of whose tags equals a tag its `invalidatesTags`
 callback returns.

 The cache engine that acts on these tags is library code and is not part of
 this model: only the tag lists and the equality-based overlap are.
 */
module BlogServices {

  import opened Wrappers
  import opened BlogTypes

  /** The one tag type the API declares. */
  const PostsTagType: string := "Posts"

  /** The id of the tag that stands for the list of all posts. */
  const ListId: string := "LIST"

  /** The collection path, relative to the API's base URL. */
  const PostsPath: string := "posts"

  /** A cache tag `{ type, id }`. */
  datatype Tag = Tag(tagType: string, id: string)

  const ListTag: Tag := Tag(PostsTagType, ListId)

  function PostTag(id: string): Tag {
    Tag(PostsTagType, id)
  }

  /**
   A mutation's outcome as the tag callbacks see it: the error argument is
   either absent or an error object, and any error object is truthy.
   */
  datatype QueryError =
    | HttpError(status: int)
    | FetchFailure(message: string)

  /**
   True when a mutation's invalidated tags mark a query's cached result
   stale: some tag of one equals some tag of the other.
   */
  predicate Overlaps(invalidated: seq<Tag>, provided: seq<Tag>) {
    exists i, j :: 0 <= i < |invalidated| && 0 <= j < |provided| && invalidated[i] == provided[j]
  }

  // ---------------------------------------------------------------------
  // Request construction
  // ---------------------------------------------------------------------

  datatype HttpMethod = GET | POST | PUT | DELETE

  /**
   What a `query` callback returns: either a bare path, or an object with a
   url, a method and possibly a body.
   */
  datatype QueryArg =
    | Path(path: string)
    | FetchArgs(url: string, verb: HttpMethod, body: Option<PostBody>)

  /** The request actually issued for a query argument. */
  datatype Request = Request(url: string, verb: HttpMethod, body: Option<PostBody>)

  /** A bare path is fetched with GET and no body. */
  function RequestOf(q: QueryArg): (r: Request)
    ensures q.Path? ==> r.url == q.path && r.verb == GET && r.body.None?
    ensures q.FetchArgs? ==> r.url == q.url && r.verb == q.verb && r.body == q.body
  {
    match q
    case Path(p) => Request(p, GET, None)
    case FetchArgs(u, m, b) => Request(u, m, b)
  }

  /** The path of one post, `posts/${id}`; the id can be read back from it. */
  function PostPath(id: string): (url: string)
    ensures PostIdOf(url) == Some(id)
  {
    var url := PostsPath + "/" + id;
    assert url[..|PostsPath| + 1] == PostsPath + "/";
    assert url[|PostsPath| + 1..] == id;
    url
  }

  /** The id named by a `posts/<id>` path, if the path has that shape. */
  function PostIdOf(url: string): Option<string> {
    var prefix := PostsPath + "/";
    if |prefix| <= |url| && url[..|prefix|] == prefix then Some(url[|prefix|..]) else None
  }

  /** Distinct posts are addressed by distinct paths. */
  lemma PostPathInjective(a: string, b: string)
    requires PostPath(a) == PostPath(b)
    ensures a == b
  {
  }

  /** `getPosts`: GET on the collection. */
  function GetPostsQuery(): (q: QueryArg)
    ensures RequestOf(q) == Request(PostsPath, GET, None)
  {
    Path(PostsPath)
  }

  /** `getPostById`: GET on the post's own path. */
  function GetPostByIdQuery(postId: string): (q: QueryArg)
    ensures RequestOf(q).verb == GET
    ensures PostIdOf(RequestOf(q).url) == Some(postId)
    ensures RequestOf(q).body.None?
  {
    Path(PostPath(postId))
  }

  /** `addPost`: POST on the collection, with the body passed through unchanged. */
  function AddPostQuery(body: PostBody): (q: QueryArg)
    ensures RequestOf(q) == Request(PostsPath, POST, Some(body))
  {
    FetchArgs(PostsPath, POST, Some(body))
  }

  /**
   `updatePost`: PUT on the post's own path. The body is the post with its id
   taken out; putting the id back restores the post, so every other field is
   sent unchanged.
   */
  function UpdatePostQuery(post: Post): (q: QueryArg)
    ensures RequestOf(q).verb == PUT
    ensures PostIdOf(RequestOf(q).url) == Some(post.id)
    ensures RequestOf(q).body.Some? && WithId(RequestOf(q).body.value, post.id) == post
  {
    FetchArgs(PostPath(post.id), PUT, Some(WithoutId(post)))
  }

  /** `deletePost`: DELETE on the post's own path, with no body. */
  function DeletePostQuery(postId: string): (q: QueryArg)
    ensures RequestOf(q).verb == DELETE
    ensures PostIdOf(RequestOf(q).url) == Some(postId)
    ensures RequestOf(q).body.None?
  {
    FetchArgs(PostPath(postId), DELETE, None)
  }

  /** Reading, updating and deleting the same post address the same resource. */
  lemma SameIdSameResource(post: Post)
    ensures RequestOf(GetPostByIdQuery(post.id)).url == RequestOf(UpdatePostQuery(post)).url
    ensures RequestOf(DeletePostQuery(post.id)).url == RequestOf(UpdatePostQuery(post)).url
    ensures RequestOf(GetPostsQuery()).url != RequestOf(UpdatePostQuery(post)).url
  {
  }

  // ---------------------------------------------------------------------
  // Tag callbacks
  // ---------------------------------------------------------------------

  /** One per-post tag for each post, in the posts' order. */
  function PostTags(posts: seq<Post>): (r: seq<Tag>)
    ensures |r| == |posts|
    ensures forall i :: 0 <= i < |posts| ==> r[i] == PostTag(posts[i].id)
  {
    if posts == [] then [] else [PostTag(posts[0].id)] + PostTags(posts[1..])
  }

  /**
   `getPosts.providesTags(result)`. Any array result, the empty one
   included, is truthy and yields its per-post tags followed by the list
   tag; no result yields only the list tag.
   */
  function GetPostsProvidesTags(result: Option<seq<Post>>): (r: seq<Tag>)
    ensures result.None? ==> r == [ListTag]
    ensures result.Some? ==> |r| == |result.value| + 1 && r[|result.value|] == ListTag
    ensures result.Some? ==> forall i :: 0 <= i < |result.value| ==> r[i] == PostTag(result.value[i].id)
  {
    match result
    case Some(posts) => PostTags(posts) + [ListTag]
    case None => [ListTag]
  }

  /** `getPostById` declares no `providesTags`, so its results carry no tags. */
  function GetPostByIdProvidesTags(result: Option<Post>, postId: string): (r: seq<Tag>)
    ensures |r| == 0
  {
    []
  }

  /** `addPost.invalidatesTags`: the list tag on success, nothing on error. */
  function AddPostInvalidatesTags(result: Option<Post>, error: Option<QueryError>, body: PostBody): (r: seq<Tag>)
    ensures forall t :: t in r ==> t == ListTag
    ensures ListTag in r <==> error.None?
    ensures error.None? ==> |r| == 1
  {
    if error.Some? then [] else [ListTag]
  }

  /** `updatePost.invalidatesTags`: the updated post's tag on success, nothing on error. */
  function UpdatePostInvalidatesTags(result: Option<Post>, error: Option<QueryError>, post: Post): (r: seq<Tag>)
    ensures forall t :: t in r ==> t == PostTag(post.id)
    ensures PostTag(post.id) in r <==> error.None?
    ensures error.None? ==> |r| == 1
  {
    if error.Some? then [] else [PostTag(post.id)]
  }

  /** `deletePost.invalidatesTags`: the deleted post's tag, whatever the outcome. */
  function DeletePostInvalidatesTags(result: Option<Post>, error: Option<QueryError>, postId: string): (r: seq<Tag>)
    ensures r == [PostTag(postId)]
  {
    [PostTag(postId)]
  }

  /** A call of one of the two queries, with its result if it has one. */
  datatype QueryCall =
    | GetPostsCall(posts: Option<seq<Post>>)
    | GetPostByIdCall(postId: string, post: Option<Post>)

  /** A finished call of one of the three mutations. */
  datatype MutationCall =
    | AddPostCall(body: PostBody, result: Option<Post>, error: Option<QueryError>)
    | UpdatePostCall(post: Post, result: Option<Post>, error: Option<QueryError>)
    | DeletePostCall(postId: string, result: Option<Post>, error: Option<QueryError>)

  /** The tags a query's result carries; all of them are of type `Posts`. */
  function ProvidedBy(q: QueryCall): (r: seq<Tag>)
    ensures forall t :: t in r ==> t.tagType == PostsTagType
    ensures q.GetPostByIdCall? ==> r == []
  {
    match q
    case GetPostsCall(posts) => GetPostsProvidesTags(posts)
    case GetPostByIdCall(id, post) => GetPostByIdProvidesTags(post, id)
  }

  /** The tags a mutation invalidates: at most one, always of type `Posts`. */
  function InvalidatedBy(m: MutationCall): (r: seq<Tag>)
    ensures forall t :: t in r ==> t.tagType == PostsTagType
    ensures |r| <= 1
    ensures m.error.Some? && !m.DeletePostCall? ==> r == []
  {
    match m
    case AddPostCall(body, result, error) => AddPostInvalidatesTags(result, error, body)
    case UpdatePostCall(post, result, error) => UpdatePostInvalidatesTags(result, error, post)
    case DeletePostCall(id, result, error) => DeletePostInvalidatesTags(result, error, id)
  }

  // ---------------------------------------------------------------------
  // What each mutation refreshes
  // ---------------------------------------------------------------------

  /** True when some post in the list has the given id. */
  predicate Listed(id: string, posts: seq<Post>) {
    exists i :: 0 <= i < |posts| && posts[i].id == id
  }

  /** A tag is provided by a successful `getPosts` iff it is the list tag or some listed post's tag. */
  lemma GetPostsTagsContents(posts: seq<Post>, t: Tag)
    ensures t in GetPostsProvidesTags(Some(posts)) <==> t == ListTag || (t.tagType == PostsTagType && Listed(t.id, posts))
  {
  }

  /**
   A single per-post tag marks the list query stale iff that post is listed,
   or the post's id is itself "LIST" and so collides with the list tag.
   */
  lemma {:induction false} PostTagHitsList(id: string, posts: Option<seq<Post>>)
    ensures Overlaps([PostTag(id)], GetPostsProvidesTags(posts))
        <==> id == ListId || (posts.Some? && Listed(id, posts.value))
  {
    var r := GetPostsProvidesTags(posts);
    if Overlaps([PostTag(id)], r) {
      var i, j :| 0 <= i < 1 && 0 <= j < |r| && [PostTag(id)][i] == r[j];
      assert PostTag(id) in r;
      if posts.Some? {
        GetPostsTagsContents(posts.value, PostTag(id));
      }
    }
    if id == ListId {
      assert [PostTag(id)][0] == r[|r| - 1];
    } else if posts.Some? && Listed(id, posts.value) {
      var k :| 0 <= k < |posts.value| && posts.value[k].id == id;
      assert [PostTag(id)][0] == r[k];
    }
  }

  /** A successful add always marks the list query stale, whatever it last returned. */
  lemma AddPostRefreshesList(body: PostBody, result: Option<Post>, posts: Option<seq<Post>>)
    ensures Overlaps(AddPostInvalidatesTags(result, None, body), GetPostsProvidesTags(posts))
  {
  }

  /**
   A successful update marks the list query stale iff the updated post is
   listed (or its id is "LIST"); a failed one marks nothing stale.
   */
  lemma UpdatePostRefreshesList(post: Post, result: Option<Post>, error: Option<QueryError>, posts: Option<seq<Post>>)
    ensures Overlaps(UpdatePostInvalidatesTags(result, error, post), GetPostsProvidesTags(posts))
        <==> error.None? && (post.id == ListId || (posts.Some? && Listed(post.id, posts.value)))
  {
  }

  /**
   A delete marks the list query stale iff the deleted post is listed (or its
   id is "LIST"), and this holds whether or not the delete failed.
   */
  lemma DeletePostRefreshesList(postId: string, result: Option<Post>, error: Option<QueryError>, posts: Option<seq<Post>>)
    ensures Overlaps(DeletePostInvalidatesTags(result, error, postId), GetPostsProvidesTags(posts))
        <==> postId == ListId || (posts.Some? && Listed(postId, posts.value))
  {
    PostTagHitsList(postId, posts);
  }

  /** A failed add or update marks no cached result stale. */
  lemma FailedMutationInvalidatesNothing(m: MutationCall, provided: seq<Tag>)
    requires m.error.Some? && !m.DeletePostCall?
    ensures !Overlaps(InvalidatedBy(m), provided)
  {
  }

  /** No mutation ever marks a `getPostById` result stale: it carries no tags. */
  lemma GetPostByIdNeverInvalidated(m: MutationCall, postId: string, post: Option<Post>)
    ensures !Overlaps(InvalidatedBy(m), ProvidedBy(GetPostByIdCall(postId, post)))
  {
  }
}
