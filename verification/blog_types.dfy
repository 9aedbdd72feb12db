/**
 The entity the blog client manages. A `Post` is what the server stores and
 returns; a `PostBody` is a post without its id, the shape of the body of a
 create or update request (TypeScript's `Omit<Post, 'id'>`).
 */
module BlogTypes {

  datatype Post = Post(
    id: string,
    title: string,
    description: string,
    featuredImage: string,
    publishDate: string,
    published: bool)

  datatype PostBody = PostBody(
    title: string,
    description: string,
    featuredImage: string,
    publishDate: string,
    published: bool)

  /** The empty form the create screen starts from. */
  const EmptyBody: PostBody := PostBody("", "", "", "", false)

  /** Attaches an id to a body, giving the post the server would store. */
  function WithId(b: PostBody, id: string): (p: Post)
    ensures p.id == id
  {
    Post(id, b.title, b.description, b.featuredImage, b.publishDate, b.published)
  }

  /**
   The rest of `{ id, ...rest }`: every field of the post except its id.
   Putting the id back gives the original post, so nothing but the id is lost.
   */
  function WithoutId(p: Post): (b: PostBody)
    ensures WithId(b, p.id) == p
  {
    PostBody(p.title, p.description, p.featuredImage, p.publishDate, p.published)
  }

  /** Removing the id again gives back the body the post was made from. */
  lemma WithoutIdOfWithId(b: PostBody, id: string)
    ensures WithoutId(WithId(b, id)) == b
  {
  }

  /** Two posts with the same id and the same body are the same post. */
  lemma PostDeterminedByIdAndBody(p: Post, q: Post)
    requires p.id == q.id && WithoutId(p) == WithoutId(q)
    ensures p == q
  {
  }
}
