# Blog administration client: posts API tags, edit-target slice and error middleware

The repository is a small blog administration client built on Redux Toolkit
and RTK Query. Almost all of it is React markup; three pieces are pure,
sequential logic, and this project models them in Dafny and proves what they
promise:

- **The posts API** (`src/pages/blog/blog.services.ts`): the request each of
  the five endpoints (`getPosts`, `getPostById`, `addPost`, `updatePost`,
  `deletePost`) builds from its argument, and the cache tags the list query
  provides and the three mutations invalidate. Module `BlogServices`, with the
  `Post` entity in `BlogTypes`.
- **The blog slice** (`src/pages/blog/blog.slice.ts`): the one-field state
  `{ postId }`, initially `""` (`BlogSlice.InitialState`), and its two
  reducers `startEditPost` and `cancelEditPost`. Module `BlogSlice`.
- **The error-reporting middleware** (`src/middleware.ts`): the
  `isPayloadErrorMessage` predicate over an arbitrary JavaScript value and the
  decision of `rtkQueryErrorLogger` about which warning toasts to show before
  forwarding the action. Module `ErrorLogger`, with the JavaScript values it
  inspects in `JsValues`.

Modelling choices:

- A tag is `{ type, id }` with both fields strings; tags match when both are
  equal, and a mutation refreshes a cached query when one of its invalidated
  tags equals one of the query's provided tags (`BlogServices.Overlaps`).
- The list tag is the tag with id `"LIST"`. A post whose id is the string
  `"LIST"` therefore has the same tag as the list itself, so updating or
  deleting it refreshes the list even when it is not listed. The overlap
  lemmas state this exactly: an update or delete refreshes the list iff its
  id is listed or equals `"LIST"`.
- A `query` callback returns either a bare path (fetched with GET, the
  default of the base query) or `{ url, method, body }`
  (`BlogServices.QueryArg`, resolved by `RequestOf`). The request's `method`
  field is called `verb` because `method` is a Dafny keyword.
- The `result` and `error` arguments of the tag callbacks are optional values;
  any error object is truthy, so only its presence matters.
- `isRejected` and `isRejectedWithValue` are read from the action's `meta`.
  `ThunkMeta` stands for async-thunk metadata with a string `requestId`
  present; `isRejected` holds when its request status is `rejected`, and
  `isRejectedWithValue` additionally needs the `rejectedWithValue` flag,
  so a rejected-with-value action is a rejected action by construction.
- A toast is recorded as the argument passed to `toast.warn`, an optional
  string because a serialized error's `message` may be absent. The action
  handed to `next` is recorded in a list, so "exactly once, unchanged" is
  `forwarded == [action]`.
- The `Post` type is declared in `types/blog.type`, which is not part of this
  model; its fields are taken from the create form's empty post
  (`src/pages/blog/components/CreatePost/CreatePost.tsx:9-15`) plus `id`.

## Model

| member | source | states |
|---|---|---|
| `BlogTypes.WithoutId` | src/pages/blog/blog.services.ts:110-113 | the rest of `{ id, ...rest }` loses only the id: putting the id back gives the original post |
| `BlogServices.PostPath` | src/pages/blog/blog.services.ts:111 | the path `posts/${id}` names the post: the id can be read back from it |
| `BlogServices.PostPathInjective` | src/pages/blog/blog.services.ts:111 | different ids never share a path |
| `BlogServices.GetPostsQuery` | src/pages/blog/blog.services.ts:54 | the list query issues GET `posts` with no body |
| `BlogServices.GetPostByIdQuery` | src/pages/blog/blog.services.ts:119-121 | the single-post query issues GET on the path naming that id, with no body |
| `BlogServices.AddPostQuery` | src/pages/blog/blog.services.ts:83-92 | the add request is POST `posts` carrying the given body unchanged |
| `BlogServices.UpdatePostQuery` | src/pages/blog/blog.services.ts:110-114 | the update request is PUT on the path naming the post's id; its body plus that id is exactly the post, so only the id is removed |
| `BlogServices.DeletePostQuery` | src/pages/blog/blog.services.ts:122-126 | the delete request is DELETE on the path naming the id, with no body |
| `BlogServices.SameIdSameResource` | src/pages/blog/blog.services.ts:110-126 | get-by-id, update and delete of one post address the same URL, and none of them the collection |
| `BlogServices.PostTags` | src/pages/blog/blog.services.ts:69 | one `Posts` tag per post carrying that post's id, in the posts' order |
| `BlogServices.GetPostsProvidesTags` | src/pages/blog/blog.services.ts:55-75 | with a result of n posts: n+1 tags, the per-post tags in order then the list tag; with no result: exactly the list tag |
| `BlogServices.GetPostsTagsContents` | src/pages/blog/blog.services.ts:67-72 | a tag is provided by a successful list query iff it is the list tag or the tag of a listed post |
| `BlogServices.GetPostByIdProvidesTags` | src/pages/blog/blog.services.ts:119-121 | the single-post query provides no tags |
| `BlogServices.AddPostInvalidatesTags` | src/pages/blog/blog.services.ts:105-107 | an add invalidates exactly `[Posts:LIST]` on success and nothing on error |
| `BlogServices.UpdatePostInvalidatesTags` | src/pages/blog/blog.services.ts:115-117 | an update invalidates exactly the updated post's tag on success and nothing on error |
| `BlogServices.DeletePostInvalidatesTags` | src/pages/blog/blog.services.ts:127-129 | a delete invalidates exactly the deleted post's tag whatever its result or error |
| `BlogServices.ProvidedBy` | src/pages/blog/blog.services.ts:53-121 | every tag a query provides has type `Posts`; the single-post query provides none |
| `BlogServices.InvalidatedBy` | src/pages/blog/blog.services.ts:105-129 | every mutation invalidates at most one tag, always of type `Posts`, and a failed add or update invalidates none |
| `BlogServices.PostTagHitsList` | src/pages/blog/blog.services.ts:67-74 | one post's tag overlaps the list query's tags iff the post is listed or its id is `"LIST"` |
| `BlogServices.AddPostRefreshesList` | src/pages/blog/blog.services.ts:105-107 | a successful add always overlaps the list query's tags, whatever that query last returned |
| `BlogServices.UpdatePostRefreshesList` | src/pages/blog/blog.services.ts:115-117 | an update overlaps the list query's tags iff it succeeded and the post is listed (or has id `"LIST"`) |
| `BlogServices.DeletePostRefreshesList` | src/pages/blog/blog.services.ts:127-129 | a delete overlaps the list query's tags iff the post is listed (or has id `"LIST"`), failed or not |
| `BlogServices.FailedMutationInvalidatesNothing` | src/pages/blog/blog.services.ts:105-117 | a failed add or update marks no cached result stale |
| `BlogServices.GetPostByIdNeverInvalidated` | src/pages/blog/blog.services.ts:119-121 | no mutation, successful or not, ever marks a single-post result stale |
| `BlogSlice.StartEdit` | src/pages/blog/blog.slice.ts:15-17 | `startEditPost(id)` sets the edit target to exactly `id`; the form is editing iff `id` is non-empty |
| `BlogSlice.CancelEdit` | src/pages/blog/blog.slice.ts:18-20 | `cancelEditPost` returns the initial state from any state |
| `BlogSlice.Reduce` | src/pages/blog/blog.slice.ts:11-21 | the reducer applies the start or cancel transition and leaves the state alone for any other action |
| `BlogSlice.EditLaws` | src/pages/blog/blog.slice.ts:15-20 | cancel is idempotent, start then cancel is the initial state, the later of two starts wins, starting with `""` is a cancel |
| `BlogSlice.ReplaySnoc` | src/pages/blog/blog.slice.ts:11-21 | dispatching one more action is one more reducer step |
| `BlogSlice.ReplayLastEditWins` | src/pages/blog/blog.slice.ts:11-21 | after any sequence of actions the edit target is the one chosen by the last start or cancel, or the starting one if there is none |
| `JsValues.TypeOf` | src/middleware.ts:11-14 | `typeof` is "object" exactly for objects and `null`, and "string" exactly for strings |
| `JsValues.Get` | src/middleware.ts:14 | reading a key an object holds yields that key's value, and anything other than `undefined` comes from such a key |
| `JsValues.OptionalGet` | src/middleware.ts:14 | `?.` yields `undefined` on a nullish value and is a plain read otherwise |
| `ErrorLogger.IsPayloadErrorMessage` | src/middleware.ts:4-16 | holds iff the payload is a non-null object with a `data` object whose `error` is a string |
| `ErrorLogger.NonObjectPayloadRejected` | src/middleware.ts:11-12 | `null` and every non-object payload are refused |
| `ErrorLogger.CustomErrorWarnings` | src/middleware.ts:25-30 | one warning, equal to the error's message, iff the action is rejected with a `CustomError`; otherwise none |
| `ErrorLogger.ServerErrorWarnings` | src/middleware.ts:32-40 | one warning, equal to `payload.data.error`, iff the action is rejected with a value and the payload passes the predicate; otherwise none |
| `ErrorLogger.RtkQueryErrorLogger` | src/middleware.ts:18-43 | the action is forwarded exactly once and unchanged; the warnings are the first check's then the second's, at most two, none for an action that is not rejected |
| `ErrorLogger.RejectedWithValueIsRejected` | src/middleware.ts:25-32 | every action the second check sees also passes the first check's rejection test |
| `ErrorLogger.EntityErrorNotToasted` | src/middleware.ts:32-40 | a payload whose `data.error` is present but not a string (a per-field map, say), whatever other keys the payload or its `data` carry, shows no server warning |
| `ErrorLogger.CacheRejectionSilent` | src/middleware.ts:25-40 | a rejection without a value that is not a `CustomError` shows no warning |
| `ErrorLogger.BothWarningsInOrder` | src/middleware.ts:25-40 | when both checks fire, the `CustomError` message is shown before the server's message |
| `ErrorLogger.EveryWarningJustified` | src/middleware.ts:25-40 | every warning shown is the `CustomError` message of a rejected action or the string error of a rejected-with-value payload |

## Left out

- The cache engine of RTK Query (request de-duplication, refetch scheduling, subscription lifetimes, tag matching inside the library): library code; only the tag lists and an equality-based overlap are modelled.
- `fetchBaseQuery`, the base URL `http://localhost:4000/` and the HTTP exchange with the JSON server: network I/O; requests are modelled with URLs relative to the base.
- The `try`/`catch` around the `addPost` request that rethrows as `CustomError` (src/pages/blog/blog.services.ts:83-96): its `try` body cannot throw as written, and `CustomError` comes from `utils/helpers`, which is not part of this model.
- `toast.warn` and the toast container: side effects, represented by the list of toast arguments.
- The store wiring (`src/store.ts`), the application shell (`src/App.tsx`) and the view components (`PostList`, `CreatePost`): rendering and framework wiring; `CreatePost` also depends on `isEntityError` from `utils/helpers`, which is not part of this model.
- JavaScript values: floating-point numbers, symbols, bigints and inherited (prototype) properties are not modelled; arrays are represented as objects keyed by index.
- `ErrorLogger.RtkQueryErrorLogger`: the value returned by `next(action)` is not modelled, only the fact that `next` receives the action once.
