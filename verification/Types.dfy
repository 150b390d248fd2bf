/**
 * The records the comment-vote cache patcher works on: comments, their likes,
 * the pages of the infinite comment list, the mutation's variables, the
 * server's response and the context handed from onMutate to onError.
 *
 * An optional TypeScript property (`author?: User`) is an `Option`, where
 * `None` stands for the property being absent from the object. Dates are
 * milliseconds since the epoch.
 */
module Types {

  datatype Option<T> = None | Some(value: T)

  /** A `Date`, as the number of milliseconds `getTime()` returns. */
  type Date = int

  datatype User = User(
    id: int,
    username: string,
    email: string,
    image: Option<string>,
    createdAt: Date,
    updatedAt: Date)

  /** One user's vote on one comment. */
  datatype CommentLike = CommentLike(
    id: int,
    value: int,
    createdAt: Date,
    updatedAt: Date,
    commentId: int,
    userId: int)

  /** A comment as the client caches it; `like` is the caller's own vote, if any. */
  datatype Comment = Comment(
    id: int,
    content: string,
    createdAt: Date,
    updatedAt: Date,
    isDeleted: bool,
    postId: int,
    points: int,
    authorId: Option<int>,
    author: Option<User>,
    isOptimistic: Option<bool>,
    parentCommentId: Option<int>,
    like: Option<CommentLike>,
    repliesCount: int,
    replies: seq<Comment>)

  /** One page of the comment list, as the comments endpoint returns it. */
  datatype CommentsPage = CommentsPage(comments: seq<Comment>, hasMore: bool)

  /** A page parameter of the infinite query (a cursor); the patcher only carries it over. */
  datatype PageParam = PageParam(raw: string)

  /** The cached value of an infinite comments query. */
  datatype InfiniteComments = InfiniteComments(pages: seq<CommentsPage>, pageParams: seq<PageParam>)

  /** The variables of one vote mutation: the target and the vote's value. */
  datatype Variables = Variables(postId: int, commentId: int, value: int)

  /** What the vote endpoint answers: the stored like and the refreshed comment. */
  datatype Response = Response(like: CommentLike, comment: Comment)

  /** What onMutate hands to onError: the two snapshots taken before the optimistic write. */
  datatype Context = Context(
    previousComments: Option<InfiniteComments>,
    newComment: Variables,
    previousComment: Option<Comment>)
}
