/**
 * The two ways the vote mutation rewrites one cached comment:
 *  - OptimisticComment predicts the comment after a vote, before the server
 *    answers (retrieveNewOptimisticComment);
 *  - MergeServerComment replaces a cached comment by the server's copy once
 *    the vote succeeded, keeping the cached author when the server's
 *    comment has none.
 */
module CommentUpdates {
  import opened Types

  /**
   * The clock readings taken when a synthetic like is made: `new Date().getTime()`
   * becomes its id and two further `new Date()` calls its timestamps.
   */
  datatype Stamp = Stamp(likeId: int, createdAt: Date, updatedAt: Date)

  /** The vote the comment's cached like records, 0 when it carries no like. */
  function OwnVote(c: Comment): (vote: int)
  {
    if c.like.Some? then c.like.value.value else 0
  }

  /**
   * The predicted comment after the caller votes `value` on `c`. The step
   * applied to the points depends only on whether there was a like, whether
   * its value equals `value`, and whether `value` is 1.
   */
  function OptimisticComment(c: Comment, value: int, stamp: Stamp): (r: Comment)
    ensures r.id == c.id
    ensures r.like.Some? && r.like.value.value == value
    // every field other than points and like is carried over
    ensures r == c.(points := r.points, like := r.like)
    // an existing like keeps its id, comment, user and timestamps
    ensures c.like.Some? ==> r.like.value == c.like.value.(value := value)
  {
    var increment :=
      if c.like.None? then value
      else if c.like.value.value == value then 0
      else if value == 1 then 1
      else -1;
    var like :=
      if c.like.Some? then c.like.value.(value := value)
      else CommentLike(stamp.likeId, value, stamp.createdAt, stamp.updatedAt, c.id, -1);
    c.(points := c.points + increment, like := Some(like))
  }

  /** How the prediction moves the points, case by case. */
  lemma OptimisticPoints(c: Comment, value: int, stamp: Stamp)
    ensures c.like.None? ==> OptimisticComment(c, value, stamp).points == c.points + value
    ensures c.like.Some? && c.like.value.value == value ==>
      OptimisticComment(c, value, stamp).points == c.points
    ensures c.like.Some? && c.like.value.value != value && value == 1 ==>
      OptimisticComment(c, value, stamp).points == c.points + 1
    ensures c.like.Some? && c.like.value.value != value && value != 1 ==>
      OptimisticComment(c, value, stamp).points == c.points - 1
  {
  }

  /** Without a prior like the prediction makes one for this comment, owned by user -1. */
  lemma OptimisticSyntheticLike(c: Comment, value: int, stamp: Stamp)
    requires c.like.None?
    ensures OptimisticComment(c, value, stamp).like ==
      Some(CommentLike(stamp.likeId, value, stamp.createdAt, stamp.updatedAt, c.id, -1))
  {
  }

  /**
   * Voting the same value twice predicts exactly what voting once does: the
   * first prediction always leaves a like with that value, so the second
   * applies a step of 0 and rewrites the like's value with itself.
   */
  lemma OptimisticIdempotent(c: Comment, value: int, first: Stamp, second: Stamp)
    ensures OptimisticComment(OptimisticComment(c, value, first), value, second)
         == OptimisticComment(c, value, first)
  {
  }

  /**
   * The prediction keeps "points minus the caller's own vote" fixed (which is
   * what a server that moves the points by new vote minus old vote does)
   * exactly when there was no like, the value is unchanged, or the fixed
   * step of +1/-1 happens to equal the difference of the two votes.
   */
  lemma OptimisticKeepsOthersVotesIff(c: Comment, value: int, stamp: Stamp)
    ensures var r := OptimisticComment(c, value, stamp);
      r.points - OwnVote(r) == c.points - OwnVote(c) <==>
        (|| c.like.None?
         || c.like.value.value == value
         || (value == 1 && c.like.value.value == 0)
         || (value != 1 && c.like.value.value == value + 1))
  {
  }

  /**
   * The comment the cache holds after a successful vote: the server's comment,
   * its author taken from the cached copy unless the server's comment has
   * one, and its like set to the server's like.
   */
  function MergeServerComment(cached: Comment, data: Response): (r: Comment)
    ensures r.like == Some(data.like)
    ensures data.comment.author.None? ==> r.author == cached.author
    ensures data.comment.author.Some? ==> r.author == data.comment.author
    // every other field is the server's
    ensures r.(author := data.comment.author, like := data.comment.like) == data.comment
  {
    var author := if data.comment.author.Some? then data.comment.author else cached.author;
    data.comment.(author := author, like := Some(data.like))
  }

  /**
   * Reconciling a predicted comment gives what reconciling the comment
   * before the prediction gives: the prediction leaves no trace once the
   * server has answered.
   */
  lemma MergeForgetsPrediction(c: Comment, value: int, stamp: Stamp, data: Response)
    ensures MergeServerComment(OptimisticComment(c, value, stamp), data) == MergeServerComment(c, data)
  {
  }
}
