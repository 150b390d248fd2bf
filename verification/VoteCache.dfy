/**
 * The query cache as the comment-vote mutation sees it, and the mutation's
 * three callbacks: onMutate writes the prediction and returns snapshots,
 * onError writes the snapshots back, onSuccess writes the server's answer.
 *
 * The cache holds two kinds of entries: infinite comment lists, under keys
 * `['comments', {postId, sort}]`, and single comments, under keys
 * `['posts', {postId, commentId}]`. The two key shapes never coincide, so
 * each kind lives in its own map.
 */
module VoteCache {
  import opened Types
  import opened CommentUpdates
  import opened CommentPatch

  /** `['comments', {postId, sort}]`: the key of a post's comment list in one sort order. */
  datatype CommentsKey = CommentsKey(postId: int, sort: string)

  /** `['posts', {postId, commentId}]`: the key of one comment. */
  datatype CommentKey = CommentKey(postId: int, commentId: int)

  /** retrieveUseCommentsKey: the list key for a post and the textual form of a sort order. */
  function UseCommentsKey(postId: int, sort: string): (key: CommentsKey)
    ensures key.postId == postId && key.sort == sort
  {
    CommentsKey(postId, sort)
  }

  /** The key of the single-comment entry a vote targets: its post and its comment. */
  function SingleCommentKey(v: Variables): (key: CommentKey)
    ensures key.postId == v.postId && key.commentId == v.commentId
  {
    CommentKey(v.postId, v.commentId)
  }

  /** getQueryData: the entry under `k`, or `None` (`undefined`) when there is none. */
  function Lookup<K, V>(m: map<K, V>, k: K): (entry: Option<V>)
    ensures entry.Some? <==> k in m
    ensures entry.Some? ==> entry.value == m[k]
  {
    if k in m then Some(m[k]) else None
  }

  /** How the mutation ended: the request failed, or the server answered. */
  datatype Outcome = Rejected | Resolved(response: Response)

  class QueryCache {
    var commentLists: map<CommentsKey, InfiniteComments>
    var comments: map<CommentKey, Comment>

    constructor ()
      ensures commentLists == map[] && comments == map[]
    {
      commentLists := map[];
      comments := map[];
    }

    /**
     * setQueryData on a list key: a present value is written, an absent one
     * (`undefined`) leaves the entry as it is.
     */
    method SetCommentList(key: CommentsKey, data: Option<InfiniteComments>)
      modifies this
      ensures commentLists == if data.Some? then old(commentLists)[key := data.value] else old(commentLists)
      ensures comments == old(comments)
    {
      if data.Some? {
        commentLists := commentLists[key := data.value];
      }
    }

    /** setQueryData on a single-comment key, with the same treatment of an absent value. */
    method SetComment(key: CommentKey, data: Option<Comment>)
      modifies this
      ensures comments == if data.Some? then old(comments)[key := data.value] else old(comments)
      ensures commentLists == old(commentLists)
    {
      if data.Some? {
        comments := comments[key := data.value];
      }
    }

    /**
     * onMutate: snapshot both entries, then replace the voted comment by its
     * prediction in every page of the list and in the single entry. An absent
     * entry stays absent; every other entry is untouched.
     */
    method OnMutate(v: Variables, sort: string, stamp: Stamp) returns (ctx: Context)
      modifies this
      ensures ctx == Context(Lookup(old(commentLists), UseCommentsKey(v.postId, sort)), v,
                             Lookup(old(comments), SingleCommentKey(v)))
      ensures var key := UseCommentsKey(v.postId, sort);
        commentLists ==
          if key in old(commentLists)
          then old(commentLists)[key := PatchList(old(commentLists)[key], v.commentId, Predict(v.value, stamp))]
          else old(commentLists)
      ensures var key := SingleCommentKey(v);
        comments ==
          if key in old(comments)
          then old(comments)[key := OptimisticComment(old(comments)[key], v.value, stamp)]
          else old(comments)
    {
      var listKey := UseCommentsKey(v.postId, sort);
      var previousComments := Lookup(commentLists, listKey);
      if previousComments.Some? {
        var oldData := previousComments.value;
        var pages := PatchPages(oldData.pages, v.commentId, Predict(v.value, stamp));
        assert pages == PatchList(oldData, v.commentId, Predict(v.value, stamp)).pages;
        SetCommentList(listKey, Some(InfiniteComments(pages, oldData.pageParams)));
      }

      var commentKey := SingleCommentKey(v);
      var previousComment := Lookup(comments, commentKey);
      if previousComment.Some? {
        SetComment(commentKey, Some(OptimisticComment(previousComment.value, v.value, stamp)));
      }

      ctx := Context(previousComments, v, previousComment);
    }

    /**
     * onError: write back the snapshots of the context, when there is one. A
     * snapshot of an absent entry writes nothing.
     */
    method OnError(v: Variables, sort: string, context: Option<Context>)
      modifies this
      ensures var snapshot := if context.Some? then context.value.previousComments else None;
        commentLists ==
          if snapshot.Some? then old(commentLists)[UseCommentsKey(v.postId, sort) := snapshot.value]
          else old(commentLists)
      ensures var snapshot := if context.Some? then context.value.previousComment else None;
        comments ==
          if snapshot.Some? then old(comments)[SingleCommentKey(v) := snapshot.value]
          else old(comments)
    {
      var listKey := UseCommentsKey(v.postId, sort);
      SetCommentList(listKey, if context.Some? then context.value.previousComments else None);
      var commentKey := SingleCommentKey(v);
      SetComment(commentKey, if context.Some? then context.value.previousComment else None);
    }

    /**
     * onSuccess: replace the voted comment by the server's copy in every page
     * of the list and in the single entry, keeping the cached author when
     * the server's comment has none. An absent entry stays absent; every
     * other entry is untouched.
     */
    method OnSuccess(data: Response, v: Variables, sort: string)
      modifies this
      ensures var key := UseCommentsKey(v.postId, sort);
        commentLists ==
          if key in old(commentLists)
          then old(commentLists)[key := PatchList(old(commentLists)[key], v.commentId, Reconcile(data))]
          else old(commentLists)
      ensures var key := SingleCommentKey(v);
        comments ==
          if key in old(comments)
          then old(comments)[key := MergeServerComment(old(comments)[key], data)]
          else old(comments)
    {
      var listKey := UseCommentsKey(v.postId, sort);
      var previousComments := Lookup(commentLists, listKey);
      if previousComments.Some? {
        var oldData := previousComments.value;
        var pages := PatchPages(oldData.pages, v.commentId, Reconcile(data));
        assert pages == PatchList(oldData, v.commentId, Reconcile(data)).pages;
        SetCommentList(listKey, Some(InfiniteComments(pages, oldData.pageParams)));
      }

      var commentKey := SingleCommentKey(v);
      var previousComment := Lookup(comments, commentKey);
      if previousComment.Some? {
        SetComment(commentKey, Some(MergeServerComment(previousComment.value, data)));
      }
    }

    /**
     * One vote from start to end, with the sort order unchanged throughout:
     * onMutate, then onError with onMutate's context or onSuccess with the
     * server's answer. A failed vote leaves the cache exactly as it was; a
     * successful one leaves it as if the server's answer had been written
     * without any prediction.
     */
    method Vote(v: Variables, sort: string, stamp: Stamp, outcome: Outcome)
      modifies this
      ensures outcome.Rejected? ==> commentLists == old(commentLists) && comments == old(comments)
      ensures outcome.Resolved? ==>
        var key := UseCommentsKey(v.postId, sort);
        commentLists ==
          if key in old(commentLists)
          then old(commentLists)[key := PatchList(old(commentLists)[key], v.commentId, Reconcile(outcome.response))]
          else old(commentLists)
      ensures outcome.Resolved? ==>
        var key := SingleCommentKey(v);
        comments ==
          if key in old(comments)
          then old(comments)[key := MergeServerComment(old(comments)[key], outcome.response)]
          else old(comments)
    {
      var ctx := OnMutate(v, sort, stamp);
      match outcome
      case Rejected =>
        OnError(v, sort, Some(ctx));
      case Resolved(data) =>
        var listKey := UseCommentsKey(v.postId, sort);
        if listKey in old(commentLists) {
          ReconcileErasesPrediction(old(commentLists)[listKey], v.commentId, v.value, stamp, data);
        }
        var commentKey := SingleCommentKey(v);
        if commentKey in old(comments) {
          MergeForgetsPrediction(old(comments)[commentKey], v.value, stamp, data);
        }
        OnSuccess(data, v, sort);
    }

    /**
     * onMutate under one sort order, then onError after the sort store has
     * changed: the rollback key is built from the new sort, so the snapshot
     * of the voted list lands under the other list's key, and the voted list
     * keeps its prediction. The single-comment key does not depend on the
     * sort, so that entry is restored. With equal sorts the second write
     * undoes the first, which is the rollback of `Vote`.
     */
    method RollbackUnderChangedSort(v: Variables, sortAtMutate: string, sortAtError: string, stamp: Stamp)
      modifies this
      ensures var mutated := UseCommentsKey(v.postId, sortAtMutate);
        var restored := UseCommentsKey(v.postId, sortAtError);
        commentLists ==
          if mutated in old(commentLists)
          then old(commentLists)[mutated := PatchList(old(commentLists)[mutated], v.commentId, Predict(v.value, stamp))]
                                [restored := old(commentLists)[mutated]]
          else old(commentLists)
      ensures comments == old(comments)
    {
      var ctx := OnMutate(v, sortAtMutate, stamp);
      OnError(v, sortAtError, Some(ctx));
    }

    /**
     * Two votes on the same comment whose requests overlap: the second
     * onMutate snapshots the cache that already holds the first prediction.
     * When the first request succeeds and the second then fails, the
     * rollback writes that snapshot back over the server's answer, and both
     * entries end with the first vote's prediction.
     */
    method OverlappingVotes(first: Variables, second: Variables, sort: string,
                            firstStamp: Stamp, secondStamp: Stamp, data: Response)
      requires first.postId == second.postId && first.commentId == second.commentId
      modifies this
      ensures var key := UseCommentsKey(first.postId, sort);
        commentLists ==
          if key in old(commentLists)
          then old(commentLists)[key := PatchList(old(commentLists)[key], first.commentId, Predict(first.value, firstStamp))]
          else old(commentLists)
      ensures var key := SingleCommentKey(first);
        comments ==
          if key in old(comments)
          then old(comments)[key := OptimisticComment(old(comments)[key], first.value, firstStamp)]
          else old(comments)
    {
      var firstContext := OnMutate(first, sort, firstStamp);
      var secondContext := OnMutate(second, sort, secondStamp);
      OnSuccess(data, first, sort);
      OnError(second, sort, Some(secondContext));
    }

    /**
     * Two overlapping votes on different comments of the same post: the
     * list snapshot of the first vote is the whole list, taken before the
     * second vote's prediction. When the second request succeeds and the
     * first then fails, the rollback writes that whole list back, so the
     * list ends as it was before both votes and the server's answer for the
     * second comment is lost from it. The single-comment entries, keyed per
     * comment, end as expected: the first restored, the second reconciled.
     */
    method OverlappingVotesOnOtherComments(first: Variables, second: Variables, sort: string,
                                           firstStamp: Stamp, secondStamp: Stamp, data: Response)
      requires first.postId == second.postId && first.commentId != second.commentId
      modifies this
      ensures commentLists == old(commentLists)
      ensures var key := SingleCommentKey(second);
        comments ==
          if key in old(comments)
          then old(comments)[key := MergeServerComment(old(comments)[key], data)]
          else old(comments)
    {
      var firstContext := OnMutate(first, sort, firstStamp);
      var secondContext := OnMutate(second, sort, secondStamp);
      OnSuccess(data, second, sort);
      OnError(first, sort, Some(firstContext));
      var key := SingleCommentKey(second);
      if key in old(comments) {
        MergeForgetsPrediction(old(comments)[key], second.value, secondStamp, data);
      }
    }
  }
}
