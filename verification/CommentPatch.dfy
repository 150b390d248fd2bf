/**
 * Patching one comment inside the cached infinite comment list: in every
 * page, the first comment whose id matches is replaced, and nothing else
 * changes. onMutate patches with the prediction, onSuccess with the
 * server's copy.
 */
module CommentPatch {
  import opened Types
  import opened CommentUpdates

  /** The rewrite applied to the matched comment. */
  datatype Patch =
    | Predict(value: int, stamp: Stamp)   // onMutate: the optimistic comment
    | Reconcile(response: Response)       // onSuccess: the server's comment

  function Apply(p: Patch, c: Comment): (r: Comment)
    ensures p.Predict? ==> r.id == c.id && r.like.Some? && r.like.value.value == p.value
    ensures p.Reconcile? ==> r.like == Some(p.response.like) && r.id == p.response.comment.id
  {
    match p
    case Predict(value, stamp) => OptimisticComment(c, value, stamp)
    case Reconcile(data) => MergeServerComment(c, data)
  }

  /** `i` is the position of the first comment with id `id`. */
  ghost predicate IsFirstMatch(comments: seq<Comment>, id: int, i: int)
  {
    && 0 <= i < |comments|
    && comments[i].id == id
    && forall k :: 0 <= k < i ==> comments[k].id != id
  }

  /** `findIndex` on a page's comments: the first position with id `id`, or -1. */
  function FindIndex(comments: seq<Comment>, id: int): (i: int)
    ensures i == -1 || IsFirstMatch(comments, id, i)
    ensures i == -1 <==> forall k :: 0 <= k < |comments| ==> comments[k].id != id
  {
    if |comments| == 0 then -1
    else if comments[0].id == id then 0
    else
      var j := FindIndex(comments[1..], id);
      if j == -1 then -1 else j + 1
  }

  /** The page after patching: its first comment with id `id` is rewritten by `p`. */
  function PatchPage(page: CommentsPage, id: int, p: Patch): (r: CommentsPage)
    ensures r.hasMore == page.hasMore
    ensures |r.comments| == |page.comments|
    ensures forall j :: 0 <= j < |page.comments| ==>
      r.comments[j] == if IsFirstMatch(page.comments, id, j) then Apply(p, page.comments[j]) else page.comments[j]
  {
    var found := FindIndex(page.comments, id);
    if found != -1 then
      page.(comments := page.comments[found := Apply(p, page.comments[found])])
    else
      page
  }

  /** The cached list after patching every page. */
  function PatchList(d: InfiniteComments, id: int, p: Patch): (r: InfiniteComments)
    ensures r.pageParams == d.pageParams
    ensures |r.pages| == |d.pages|
    ensures forall k :: 0 <= k < |d.pages| ==>
      && r.pages[k].hasMore == d.pages[k].hasMore
      && |r.pages[k].comments| == |d.pages[k].comments|
    ensures forall k, j :: 0 <= k < |d.pages| && 0 <= j < |d.pages[k].comments| ==>
      r.pages[k].comments[j] ==
        if IsFirstMatch(d.pages[k].comments, id, j) then Apply(p, d.pages[k].comments[j])
        else d.pages[k].comments[j]
  {
    InfiniteComments(seq(|d.pages|, k requires 0 <= k < |d.pages| => PatchPage(d.pages[k], id, p)), d.pageParams)
  }

  /**
   * The `pages.map(...)` of onMutate and onSuccess: each page's comments are
   * copied and the found position overwritten in the copy.
   */
  method PatchPages(pages: seq<CommentsPage>, id: int, p: Patch) returns (out: seq<CommentsPage>)
    ensures |out| == |pages|
    ensures forall k :: 0 <= k < |pages| ==> out[k] == PatchPage(pages[k], id, p)
  {
    out := [];
    var n := 0;
    while n < |pages|
      invariant 0 <= n <= |pages|
      invariant |out| == n
      invariant forall k :: 0 <= k < n ==> out[k] == PatchPage(pages[k], id, p)
    {
      var page := pages[n];
      var found := FindIndex(page.comments, id);
      if found != -1 {
        var updated := page.comments;
        updated := updated[found := Apply(p, updated[found])];
        out := out + [page.(comments := updated)];
      } else {
        out := out + [page];
      }
      n := n + 1;
    }
  }

  /**
   * Writing a comment with the matched id over the first match leaves the
   * first match where it was. This is the step behind PatchPageAfterPredict;
   * Dafny finds it unaided there, so that lemma does not call this one.
   */
  lemma FindIndexAfterSameIdWrite(comments: seq<Comment>, id: int, x: Comment)
    requires FindIndex(comments, id) != -1
    requires x.id == id
    ensures var i := FindIndex(comments, id); FindIndex(comments[i := x], id) == i
  {
    var i := FindIndex(comments, id);
    var j := FindIndex(comments[i := x], id);
    assert comments[i := x][i].id == id;
    assert IsFirstMatch(comments[i := x], id, j);
  }

  /** Patching a page after a prediction rewrites the same comment again, and only it. */
  lemma PatchPageAfterPredict(page: CommentsPage, id: int, value: int, stamp: Stamp, q: Patch)
    ensures var i := FindIndex(page.comments, id);
      PatchPage(PatchPage(page, id, Predict(value, stamp)), id, q) ==
        if i == -1 then page
        else page.(comments := page.comments[i := Apply(q, OptimisticComment(page.comments[i], value, stamp))])
  {
  }

  /**
   * Patching the list twice with the prediction of the same vote gives the
   * list patched once: the optimistic list write is idempotent.
   */
  lemma {:induction false} PredictListIdempotent(d: InfiniteComments, id: int, value: int, first: Stamp, second: Stamp)
    ensures PatchList(PatchList(d, id, Predict(value, first)), id, Predict(value, second))
         == PatchList(d, id, Predict(value, first))
  {
    var once := PatchList(d, id, Predict(value, first));
    var twice := PatchList(once, id, Predict(value, second));
    forall k | 0 <= k < |d.pages|
      ensures twice.pages[k] == once.pages[k]
    {
      var page := d.pages[k];
      PatchPageAfterPredict(page, id, value, first, Predict(value, second));
      var i := FindIndex(page.comments, id);
      if i != -1 {
        OptimisticIdempotent(page.comments[i], value, first, second);
      }
    }
    assert twice.pages == once.pages;
  }

  /**
   * Reconciling the optimistically patched list gives the list reconciled
   * without the prediction: once the server answers, the prediction leaves
   * no trace in the list.
   */
  lemma {:induction false} ReconcileErasesPrediction(d: InfiniteComments, id: int, value: int, stamp: Stamp, data: Response)
    ensures PatchList(PatchList(d, id, Predict(value, stamp)), id, Reconcile(data))
         == PatchList(d, id, Reconcile(data))
  {
    var predicted := PatchList(d, id, Predict(value, stamp));
    var reconciled := PatchList(predicted, id, Reconcile(data));
    var direct := PatchList(d, id, Reconcile(data));
    forall k | 0 <= k < |d.pages|
      ensures reconciled.pages[k] == direct.pages[k]
    {
      var page := d.pages[k];
      PatchPageAfterPredict(page, id, value, stamp, Reconcile(data));
      var i := FindIndex(page.comments, id);
      if i != -1 {
        MergeForgetsPrediction(page.comments[i], value, stamp, data);
      }
    }
    assert reconciled.pages == direct.pages;
  }
}
