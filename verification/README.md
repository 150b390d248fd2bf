# Comment vote cache patcher (NearbyFeed client)

A Dafny model of the client-side optimistic update for comment votes in the
NearbyFeed mobile app (`client/src/api/posts/use-vote-comment.ts`). When the
user votes on a comment, the mutation predicts the new points and like before
the server answers. It writes that prediction into the query cache, in the
post's infinite comment list and in the single-comment entry. If the request
fails, it writes the snapshots back. If it succeeds, it overwrites the
matched entries with the server's comment and like, keeping the cached author
when the server's comment has none.

Modules:

- `Types` (`Types.dfy`): `Comment`, `CommentLike`, `User`, the list pages
  (`CommentsPage`, `InfiniteComments`), the mutation `Variables`, the server
  `Response` and the `Context` passed from onMutate to onError. An optional
  TypeScript property is an `Option`. `None` means the property is absent,
  which is what matters for the `{ author, ...data.comment }` spread.
- `CommentUpdates` (`CommentUpdates.dfy`): `OptimisticComment`
  (retrieveNewOptimisticComment) and `MergeServerComment` (the object literal
  onSuccess writes), with lemmas on points, idempotence and reconciliation.
- `CommentPatch` (`CommentPatch.dfy`): `findIndex`, the patch of one page and
  of the whole list, and the `pages.map` loop as a method proved against the
  list function.
- `VoteCache` (`VoteCache.dfy`): the list and single-comment keys, and a
  `QueryCache` class with `OnMutate`, `OnError` and `OnSuccess`. Each of these
  states the whole new cache. `Vote` runs one complete mutation with no other
  vote in flight. It proves that a failed vote leaves the cache exactly as it
  was, and that a successful vote leaves it as if the server's answer had been
  written with no prediction before it. `OverlappingVotes`,
  `OverlappingVotesOnOtherComments` and `RollbackUnderChangedSort` show what
  happens when those conditions fail.

Cache writes follow TanStack Query's `setQueryData`. An updater that returns
`undefined`, or an `undefined` value, leaves the entry unchanged. So an absent
entry stays absent, and a missing snapshot writes nothing on rollback.

The prediction does not toggle a repeated vote off: voting the same value
again leaves the points as they are and the like at that value. A changed
vote moves the points by a fixed +1 (new value 1) or −1 (any other value),
not by the new vote minus the old one.
`CommentUpdates.OptimisticKeepsOthersVotesIff` states exactly when this fixed
step agrees with a new-minus-old tally. For example, changing a vote from −1
to 1 predicts +1, but the difference is 2.

## Model

| member | source | states |
|---|---|---|
| `CommentUpdates.OptimisticComment` | client/src/api/posts/use-vote-comment.ts:199-240 | The prediction keeps the comment's id and every field except points and like. Its like always has the voted value. An existing like keeps its id, commentId, userId and timestamps. |
| `CommentUpdates.OptimisticPoints` | client/src/api/posts/use-vote-comment.ts:203-224 | With no like, points move by the value. With a like of the same value, points are unchanged. With a like of a different value, points move by +1 when the value is 1 and by −1 otherwise, whatever the old value was. |
| `CommentUpdates.OptimisticSyntheticLike` | client/src/api/posts/use-vote-comment.ts:231-238 | With no prior like, the prediction makes a like with the clock-derived id and timestamps, the voted value, `commentId` equal to the comment's id and `userId` equal to −1. |
| `CommentUpdates.OptimisticIdempotent` | client/src/api/posts/use-vote-comment.ts:208-230 | Predicting the same vote twice gives exactly the first prediction. |
| `CommentUpdates.OptimisticKeepsOthersVotesIff` | client/src/api/posts/use-vote-comment.ts:205-224 | The prediction keeps "points minus own vote" fixed if and only if there was no like, the value is unchanged, or the fixed ±1 step equals the difference of the votes. |
| `CommentUpdates.MergeServerComment` | client/src/api/posts/use-vote-comment.ts:185-191 | The reconciled comment's like is the server's like. Its author is the cached author when the server's comment has none, and the server's author otherwise. Every other field is the server's. |
| `CommentUpdates.MergeForgetsPrediction` | client/src/api/posts/use-vote-comment.ts:164-169 | Reconciling a predicted comment gives the same comment as reconciling the comment before prediction. |
| `CommentPatch.Apply` | client/src/api/posts/use-vote-comment.ts:79-86 | A prediction keeps the matched comment's id and sets its like to the voted value. A reconciliation takes the server's id and like; that case models lines 164-169. |
| `CommentPatch.FindIndex` | client/src/api/posts/use-vote-comment.ts:73-75 | The result is −1 if and only if no comment has the id. Otherwise it is the first position holding that id. |
| `CommentPatch.PatchPage` | client/src/api/posts/use-vote-comment.ts:73-90 | A page keeps its length and `hasMore`. Only its first comment with the id is rewritten, and every other comment is untouched. |
| `CommentPatch.PatchList` | client/src/api/posts/use-vote-comment.ts:68-95 | The list keeps `pageParams`, its page count, and each page's length and `hasMore`. In each page, exactly the first matching comment is rewritten. |
| `CommentPatch.PatchPages` | client/src/api/posts/use-vote-comment.ts:72-91 | The page loop produces, page by page, the patched list's pages. |
| `CommentPatch.PredictListIdempotent` | client/src/api/posts/use-vote-comment.ts:68-95 | Patching the list twice with the same vote's prediction gives the list patched once. |
| `CommentPatch.ReconcileErasesPrediction` | client/src/api/posts/use-vote-comment.ts:154-178 | Reconciling the optimistically patched list gives the original list reconciled directly. |
| `VoteCache.UseCommentsKey` | client/src/api/posts/use-vote-comment.ts:242-253 | retrieveUseCommentsKey: the list key is the pair of the post id and the sort order's text. The sort's `toString` itself is abstracted, as "## Left out" says. |
| `VoteCache.SingleCommentKey` | client/src/api/posts/use-vote-comment.ts:98-101 | The single-comment key, built the same way at lines 137-140 and 180-183, is the pair of the vote's post id and comment id. |
| `VoteCache.Lookup` | client/src/api/posts/use-vote-comment.ts:64-65 | getQueryData, also at line 107: the result is present exactly when the key has an entry, and then it is that entry. |
| `VoteCache.QueryCache.RollbackUnderChangedSort` | client/src/api/posts/use-vote-comment.ts:126-135 | When the sort order changes between onMutate and onError, the voted list keeps its prediction and the snapshot is written under the other sort's list key (built as in retrieveUseCommentsKey, lines 242-253). The single-comment entry, whose key has no sort, is restored. |
| `VoteCache.QueryCache.SetCommentList` | client/src/api/posts/use-vote-comment.ts:132-135 | setQueryData on a list key: a present value replaces the entry, an absent value (`undefined`) changes nothing. The single-comment entries are untouched. Lines 68 and 154 use it through updaters that return `undefined` for an absent entry. |
| `VoteCache.QueryCache.SetComment` | client/src/api/posts/use-vote-comment.ts:142-145 | setQueryData on a single-comment key: a present value replaces the entry, an absent value changes nothing. The lists are untouched. Lines 109 and 185 use it through updaters that return `undefined` for an absent entry. |
| `VoteCache.QueryCache.OnMutate` | client/src/api/posts/use-vote-comment.ts:52-124 | Returns the two snapshots of the entries before the write. The list entry, if present, becomes the predicted patch of itself, and so does the single entry. Absent entries stay absent. Every other entry is unchanged. |
| `VoteCache.QueryCache.OnError` | client/src/api/posts/use-vote-comment.ts:126-146 | Each present snapshot in the context is written back to its key. A missing snapshot or context writes nothing. |
| `VoteCache.QueryCache.OnSuccess` | client/src/api/posts/use-vote-comment.ts:148-196 | The list entry, if present, has its matched comments replaced by the server's comment and like, with the cached author when the server's comment has none. The single entry is merged the same way. Absent entries stay absent. Every other entry is unchanged. |
| `VoteCache.QueryCache.Vote` | client/src/api/posts/use-vote-comment.ts:33-197 | After a failed vote, both entries equal exactly what they were before onMutate. After a successful vote, they equal the server's answer merged into the pre-vote entries, with no trace of the prediction. |
| `VoteCache.QueryCache.OverlappingVotes` | client/src/api/posts/use-vote-comment.ts:52-146 | With two overlapping votes on one comment, where the first succeeds and the second then fails, both entries end holding the first vote's prediction. The server's answer is overwritten, because the second snapshot was taken after the first prediction. |
| `VoteCache.QueryCache.OverlappingVotesOnOtherComments` | client/src/api/posts/use-vote-comment.ts:52-146 | Two overlapping votes on different comments of one post: the second succeeds, then the first fails. The whole-list rollback leaves the list exactly as it was before both votes, which loses the second vote's server answer. The second comment's single entry is still reconciled. |

## Left out

- `mutationFn` and the HTTP client with its token refresh: network I/O. `Vote` takes the outcome of the request as a parameter.
- `cancelQueries`: the model assumes that cancelling outgoing refetches completes before each cache write, so no background refresh interleaves.
- The global store of the comment sort order: each callback takes the sort's textual form as a parameter. `CommentsSort` itself and its `toString` are not part of this model, so two different sort orders are taken to have different textual forms. `Vote` uses one sort for all three steps. `RollbackUnderChangedSort` shows what happens when the sort changes between onMutate and onError.
- Clock reads: the source reads the clock for every synthetic like it makes. `OnMutate` takes one `Stamp` (like id and two timestamps) and uses it for every predicted comment in that call.
- Id strings: the route ids arrive as decimal strings. The model takes the integers they denote. Comments match by numeric id where the source compares `id.toString()` with the string. A non-canonical string such as `"007"` would give the source no match in the list but the same single-comment key; the model does not capture that difference.
- The rest of the query cache (posts, other queries) and react-query's observers and re-renders: the model keeps only the two kinds of entries the vote touches.
- The server side (the controllers, the post-active guard, and the vote service that sets the authoritative points), DTO validation and all UI screens and components: outside the client's cache patcher.
- VoteCache.QueryCache.Vote: its exact-rollback and no-trace guarantees assume that no other vote is in flight on any comment of the same post, because the list snapshot and its rollback cover the post's whole list. For the single-comment entry, the assumption is only that no other vote is in flight on the same comment. The source does not serialise mutations, so a second vote's snapshot holds the first vote's prediction, and a failed vote's list rollback can overwrite another vote's server answer. `OverlappingVotes` and `OverlappingVotesOnOtherComments` show two such interleavings.
- Number widths and dates: TypeScript `number` fields (ids, points, vote values) are unbounded integers, and a `Date` is an integer count of milliseconds. The values involved are small integers, so no floating-point rounding arises in the core.
