# Verification models for Sofie core

Dafny models of seven self-contained cores of the Sofie playout system, and proofs about them.
`dafny verify dfyconfig.toml` checks the whole project.

- **Change feed** (`ChangeFeed`, `ChangeFeedWorld`): the reference-counted change stream with its asynchronous open,
  restart backoff and stop races. The class is the feed itself. The world around it is a step relation: database
  writes, resume points, delivery, failures, the timer, subscribers that queue snapshots and events as the observe
  multiplexer does, and stops. The main result is gap-free convergence over every interleaving.
- **PartInstance ranks** (`PartRanks`, `PartReconcile`, `PartRankLaws`, `PartRankRerun`, `PartInstanceUpdate`): orphans
  are partitioned by old rank, merged onto surviving Parts and given new ranks between them. The loops are proved
  against a declarative rank, and order, distinctness, conservation and idempotence are proved of that rank.
- **In-memory MongoDB** (`MongoJson` and the other `Mongo` modules): the matcher against a declarative semantics and an
  exact account of its errors (`MongoErrors`, `MongoErrorLaws`), with the rank by which it comes to an end; the sort
  order; updates at dotted paths; projections. `MongoQueries` and `MongoEdits` say what single queries and modifiers come
  to, in terms of fields and items.
- **Timecode** (`DropFrame`, `TimecodeLabels`, `TimecodeText`, `Timecodes`): drop-frame labels of section 4.2.2 of SMPTE
  12M-1999 for k = 1 (29.97) and k = 2 (59.94), labels without drop frames at any rate, texts and arithmetic.
- **Locks** (`Locks`, `LockProtocol`, `LockStages`, `LockLiveness`): the lock manager as a class, and the protocol around
  it with events that are deferred, grants that can be refused, and answers that come late.
- **Timeline** (`Timeline`, `TimelineForest`, `TimelineOrder`): the two in-place transformations of a flat timeline into
  a forest. `JsKeys` says in which order a JavaScript object enumerates its keys.
- **Debouncers and playlist order** (`Debouncers`, `PlaylistOrder`).

Objects that the program updates in place are classes or loops proved against a specification function; what the
program promises is then proved of that function. Where a JavaScript loop goes through the keys of an object, the method
here takes the keys in any order if the order cannot matter. The matcher, whose errors depend on it, is given the order in
which objects enumerate their keys.

Some things that were expected to hold do not, and are settled exactly:

- The `error` and `end` handlers of a stream are not tied to the current stream. `LateFailureExact` says when such an
  event is harmless, `LateFailureLeaks` gives a run that leaves a stream behind, and by `LeakedForGood` that stream is
  never current again and never closed.
- A queued request cannot always come to hold its resource: a worker that gives up when its grant has just been accepted
  leaves a lock that nothing but a release of its thread takes away, and a release takes its own later requests out of the
  queue. `EveryTurnCanCome` is exact, `GivingUpTooLate` gives a run.
- The matcher does not always return on supported selectors: an `$elemMatch` over an array with a null element can throw,
  and whether it does can depend on the order of the keys of the selector. `AnswersExactly` says when a call returns under
  every order, `OrderMatters` gives a call for which one order throws and another does not.
- Roots and the members of a group do not always come in timeline order. They do exactly when those among them whose ids
  are array indices come first and in ascending order (`RootsInTimelineOrder`, `MembersInTimelineOrder`), so two roots "2"
  and "1" change places (`RootsChangePlaces`). The whole store keeps the order of the timeline under the same condition on
  all ids (`ObjectsAreTimeline`), which is more than the forest needs (`OvertakingOthers`).
- A field `length` of a document cannot be set to a number that an array could have as its length: the walk over the
  entries of an operator takes them for an array. `MongoModify` says exactly when a modifier is worked off,
  `LengthIsNotSet` gives two that are not.
- A playlist order that is set in Sofie and names a rundown twice keeps it twice (`RepeatedStaysRepeated`).
  `OrderIsPermutation` is exact.
- A projection made twice is not always the projection made once. `ProjectingTwice` says when it is, `NotIdempotent`
  gives a document for which it is not.
- Setting a path can change one path apart from it: the length of an array that grows (`OtherPathsUnchanged`,
  `LengthChanges`).
- Labels without drop frames are in range from zero on only (`NonDropExact`), and texts of rates above 100 are not
  always read back (`PrintReadsBack`, `HighRatesDoNotReadBack`).
- The two timeline transformations give the same forest only when every group that is named exists (`ForestsAgree`,
  `MissingGroup`).
- Two framerates are the same only if they are written the same way (`OtherWritingIsRefused`).
- A projection of nothing but `_id: 1` returns the whole document (`MongoProjectDocument`), where MongoDB would return
  the id alone.

## Model

| member | source | states |
|---|---|---|
| `ChangeFeed.CollectionChangeFeed.SubscribeTo` | packages/corelib/src/collectionChangeFeed.ts:112-126 | subscribing starts a stream only when there is none, none pending and none scheduled, and otherwise resyncs the newcomer at once if a stream is open |
| `ChangeFeed.CollectionChangeFeed.StopHandle` | packages/corelib/src/collectionChangeFeed.ts:128-138 | the handle's subscriber leaves, and the feed is stopped if nobody is left |
| `ChangeFeed.CollectionChangeFeed.StartStream` | packages/corelib/src/collectionChangeFeed.ts:141-170 | a factory that throws leads to a scheduled restart, a promise to a pending open, a stream to an attached one |
| `ChangeFeed.CollectionChangeFeed.OnResolved` | packages/corelib/src/collectionChangeFeed.ts:152-155 | a late stream is attached, or closed at once if nobody is left |
| `ChangeFeed.CollectionChangeFeed.OnRejected` | packages/corelib/src/collectionChangeFeed.ts:156-159 | a failed open schedules a restart |
| `ChangeFeed.CollectionChangeFeed.AttachStream` | packages/corelib/src/collectionChangeFeed.ts:172-196 | every subscriber of the moment is asked to resync, in order, after the stream is current |
| `ChangeFeed.CollectionChangeFeed.OnChange` | packages/corelib/src/collectionChangeFeed.ts:182-185 | a change reaches every subscriber of the moment once, in order |
| `ChangeFeed.CollectionChangeFeed.DropAndRestart` | packages/corelib/src/collectionChangeFeed.ts:198-213 | the current stream is closed and dropped; at most one restart timer is armed, and only while somebody listens |
| `ChangeFeed.CollectionChangeFeed.OnTimer` | packages/corelib/src/collectionChangeFeed.ts:209-212 | the timer starts a stream only if none is open |
| `ChangeFeed.CollectionChangeFeed.StopCurrentStream` | packages/corelib/src/collectionChangeFeed.ts:215-227 | stopping clears the timer and closes the stream for good |
| `ChangeFeed.StopTwice` | packages/corelib/src/collectionChangeFeed.ts:129-137 | stopping a handle twice is stopping it once |
| `ChangeFeed.LastStopEndsTheFeed` | packages/corelib/src/collectionChangeFeed.ts:129-137 | the last handle to stop, and no other, ends the feed: the stream there was is closed, the timer there was is cleared, and the feed is reported empty |
| `ChangeFeed.OthersStay` | packages/corelib/src/collectionChangeFeed.ts:129-137 | subscribers that stay keep their order |
| `ChangeFeed.RestartTwice` | packages/corelib/src/collectionChangeFeed.ts:198-213 | a second failure neither closes anything nor arms a second timer |
| `ChangeFeed.CreatedOnlyWhenIdle` | packages/corelib/src/collectionChangeFeed.ts:117-119 | a subscriber opens a stream if and only if none is open, pending or scheduled and the feed is not stopped; the timer does if and only if the feed is in use and none is open |
| `ChangeFeed.NewcomerResyncs` | packages/corelib/src/collectionChangeFeed.ts:120-126 | a newcomer is asked to resync exactly when the feed has a stream after its joining |
| `ChangeFeedWorld.ContentsIsLookup` | packages/corelib/src/collectionChangeFeed.ts:30-48 | a collection is, document by document, the last write to each document |
| `ChangeFeedWorld.LookupStable` | packages/corelib/src/collectionChangeFeed.ts:30-48 | between two resume points with no write to a document, the document reads the same |
| `ChangeFeedWorld.PlumbedNext` | packages/corelib/src/collectionChangeFeed.ts:112-227 | every step keeps: one way forward, every stream obtained is current or closed, observers and subscribers correspond |
| `ChangeFeedWorld.LateFailureExact` | packages/corelib/src/collectionChangeFeed.ts:186-187 | an error or end event keeps that invariant if and only if it does not come while another open is pending |
| `ChangeFeedWorld.LateFailureLeaks` | packages/corelib/src/collectionChangeFeed.ts:198-213 | without that assumption there is a run after which a stream is neither current nor closed |
| `ChangeFeedWorld.LeakedForGood` | packages/corelib/src/collectionChangeFeed.ts:172-227 | over every further run such a stream is never current again and never closed |
| `ChangeFeedWorld.ExactlyOneWayForwardAndNoLeak` | packages/corelib/src/collectionChangeFeed.ts:112-227 | in every reachable state a feed in use has exactly one of an open stream, a pending open or an armed timer; every other stream ever obtained is closed |
| `ChangeFeedWorld.StoppedForGood` | packages/corelib/src/collectionChangeFeed.ts:215-227 | a reachable feed that is stopped has no stream and no timer, and over any further run never has one again, even if a pending open resolves |
| `ChangeFeedWorld.EventSettles` | packages/sofie-core/src/collections/changeStream/observeMultiplexer.ts:239-247 | applying an event by id leaves the document as in the collection or a later write to it outstanding |
| `ChangeFeedWorld.ApplyKeepsFlow` | packages/sofie-core/src/collections/changeStream/observeMultiplexer.ts:232-253 | working off one queue entry loses no write: what the view lacks is still outstanding |
| `ChangeFeedWorld.ConsistentNext` | packages/corelib/src/collectionChangeFeed.ts:172-196 | every step, in any interleaving, keeps every gap of every observer covered |
| `ChangeFeedWorld.QuietRunKeepsInvariants` | packages/corelib/src/collectionChangeFeed.ts:77-227 | the same over whole runs |
| `ChangeFeedWorld.GapFreeConvergence` | packages/corelib/src/collectionChangeFeed.ts:188-196 | once the stream has delivered every write and a subscriber has worked off its queue, its view equals the collection, first and late subscribers alike |
| `ChangeFeedWorld.CanAlwaysCatchUp` | packages/corelib/src/collectionChangeFeed.ts:112-213 | from every consistent state a feed in use can bring any subscriber to the collection without further writes |
| `ChangeFeedWorld.EveryGapCanClose` | packages/corelib/src/collectionChangeFeed.ts:30-48 | whatever happened before, such a continuation exists in every reachable state |
| `PartReconcile.CompileOriginalPartInstanceOrderMap` | packages/job-worker/src/updatePartInstanceRanksAndOrphanedState.ts:265-322 | orphans are grouped by the ranges between the old Part ranks |
| `PartRanks.SortIsStable` | packages/job-worker/src/updatePartInstanceRanksAndOrphanedState.ts:265-322 | orphans of the same old rank keep their order |
| `PartReconcile.GroupPartInstancesByThePartTheyFollow` | packages/job-worker/src/updatePartInstanceRanksAndOrphanedState.ts:330-390 | the merged groups are, for every surviving Part and every segment start, exactly its followers in order |
| `PartReconcile.FollowersExtended` | packages/job-worker/src/updatePartInstanceRanksAndOrphanedState.ts:353-381 | one more old Part moves only the orphans at or above it, and loses and repeats none |
| `PartReconcile.HandledNext` | packages/job-worker/src/updatePartInstanceRanksAndOrphanedState.ts:353-381 | each round of the merge keeps everyone with the last surviving Part at or below them |
| `PartReconcile.HandledAll` | packages/job-worker/src/updatePartInstanceRanksAndOrphanedState.ts:348-384 | so the whole merge places everyone |
| `PartReconcile.RegroupsSegment` | packages/job-worker/src/updatePartInstanceRanksAndOrphanedState.ts:338-384 | merging one segment yields its declarative groups and leaves other segments alone |
| `PartReconcile.RegroupSegment` | packages/job-worker/src/updatePartInstanceRanksAndOrphanedState.ts:348-384 | the loop that extends the previous group in place computes that merge |
| `PartReconcile.AssignGroup` | packages/job-worker/src/updatePartInstanceRanksAndOrphanedState.ts:137-166 | after a Part all gaps from its rank through the group to the next whole rank are equal; at the start of a segment the ranks go up by one to -1; one rank per member, and no other rank changes |
| `PartReconcile.CompileNewPartInstanceRanks` | packages/job-worker/src/updatePartInstanceRanksAndOrphanedState.ts:121-169 | an orphan gets a rank if and only if its segment changed and was listed and its anchor is still in it; the groups of those are spaced evenly in that way, and nobody else gets a rank |
| `PartRankLaws.Lands` | packages/job-worker/src/updatePartInstanceRanksAndOrphanedState.ts:137-166 | start-of-segment orphans land below zero, others strictly between their anchor and the next whole rank |
| `PartRankLaws.KeepsOrphanOrder` | packages/job-worker/src/updatePartInstanceRanksAndOrphanedState.ts:121-169 | orphans keep their mutual order when survivors stay in the segment and in order, whatever was deleted or inserted |
| `PartRankLaws.KeepsSideOfPart` | packages/job-worker/src/updatePartInstanceRanksAndOrphanedState.ts:121-169 | an orphan at or after a surviving Part ends strictly after it, one before it strictly before |
| `PartRankLaws.NeverOnAPart` | packages/job-worker/src/updatePartInstanceRanksAndOrphanedState.ts:121-169 | no orphan shares a rank with a Part of its segment, inserted Parts included |
| `PartRankLaws.RanksAreDistinct` | packages/job-worker/src/updatePartInstanceRanksAndOrphanedState.ts:121-169 | no two orphans of a segment share a rank, even after Parts were reordered |
| `PartRankLaws.FollowersDistinct` | packages/job-worker/src/updatePartInstanceRanksAndOrphanedState.ts:338-384 | no orphan is in a group twice |
| `PartRankRerun.SameGroup` | packages/job-worker/src/updatePartInstanceRanksAndOrphanedState.ts:265-322 | a second run against the current Parts finds the same groups |
| `PartRankRerun.RerunChangesNothing` | packages/job-worker/src/updatePartInstanceRanksAndOrphanedState.ts:121-169 | idempotence: the second run assigns every orphan exactly the rank it has, negative ones included |
| `PartInstanceUpdate.UpdateNormalPartInstanceRanksAndFindOrphans` | packages/job-worker/src/updatePartInstanceRanksAndOrphanedState.ts:175-256 | exactly the instances without a Part are orphans; the others end with the rank of their Part and without an outdated orphan mark, and nothing is written in vain |
| `PartInstanceUpdate.AddRankOps` | packages/job-worker/src/updatePartInstanceRanksAndOrphanedState.ts:98-113 | rank writes change orphans with a different new rank and nobody else |
| `PartInstanceUpdate.SyncedSays` | packages/job-worker/src/updatePartInstanceRanksAndOrphanedState.ts:205-249 | the mark of an instance that was not adlibbed says whether its Part is gone, and its rank follows the Part |
| `PartInstanceUpdate.UpdatePartInstanceRanksAndOrphanedState` | packages/job-worker/src/updatePartInstanceRanksAndOrphanedState.ts:72-119 | applying all write operations gives every instance its reconciled value, and each operation changes something |
| `PartInstanceUpdate.SecondReconciliationIsIdle` | packages/job-worker/src/updatePartInstanceRanksAndOrphanedState.ts:72-119 | so a second update after it has nothing to write |
| `MongoSemantics.FieldBelow` | packages/corelib/src/mongo.ts:286-293 | every entry of a selector ranks below the selector |
| `MongoMatcher.EqRewrite` | packages/corelib/src/mongo.ts:347-351 | a plain value means { $eq: value }, and the bigger selector it becomes has a smaller rank |
| `MongoMatcher.NotRewrite` | packages/corelib/src/mongo.ts:266-271 | the rebuilt selector of $not means the complement condition and ranks lower |
| `MongoMatcher.RestBelow` | packages/corelib/src/mongo.ts:293-306 | the selector made of the remaining path ranks below the path |
| `MongoMatcher.MongoWhere` | packages/corelib/src/mongo.ts:280-355 | under every order of keys it throws exactly when an entry that is reached throws, and otherwise returns the declarative meaning |
| `MongoMatcher.MatchPath` | packages/corelib/src/mongo.ts:293-306 | dotted paths are existential through arrays, and throw when an element before the first that matches does |
| `MongoMatcher.MatchOr` | packages/corelib/src/mongo.ts:307-316 | $or is the disjunction of its selectors, and throws when one before the first that matches does |
| `MongoMatcher.MatchAnd` | packages/corelib/src/mongo.ts:317-327 | $and is the conjunction of its selectors, and throws when one before the first that fails does, or without any selector |
| `MongoMatcher.MatchField` | packages/corelib/src/mongo.ts:330-352 | a field holds by pattern, operators, sub-document or equality; reading a field of null or undefined throws |
| `MongoMatcher.MongoMatchFieldOperators` | packages/corelib/src/mongo.ts:222-278 | an operator object holds when all its operators do and throws when one that is reached does; $ne, $nin and $not are exact complements |
| `MongoMatcher.MatchOperator` | packages/corelib/src/mongo.ts:226-274 | each operator means its declarative condition; unknown ones throw |
| `MongoMatcher.OrderDoesNotMatter` | packages/corelib/src/mongo.ts:280-355 | two matches under different orders of keys never return different answers, and agree on the meaning whenever each entry that can be reached answers, as on supported selectors and documents without null elements |
| `MongoQueries.CompareNumbers` | packages/corelib/src/mongo.ts:230-241 | $gt, $gte, $lt and $lte of a number in a field are the comparisons of numbers |
| `MongoQueries.CompareStrings` | packages/corelib/src/mongo.ts:230-241 | and of strings those by the first differing character |
| `MongoQueries.CompareComplements` | packages/corelib/src/mongo.ts:230-241 | on comparable values $gt and $lte are complements, and $gte and $lt; on others all fail |
| `MongoQueries.TestEquality` | packages/corelib/src/mongo.ts:242-247 | $eq is equality of the field, $ne its complement |
| `MongoQueries.TestList` | packages/corelib/src/mongo.ts:248-253 | $in holds when the field or an item of it is on the list, and $nin when not |
| `MongoQueries.TestExistence` | packages/corelib/src/mongo.ts:254-256 | $exists says whether the field is there |
| `MongoQueries.TestElements` | packages/corelib/src/mongo.ts:227-229 | $elemMatch holds when some object of an array has the wanted field, and of nothing but an array |
| `MongoQueries.TestComplement` | packages/corelib/src/mongo.ts:266-271 | $not is the complement of the condition within, and throws with it |
| `MongoQueries.TestPattern` | packages/corelib/src/mongo.ts:257-259 | $regex looks in a string or in the strings of an array |
| `MongoQueries.TestUnknown` | packages/corelib/src/mongo.ts:272-273 | any other operator throws |
| `MongoQueries.MatchValue` | packages/corelib/src/mongo.ts:347-351 | a plain value in a selector stands for equality |
| `MongoQueries.MatchBothKeys` | packages/corelib/src/mongo.ts:286-292 | both entries of a selector must hold |
| `MongoQueries.MatchRange` | packages/corelib/src/mongo.ts:222-278 | both operators of a range must hold |
| `MongoQueries.MatchEitherOrBoth` | packages/corelib/src/mongo.ts:307-327 | $or of two selectors holds when one does, $and when both do |
| `MongoQueries.MatchNothing` | packages/corelib/src/mongo.ts:307-327 | without selectors $or fails and $and throws |
| `MongoQueries.MatchPathOfTwo` | packages/corelib/src/mongo.ts:293-306 | a path of two words reads the field of an object, or of any object in an array |
| `MongoErrorLaws.AnswersExactly` | packages/corelib/src/mongo.ts:280-355 | a call returns under every order of keys if and only if each entry answers for which all entries that must come before it hold |
| `MongoErrorLaws.SupportedAnswers` | packages/corelib/src/mongo.ts:280-355 | so supported selectors return on every document with no null or undefined element in an array |
| `MongoErrorLaws.OrderMatters` | packages/corelib/src/mongo.ts:228 | with a null element in the array, an $elemMatch beside another entry throws under one order and not under another |
| `MongoErrorLaws.NullElementAnswers` | packages/corelib/src/mongo.ts:293-306 | null elements do no harm where nothing is asked of them |
| `MongoSort.MongoSortComparator` | packages/corelib/src/mongo.ts:361-395 | the loop with its early returns is the lexicographic comparison by key, direction and id |
| `MongoSort.CompareOpposite` | packages/corelib/src/mongo.ts:361-395 | swapping the documents negates the comparison, and only a document ties with itself |
| `MongoSort.CompareTransitive` | packages/corelib/src/mongo.ts:361-395 | the comparison is transitive |
| `MongoSort.FirstKeyDecides` | packages/corelib/src/mongo.ts:361-395 | sorted upwards the values in the result do not fall and missing ones come first; sorted downwards they do not rise and missing ones come last |
| `MongoSort.IdsDecide` | packages/corelib/src/mongo.ts:388-393 | documents the key does not tell apart come in the order of their ids |
| `MongoSort.OneAscendingOrder` | packages/corelib/src/mongo.ts:403-409 | a list is the sorted result if and only if it has the documents and ascends |
| `MongoSort.SortIsCanonical` | packages/corelib/src/mongo.ts:356-360 | a sorted query gives the same list for every order of the stored documents, whether sorted by numbers, strings or booleans |
| `MongoSort.PagesTile` | packages/corelib/src/mongo.ts:411-416 | consecutive pages of any size tile the sorted list |
| `MongoUpdate.UpdateReadsBack` | packages/corelib/src/mongo.ts:607-693 | after an update its path reads what the operator makes of the old value; after a set, the value that was set |
| `MongoUpdate.OtherPathsUnchanged` | packages/corelib/src/mongo.ts:645-693 | a path apart from the updated one reads as before if and only if it is not the length of an array that grew |
| `MongoUpdate.LengthChanges` | packages/corelib/src/mongo.ts:645-693 | setting the first element of an empty array changes what its length reads as |
| `MongoUpdate.UpdatesCommute` | packages/corelib/src/mongo.ts:607-693 | any two updates at paths apart commute, on documents with arrays too |
| `MongoUpdate.RepeatChangesNothing` | packages/corelib/src/mongo.ts:730-828 | every operator but $push is idempotent on whole documents |
| `MongoUpdate.ThrowLeavesDocument` | packages/corelib/src/mongo.ts:665-677 | an update that throws leaves the document as it was, unless the path ends in a dot |
| `MongoUpdate.AddAllLaws` | packages/corelib/src/mongo.ts:745-753 | $addToSet keeps the old array as a prefix, contains every value, and adds no duplicate |
| `MongoUpdate.KeptExactly` | packages/corelib/src/mongo.ts:776-793 | $pull removes all matching elements and keeps the others as often as they were |
| `MongoUpdate.KeptInOrder` | packages/corelib/src/mongo.ts:776-793 | $pull keeps the order of what stays |
| `MongoMutators.MutatePath` | packages/corelib/src/mongo.ts:607-693 | the walk that makes missing parents computes exactly the update, errors of a $pull query included |
| `MongoMutators.PushMutator` | packages/corelib/src/mongo.ts:706-719 | values are appended to an array that is made if missing; another value throws |
| `MongoMutators.AddToSetMutator` | packages/corelib/src/mongo.ts:736-753 | the loop adds the values that are not there yet |
| `MongoMutators.PullMutator` | packages/corelib/src/mongo.ts:767-797 | the three ways of matching remove exactly the elements they stand for, and the update throws when the matcher does at one of them |
| `MongoModifier.OrderIsFree` | packages/corelib/src/mongo.ts:558-598 | updates at paths apart have one outcome in whatever order they are applied |
| `MongoModifier.MongoModify` | packages/corelib/src/mongo.ts:558-598 | a modifier whose paths are apart and apply is worked off if and only if its operators are known and none has entries that look like an array with elements, and then gives the outcome of every order of its updates |
| `MongoModifier.LengthIsNotSet` | packages/corelib/src/mongo.ts:564-569 | setting the field length to 0 does nothing, setting it to 2 throws |
| `MongoEdits.SetField` | packages/corelib/src/mongo.ts:564-567 | $set puts the value into the field and changes nothing else |
| `MongoEdits.UnsetField` | packages/corelib/src/mongo.ts:568-571 | $unset removes the field and nothing else |
| `MongoEdits.PushOne` | packages/corelib/src/mongo.ts:572-575 | $push appends a value, whether it is there or not |
| `MongoEdits.PushEach` | packages/corelib/src/mongo.ts:706-719 | $push with $each appends all values |
| `MongoEdits.AddOne` | packages/corelib/src/mongo.ts:580-583 | $addToSet appends a value exactly when it is not there |
| `MongoEdits.AddEach` | packages/corelib/src/mongo.ts:736-753 | $addToSet with $each appends the new values, each once and in the order given |
| `MongoEdits.PullValue` | packages/corelib/src/mongo.ts:792-793 | $pull of a plain value removes what equals it and keeps the order of the rest |
| `MongoEdits.PullList` | packages/corelib/src/mongo.ts:775-784 | $pull with $in removes what is on the list |
| `MongoEdits.PullQuery` | packages/corelib/src/mongo.ts:786-790 | $pull with a query removes what matches it |
| `MongoEdits.OnlyArrays` | packages/corelib/src/mongo.ts:706-719 | a field that is no array can be neither pushed to, nor added to, nor pulled from |
| `MongoProjection.OnePathMore` | packages/corelib/src/mongo.ts:500-556 | copying one more path adds to a copy exactly what the larger set of paths takes, inside arrays too |
| `MongoProjectionLaws.PathByPath` | packages/corelib/src/mongo.ts:457-463 | path by path, in any order, the copy is what the set of paths takes |
| `MongoProjectionLaws.ProjectingTwice` | packages/corelib/src/mongo.ts:457-463 | projecting twice is as good as once if and only if every path meets a missing value or a nested array at its last word at most |
| `MongoProjectionLaws.NotIdempotent` | packages/corelib/src/mongo.ts:543-554 | a missing parent of a longer path makes a second projection grow the document |
| `MongoProjector.ProjectFieldIntoDoc` | packages/corelib/src/mongo.ts:500-556 | the loop with its in-place targets computes the recursive copy |
| `MongoProjector.ProjectEach` | packages/corelib/src/mongo.ts:527-535 | every element of an array is projected into the element at its place |
| `MongoProjector.FlattenProjection` | packages/corelib/src/mongo.ts:482-493 | the flat specifier has exactly the dotted paths of the nested one |
| `MongoProjector.EmbeddedIsDotted` | packages/corelib/src/mongo.ts:477-481 | embedded and dotted specifiers have the same paths, and so the same projection |
| `MongoProjector.MongoProjectDocument` | packages/corelib/src/mongo.ts:435-475 | inclusion by prefix-free paths takes what their set takes, the id included unless it is excluded; mixing throws |
| `MongoProjector.ProjectOneField` | packages/corelib/src/mongo.ts:457-463 | including one field gives that field and the id, or that field alone when the id is excluded |
| `DropFrame.LabelOfAnyFrame` | packages/corelib/src/timecode.ts:203-230 | every integer has the label of its remainder within a day, and the label is legal |
| `DropFrame.FrameRoundTrip` | packages/corelib/src/timecode.ts:203-247 | the reverse conversion is the inverse on every frame of a day |
| `DropFrame.LabelRoundTrip` | packages/corelib/src/timecode.ts:203-247 | every legal label is the label of its frame number |
| `DropFrame.LabelsIncrease` | packages/corelib/src/timecode.ts:203-230 | labels increase strictly with the frame number |
| `DropFrame.FrameGrowsWithLabel` | packages/corelib/src/timecode.ts:231-247 | frame numbers increase strictly with the label |
| `DropFrame.NominalIsMinuteAndPlace` | packages/corelib/src/timecode.ts:216-223 | the frame number with the dropped labels counted in lies in its minute, past the dropped places |
| `TimecodeLabels.NonDropIsPlain` | packages/corelib/src/timecode.ts:173-186 | division of reals and cutting down is whole-number clock arithmetic from zero on |
| `TimecodeLabels.NonDropExact` | packages/corelib/src/timecode.ts:173-186 | without drop frames the label is in range if and only if the count is not negative |
| `TimecodeLabels.PlainLabelsIncrease` | packages/corelib/src/timecode.ts:173-186 | labels increase strictly with the count, from zero to a day |
| `TimecodeLabels.PlainRoundTrip` | packages/corelib/src/timecode.ts:173-201 | every label in range is the label of its count |
| `TimecodeText.PrintReadsBack` | packages/corelib/src/timecode.ts:93-104 | a printed label reads back exactly if and only if its frames fit the digits of the rate |
| `TimecodeText.Delimiters` | packages/corelib/src/timecode.ts:93-104 | the delimiter before the frames is a semicolon exactly for drop frames, and the others are colons |
| `Timecodes.Timecode.SetFrames` | packages/corelib/src/timecode.ts:67-69 | the label shown is always that of the count |
| `Timecodes.Timecode.SetText` | packages/corelib/src/timecode.ts:62-66 | a text is normalised to the label of its count; a text of a wrong length changes nothing |
| `Timecodes.Timecode.Calculate` | packages/corelib/src/timecode.ts:106-141 | the count changes by the sum of the offsets up to the first that throws |
| `Timecodes.OneOffset` | packages/corelib/src/timecode.ts:106-141 | adding a count or a timecode adds its count, subtracting subtracts it, and a text stands for the count of its label |
| `Timecodes.OtherWritingIsRefused` | packages/corelib/src/timecode.ts:126-129 | a timecode at 25.00 is refused by one at 25 |
| `Timecodes.Timecode.CalculateAll` | packages/corelib/src/timecode.ts:78-91 | any run of adds and subtracts leaves the count at the signed sum, and shows its label |
| `Timecodes.DropFrameArithmetic` | packages/corelib/src/timecode.ts:106-141 | the label of any signed sum is that of the sum modulo a day, and legal |
| `Timecodes.PlainArithmetic` | packages/corelib/src/timecode.ts:106-141 | and without drop frames too, if and only if the sum is not negative |
| `Timecodes.DropFrameTextRoundTrip` | packages/corelib/src/timecode.ts:93-162 | printing and parsing restores the label and the count modulo a day |
| `Timecodes.PlainTextRoundTrip` | packages/corelib/src/timecode.ts:93-162 | so it does without drop frames for milliseconds and rates up to 100 |
| `Timecodes.HighRatesDoNotReadBack` | packages/corelib/src/timecode.ts:150-158 | at every higher rate some label is refused when read back |
| `Locks.LocksManager.LockNextWorker` | packages/job-worker/src/locks.ts:35-75 | a free resource goes to the first in its queue, with one grant |
| `Locks.LocksManager.OnLock` | packages/job-worker/src/locks.ts:84-90 | a lock event queues its request behind the others; a free resource goes to the first of them by one grant, a held one keeps its holder |
| `Locks.LocksManager.OnUnlock` | packages/job-worker/src/locks.ts:91-107 | an unlock by the holder passes the resource to the first in its queue, by exactly that grant, or leaves it free; any other unlock of a held resource changes nothing |
| `Locks.LocksManager.OnReply` | packages/job-worker/src/locks.ts:56-69 | a refusal of the very request that holds does the same; any other answer changes nothing |
| `Locks.LocksManager.ReleaseAllForThread` | packages/job-worker/src/locks.ts:118-133 | a thread leaves every queue and every lock it holds, and each of these goes to the first who is left, by a grant |
| `LockProtocol.InvNext` | packages/job-worker/src/locks.ts:35-133 | every step of requests, grants, replies and releases keeps the protocol invariant |
| `LockProtocol.MutualExclusion` | packages/job-worker/src/locks.ts:35-133 | over whole runs at most one worker believes it owns a resource, and the manager agrees |
| `LockProtocol.ReleaseExact` | packages/job-worker/src/locks.ts:118-133 | releasing a thread is safe exactly when none of its workers owns a lock or has a grant under way |
| `LockProtocol.BusyNext` | packages/job-worker/src/locks.ts:35-133 | at every step boundary a resource with waiters has a holder |
| `LockProtocol.FirstComeFirstServed` | packages/job-worker/src/locks.ts:84-90 | over whole runs, requests that were not dropped are granted in their order of arrival |
| `LockStages.OneStage` | packages/job-worker/src/locks.ts:35-133 | over whole runs every request that was made is at exactly one stage, deferred, queued, holding, finished or dropped, and only ever at its resource |
| `LockStages.StagesMoveOn` | packages/job-worker/src/locks.ts:35-133 | over whole runs a request never goes back to an earlier stage |
| `LockStages.GrantedOnce` | packages/job-worker/src/locks.ts:35-75 | over whole runs no request is granted twice, and those granted are exactly those that hold or have finished |
| `LockLiveness.UnlockEndsTheHold` | packages/job-worker/src/locks.ts:91-107 | in every reachable state a handled unlock ends the hold, and the next in the queue is granted |
| `LockLiveness.RefusalEndsTheHold` | packages/job-worker/src/locks.ts:56-69 | and so does a refused grant |
| `LockLiveness.EveryTurnCanCome` | packages/job-worker/src/locks.ts:35-133 | from every reachable state a queued request can come to hold its resource, if and only if it is not behind a request of its own thread that can no longer let go |
| `LockLiveness.GivingUpTooLate` | packages/job-worker/src/workers/locks.ts:57-65 | a worker that gives up once its grant is accepted brings that about |
| `LockProtocol.AbsentAfterRelease` | packages/job-worker/src/locks.ts:118-133 | in any run with a release of a thread, the thread holds and awaits nothing afterwards until one of its own deferred events runs |
| `JsKeys.EnumeratedInOrder` | packages/playout-gateway/src/tsrHandler.ts:955-962 | distinct keys are gone through in order of insertion if and only if the array indices among them come first and ascend |
| `Timeline.ObjectsAreTimeline` | packages/playout-gateway/src/tsrHandler.ts:955-962 | with unique ids the store is gone through in timeline order if and only if ids that are array indices come first and ascend |
| `Timeline.IndicesChangePlaces` | packages/playout-gateway/src/tsrHandler.ts:955-962 | so objects with the ids "2" and "1" change places |
| `Timeline.TransformGateway` | packages/playout-gateway/src/tsrHandler.ts:953-982 | in place: the roots are the objects in no group, each group gets its members appended in order, and grouped objects lose their group |
| `Timeline.TransformCorelib` | packages/corelib/src/playout/timeline.ts:8-52 | in place: the same, with objects of missing groups as roots; an object without id throws before anything is regrouped |
| `TimelineForest.RootsAgree` | packages/corelib/src/playout/timeline.ts:30-50 | the two transformations find the same roots if and only if no object names a missing group |
| `TimelineForest.ForestsAgree` | packages/corelib/src/playout/timeline.ts:30-50 | and everything is at the same place in both outputs under the same condition |
| `TimelineForest.MissingGroup` | packages/corelib/src/playout/timeline.ts:30-50 | an object whose group is missing is in the output of corelib and not in that of the gateway |
| `TimelineForest.ForestInOrder` | packages/playout-gateway/src/tsrHandler.ts:962-979 | in either output roots and appended children are in the order of the store, each once |
| `TimelineOrder.RootsInTimelineOrder` | packages/playout-gateway/src/tsrHandler.ts:955-982 | with unique ids the roots come in the order in which a store of them alone would be gone through, so in timeline order if and only if the array indices among their ids come first and ascend |
| `TimelineOrder.MembersInTimelineOrder` | packages/playout-gateway/src/tsrHandler.ts:955-982 | the same for the members of every group |
| `TimelineOrder.RootsChangePlaces` | packages/playout-gateway/src/tsrHandler.ts:955-982 | the roots "2" and "1" change places in either output |
| `TimelineOrder.OvertakingOthers` | packages/playout-gateway/src/tsrHandler.ts:955-982 | an index that overtakes no sibling changes the order of the store but no list of roots or members |
| `TimelineForest.PathUnique` | packages/playout-gateway/src/tsrHandler.ts:962-979 | no object is in either output twice |
| `TimelineForest.InOutputIffGrounded` | packages/corelib/src/playout/timeline.ts:30-50 | an object is in the output if and only if its chain of groups ends, at an ungrouped object or, in corelib, at one whose group is missing |
| `TimelineForest.ObjectsAreForest` | packages/playout-gateway/src/tsrHandler.ts:962-979 | read off the transformed objects themselves: nothing is reached twice through roots and children, and what is reached are the objects whose chains of groups end |
| `TimelineForest.ObjectsAfter` | packages/playout-gateway/src/tsrHandler.ts:962-979 | an object in a group that exists loses it, and members are appended behind the children there were |
| `Debouncers.CallbackDebouncer.HandleCallback` | packages/playout-gateway/src/tsrHandler.ts:997-1095 | a callback joins the pending batch of its playlist and sends nothing; of another playlist it sends the pending batch and starts one; sent and pending batches are the accepted callbacks in order |
| `Debouncers.CallbackDebouncer.HandleAll` | packages/playout-gateway/src/tsrHandler.ts:1037-1050 | as long as the timer does not fire, one batch follows another only when the playlist changes |
| `Debouncers.OneWayToCut` | packages/playout-gateway/src/tsrHandler.ts:1037-1050 | which leaves one way to cut the callbacks into batches |
| `Debouncers.CallbackDebouncer.SendChangedResults` | packages/playout-gateway/src/tsrHandler.ts:987-995 | when the timer fires the pending batch is sent and nothing accepted is left |
| `Debouncers.DeviceUpdater.Trigger` | packages/playout-gateway/src/tsrHandler.ts:710-726 | after initialisation a trigger leaves an update scheduled that has not started |
| `Debouncers.DeviceUpdater.StartUpdate` | packages/playout-gateway/src/tsrHandler.ts:728-730 | updates never overlap |
| `Debouncers.DeviceUpdater.FinishUpdate` | packages/playout-gateway/src/tsrHandler.ts:739-748 | what was triggered during an update is scheduled again when it settles |
| `Debouncers.DeviceUpdater.LetTimersFire` | packages/playout-gateway/src/tsrHandler.ts:710-749 | from any state with an unserved trigger, the timers lead to an update that serves it |
| `PlaylistOrder.ProduceOrder` | packages/job-worker/src/rundownPlaylists.ts:295-332 | the order is the named rundowns in the order set by Sofie or the blueprint, then the rest in default order |
| `PlaylistOrder.BlueprintDecides` | packages/job-worker/src/rundownPlaylists.ts:297-318 | unless the order is set in Sofie, of two rundowns the one that the blueprint named first comes first |
| `PlaylistOrder.OrderIsPermutation` | packages/job-worker/src/rundownPlaylists.ts:295-332 | it has exactly the rundowns, and each once if and only if the order it starts from names none of them twice |
| `PlaylistOrder.RepeatedStaysRepeated` | packages/job-worker/src/rundownPlaylists.ts:295-332 | an order set in Sofie that names a rundown twice keeps it twice |
| `PlaylistOrder.BaseIsDistinct` | packages/job-worker/src/rundownPlaylists.ts:295-318 | which an order not set in Sofie never does |
| `PlaylistOrder.Move` | packages/job-worker/src/rundownPlaylists.ts:437-470 | a one- or two-id fragment keeps the order of all others and puts the moved rundown at the end or directly beside its neighbour; a fragment without it is refused |

## Left out

- ChangeFeedWorld.ExactlyOneWayForwardAndNoLeak: assumes of failures that none comes late while another open is pending; `LateFailureExact` shows that this is exactly what is needed.
- ChangeFeedWorld.GapFreeConvergence: makes the same assumption, and takes it that a closed stream delivers no further change.
- ChangeFeed.CollectionChangeFeed.AttachStream: subscriber callbacks return normally and do not re-enter the feed; a callback that throws would skip the later ones.
- ChangeFeed: a snapshot that fails is logged and dropped by the multiplexer, and its per-subscriber replay, field shapes and projections are not modelled.
- PartReconcile.CompileNewPartInstanceRanks: changed segments are listed once, and the old Part lists climb strictly in rank and share no Part; with duplicates the group arrays would be extended twice in place.
- PartReconcile.CompileNewPartInstanceRanks: an orphan whose anchor Part moved to another segment gets no rank, as in the program; the laws are stated where that does not happen.
- PartRankLaws: ranks are real numbers, so rounding of fractions is not modelled; surviving Parts have whole ranks, as the data model says.
- PartInstanceUpdate: the database read and the bulk write; write operations are values that are applied to an instance.
- MongoMatcher.MongoWhere: patterns are an uninterpreted predicate of pattern, options and text, so compiling them and errors in their flags are not modelled.
- MongoMatcher.MongoWhere: comparison is modelled for numbers, booleans, null and strings among themselves; JavaScript also compares numbers with numeric strings, and objects by their text.
- MongoQueries.CompareStrings: strings are compared by characters, which are code units as long as they are below 2^16.
- MongoMatcher.MongoWhere: objects with equal fields enumerate their keys in the same order within one call.
- MongoJson: prototype properties, dates, functions and NaN; deep equality is equality of values.
- MongoSort.SortIsCanonical: sort values at one path are all numbers, all strings or all booleans, or missing; ids are distinct strings.
- MongoSort.PagesTile: skip and limit are not negative, and `mongoFindOptions` is modelled without its projection step.
- MongoMutators.MutatePath: documents are values, so aliasing between a document and the values put into it is not captured; the objects on the way are kept on a list instead of being reached by reference.
- MongoMutators.MutatePath: positional `$` words are excluded, and outcomes that leave a hole in an array or put a named property on an array are only named (`Beyond`).
- MongoModifier.MongoModify: `$rename`, positional `$` words, and operators whose values are not plain objects.
- MongoProjector.MongoProjectDocument: exclusion is done by a library and only named (`Excluded`); paths of which one leads through another are rejected by MongoDB and get no law.
- MongoProjector.ProjectFieldIntoDoc: paths are handed on as their words, and a path whose first word is empty is treated like any other.
- Timecodes.Timecode.SetText: texts with parts that are not numbers, which make the fields NaN, are excluded, as are `Date` inputs, fractional frame counts, and numbers in texts other than decimal digits.
- Timecodes.Timecode.Calculate: framerates are written as decimals with up to two digits after a point, or as `ms`.
- DropFrame: the frame constants are exact roundings of rationals; floating-point error is not modelled.
- Locks.LocksManager: logging and the transport of events between threads; the worker is the pending-lock table of `packages/job-worker/src/workers/locks.ts` as far as owning a lock goes.
- LockProtocol.MutualExclusion: lock ids are unique, a refusal means that the lock was not taken, and a thread is released when no worker of it owns a lock or has a grant under way.
- Timeline.TransformCorelib: contents are only flags for the defaults filled in; ids that name prototype properties are not modelled.
- Debouncers.CallbackDebouncer.HandleCallback: callbacks of other kinds, which are sent at once; a batch whose sending fails is logged and lost.
- PlaylistOrder.ProduceOrder: the default order and the blueprint's order, sorted by rank and locale, are given.
- PlaylistOrder.Move: the branch that replaces the complete order, and the rest of the move handler.
- Everything else in the repository: drivers, gateways' connections, IPC, HTTP, metrics, the user interface, and data types without behaviour.
