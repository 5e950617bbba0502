# Verified models of crossplane-runtime

This project models the parts of crossplane-runtime that are hardest to get right and
proves what they promise, for all inputs and all runs.

* **The managed reconciler** (`Protocol*.dfy`, `Reconciling.dfy`, with `Meta.dfy` and
  `Policies.dfy`). `Protocol` is `Reconcile` as a step system: the history of the object
  in the API server, the external system, a clock, and the reconcile under way. Between
  any two calls time may pass, others may edit the object, resources may vanish and the
  process may crash. Calls may fail, or take effect and still report an error; reads may
  return any past version; updates are compare-and-swap. `Reconciling` is the same code
  as it is written, imperative with early returns, and refines the step system.
  `ProtocolSafety`, `ProtocolStage` and `ProtocolHistory` need no assumption about the
  external system; `ProtocolLeak` and `ProtocolLimits` are about leaks and the grace
  period, `ProtocolDeterministic` about leaks where external names are deterministic;
  `ProtocolRound` is about a single reconcile; `ProtocolPlan` says what one that nothing
  disturbs does, by a table over the fields of the object and the answers of the external
  system; `ProtocolWarrant` says why a call is made, what is left alone and how failures end,
  in any run; `ProtocolLiveness` is about deletion getting done.
* **Field paths over JSON trees** (`FieldPath.dfy`, `PathGrammar.dfy`, `Json.dfy`,
  `PavedJson.dfy`, `PavedLaws.dfy`, `PavedObject.dfy`, `Expand.dfy`): the lexer, parser and
  printer, the grammar they implement, and get, set, delete and wildcard expansion. The loops that change an object in place are
  methods proved against recursive functions, and the laws are about those functions.
* **Four smaller stateful parts**: the callback gate under interleaving (`Gating.dfy`),
  condition lists (`Conditions.dfy`), the file-concatenating reader (`FsReader.dfy`) and
  resolving several references (`References.dfy`, with `Ordering.dfy`).

`Text.dfy` holds the string functions used throughout; a string is a sequence of bytes,
one per `char`. I/O, the clock, the network and the external system are parameters: events
of the step system, the script of `Reconciling.Controller`, the fixed files of `FsReader`,
the fixed cluster of `References`. Go map iteration order is arbitrary.

## What the environment is assumed to keep to

The clock never goes back. The other assumptions are predicates over one step, in
`Protocol`:

* `Polite`: others leave the three creation annotations, the external name and our
  finalizer alone; the API server does not undelete, and takes no new finalizers after a
  deletion. There is one reconcile of an object at a time.
* `Timely`: a new pending stamp names a later second than the outcome stamps in the copy.
  Stamps are RFC 3339 texts without a fraction, so this is one-second resolution.
* `Faithful`, only for leaks: Create assigns a non-empty name, perhaps one that was used
  before; Observe tells whether the named resource exists, except that it may miss one
  created less than `delay` ago; the clock is read at most `lag` after an Observe.

Where a name is assigned again, the resource of that name counts as that of the last
creation it was assigned by (`ProtocolLeak.Live`); the results about leaks are stated by
creation and by name.

Some results need something else, stated where they are: that Create never assigns the
empty name (`ProtocolHistory.NamingRun`); for deterministic names, that Create assigns the
name the copy has (`ProtocolDeterministic.Keeps`), but nothing about stamps; for the table,
that calls to the API server succeed on the current version (`ProtocolPlan.Undisturbed`);
and, for deletion getting done, that the object has a non-empty name and that nothing fails
or interferes (`ProtocolLiveness.Smooth`).

A Create that fails and an Update create nothing, and resolving references does not
change the object.

## Where the code does not do what one may expect

* The incomplete check compares seconds strictly. A pending stamp written in the second of
  an earlier outcome is not noticed, and after a lost creation the next reconcile creates
  again exactly in that case (`ProtocolLimits.RipeAfterLoss`). Without the assumption on
  stamps two creations can end up with no stored outcome, from a new object on, unless no
  supported policy grants Create (`ProtocolLimits.SafeAnywayExactly`).
* The grace check looks at the clock after Observe, and at a stamp that was rounded down.
  The reconciler is free of leaks exactly if the grace period is at least `delay` + `lag` +
  one second less a nanosecond, or Observe misses nothing, or the supported policies never
  grant both Create and Delete (`ProtocolLimits.LeakFreeExactly`).
* With deterministic names the reconciler goes on after an incomplete creation, which its
  documentation calls safe. There is no grace period without a success stamp, so that it is
  free of leaks exactly if Observe misses nothing or the supported policies never grant both
  Create and Delete (`ProtocolDeterministic.KeepingLeakFreeExactly`).
* `RemoveFinalizer` ranges over the list it shrinks. It indexes out of bounds exactly if the
  finalizer is last and not the only one of its kind; otherwise it removes the finalizer and
  nothing else exactly if it is not there twice in a row (`Meta.Metadata.RemoveFinalizer`,
  `Meta.RemovedExactly`, `Meta.DuplicatesAreNotRemoved`). `AddFinalizer` makes no duplicates.
* A path with an empty field prints to something that does not parse back
  (`FieldPath.ReparseIsStable`, `FieldPath.EmptyFieldParses`).
* Setting at the empty path succeeds and sets nothing (`PavedLaws.SetThenGet`).
* A null object field is not replaced on a set, a null array element is
  (`PavedLaws.SetSucceedsExactly`).
* A wildcard that meets an object with a key that trims to `*` may send the expansion into
  endless recursion; it can never end exactly if one does, counting only array elements
  that are reached (`Expand.NeverEndsExactly`).
* A match below a key with outer quotes is not returned, and where a key is what another
  one is trimmed to the paths below it are returned more than once. All matches are
  returned once each exactly if neither happens (`Expand.ExactExactly`).
* The file reader loses bytes when a break does not fit the buffer, or when a whole-file
  read reports the end of the file and its bytes do not fit; the stream is whole exactly if
  every buffer suffices (`FsReader.WholeStreamExactly`; `FsReader.SmallBuffersLose` is an
  input that loses bytes). It reads a file it cannot open as an empty one, without an error
  (`FsReader.OpenErrorsAreSwallowed`); an error that comes with bytes is reported with every
  Read that returns some, and with no other (`FsReader.FailuresReported`).

## Model

| member | source | states |
|---|---|---|
| ProtocolSafety.AtMostOneUnrecorded | pkg/reconciler/managed/reconciler.go:1044-1375 | in every run, with crashes, lost and ambiguous writes and stale reads, at most one Create has no outcome stamp stored after it, and it is the last one |
| ProtocolSafety.NoCreateWhileUnrecorded | pkg/reconciler/managed/reconciler.go:1044-1054 | while a Create has no stored outcome no step of any run calls Create |
| ProtocolSafety.CreateIsWellPrepared | pkg/reconciler/managed/reconciler.go:1265-1303 | whenever Create is called the version just written has the finalizer, no deletion timestamp and a pending stamp later than the outcomes beside it, and only this reconcile wrote since the version the incomplete check was made on |
| ProtocolSafety.StepKeepsInv | pkg/reconciler/managed/reconciler.go:886-1503 | every step keeps the accounting invariant: an unaccounted creation is the last, and the current version shows it as incomplete |
| ProtocolSafety.RunKeepsInv | pkg/reconciler/managed/reconciler.go:886-1503 | so does every run |
| ProtocolHistory.PendingIsNewest | pkg/reconciler/managed/reconciler.go:1280-1303 | when Create is called the pending stamp stored for it is newer than every earlier pending stamp and than every outcome stamp of any version up to it |
| ProtocolHistory.SuccessComesWithName | pkg/reconciler/managed/reconciler.go:1362-1364 | every stored version with a success stamp carries the name assigned by some Create called with an earlier version, and the stamp is not earlier than that Create |
| ProtocolHistory.StepStoresWell | pkg/reconciler/managed/reconciler.go:886-1503 | a step stores at most one version, and only to leave our marks alone, to name a nameless object, to announce a creation after a complete one, or to record the outcome of the last creation |
| ProtocolStage.StepKeepsInv1 | pkg/reconciler/managed/reconciler.go:1304-1375 | every step keeps what a reconcile knows while it records an outcome: its captured annotations are the current pending stamp, the name of the last creation and its date |
| ProtocolLeak.AtMostOneLive | pkg/reconciler/managed/reconciler.go:1150-1247 | with a truthful Observe and a long enough grace period, at most one creation of the run has a live resource at any time, counting a resource as that of the last creation with its name |
| ProtocolLeak.AtMostOneName | pkg/reconciler/managed/reconciler.go:1150-1247 | the same by name: of all names Create assigned in the run, new or used before, at most one exists at any time |
| ProtocolLeak.NoLeakAtFinalization | pkg/reconciler/managed/reconciler.go:1163-1247 | whichever step removes the finalizer under a deleting policy, no creation anywhere in the run has a resource left |
| ProtocolLeak.NoNameLeftAtFinalization | pkg/reconciler/managed/reconciler.go:1163-1247 | the same by name: none of the names Create assigned anywhere in the run exists |
| ProtocolLeak.StepKeepsInv2 | pkg/reconciler/managed/reconciler.go:886-1503 | every step keeps: a live resource is that of the last successful creation, and the current version records it or shows its creation as incomplete |
| ProtocolLeak.AbsentMeansNoneLive | pkg/reconciler/managed/reconciler.go:1150-1155 | a reconcile on the current version that saw nothing and is past the grace check can rely on nothing being live |
| ProtocolLeak.GraceIsEnough | pkg/meta/meta.go:365-372 | what the grace check lets through was created at least `delay` before the Observe |
| ProtocolLimits.UnsafeWithoutTimeliness | pkg/meta/meta.go:344-360 | from any object with the finalizer that is ready for creation there is a run with pending stamps in the second of an outcome after which two creations have no stored outcome |
| ProtocolLimits.UnsafeFromTheStart | pkg/meta/meta.go:344-360 | under any policy that grants Create there is such a run from a new object |
| ProtocolLimits.SafeAnywayExactly | pkg/meta/meta.go:344-360 | without the assumption on stamps no run from a new object leaves two creations without an outcome if and only if no supported policy grants Create |
| ProtocolLimits.RipeAfterLoss | pkg/meta/meta.go:344-360 | after a creation is lost the next reconcile creates again if and only if the pending stamp was not later than the last outcome |
| ProtocolLimits.TwoLost | pkg/meta/meta.go:344-360 | the same from any state in which the clock is still in the second of the latest outcome |
| ProtocolLimits.ShortGraceLeaks | pkg/reconciler/managed/reconciler.go:1150-1155 | for every configuration with a shorter grace period, and policies it supports that grant Create and Delete, there is a run from a new object that removes the finalizer and leaves a resource |
| ProtocolLimits.UnexposedIsSafe | pkg/reconciler/managed/policies.go:185-268 | where the supported policies do not grant both Create and Delete nothing leaks, whatever the grace period |
| ProtocolLimits.LeakFreeExactly | pkg/reconciler/managed/reconciler.go:1150-1247 | no run leaks if and only if the grace period is long enough or the supported policies do not grant both Create and Delete |
| ProtocolDeterministic.KeepingLeakFreeExactly | pkg/reconciler/managed/reconciler.go:1038-1054 | with deterministic names, and a Create that assigns the name the copy has, no run leaks if and only if Observe misses nothing or the supported policies do not grant both Create and Delete, whatever the grace period and the stamps |
| ProtocolDeterministic.NoLeakWhereKept | pkg/reconciler/managed/reconciler.go:1163-1247 | the one half: whichever step removes the finalizer under a deleting policy, nothing created in the run is left |
| ProtocolDeterministic.MissingLeaks | pkg/reconciler/managed/reconciler.go:1150-1155 | the other half: a creation is lost in a crash, the next reconcile goes on, sees nothing and finds no success stamp to wait for, and removes the finalizer while the resource exists |
| ProtocolDeterministic.OneNameForAll | pkg/reconciler/managed/reconciler.go:831-837 | all resources created in such a run have one name, so that at most one exists at any time, whatever Observe misses |
| ProtocolDeterministic.StepKeepsName | pkg/reconciler/managed/reconciler.go:886-1503 | every step keeps: whatever was created has the name of the current version, and what a reconcile on it has not seen is not there if Observe misses nothing |
| ProtocolRound.OneGrantedCall | pkg/reconciler/managed/reconciler.go:886-1503 | a mutating external call is the first of its reconcile, on an object that is neither paused nor has an invalid policy, and the policy grants it |
| ProtocolRound.CallsCountMutations | pkg/reconciler/managed/reconciler.go:1169-1460 | the calls counted in a reconcile are exactly the Creates, Updates and Deletes made |
| ProtocolRound.QuietOnlyWhenDone | pkg/reconciler/managed/reconciler.go:886-1503 | with a positive poll interval a reconcile ends without requeue or error only if the object is gone, paused, invalid, create-incomplete or finalized |
| ProtocolRound.StepKeepsRound | pkg/reconciler/managed/reconciler.go:886-1503 | every step keeps what those two rest on: deletion is final and the copy has the finalizers of the version it is of |
| ProtocolPlan.EveryReconcileIsPlanned | pkg/reconciler/managed/reconciler.go:886-1503 | after any run from a new object, a reconcile that nothing disturbs makes the calls, returns the result and leaves the object, field by field, that a table over the object and the answers of the external system has |
| ProtocolPlan.CallsExactly | pkg/reconciler/managed/reconciler.go:1136-1455 | such a reconcile calls Create if and only if the resource is missing, past its grace period, and may be created; Update if and only if it is there or may not be created, is not up to date, and may be updated; Delete if and only if the object is deleted and the resource is there and may be deleted; one that is up to date is left alone until the next poll |
| ProtocolPlan.StagesExactly | pkg/reconciler/managed/reconciler.go:886-1503 | the stages it passes through, from first to last: naming before the incomplete check, resolving only if not deleted, publishing and the finalizer before anything is created, unpublishing before the finalizer is removed |
| ProtocolPlan.StepAlong | pkg/reconciler/managed/reconciler.go:886-1503 | every step keeps: what is stored and what is in the copy at each stage, in terms of that table |
| ProtocolPlan.EveryAnswerCounts | pkg/reconciler/managed/reconciler.go:886-1503 | every answer brings such a reconcile closer to its end, which is at most sixteen answers away |
| ProtocolPlan.AllowedExactly | pkg/reconciler/managed/policies.go:153-268 | which calls are granted, spelled out over the fields: the feature, the actions, and for legacy objects the deletion policy, whose orphaning is overridden only by naming deletion |
| ProtocolPlan.NotesExactly | pkg/meta/meta.go:344-372 | a creation is incomplete if and only if its pending stamp is later than each outcome stamp there is, and within grace if and only if its success stamp is less than that old |
| ProtocolWarrant.EveryCallIsCalledFor | pkg/reconciler/managed/reconciler.go:1166-1455 | in every run, whatever fails, a mutating call is the first of its reconcile, the fields of the copy allow it and the observation asks for it |
| ProtocolWarrant.TurnsToExactly | pkg/reconciler/managed/reconciler.go:1280-1455 | in every run, a reconcile that turns to the resource of an object it keeps creates if and only if it is missing and may be created, updates if and only if it is otherwise not up to date and may be updated, and else waits for the poll interval |
| ProtocolWarrant.OrphansAreKept | pkg/reconciler/managed/policies.go:244-268 | in every run, no reconcile on a legacy copy with an orphaning deletion policy, and the feature disabled or deletion not among its actions, calls Delete |
| ProtocolWarrant.ContentOnlyWhenDone | pkg/reconciler/managed/reconciler.go:1421-1503 | in every run, a reconcile that waits for the poll interval has updated the resource, or found it up to date, or may not update it |
| ProtocolWarrant.ReconcilesAreModest | pkg/reconciler/managed/reconciler.go:886-1503 | in every run, whatever others do, what a reconcile stores leaves deletion, policies and the finalizers of others as they are, and loses no annotation |
| ProtocolWarrant.EndsExactly | pkg/reconciler/managed/reconciler.go:886-1503 | from any state, a step ends a reconcile if and only if it is a crash, the closing status update, a conflict where that is not reported, a read that finds nothing or fails, the finalizer removed or not there, or a missing resource within its grace period; no other failure goes unreported |
| ProtocolWarrant.FailuresExactly | pkg/reconciler/managed/reconciler.go:900-1503 | from any state, what comes of a failed call: a conflict is a silent requeue and any other failure is reported first, except that conflicts are reported too in late initialization, in publishing after an update and in recording a failure, that recording is tried again, and that a failed read or status update is returned as an error |
| ProtocolLiveness.FinalizedInTwo | pkg/reconciler/managed/reconciler.go:1116-1247 | when nothing fails, a deleted, active, create-complete object under a deleting policy and past its grace period has lost the finalizer after two reconciles |
| ProtocolLiveness.EachReplyCounts | pkg/reconciler/managed/reconciler.go:886-1247 | in such a reconcile the call in progress can be answered, and every answer brings it closer to its end |
| ProtocolLiveness.StepProgress | pkg/reconciler/managed/reconciler.go:886-1247 | every smooth step keeps the phase reached: first the resource is deleted, then it stays away until the finalizer is removed |
| Reconciling.Controller.Reconcile | pkg/reconciler/managed/reconciler.go:886-1503 | an execution plays its script event by event, is a run of the step system from the state it began in to its end, returns what that run returns, and stops early only with the process |
| Reconciling.Controller.Get | pkg/reconciler/managed/reconciler.go:900-906 | refines the read that begins a reconcile; a missing object ends it quietly, another error with that error |
| Reconciling.Controller.Examine | pkg/reconciler/managed/reconciler.go:934-1021 | refines the pause, validity and orphan checks |
| Reconciling.Controller.Initialize | pkg/reconciler/managed/reconciler.go:1023-1037 | refines naming a nameless object after itself |
| Reconciling.Controller.Connect | pkg/reconciler/managed/reconciler.go:1039-1101 | refines the incomplete check, resolving references and connecting |
| Reconciling.Controller.Observe | pkg/reconciler/managed/reconciler.go:1116-1134 | refines Observe and its failure |
| Reconciling.Controller.Decide | pkg/reconciler/managed/reconciler.go:1136-1166 | refines the observe-only and grace checks and the choice of what to do |
| Reconciling.Controller.DeleteExternal | pkg/reconciler/managed/reconciler.go:1166-1204 | refines deleting the external resource and asking to be run again |
| Reconciling.Controller.Finish | pkg/reconciler/managed/reconciler.go:1206-1247 | refines unpublishing and removing the finalizer |
| Reconciling.Controller.Manage | pkg/reconciler/managed/reconciler.go:1249-1263 | refines publishing before anything is created |
| Reconciling.Controller.AddFinalizer | pkg/resource/api.go:165-173 | refines adding the finalizer where it is absent |
| Reconciling.Controller.CreateOrUpdate | pkg/reconciler/managed/reconciler.go:1280-1404 | refines the choice between creating, late initializing and updating |
| Reconciling.Controller.LateInitialize | pkg/reconciler/managed/reconciler.go:1404-1419 | refines storing a late-initialized spec, whose failure is always reported |
| Reconciling.Controller.CreateExternal | pkg/reconciler/managed/reconciler.go:1280-1340 | refines writing the pending stamp before Create is called |
| Reconciling.Controller.Create | pkg/reconciler/managed/reconciler.go:1303-1310 | refines the call of Create: the name it assigns is in the copy |
| Reconciling.Controller.RecordSuccess | pkg/reconciler/managed/reconciler.go:1362-1375 | refines stamping and persisting a success |
| Reconciling.Controller.RecordFailure | pkg/reconciler/managed/reconciler.go:1322-1343 | refines stamping and persisting a failure, whose own failure is not reported |
| Reconciling.Controller.UpdateExternal | pkg/reconciler/managed/reconciler.go:1421-1479 | refines leaving an up-to-date resource alone, or updating it |
| Reconciling.Controller.PublishNew | pkg/reconciler/managed/reconciler.go:1377-1402 | refines publishing after a creation and asking to be run again |
| Reconciling.Controller.PublishUpdated | pkg/reconciler/managed/reconciler.go:1481-1503 | refines publishing after an update and waiting for the poll interval |
| Reconciling.Controller.Update | pkg/reconciler/managed/reconciler.go:1288-1302 | an update of the copy lands, conflicts, finds the object gone or fails, and the run goes on accordingly |
| Reconciling.Controller.Fail | pkg/reconciler/managed/reconciler.go:1029-1036 | a conflict is a silent requeue, any other failure is reported first |
| Reconciling.Controller.UpdateStatus | pkg/reconciler/managed/reconciler.go:886-890 | refines the status update that ends most reconciles; a conflict becomes a silent requeue |
| Reconciling.Controller.UpdateCriticalAnnotations | pkg/reconciler/managed/api.go:283-301 | whatever others write and however often there is a conflict, on success the stored version has every captured annotation with its captured value; after a conflict every other annotation, and no more of them, and every field that is not an annotation is as in the version it was stored over, or as in that version itself if it had them all |
| Reconciling.Controller.WriteCritical | pkg/reconciler/managed/api.go:287-288 | one attempt lands only on the version the copy is of |
| Reconciling.Controller.Reread | pkg/reconciler/managed/api.go:289-294 | after a conflict the copy is still stale, or key by key has the captured annotations and, for all else, what the version read has |
| Reconciling.AddedAnnotations | pkg/meta/meta.go:232-244 | added annotations have their new values, every other annotation keeps its own, and no more appear |
| Reconciling.Controller.Store | pkg/reconciler/managed/api.go:288-288 | an update is compare-and-swap on the resource version |
| Reconciling.ReplayIsRun | pkg/reconciler/managed/reconciler.go:886-1503 | whatever the script, what is played is a run of the step system |
| Reconciling.ControllerIsSafe | pkg/reconciler/managed/reconciler.go:1044-1375 | after any number of reconciles of the imperative code at most the last creation has no stored outcome |
| Reconciling.ControllerOwnsOne | pkg/reconciler/managed/reconciler.go:1150-1247 | and, with the assumptions for leaks, at most one creation of its own has a live resource, counting a resource as that of the last creation with its name |
| Meta.GraceEndsEarly | pkg/meta/meta.go:365-372 | the grace period never ends late and may end up to a second early |
| Meta.Metadata.AddFinalizer | pkg/meta/meta.go:167-176 | the finalizer is there afterwards, appended only if it was not, and no duplicates arise |
| Meta.Metadata.RemoveFinalizer | pkg/meta/meta.go:179-188 | on any list the loop indexes out of bounds if and only if the finalizer is last and not the only one, and then leaves the list as shifted so far; otherwise the finalizer is gone and the others keep their order if and only if it was not there twice in a row |
| Meta.RemovedExactly | pkg/meta/meta.go:181-185 | what the loop leaves is the list without the finalizer if and only if the finalizer is not there twice in a row |
| Meta.DuplicatesAreNotRemoved | pkg/meta/meta.go:181-185 | a list that is indexed out of bounds, and one on which the finalizer is left |
| Meta.DistinctIsRemoved | pkg/meta/meta.go:167-188 | on a list without duplicates, which is what adding keeps, neither happens and none arise |
| Meta.RemoveUndoesAdd | pkg/meta/meta.go:167-188 | removing what was added succeeds and gives back the list |
| FieldPath.SegmentsString | pkg/fieldpath/fieldpath.go:75-93 | the printing loop computes the printed form of a path |
| FieldPath.Lexer.RunField | pkg/fieldpath/fieldpath.go:200-229 | emits what the lexer function for a field emits and leaves the rest to the next state |
| FieldPath.Lexer.RunPeriod | pkg/fieldpath/fieldpath.go:231-252 | the same for a period, with its three errors |
| FieldPath.Lexer.RunLeftBracket | pkg/fieldpath/fieldpath.go:254-266 | the same for an opening bracket |
| FieldPath.Lexer.RunFieldOrIndex | pkg/fieldpath/fieldpath.go:268-288 | the same for what is between brackets |
| FieldPath.Lexer.RunRightBracket | pkg/fieldpath/fieldpath.go:290-295 | the same for a closing bracket |
| FieldPath.Lexer.Run | pkg/fieldpath/fieldpath.go:176-182 | the state machine ends and emits exactly the items of the input |
| FieldPath.ParsePath | pkg/fieldpath/fieldpath.go:119-137 | the parsing loop computes the segments or the position of the error |
| PathGrammar.ParsesExactly | pkg/fieldpath/fieldpath.go:75-295 | a path parses to a result if and only if the grammar gives it that meaning: pieces spell the path, one segment for each in order, an index for a numeral in brackets below 2^32 and otherwise the field named by the text without its outer quotes; or pieces spell a prefix, no piece starts after it, and the error is where it says |
| PathGrammar.PrintSpells | pkg/fieldpath/fieldpath.go:75-93 | a path is printed piece by piece: indexes, wildcards and names with a period in brackets, others bare, with a period before each but the first |
| FieldPath.LexTiles | pkg/fieldpath/fieldpath.go:176-295 | the items tile the input, each at its offset; on an error they tile a prefix, the error is last and its position is in the input |
| FieldPath.ParseUndoesPrint | pkg/fieldpath/fieldpath.go:75-137 | parsing the printed form gives back the segments if and only if every field is non-empty, bracket-free and without outer quotes and every index is below 2^32 |
| FieldPath.ReparseIsStable | pkg/fieldpath/fieldpath.go:75-137 | for every path that parses, printing and parsing again gives the same segments if and only if none is an empty field |
| FieldPath.EmptyFieldParses | pkg/fieldpath/fieldpath.go:75-137 | a quoted empty name parses to an empty field and is not stable |
| FieldPath.ParsedSegments | pkg/fieldpath/fieldpath.go:99-137 | what parsing returns has no brackets, no outer quotes and only 32-bit indexes |
| PavedJson.GetValue | pkg/fieldpath/paved.go:117-160 | the walk along the path finds the value, or says whether it is missing or of the wrong kind |
| PavedJson.ValidateSegments | pkg/fieldpath/paved.go:513-525 | accepts exactly the paths whose indexes are within the limit, if there is one |
| PavedJson.ShiftDown | pkg/fieldpath/paved.go:650-654 | the in-place loop removes one element and keeps the order of the others |
| PavedJson.DeleteFieldOf | pkg/fieldpath/paved.go:638-667 | removes an element or a key, and fails on the wrong kind |
| PavedLaws.FailedSetChangesNothing | pkg/fieldpath/paved.go:371-422 | a set that fails leaves the tree as it was |
| PavedLaws.GetAfterSet | pkg/fieldpath/paved.go:117-422 | a value that was set is read back |
| PavedLaws.SetThenGet | pkg/fieldpath/paved.go:252-511 | for whole paths the law holds if and only if the path is not empty or the value is null |
| PavedLaws.SetWhatWasRead | pkg/fieldpath/paved.go:117-422 | setting what is there succeeds and changes nothing |
| PavedLaws.LastSetWins | pkg/fieldpath/paved.go:371-501 | of two sets at one path the second alone would have had the same effect |
| PavedLaws.SetElsewhere | pkg/fieldpath/paved.go:371-501 | off the path every successful read is unchanged and whatever became readable is null |
| PavedLaws.SetLengths | pkg/fieldpath/paved.go:439-501 | each array on the path ends with the larger of its old length and index plus one |
| PavedLaws.SetSucceedsExactly | pkg/fieldpath/paved.go:371-501 | a set succeeds if and only if every place it finds on its way is a container of the right kind or a null array element |
| PavedLaws.SetAllowedExactly | pkg/fieldpath/paved.go:371-525 | a set at a path succeeds if and only if that holds and every index is within the limit, if there is one; otherwise the object is left alone |
| PavedLaws.GetFailsExactly | pkg/fieldpath/paved.go:117-160 | a read says that something is missing if and only if a step of it meets an object without the key, too short an array, or a null for a field; and that something is of the wrong kind if and only if a step meets that |
| PavedLaws.DeleteIsPut | pkg/fieldpath/paved.go:556-636 | a delete changes nothing but the container that holds what is deleted |
| PavedLaws.FailedDeleteChangesNothing | pkg/fieldpath/paved.go:556-636 | a delete that fails, or whose path leads nowhere, leaves the tree as it was |
| PavedLaws.DeleteSucceedsExactly | pkg/fieldpath/paved.go:556-667 | a delete succeeds if and only if whatever exists on its path is of the right kind |
| PavedLaws.SetIsPut | pkg/fieldpath/paved.go:371-501 | setting below an existing container changes nothing else |
| PavedLaws.DeleteUndoesNewKey | pkg/fieldpath/paved.go:371-667 | deleting undoes a set that added a key to an object |
| PavedLaws.DeleteUndoesAppend | pkg/fieldpath/paved.go:371-667 | deleting undoes a set at exactly the length of an array |
| PavedLaws.DeleteShifts | pkg/fieldpath/paved.go:640-654 | elements before the deleted one stay, later ones move down by one, each with everything below it |
| PavedLaws.DeleteKey | pkg/fieldpath/paved.go:655-663 | nothing can be read at or below a deleted key, and every path that parts from it reads as before |
| PavedObject.Paved.SetSegments | pkg/fieldpath/paved.go:371-422 | the loop that prepares and assigns in place, within bounds, has the effect of the recursive set |
| PavedObject.Paved.DeleteSegments | pkg/fieldpath/paved.go:556-636 | the loop that deletes in place has the effect of the recursive delete |
| PavedObject.Paved.SetValue | pkg/fieldpath/paved.go:504-511 | a successful set can be read at the same path; one that fails, or a path that does not parse, leaves the object alone |
| PavedObject.Paved.DeleteField | pkg/fieldpath/paved.go:547-554 | deletes at a path that parses, and otherwise leaves the object alone |
| PavedObject.Paved.GetValueAt | pkg/fieldpath/paved.go:252-259 | reads at a path that parses |
| Expand.ExpandSegments | pkg/fieldpath/paved.go:190-249 | whenever the pattern is not starred it ends; it fails if and only if pattern and data clash, and otherwise returns every path exactly as often as it is the readable instance that keys and elements are made into |
| Expand.ExpandElements | pkg/fieldpath/paved.go:201-213 | the same where the first wildcard meets an array |
| Expand.ExpandKeys | pkg/fieldpath/paved.go:214-226 | the same where it meets an object, in any order of its keys |
| Expand.ReturnsTheYields | pkg/fieldpath/paved.go:190-249 | the paths returned are exactly the matches whose wildcards are elements or keys without outer quotes |
| Expand.DistinctExactly | pkg/fieldpath/paved.go:214-226 | no path is returned twice if and only if no object met has two keys that trim to one of them with something to return below it |
| Expand.ExactExactly | pkg/fieldpath/paved.go:190-249 | all matches are returned once each if and only if none is below a quoted key and none is repeated |
| Expand.PlainKeysAreExact | pkg/fieldpath/paved.go:190-249 | with keys that have no outer quotes the result is all wildcard-free instances that can be read, once each |
| Expand.QuotedKeyIsLost | pkg/fieldpath/paved.go:214-226 | an object on which a match is lost |
| Expand.QuotedKeyRepeats | pkg/fieldpath/paved.go:214-226 | an object on which a path is returned twice |
| Expand.NeverEndsExactly | pkg/fieldpath/paved.go:190-249 | for some order of keys the calls go on for ever if and only if a wildcard meets a key that trims to a wildcard before an earlier element clashes |
| Expand.ReturnsExactly | pkg/fieldpath/paved.go:190-249 | a call returns without an error if and only if the pattern neither clashes nor is starred |
| Expand.StarKeyNeverEnds | pkg/fieldpath/paved.go:214-219 | an object on which one pattern never ends and another does |
| Expand.ExpandPath | pkg/fieldpath/paved.go:171-188 | the strings are the printed forms of what is returned; with plain keys each parses and can be read, no two are equal, and every match is among them |
| Gating.Gate.Process | pkg/gate/gate.go:79-106 | the loops start exactly the callbacks whose conditions all hold, oldest first, and keep the others in order |
| Gating.AllTrue | pkg/gate/gate.go:84-91 | the inner loop decides whether all conditions hold |
| Gating.Gate.Add | pkg/gate/gate.go:45-48 | the locked part of Register |
| Gating.Gate.Mark | pkg/gate/gate.go:55-70 | the locked part of Set; it reports an update exactly if the conditions changed |
| Gating.Gate.Register | pkg/gate/gate.go:45-51 | adds and then processes |
| Gating.Gate.Set | pkg/gate/gate.go:55-77 | processes only if something changed |
| Gating.StartedOrWaiting | pkg/gate/gate.go:45-106 | for every interleaving each callback registered so far is started once or waiting once, never both |
| Gating.GateHoldsHistory | pkg/gate/gate.go:45-77 | the gate holds for each callback exactly the conditions it was registered with, and for each condition exactly the value it was last set to |
| Gating.StartsOnlyWhenOpen | pkg/gate/gate.go:83-100 | a callback is only ever started by a step before which each condition it was registered with was last set to true |
| Gating.ProcessStartsAll | pkg/gate/gate.go:79-106 | and whoever processes starts every such callback |
| Gating.StartsInOrder | pkg/gate/gate.go:83-106 | the callbacks one step starts are started in the order of their registration |
| Gating.WaitingIsBlocked | pkg/gate/gate.go:45-106 | when no caller is between its write and its processing, whatever waits was registered with a condition that was not last set to true |
| Gating.StepKeepsGate | pkg/gate/gate.go:45-106 | every locked step of any caller keeps the three |
| Conditions.ConditionedStatus.SetConditions | apis/common/condition.go:173-195 | the nested loops have the effect of setting the conditions one by one |
| Conditions.ConditionedStatus.GetCondition | apis/common/condition.go:160-168 | finds the first condition of the type, or one of unknown status |
| Conditions.ConditionedStatus.Equal | apis/common/condition.go:199-225 | on lists with each type once decides equality as sets ignoring times; two missing statuses are equal |
| Conditions.SortByKind | apis/common/condition.go:214-216 | orders by type without adding or losing anything |
| Conditions.SortedSame | apis/common/condition.go:208-225 | comparing any two sorted copies element by element decides it |
| Conditions.TypesInFirstOrder | apis/common/condition.go:173-195 | any run of sets keeps types unique, and in the order of their first appearance |
| Conditions.LastSuppliedIsRead | apis/common/condition.go:160-195 | the last supplied condition of a type is read back, ignoring its time; other types read as before |
| Conditions.TimeMovesWithContent | apis/common/condition.go:182-187 | no step of a run moves a transition time without another field changing |
| Conditions.NoOpExactly | apis/common/condition.go:170-189 | setting a condition is a no-op if and only if the same one, ignoring times, is there |
| Conditions.GetAfterSetOne | apis/common/condition.go:160-195 | what one set makes of the condition of each type |
| FsReader.FsReadCloser.Read | pkg/parser/fsreader.go:125-157 | fills the buffer with what one step of the reader yields and leaves the rest of it alone |
| FsReader.ReadConservesExactly | pkg/parser/fsreader.go:125-157 | a Read whose buffer suffices neither loses nor invents bytes, and any other loses some |
| FsReader.WholeStreamExactly | pkg/parser/fsreader.go:125-157 | at the end the whole stream was read if and only if every buffer took its break, a byte where there were some, or all bytes of a file read with an end of file |
| FsReader.WholeStream | pkg/parser/fsreader.go:125-157 | with buffers of five bytes or more, whatever their sizes, and files that are not said to end early, what was read at the end is the files in order, each followed by the two breaks |
| FsReader.SmallBuffersLose | pkg/parser/fsreader.go:125-157 | with any buffers of less than five bytes a file of one byte is read to its end, bytes are missing, and no error is reported |
| FsReader.NothingIsLost | pkg/parser/fsreader.go:125-157 | at every point what was read and what is left make up the stream if and only if every buffer sufficed |
| FsReader.EndExactly | pkg/parser/fsreader.go:135-137 | the end is reported exactly when nothing is left |
| FsReader.EndIsReached | pkg/parser/fsreader.go:125-157 | the end is reached after at most one Read for each byte and three for each file |
| FsReader.OpenErrorsAreSwallowed | pkg/parser/fsreader.go:147-156 | a file that cannot be opened reads as an empty one |
| References.MultiResolutionRequest.IsNoOp | pkg/reference/reference.go:268-297 | for a selector and for references: values are kept unless a policy says to resolve always, and then a selector drops the references |
| References.ResolveMultiple | pkg/reference/reference.go:382-430 | what is returned in each case: a deleted referrer, a no-op, references, a selector |
| References.ResolveReferences | pkg/reference/reference.go:388-409 | the loop yields the sorted values of the references, or stops at the first that cannot be read |
| References.SelectReferences | pkg/reference/reference.go:411-430 | the loop yields the sorted values of the eligible resources listed |
| References.SortMapByKeys | pkg/reference/reference.go:440-449 | lists a map by its keys in order, each beside its value |
| References.Validate | pkg/reference/reference.go:308-320 | reports no matches, or the first empty value unless its reference is optional |
| References.ValidExactly | pkg/reference/reference.go:308-320 | a sorted response is valid if and only if it is not empty and its first value is not empty or optional |
| References.ReferencesResolve | pkg/reference/reference.go:388-409 | the values are strictly increasing, each beside a given reference that has it, and as a set exactly those of the references |
| References.UnreadableEnds | pkg/reference/reference.go:388-409 | the first reference that cannot be read ends it with nothing resolved, and with an error unless it is optional and there is nothing to read |
| References.SelectorResolves | pkg/reference/reference.go:411-430 | the same for a selector, of the resources listed that have the controller of the referrer where that is to match |
| References.ListingOrderIsIrrelevant | pkg/reference/reference.go:411-430 | the values do not depend on the order in which matches are listed |
| References.ResolvingAgainIsStable | pkg/reference/reference.go:382-449 | resolving the references of a response again gives the same response |

## Left out

- ProtocolSafety.AtMostOneUnrecorded: deterministic external names are excluded, because with them the reconciler proceeds after an incomplete creation on purpose; ProtocolDeterministic states what holds then.
- ProtocolDeterministic.KeepingLeakFreeExactly: a Create that assigns a name to an object without one, or another name than it has, although names are said to be deterministic.
- Reconciling.Controller.Reconcile: the imperative copy of the object is a value that is reassigned, so sharing of maps between the copy and what was captured is not modelled.
- Reconciling.Controller.UpdateCriticalAnnotations: decoding a reply into an object whose annotation map is reused is not modelled, nor is the time between retries.
- PavedObject.Paved.SetSegments: assignment through nested Go maps and slices is written as an assignment to a place in the tree; aliasing between values in the tree is not modelled.
- FsReader.FsReadCloser.Read: files that change between Reads.
- Expand.ExpandSegments: is not called with a starred pattern, for which the program may not end; what happens then is stated by Expand.NeverEndsExactly over the calls the program makes.
- The object is deleted and created again under the same name: a run is about one incarnation.
- Reference resolution in the reconciler is taken not to change the object; its server-side patch has no version check.
- Connection details, events, metrics, change logs, logging and the jitter of the poll interval; error texts (only the kind of an error is kept).
- The typed getters and setters of a paved object, merging (`pkg/fieldpath/merge.go`) and JSON marshalling.
- Single references and namespaced references: the same steps with one value, or with a default namespace.
- Webhooks, rate limiting, the provider-config and custom-resource-gate reconcilers, generated code, fakes, TLS and feature flags, whose properties are much weaker than those above.
