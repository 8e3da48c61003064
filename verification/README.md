# Harbour: a verified model of its durability core

Harbour runs goals: an agent asks for tool calls, and each call must take effect once although workers
crash, leases are stolen and operators pause, cancel and resolve at any moment. This project models the
parts that make that true and proves what they promise.

* **Canonical JSON and keys** (`Json`, `Key`, `Text`): the lexer, parser and canonical printer, and the
  idempotency key built on them. `Spelling` says, without reference to the decoder, how a string may be
  written, and `Grammar` that exactly the documents of RFC 8259 decode. The executor and the store each carry a copy of this code; one model
  stands for both.
* **Goal, lease and effect protocol**: `Fsm` and `Goals` say what each database transaction does to one
  goal's rows; `Protocol` is the transition system of one goal and any number of workers, in which every
  transaction and every call of a tool, probe, agent or authoriser is one atomic action; `Invariants`
  and `Safety` hold its inductive invariant and `Guarantees` what follows for every run, `Outcomes` where
  results and messages come from, `Leases` how long a lease lasts and `Operators` what a signal does. None of
  these assumes that a worker that lost its lease has stopped. `CallCounts` says for one step how often its
  tool is called and under what condition on claims, and `Takeover` what claims that break it can lead to;
  `CrashStop` bounds side effects in the world. `EndToEnd` runs the agent of `Demo` on top of the protocol
  and `WriterFiles` ties it to the files that the tool appends to and its probe scans; `Progress` bounds
  the driver loop; `Completion` joins these into total correctness of the demo goal.
* **The code over tables**: `Store` is the store with one method per transaction, `Cluster` carries out
  every protocol action through those methods, and `Worker` is the executor and driver loop with
  everybody else acting, and the process dying, between any two of its actions. A valid cluster is one
  whose every goal is in a state reached by a run of the protocol, so the theorems about runs are
  theorems about the tables. What each method of the worker promises is where the protocol stands, which
  actions of its own it took in which order, that each obeys what it was told, and why it gave up if it did.
* **Pluggable engines**: `Engine` proves the lock-based and the row-based engine against one contract
  and against each other; `EngineAnswers` says where their answers come from, and `Contention` and
  `SerialClaims` put both under concurrent callers.
* **Ledger spool**: `Spool` (nothing is lost), `SpoolOrder` (order), `SpoolProcess` (the methods),
  `FileName` (names sort into write order).
* **Parent links** (`Forest`) and the **receipt key file** (`KeyFile`).

## Assumptions

* SHA-256 is injective: a key is represented by the text that is hashed.
* The receipt key file is read back as it was written (`KeyFile.Faithful`); its encoding is arbitrary otherwise.
* Serial identifiers are given in commit order; an effect's id is represented by its goal and step.
* In the protocol the arguments read back from the database are the value that was stored. `Key` says when
  that is so (see Findings).
* Side effects and the demo goal: a goal is claimed again only once no worker stands between its intent and
  its result for it (`CrashStop.CrashStopStep`). For side effects in general, probes answer truly
  (`CrashStop.SoundStep`); for the demo goal this is proved.
* The demo goal: a file that is probed can be read, an append that fails writes nothing, and nobody else
  writes lines under the goal's keys (`WriterFiles.EventOk`).
* Spool: file names are unique; for the order theorem one process flushes, names are published in
  increasing order and no local rename or remove fails (`SpoolOrder.Orderly`).

## Findings

* **Zombie executions.** The attempt mark and the result are not lease-fenced. A worker that loses its
  lease between authorisation and attempt mark still calls the tool, so a tool without a probe can run
  twice with no retry (`Takeover.ZombieRunsTwice`). The bound holds as long as no claim is granted while a
  worker stands there (`CallCounts.AtMostOnce`), and from every state in which one is, with the step's calls
  used up, it can be broken (`Takeover.OverlapRunsTwice`). For a call under review the place is anywhere before the call's end
  (`CallCounts.NeverUnderReview`, `Takeover.OverlapCallsUnderReview`).
* **A call that needs approval can be made without it.** Its intent is committed before it is flagged, in
  another transaction. If its worker stops in between, the next one takes the row for an ordinary intent
  that was never attempted and calls the tool (`Takeover.StoppedRequestRuns`). Whenever a claim is granted
  between the two this can happen (`Takeover.ClaimBeforeFlagRuns`), and if none is, it cannot
  (`CallCounts.ApprovalKept`).
* **Resume is two transactions.** The write does not check that the goal is still paused from the state
  that was read. It restores that state if and only if the goal is (`Guarantees.ResumeRestoresIff`), in
  particular when it stayed paused in between (`Guarantees.UndisturbedResume`). Otherwise it can put a goal
  into a state it was not paused from (`Guarantees.StaleResumeGoesBack`) or move a goal that is not paused
  at all backwards under another worker's lease, after a single pause (`Guarantees.LateResumeRewinds`).
* **Numbers in stored arguments.** A JSONB column rewrites number literals, `1e2` as `100`. A step's key
  survives storage if and only if every number in its arguments is written the way the column writes it
  (`Key.KeySurvivesStorage`, `Key.ExponentChangesKey`); otherwise recovery refuses the step as bound to a
  different call.
* **The row-based engine under contention.** Its claim lets go of the row before the function runs,
  although the contract allows one attempt in flight. When a key is claimed only while no caller stands at
  any stage for it, the engine meets the whole contract (`SerialClaims.PostgresMeetsContract`), and any
  other claim on an open key can be followed by two functions in flight and two different answers
  (`SerialClaims.OverlapForks`). The bound on calls alone needs less: no claim between another caller's
  claim and its attempt mark (`Contention.PostgresOnceWhenApart`, `Contention.OverlapBreaks`,
  `Contention.TwoCallersRunTwice`); under that condition one key can still be answered in two ways
  (`SerialClaims.TwoAnswers`).
* **The engines' refusals differ.** A refused Resolve reads the same in both exactly when the key is
  under review (`Engine.RefusalTexts`).
* **Changing parents races.** The cycle check and the update are separate transactions. Two changes that
  both pass the check close a cycle if and only if each new parent lies below the other's goal
  (`Forest.TwoChangesSafeIff`, with an example in `Forest.CheckThenUpdateRaces`).

## Model

| member | source | states |
|---|---|---|
| Json.DecodeDocument | internal/executor/executor.go:50-70 | whatever white space, member order and duplicate keys a document is written with, and however each character of its strings is written (raw, short escape, code unit in either case, surrogate pair, half a pair), decoding gives the value it denotes |
| Json.LexPieces | internal/executor/executor.go:54-59 | a string reads as the characters its pieces stand for by section 7 of RFC 8259, pairs of surrogates joined and lone ones replaced, however it is written |
| Grammar.DecodesExactlyDocuments | internal/executor/executor.go:50-70 | a text decodes if and only if it is blank or lays out some document of RFC 8259, and then to null or to what that document denotes |
| Grammar.NumberGrammar | internal/executor/executor.go:55 | the literals kept as numbers are exactly those with a sign, integer, fraction and exponent of section 6 of RFC 8259 |
| Grammar.LastWins | internal/executor/executor.go:54-59 | an object has exactly the keys written, each with the value written last |
| Grammar.CanonText | internal/executor/executor.go:72-104 | literals print as they are, items in order, and an object's keys once each in increasing order with their values |
| Grammar.EscapeFixed | internal/executor/executor.go:85-101 | a character of a string prints as itself unless it is a quote, a backslash, a control character, markup or a line separator; those print as their two-character escape if there is one, else as lower-case hexadecimal |
| Text.LeqByFirstDifference | internal/executor/executor.go:79 | keys are ordered by the first character in which they differ, a prefix first |
| Json.TrailingDataRefused | internal/executor/executor.go:60-68 | any further token after the one value, in any spelling and layout, is an error, never ignored |
| Json.DecodedWellFormed | internal/store/store.go:750-773 | what decodes has only well-formed number literals, at every depth |
| Json.CanonDecodes | internal/executor/executor.go:72-104 | the canonical text of every value decodes to that value |
| Json.CanonInjective | internal/store/store.go:775-807 | distinct values have distinct canonical texts |
| Json.CanonicalRoundTrip | internal/executor/executor.go:43-70 | canonicalising keeps the decoded value and is idempotent |
| Json.SameCanonical | internal/executor/executor.go:43-104 | two documents have one canonical form if and only if they decode to one value |
| Json.LayoutsAgree | internal/store/store.go:746-807 | documents written with any layout and any spelling of their strings agree canonically if and only if they denote the same value |
| Json.CanonHasNoNewline | internal/executor/executor.go:72-104 | canonical text contains no newline, whatever the strings in the value contain |
| Json.WriteCanon | internal/executor/executor.go:72-104 | the recursive printer, writing to a buffer in loops over sorted keys, appends exactly the canonical text |
| Key.KeyInjective | internal/executor/executor.go:106-114 | tool, arguments, goal and step can all be recovered from the hashed text, although tools may hold newlines and goal ids colons |
| Key.KeyText | internal/executor/executor.go:106-114 | the hashed text has a line for the tool, one for the arguments, and one for goal and step |
| Key.DecimalReads | internal/executor/executor.go:106-114 | the step is written in decimal without leading zeros |
| Key.RawKeysAgree | internal/store/store.go:809-812 | keys of raw arguments are equal if and only if tool, decoded arguments, goal and step are, so arguments read back re-ordered give their old key |
| Key.KeySurvivesStorage | internal/store/schema.sql:22-38 | arguments that come back with rewritten number literals give their old key if and only if no literal was rewritten |
| Key.ExponentChangesKey | internal/executor/executor.go:154-157 | an exponent in the arguments is enough to change the key |
| Safety.ActionKeepsInv | internal/store/store.go:343-857 | every action of any worker, lease or no lease, of operators and of the clock keeps the invariant that ties worker positions to rows |
| Safety.RunKeepsInv | internal/worker/worker.go:52-213 | the invariant holds after every run, and rows only evolve: bindings stay, final rows and steps are frozen, leases never come back |
| Guarantees.CursorStepsEffectsAgree | internal/store/store.go:834-857 | in every reachable state step rows are exactly 0..cursor-1 and copy committed effects, effect rows lie at or below the cursor, and a lease holder's loaded cursor is the cursor |
| Guarantees.NoForkedEffect | internal/worker/worker.go:149-170 | all tool invocations ever made for one step carry one key, tool and arguments, with any agent and with zombie workers |
| Guarantees.FinalIsAbsorbing | internal/store/store.go:639-653 | a committed or failed effect, and a goal that ended, never change again under any continuation |
| Guarantees.SuccessesAgree | internal/executor/executor.go:168-179 | all calls of Run that succeed for a step return the one stored result |
| Guarantees.OneMessagePerResult | internal/store/store.go:660-665 | exactly one tool_result message per effect that a result moved to committed, none for those an operator settled, and no others but posted ones |
| Outcomes.EveryOutcomeHasASource | internal/executor/executor.go:245-272 | over every run: a committed row that no operator settled stores the result of a call or of a probe told to a worker at that step, one settled by an operator the result given with the decision, a failed one the error of a call or the operator's verdict |
| Outcomes.RecordKeeps | internal/store/store.go:639-670 | recording an outcome on a row in intent stores its result or error and tells a result in one last message; on any other row it changes nothing |
| Outcomes.RecordLeads | internal/executor/executor.go:263-272 | after recording, the worker goes by the row as it stands |
| Outcomes.EveryMessageHasASource | internal/store/store.go:880-904 | over every run: a message was posted from outside, with that source and body and trusted exactly for the operator's, or tells of a committed row's result |
| Outcomes.PostsArrive | internal/store/store.go:880-904 | what is posted stays at its place among the goal's messages in every later state |
| Guarantees.WriteUnderLease | internal/store/store.go:479-488 | each action adds at most one fenced write to the log, and only from the holder of the lease then in force |
| Guarantees.FencedChangesLogged | internal/store/store.go:491-525 | a worker's action adds an effect row or step row or changes the goal's state or cursor exactly when it is logged, as a write under the lease it holds |
| Guarantees.NoWriteUnderAnOldLease | internal/store/store.go:491-525 | from any reachable state on, accepted writes carry the current epoch only while its lease stands, later epochs otherwise |
| Guarantees.OldLeasesAreDead | internal/store/store.go:340-377 | after a pause, cancel, end or release no write under any earlier lease is accepted again; after a new claim none under the previous ones |
| Guarantees.WritesInEpochOrder | internal/store/store.go:432-454 | each epoch is granted to one claim, and accepted writes have nondecreasing epochs, each by its epoch's claimer |
| Guarantees.NothingBeforeApproval | internal/fsm/fsm.go:23-32 | a lease, effect row or tool call exists only if the goal was approved at an earlier moment, with resume taken as two steps |
| Guarantees.LeasedIsRunnable | internal/store/store.go:435-440 | a leased goal is approved, executing or verifying, and it is paused exactly when it remembers a live state |
| Leases.ClaimTakes | internal/store/store.go:432-454 | a claim is granted exactly if the goal can run and no lease on it is live, and gives a live lease of the next epoch |
| Leases.HeartbeatRenews | internal/store/store.go:456-465 | a heartbeat of the holder leaves its lease live and the goal otherwise as it was; anybody else's changes nothing |
| Leases.LeaseLost | internal/store/store.go:343-470 | in every state that keeps the invariant a live lease is lost by expiry, by its holder's release, or by a pause or an end, and no other way |
| Leases.HeartbeatExtends | internal/store/store.go:456-465 | at any time in any run, after a holder's heartbeat no claim of the goal is granted until the lease expires, is given up, or the goal is paused or ends |
| Leases.ClaimLasts | internal/store/store.go:432-454 | the same after the claim that granted the lease |
| Fsm.LegalByTarget | internal/fsm/fsm.go:23-46 | from which states each state can be reached |
| Fsm.EndsAreFinal | internal/fsm/fsm.go:23-58 | nothing leaves done, failed or cancelled, every other state can be cancelled |
| Operators.SignalObeyed | internal/store/store.go:343-377 | approve, pause and cancel are obeyed exactly where they are legal, and change the goal's row only, in a stated way |
| Operators.ResolutionObeyed | internal/store/store.go:688-718 | retry, committed and failed do what they say to a row under review and nothing to any other |
| Operators.UnknownAgentEnds | internal/worker/worker.go:131-136 | a goal whose agent is not registered ends failed where that is legal and cancelled otherwise, without its lease |
| Guarantees.PauseThenResume | internal/store/store.go:353-362 | as updates of the goal row, pausing and then moving to the state paused from changes nothing but the lease |
| Guarantees.ResumeRestoresIff | internal/store/store.go:379-389 | in every reachable state a pending resume that now writes ends the pause in force in the state it was paused from if and only if the goal is paused from the state that was read; it writes whatever state was read wherever that is a legal move |
| Guarantees.UndisturbedResume | internal/store/store.go:379-389 | a resume restores the state paused from whenever the goal stays paused between its read and its write |
| Guarantees.StaleResumeGoesBack | internal/store/store.go:380-389 | a run in which a delayed resume puts a goal paused from approved back to proposed |
| Guarantees.LateResumeRewinds | internal/store/store.go:380-389 | a run with a single pause in which a delayed resume moves a verifying goal back to executing under a new lease |
| CrashStop.ActionKeepsCounts | internal/executor/executor.go:181-209 | every disciplined action keeps the counting invariant: an intent with no attempt means no side effect since the last retry |
| CrashStop.OneInDoubt | internal/executor/executor.go:236-262 | under crash-stop claims at most one worker stands between intent and result |
| CallCounts.AtMostOnce | internal/executor/executor.go:168-262 | a tool without a probe is called for a step at most 1 plus its operator retries times, if no claim is granted while a worker stands between the authorisation and the attempt mark of that step |
| CallCounts.NeverUnderReview | internal/executor/executor.go:236-249 | no tool is called for a step whose row is under review, if claims wait for the workers that stand before the end of that step's call |
| CallCounts.ReviewHolds | internal/store/store.go:688-718 | once a row is under review its tool is not called again until an operator's retry, under every continuation, zombies included |
| CallCounts.ApprovalKept | internal/store/store.go:720-742 | a call recorded for approval is made only after an operator's retry, if no claim is granted between its intent and its flag |
| Takeover.OverlapRunsTwice | internal/store/store.go:633-637 | from any state in which a claim is granted while a worker stands between authorisation and mark of an unattempted intent with all its calls used up, the tool can be called twice more with no retry |
| Takeover.OverlapCallsUnderReview | internal/executor/executor.go:236-249 | from any state in which a claim is granted while a worker stands before the end of an open step's call, the tool can be called under review |
| Takeover.ClaimBeforeFlagRuns | internal/store/store.go:733-740 | from any state in which a claim is granted on an intent neither flagged nor attempted, the call can be made with no resolution by an operator |
| Takeover.StoppedRequestRuns | internal/worker/worker.go:179-192 | a run in which a call that needs approval is made although nobody approved it |
| CrashStop.AppliedAtMostOnce | internal/executor/executor.go:194-208 | with truthful probes no step's side effect happens more often than 1 plus its retries, whatever the tool |
| Takeover.ZombieRunsTwice | internal/store/store.go:633-637 | a run in which a probe-less tool runs twice with no retry |
| Demo.Plan | internal/demo/demo.go:111-132 | the loop builds the input's lines followed by the lines of the messages; what these are is said by InputRead, OperatorIsObeyed and PlanStarts |
| Demo.InputRead | internal/demo/demo.go:101-117 | an object with a file and lines decodes to exactly those, out.txt standing for an absent or empty file |
| Demo.OperatorIsObeyed | internal/demo/demo.go:118-131 | a trusted operator message whose body has a non-empty "append" adds that text to the plan, and no other message adds anything |
| Demo.WriterFollowsPlan | internal/demo/demo.go:134-155 | the agent asks for the planned line of its step in the input's file, finishes exactly past the last one, and is content with no less |
| Demo.ArgumentsRead | internal/demo/demo.go:31-44 | the tool reads back the file and line it is called with |
| Demo.PathsRefused | internal/demo/demo.go:39-44 | the file names refused are the empty one, absolute ones and those with two dots in a row |
| Demo.PlanGrows | internal/demo/demo.go:118-131 | further messages only add lines at the end of the plan |
| Demo.UntrustedIgnored | internal/demo/demo.go:119-122 | a message that is not a trusted operator message changes no plan, wherever it stands |
| Demo.FileAppend.Execute | internal/demo/demo.go:46-69 | one tagged line is appended to the named file, or nothing is written at all |
| Demo.FileAppend.Probe | internal/demo/demo.go:71-98 | the scan answers that the call happened if and only if a line carries its key |
| EndToEnd.ActionKeepsPlanned | internal/worker/worker.go:88-213 | every step of a demo.writer goal keeps its log of appends, plan, cursor and effect rows in agreement |
| WriterFiles.FileFollowsPlan | internal/executor/executor.go:141-262 | after any crashes and re-claims, and whatever other goals append, the goal's lines in its file are exactly plan lines 0..k-1 in order under their steps' keys, each once, with k the cursor or one more, and no other file holds any |
| WriterFiles.DoneMeansWholePlan | internal/demo/demo.go:146-155 | a goal that is done left in its file all lines, and only the lines, of the plan that an accepted Verify read |
| WriterFiles.KeysApart | internal/executor/executor.go:106-114 | no other goal's line is under a key of this goal |
| WriterFiles.ProbeTellsTruth | internal/demo/demo.go:71-98 | at every point of every run, in a directory shared with other goals, the scan says that a step happened exactly when its line was written |
| WriterFiles.BadFileWritesNothing | internal/demo/demo.go:39-44 | with a file name the tool does not take, no run ever writes a line |
| Progress.TurnsBounded | internal/worker/worker.go:88-128 | with c crashes the loop is entered at most n + 3 + c times |
| Progress.ClaimsNeeded | internal/worker/worker.go:50-70 | without crashes the goal is done exactly when its claims cover n + 3 turns, after ceil((n + 3) / MaxSteps) of them |
| Progress.ReachesDone | internal/worker/worker.go:52-128 | a worker left alone takes an approved goal to done, within a stated number of operations |
| Completion.WriterEnds | internal/demo/demo.go:134-155 | total correctness: the run of a worker left alone with an approved demo.writer goal ends; done if and only if there are no lines or the file's name is usable, with all the lines appended in order, each once, under their steps' keys, and no other file changed; otherwise failed with nothing written |
| Completion.RecordStaysSilent | internal/store/store.go:660-665 | the message a recorded result delivers never instructs the writer |
| Store.EffectSet | internal/store/schema.sql:22-38 | writing one row by goal and step changes that goal's rows at that step and no other goal's |
| Store.MessageAdded | internal/store/store.go:906-929 | a message added for one goal comes last among its messages and is seen by no other goal |
| Store.Store.Create | internal/store/store.go:230-262 | a new goal starts proposed with no rows; an existing one is left alone |
| Store.Store.Transition | internal/store/store.go:343-377 | moves a goal along legal edges only, remembers the state paused from, drops the lease on pause and end; other goals untouched |
| Store.Store.ResumeTarget | internal/store/store.go:379-387 | what Resume reads: the state a paused goal was paused from, any other goal is refused |
| Store.Store.Claim | internal/store/store.go:435-454 | the first goal in order that is claimable and whose row is not locked gets a new epoch; nothing is claimed if and only if there is none |
| Store.Store.Heartbeat | internal/store/store.go:456-465 | the holder's lease is unexpired afterwards and the goal otherwise the same; anybody else is refused and nothing changes |
| Store.Store.Release | internal/store/store.go:467-470 | gives the lease up exactly for its holder at its epoch |
| Store.Store.CheckLease | internal/store/store.go:479-488 | succeeds if and only if the worker holds the goal at that epoch |
| Store.Store.TransitionFenced | internal/store/store.go:491-525 | a legal move under the lease, or no change at all |
| Store.Store.CommitIntent | internal/store/store.go:602-631 | under the lease inserts the row unless key or step is taken, then returns the taken row unchanged; both uniqueness constraints hold |
| Store.Store.MarkAttempt | internal/store/store.go:633-637 | counts an attempt of a row in intent, touches no other row |
| Store.Store.CommitResult | internal/store/store.go:639-670 | on a row in intent a result is stored with status committed and told in one last message carrying it, an error with status failed and no message; on any other row nothing changes and the stored row is returned |
| Store.Store.ResolveReview | internal/store/store.go:688-718 | settles a row if and only if it awaits review; retry clears the attempts |
| Store.Store.MarkNeedsReview | internal/store/store.go:814-831 | flags a row that is still in intent and no other |
| Store.Store.CommitStep | internal/store/store.go:834-857 | under the lease, at the cursor, adds the step row and advances the cursor together, or changes nothing |
| Store.Store.AddMessage | internal/store/store.go:880-904 | the message is trusted exactly when its source is the operator |
| Cluster.Cluster.Perform | internal/store/store.go:340-904 | every action of the protocol, by whoever, is carried out on the tables by the store's transactions, so the tables are always those of a protocol run |
| Cluster.Cluster.Resume | internal/store/store.go:379-389 | Resume as it is made, with anybody acting between its read and its write: it writes the state read if that is then a legal move, and is refused otherwise |
| Cluster.Cluster.CommitIntent | internal/store/store.go:604-631 | the row returned is always the step's own: no other goal's row can carry the key |
| Cluster.Cluster.KeyIsFree | internal/store/schema.sql:24-38 | the key a worker is about to record is carried by its own step's row or by none |
| Cluster.Cluster.TablesAgree | internal/store/store.go:834-857 | in the tables of all goals at once: steps below the cursor and only those, each a copy of a committed effect, effects at or below the cursor under their own key |
| Cluster.FreshKey | internal/executor/executor.go:106-114 | rows of different goals or steps never share a key |
| Worker.Worker.Run | internal/executor/executor.go:141-166 | one intent, then the call if the row is new or the answer of the row found; given up only after a fault, a lost lease or a step bound to another call; the protocol stands where the result says |
| Worker.Worker.SettleRow | internal/executor/executor.go:169-179 | a row that is not an intent is answered from its status with no action at all; an intent is taken up |
| Worker.Worker.Reconcile | internal/executor/executor.go:182-209 | an unattempted intent is run, one without a probe is flagged for review, a probed one does what the probe says, a result it found being recorded, and nothing else happens unless the worker dies or meets a fault |
| Worker.Worker.Execute | internal/executor/executor.go:236-262 | authorise, mark, call, record what the call returned, in this order and none skipped, broken off only by a denial, a fault or death |
| Worker.Worker.Conclude | internal/executor/executor.go:249-272 | a row that was still in intent now stores the outcome it was given, any other is as it was, and the answer is that of the row as stored |
| Worker.Worker.Step | internal/worker/worker.go:152-213 | the cursor's row is looked up and, if it exists, taken up without asking the agent; otherwise steps, messages and agent are read in this order and the decision is carried out; the turn ends for a stated reason |
| Worker.Worker.RequestApproval | internal/store/store.go:727-742 | a call that needs approval is recorded, flagged and the goal paused, in this order, by a worker that never calls the tool; what others can do in between is CallCounts.ApprovalKept |
| Worker.Worker.RunStep | internal/worker/worker.go:193-213 | the transition after a call is the one its answer asks for: the next step, failed, or paused |
| Worker.Worker.DriveOnce | internal/worker/worker.go:89-126 | a turn loads the goal under the lease and does what its state calls for; it stops only after a fault, a lost lease, an unusable decision or a transition |
| Worker.Worker.Drive | internal/worker/worker.go:88-128 | at most MaxSteps turns, each as DriveOnce says, and nothing between them; then the worker is leaving or dead |
| Worker.Worker.RunOnce | internal/worker/worker.go:52-70 | claims at most one goal, never a locked one, drives it for at most MaxSteps turns and leaves the worker idle; every reply of the script leads to one action that obeys what agent, authoriser, probe and tool said in it; all goals' histories only grow by protocol actions |
| Engine.Fake.ScheduleStep | internal/engine/fake.go:52-95 | the function runs exactly for a key never or not yet attempted, or whose probe found nothing; if it ran its result or failure is answered and kept, otherwise what was settled or found is; a crash settles nothing |
| Engine.Fake.ResolveKey | internal/engine/fake.go:109-132 | settles a key if and only if it is under review and the action known; otherwise says why not |
| Engine.Postgres.Claim | internal/engine/postgres.go:127-156 | inserts a missing row and chooses the action from the row's status and attempts |
| Engine.Postgres.Attempt | internal/engine/postgres.go:162-180 | marks, runs once, and answers and keeps the function's result or failure; a simulated crash leaves the attempt open |
| Engine.Postgres.ScheduleStep | internal/engine/postgres.go:73-115 | an undisturbed call runs the function, answers and keeps what it returned exactly as the lock-based engine does |
| Engine.Postgres.ResolveKey | internal/engine/postgres.go:214-237 | settles a key if and only if it is under review and the action known |
| Engine.RefusalTexts | internal/engine/postgres.go:214-237 | the two engines refuse a Resolve in the same words if and only if the key is under review |
| Engine.Compare | internal/engine/engine.go:62-89 | for every sequence of calls on any keys both engines give the contract's answers, hence each other's, with the same numbers of calls |
| Contention.HalvesMakeACall | internal/engine/fake.go:52-95 | lock to function call and function return to unlock together are the uninterrupted call |
| EngineAnswers.FakeAnswersSourced | internal/engine/engine.go:62-76 | under every schedule of callers of the lock-based engine a settled answer for a key was supplied by a function that returned for it, a probe that found it, or a resolution |
| EngineAnswers.RowAnswersSourced | internal/engine/engine.go:62-76 | the same for the row-based engine |
| EngineAnswers.ReturnsAreAnswered | internal/engine/fake.go:84-94 | a function that returns is answered with its own result or failure |
| EngineAnswers.RowReturnsAreAnswered | internal/engine/postgres.go:166-179 | the same for the row-based engine, whoever settled the key meanwhile |
| Contention.FakeMeetsContract | internal/engine/engine.go:62-76 | under every schedule the function runs without a probe at most 1 plus retries times, and a settled answer is the key's last word |
| Contention.PostgresOnceWhenApart | internal/engine/postgres.go:122-180 | the bound on calls holds when no claim falls between another caller's claim and its attempt mark |
| Contention.OverlapBreaks | internal/engine/postgres.go:122-126 | a claim that falls there with the bound used up makes both callers run the function |
| Contention.TwoCallersRunTwice | internal/engine/postgres.go:135-140 | two first callers of one key run the function twice, with no crash and no retry |
| SerialClaims.PostgresMeetsContract | internal/engine/engine.go:62-76 | when a key is claimed only while no caller stands at any stage for it: the bound on calls, a settled answer that is the key's last word, and at most one function in flight |
| SerialClaims.OverlapForks | internal/engine/postgres.go:122-126 | from any state with a caller at any stage of an open key, a claim by another can be followed by two functions in flight and two different answers |
| SerialClaims.SerialIsNeeded | internal/engine/postgres.go:122-126 | after any run that kept the condition, any claim that breaks it can break the contract |
| SerialClaims.TwoAnswers | internal/engine/postgres.go:98-115 | a run that keeps the bound on calls answers one key in two ways |
| Spool.ActionKeepsInv | internal/ledger/spool.go:50-241 | every file-system call of any process keeps each acknowledged record in exactly one place |
| Spool.NothingIsLost | internal/ledger/spool.go:50-89 | in any interleaving of recorders, flushers, crashes and recoveries an acknowledged record is pending, .sending or removed, never two of these, and removed only after a delivery |
| SpoolOrder.StepKeepsOrder | internal/ledger/spool.go:193-241 | the flusher's position, the files and what was delivered agree after every step |
| SpoolOrder.DeliveredInOrder | internal/ledger/spool.go:152-241 | what was delivered, adjacent repeats aside, is a prefix of the acknowledged records in name order, each with its own contents |
| SpoolProcess.Record | internal/ledger/spool.go:50-89 | acknowledges if and only if every call succeeded, and leaves no file otherwise |
| SpoolProcess.DeliverOne | internal/ledger/spool.go:193-223 | the file is gone after a delivery and back after a refusal, other files untouched |
| SpoolProcess.FlushOnce | internal/ledger/spool.go:156-186 | hands over the pending records in name order, removes what is taken and stops at the first refusal with that file back |
| SpoolProcess.RecoverOrphans | internal/ledger/spool.go:229-241 | every .sending file is pending again and no other file is lost |
| FileName.NamesIncrease | internal/ledger/spool.go:94-99 | names grow with the clock and then with the counter, as long as both fit their padding |
| Forest.Closure | internal/store/store.go:404-408 | the upward walk ends on any graph and finds exactly the goal and everything above it |
| Forest.Goals.Reparent | internal/store/store.go:392-428 | as one step it refuses exactly the parents that would close a cycle, and the links stay a forest |
| Forest.Goals.Add | internal/store/store.go:205-236 | a new goal under an existing parent keeps the forest |
| Forest.TwoChangesSafeIff | internal/store/store.go:392-428 | two changes of parent that each pass the check leave a forest if and only if not each new parent lies below the other's goal |
| Forest.CheckThenUpdateRaces | internal/store/store.go:404-419 | two changes of parent that each pass the check can together close a cycle |
| KeyFile.ExistingFileKept | internal/receipt/keyfile.go:84-91 | the bytes at the path, parsable or not, are never changed by any number of processes |
| KeyFile.SeedsAgree | internal/receipt/keyfile.go:87-104 | all processes that obtain a seed, in any interleaving and with crashes anywhere, obtain the file's |
| KeyFile.SeedIsForEver | internal/receipt/keyfile.go:87-104 | a seed once obtained is the one every later process obtains |
| KeyFile.WriteSeedFile | internal/receipt/keyfile.go:108-134 | publishes a complete seed only where no file was, otherwise says that one exists |
| KeyFile.LoadOrCreateSeed | internal/receipt/keyfile.go:87-104 | returns what the path holds afterwards and changes nothing that was there |

## Left out

- The HTTP API, event streaming, the command line and the daemon's main: only the operator's signals enter, as transitions.
- Postgres itself: each transaction is one atomic step on tables with the schema's uniqueness and reference constraints.
- Wall-clock time: a lease expires at any moment, and the order in which goals are tried for a claim is an input.
- Create's resubmission of an equal goal, goal names and lookup by name, and a goal that is its own parent at creation.
- The Ledger and Warrant clients, the gate tool, licences, signatures and base64: arbitrary outcomes or no part of the model.
- Repair of invalid UTF-8: strings are sequences of Unicode characters.
- Matching of JSON field names without regard to case in the agent's input and messages.
- Physical layout of the appended file: a file is a list of tagged lines, without the limits of the line scanner.
- Engine timers and signals, the Temporal adapter and the registry's locking.
- The events table, reasons and ledger records written beside the transactions.
- Store.Store.Claim: the claim and the event it writes afterwards are two transactions in the code; only the first is modelled.
- Worker.Worker.RunOnce: heartbeats run as interference; a lost heartbeat cancels the worker at its next action, as a fault.
- Engine.Compare: database errors of the row-based engine and results that are not valid JSON are not modelled.
- SpoolOrder.DeliveredInOrder: file names increase in the order of publication, which FileName.NamesIncrease gives for records written one after the other.
- Spool.NothingIsLost: local write errors are modelled as failed calls, not as torn files.
- WriterFiles.FileFollowsPlan: assumes a goal input that decodes and a usable file name; an agent whose input does not decode fails its goal before any effect, and WriterFiles.BadFileWritesNothing covers the other names. Two names for one physical file are two files.
- CrashStop.AppliedAtMostOnce: the crash-stop condition also covers a worker about to flag a row or to record a result, and may be wider than side effects need.
- CallCounts.AtMostOnce: the converse, Takeover.OverlapRunsTwice, is stated for executing goals and for steps whose calls are used up; where earlier retries went unused an overlapping claim does no harm at once.
- Guarantees.ResumeRestoresIff: pending resume requests are kept for ever in the model, which allows more late writes than a server that answers them.
- Progress.ReachesDone: the operations counted are the model's, one per transaction or call; the turns and claims are exact.
- Contention.PostgresOnceWhenApart: one direction only; the converse, Contention.OverlapBreaks, is stated for keys at their bound. The whole contract has its exact condition in SerialClaims.
- Worker.Worker.Step: the agent's reason texts and the goal's warrant tokens are not modelled.
