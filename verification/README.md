# Verified model of the agent harness and its protocols

A Dafny model of the parts of the repository whose guarantees span many steps, with
machine-checked proofs. `dafny verify dfyconfig.toml` checks all of it.

## What is modelled

**The agent harness.** One turn is a bounded loop over a language model: compaction, progress
check, model call, tag parsing, exclusivity, action caps, permission gate, memory verification,
tool execution, swarm, critic, escalation, output decision. The sites are methods on a mutable
`State` (`HarnessState`, `Sites`, `Loop`), written with the source's loops and early returns and
proved against functions of the old state (`SiteSpecs`, `LoopSpec`). The model, the clock, the tools,
the memory and the critic are arbitrary total functions of the iteration and of the position in it
(`World`), so every result holds for all of their behaviours. `Transcript` describes a running turn by
the replies so far. The results over whole runs say, without the specification's names, which calls run
and which wait (`CallLemmas`, `Approvals`, `Dispatch`), when a turn goes on and how it ends (`Runs`,
`Decisions`, `Promises`, `NoProgress`), what it sends (`Sending`), what the model is given and told
(`Conversation`, `Reports`), what the journal says (`Journal`, `Reconcile`, `Entries`) and what is stored
(`SuspendedTurn`). `Batches` sorts a reply's events; `Scripts` holds the turns used as witnesses.

**The tag parser.** `Patterns` gives the regular expressions as leftmost, lazy, back-referencing
matchers over characters, `Parser` the three scans, the merge and the recovery, `Printer` the
documented syntax. `TagLemmas`, `FormLemmas`, `ChildLemmas` and `PrintParse` lead to `RoundTrip`;
`Spellings`, `Shorthands` and `Loose` are about the ways a tag may be spelled, `Nesting` about tags
inside tags.

**Smaller protocols.** Pricing arithmetic (`Pricing`), provider order and the daily budget under
concurrent callers (`Router`), URL path templating in its two implementations (`PathTemplate`),
blueprint versions (`Blueprints`) and their cache (`BlueprintCache`), the 24-hour messaging window
(`Window`) and the lock of the proactive runs (`Lease`).

## Where the code and its documentation differ

The model follows the code.

- The documented body of `<swarm>` (prompt.py:80-82) is ignored: the context is read from an
  attribute. The round trip is exact only without it (`RoundTrip.RoundTripExact`).
- The prompt says only the last say or ask of all iterations is sent (prompt.py:69). The code joins
  every non-empty say of all iterations and looks at the asks of the last one only
  (`Sending.MessageExactly`); the accumulated ask is never read.
- The sites run in the order 5, 1, 3, 2, 6, 4, 7, not in the numbered one, and the state is saved
  once at the end of an iteration.
- Calls trimmed by the per-iteration cap are dropped; a comment says they are fed back (loop.py:321;
  `Promises.AnsweredExactly`, `Promises.TrimmedCallUnanswered`).
- The last allowed iteration expires the turn even when the model emitted a final
  (`Promises.FinalExactly`, `Promises.FinalExpires`).
- The tag patterns promise top-level tags only (parser.py:43-44). A self-closing tag or a capability's
  shorthand inside another tag is found as well (`Nesting.TopLevelExactly`, `Nesting.CallInThought`).
- Window keys are joined with colons, and the dashboard takes a project id as free text. Ids with colons
  can give two customers one key (`Window.HeadersMeet`, `Window.SafeExactly`, `Window.StrangerWrittenTo`).
- Several identical digests in a row do not always end a turn for lack of progress: a cap, or
  something said before, comes first (`NoProgress.EmptyAtTheCap`, `NoProgress.NoProgressExact`).
- A higher share of cached tokens can cost a paisa more (`Pricing.CachingExact`).
- Embeddings are charged without a budget check, so the daily bound includes them
  (`Router.BudgetBound`, `Router.PlainBoundExactly`).
- The gate looks up a tenant's tools first and the dispatch the built-in capabilities first. A tool
  registered under a built-in's name therefore lends its verdict to the built-in
  (`Dispatch.RefundRuns`, `Dispatch.GuardedAlways`).
- The two path implementations differ on `!'()*` and on missing arguments with names like
  `constructor` (`PathTemplate.ImplementationsAgree`).
- A load that read the database before a commit can put the old version back into the cache after
  the commit's delete, for a full lifetime of the entry (`BlueprintCache.DeleteExact`).
- A run that outlives its lock deletes the lock of the next one (`Lease.OverrunDeletesAnother`).

## Model

| member | source | states |
|---|---|---|
| Parser.ParseReply | apps/orchestrator/orchestrator/harness/parser.py:88-144 | The three scans, the merge by position, the building and the recovery give exactly the events of `Parse`, the function the round-trip and recovery results are about |
| Parser.BuildAskTag | apps/orchestrator/orchestrator/harness/parser.py:207-233 | An ask gets one button and one item per nested tag, in order, and its text from the body or else from the attributes |
| Parser.CollectShorthand | apps/orchestrator/orchestrator/harness/parser.py:102-111 | Exactly the dotted tags that name a registered capability become calls of it, in order |
| RoundTrip.RecoveredText | apps/orchestrator/orchestrator/harness/parser.py:136-153 | What recovery sends is made of the reply's own characters in their order, nothing invented, and a reply without tags is sent whole, trimmed |
| PrintParse.SortedOrdered | apps/orchestrator/orchestrator/harness/parser.py:113 | The merge orders the tags by position (and, by the contract of `Sorted`, loses and adds none) |
| PrintParse.TagsOfPrinted | apps/orchestrator/orchestrator/harness/parser.py:93-113 | On a written reply the merged scans find every tag once, in document order, paired and self-closing ones alike, nothing inside a tag's body and no shorthand |
| PrintParse.NothingLeftOver | apps/orchestrator/orchestrator/harness/parser.py:147-153 | A written reply leaves nothing to recover |
| PrintParse.AttrsOfIs | apps/orchestrator/orchestrator/harness/parser.py:58-80 | Scanning written attributes gives back the dictionary they were written from |
| TagLemmas.FindCloseIs | apps/orchestrator/orchestrator/harness/parser.py:45-50 | The lazy body of a paired tag ends at its own close tag when the body holds no close tag of that name |
| RoundTrip.ScanAsk | apps/orchestrator/orchestrator/harness/parser.py:207-221 | The two scans of an ask's body find its buttons and its items, each once and in order |
| RoundTrip.BuildIs | apps/orchestrator/orchestrator/harness/parser.py:177-285 | Building a written tag returns the event it was written for, every kind, up to a swarm's context |
| RoundTrip.ParseOfPrint | apps/orchestrator/orchestrator/harness/parser.py:88-144 | For every sequence of canonical events, with any whitespace before, between and after the tags, each gap its own, those inside an ask included, parsing the written reply returns those events in order (a swarm's context excepted) |
| RoundTrip.RoundTripExact | apps/orchestrator/orchestrator/harness/parser.py:273-283 | A written reply comes back unchanged if and only if no swarm carries a context: the documented body of `<swarm>` is not read |
| RoundTrip.RecoveredReply | apps/orchestrator/orchestrator/harness/parser.py:124-144 | A reply that says and asks nothing and has at least four characters outside its tags gains exactly one say, with that text, after its own events, and ends with a final |
| RoundTrip.RecoveryExactly | apps/orchestrator/orchestrator/harness/parser.py:124-144 | A reply is exactly its tags when one of them says, asks, calls, spawns, remembers, recalls or requests, or less than four characters are left outside them; otherwise the text outside becomes one say, and the reply ends with a final |
| RoundTrip.ParseOfMixed | apps/orchestrator/orchestrator/harness/parser.py:88-144 | Written events with any text between their tags: the events alone when one of them speaks or the text is short, else the text as well and the end of the turn |
| Spellings.ParseAsRead | apps/orchestrator/orchestrator/harness/parser.py:88-285 | Whatever tags a reply is made of, with any attributes in any order, missing, repeated or standing in for each other, asks with nested tags and text in any order: its events are what each tag is read as, in order, the dropped ones left out; the text between counts only when none speaks |
| Loose.LooseRead | apps/orchestrator/orchestrator/harness/parser.py:45-80 | Capital letters in tag and attribute names, whitespace after a bracket, around a slash, between attributes, around their equals signs and before the end of a tag change nothing: the tag is read as its plain spelling |
| Loose.SomePlain | apps/orchestrator/orchestrator/harness/parser.py:45-80 | Every such loose tag has a plain spelling: a pair of any kind with a body without tags, or one of the five self-closing kinds |
| Shorthands.ShorthandRead | apps/orchestrator/orchestrator/harness/parser.py:98-153 | A shorthand of any dotted name, with any attributes, in any text: a call of exactly that name when it is registered, and then the text does not count; otherwise the tag alone is dropped and the text is what the reply says |
| RoundTrip.ParseEmpty | apps/orchestrator/orchestrator/harness/parser.py:88-144 | The empty reply has no events |
| Nesting.TopLevelExactly | apps/orchestrator/orchestrator/harness/parser.py:43-72 | Only top-level tags are found if and only if no paired tag holds, in its attributes, body or close tag, a self-closing or shorthand tag that no earlier match has swallowed |
| Nesting.FinalInThought | apps/orchestrator/orchestrator/harness/parser.py:93-113 | A final written inside a thought is found and ends the turn |
| Nesting.CallInThought | apps/orchestrator/orchestrator/harness/parser.py:98-111 | The shorthand of any registered capability, with any attributes and arguments, written inside a thought is a call like any other |
| Nesting.FinalInAttributes | apps/orchestrator/orchestrator/harness/parser.py:45-56 | A reply whose outer tag has an empty body and in which a tag inside it is found all the same |
| Runs.RecoveredNeverIterates | apps/orchestrator/orchestrator/harness/loop.py:284-300 | Such a reply is never ambiguous, runs no call and is never answered with another iteration |
| Batches.BatchOne | apps/orchestrator/orchestrator/harness/loop.py:509-538 | A single event lands in the list of its own kind, as it is, and in no other |
| Batches.BatchJoin | apps/orchestrator/orchestrator/harness/loop.py:254-282 | What two replies one after the other sort into is what each sorts into, joined list by list |
| Batches.AmbiguousExactly | apps/orchestrator/orchestrator/harness/loop.py:284-300 | A reply is ambiguous exactly when its tags hold a final and a call, an ask or a swarm: recovered text never makes it so |
| Batches.TrimExactly | apps/orchestrator/orchestrator/harness/loop.py:314-322 | Of too many calls the first ones stay, as many as the cap; a negative cap drops as many from the end |
| HarnessState.State.constructor | apps/orchestrator/orchestrator/harness/state.py:121-129 | A new turn is pending with empty journal, accumulators and counters |
| HarnessState.State.AppendSite | apps/orchestrator/orchestrator/harness/state.py:131-144 | One entry with the current iteration is appended and nothing else changes |
| HarnessState.State.Terminate | apps/orchestrator/orchestrator/harness/loop.py:129-131 | Outcome and code change and nothing else |
| Sites.EstimateChars | apps/orchestrator/orchestrator/harness/sites/compaction.py:27-39 | The estimate counts exactly the characters the progress digest hashes |
| Sites.MaybeCompact | apps/orchestrator/orchestrator/harness/sites/compaction.py:42-92 | Messages are kept, or replaced by the last four after a summary of the transcript of the others, cut to 24,000 characters; one entry is journaled either way |
| Sites.GateCalls | apps/orchestrator/orchestrator/harness/sites/permission.py:78-132 | The loop stops at the first call that needs approval; what it cleared and denied before is split by verdict |
| Sites.GateSite | apps/orchestrator/orchestrator/harness/sites/permission.py:30-145 | An explicit request blocks before any call is looked at; the state changes only in its approval and journal |
| Sites.VerifySite | apps/orchestrator/orchestrator/harness/sites/memory_verify.py:25-92 | Cleared calls are split by their memory answers and every refuted one gets a correction; recalls are answered in order |
| Sites.Partition | apps/orchestrator/orchestrator/harness/sites/tools.py:50-53 | Side-effecting and other calls, each in emission order |
| Sites.RunSequential | apps/orchestrator/orchestrator/harness/sites/tools.py:64-78 | Every side-effecting call is journaled as an intent, invoked, and journaled with its own result, before the next one starts |
| Sites.ExecuteSite | apps/orchestrator/orchestrator/harness/sites/tools.py:27-86 | Denials first, then the parallel, then the sequential results; the invocations and the journal are those of the specification |
| Sites.SwarmRun | apps/orchestrator/orchestrator/harness/sites/swarm.py:46-110 | One record per swarm tag in order, unknown agents answered with an error |
| Sites.CriticReview | apps/orchestrator/orchestrator/harness/sites/critic.py:31-88 | Skipped when disabled or when there is no draft; otherwise the first line of the answer is read, whatever follows it, and an objection gives one entry and one record with its reason |
| Sites.BuildOutbound | apps/orchestrator/orchestrator/harness/sites/output.py:113-154 | The message is that of `OutboundOf`, whose limits are `Runs.MessageLimits` |
| Sites.Decide | apps/orchestrator/orchestrator/harness/sites/output.py:29-110 | The forced outcome, then the caps in order, then the final, decide the outcome; the whole new state is that of the specification |
| SiteSpecs.FirstBlocked | apps/orchestrator/orchestrator/harness/sites/permission.py:79-128 | The index of the first call that needs approval, with no such call before it |
| Approvals.ClassifyExactly | apps/orchestrator/orchestrator/harness/risk.py:78-91 | An override that names a level decides, any other is ignored, and an unlisted capability is a medium risk |
| Approvals.ToolRiskExactly | apps/orchestrator/orchestrator/tools/dispatcher.py:195-206 | Without an override a tenant's tool is high exactly when it has side effects or deletes, low exactly when it only reads |
| Approvals.RiskExactly | apps/orchestrator/orchestrator/harness/sites/permission.py:80-90 | A name is known through the tables or a callable tool of the tenant, and such a tool decides for its name |
| Approvals.GateExactly | apps/orchestrator/orchestrator/harness/sites/permission.py:49-145 | The gate waits exactly when the reply asks for approval or a kept call is a known high risk, or a known medium one on the policy's list; it waits for the first request, or else for the first such call, with that call's name, arguments and id; when it does not wait it refuses exactly the unknown and the disabled calls and clears the rest |
| Approvals.SuspendsExactly | apps/orchestrator/orchestrator/harness/sites/permission.py:49-145 | A turn that reaches the output decision of its last reply waits for the owner if and only if that reply asks for it or one of its kept calls needs it, and its pending approval is that of the first |
| Loop.Bucketize | apps/orchestrator/orchestrator/harness/loop.py:254-282 | One pass sorts the events by kind, each kind in order, with the final flag |
| Loop.CheckProgress | apps/orchestrator/orchestrator/harness/loop.py:186-201 | The streak grows exactly when the digest repeats, else it is reset |
| Loop.RunCalls | apps/orchestrator/orchestrator/harness/loop.py:324-369 | Sites 1, 3 and 2 in that order; nothing is executed when the gate blocks |
| Loop.RunSites | apps/orchestrator/orchestrator/harness/loop.py:324-393 | Then sites 6 and 4 and the accumulation; the feedback is results, corrections, recalls, swarms, critic, in that order |
| Loop.Conclude | apps/orchestrator/orchestrator/harness/loop.py:426-469 | The decision's outcome and its termination code |
| Loop.HandleReply | apps/orchestrator/orchestrator/harness/loop.py:284-322 | Exclusivity, the cap on all actions and the per-iteration trim, in that order |
| Loop.Iteration | apps/orchestrator/orchestrator/harness/loop.py:172-252 | One iteration takes the state to that of `Step`, early returns included |
| Loop.RunHarness | apps/orchestrator/orchestrator/harness/loop.py:134-506 | The loop ends in exactly the turn `Result` describes, for every environment |
| Transcript.StepIs | apps/orchestrator/orchestrator/harness/loop.py:172-501 | An iteration keeps the description of the running turn by its transcript (costs, says, invocations, counted actions, all earlier replies handled), or ends the turn in one of seven described ways |
| Transcript.AfterIs | apps/orchestrator/orchestrator/harness/loop.py:172-506 | The same for any number of iterations |
| Transcript.WorkedIs | apps/orchestrator/orchestrator/harness/loop.py:324-393 | The sites of an iteration touch the journal, what is said and asked, the approval and the invocations, and nothing else |
| CallLemmas.GateSplit | apps/orchestrator/orchestrator/harness/sites/permission.py:79-132 | When nothing needs approval the gate shares the calls out to cleared and denied: none lost, added or reordered |
| CallLemmas.VerifiedIs | apps/orchestrator/orchestrator/harness/sites/memory_verify.py:38-59 | Memory verification splits the cleared calls the same way |
| CallLemmas.CorrectionsSpeak | apps/orchestrator/orchestrator/harness/sites/memory_verify.py:51-59 | The n-th correction carries the name and id of the n-th refuted call |
| CallLemmas.Conservation | apps/orchestrator/orchestrator/harness/loop.py:315-369 | In every iteration that does not suspend, results and corrections answer each kept call exactly once: denied first, then parallel, then side-effecting, then refuted, each a subsequence of the emission order |
| CallLemmas.Faithful | apps/orchestrator/orchestrator/harness/sites/tools.py:44-78 | Every answer carries the name of the call it answers, and its id unless the gate denied it |
| Promises.AnsweredExactly | apps/orchestrator/orchestrator/harness/loop.py:314-322 | In an iteration that does not suspend, every call the reply asked for is answered if and only if the per-iteration cap trimmed none |
| Promises.TrimmedCallUnanswered | apps/orchestrator/orchestrator/harness/loop.py:314-322 | A turn that goes on after answering the first of two calls alone |
| CallLemmas.ExecutedAdmissible | apps/orchestrator/orchestrator/harness/loop.py:314-369 | A call that is executed was emitted and kept, is known, is low risk or medium risk outside the policy's list, had its memory claim confirmed, and nothing in its iteration waits for approval |
| CallLemmas.ExecutedCount | apps/orchestrator/orchestrator/harness/loop.py:314-369 | No more calls are executed than were kept |
| Dispatch.DispatchAgrees | apps/orchestrator/orchestrator/harness/sites/tools.py:89-136 | An executed call is never turned away by the dispatch; it runs a tenant's tool only if the gate cleared that tool, and a built-in that its own risk would stop if and only if a tool of that name shadows it |
| Dispatch.BuiltInsGuarded | apps/orchestrator/orchestrator/harness/sites/permission.py:86-132 | Over every run, if no tool of the tenant has the name of a built-in, every built-in that runs is rated low, or medium outside the policy's list |
| Dispatch.GuardedExactly | apps/orchestrator/orchestrator/harness/sites/permission.py:86-132 | Every run executes only built-ins that their own risk lets run if and only if it executes no call of a shadowed name |
| Dispatch.GuardedAlways | apps/orchestrator/orchestrator/harness/sites/permission.py:86-132 | Whatever the model replies, only such built-ins run, if and only if no tool the tenant registered shadows a built-in: a condition on the registered tools alone |
| Dispatch.RefundRuns | apps/dashboard/app/api/api-tools/route.ts:47-50 | A registered GET endpoint named like the refund, which the form admits, and a reply that asks for it: the refund, rated high, runs without approval |
| Runs.EveryRunEnds | apps/orchestrator/orchestrator/harness/loop.py:172-506 | With at least one iteration allowed the loop never falls through |
| Runs.OutcomeExact | apps/orchestrator/orchestrator/harness/loop.py:172-506 | Every run ends with one of four outcomes, each with its own codes; suspended exactly when there is no code, then with an approval and no message; an approval survives elsewhere only in an escalation |
| Runs.CodesNameCaps | apps/orchestrator/orchestrator/harness/loop.py:445-469 | Every code names what really happened, for all eleven codes: the cap or the streak reached, also in runs that compact, the call failed, the reply ambiguous, the final emitted, the escalation asked for, nothing left to do and something to send |
| Decisions.ContinuesExactly | apps/orchestrator/orchestrator/harness/sites/output.py:45-110 | An iteration asks for another one if and only if its reply was handled, nothing is escalated or waits for the owner, no cap is reached, there is no final, and a cleared call or a swarm is left to feed back, or there is nothing to send |
| Decisions.GoesOnExactly | apps/orchestrator/orchestrator/harness/loop.py:172-501 | The run then starts that iteration unless the progress breaker stopped this one |
| Decisions.StopsExactly | apps/orchestrator/orchestrator/harness/loop.py:187-424 | When a run stops in an iteration its code tells the first reason that applies: the breaker, a failed call, the deadline, a mixed reply, too many calls, an escalation, and only then the output decision |
| Decisions.EndsExactly | apps/orchestrator/orchestrator/harness/sites/output.py:45-110 | A turn that reaches its last output decision waits, or else expires exactly when a cap is reached, or else finalizes: with a final, or with nothing left to do and something to send |
| Decisions.EndCodes | apps/orchestrator/orchestrator/harness/loop.py:445-469 | The code of an expired turn names the clock before the cost and the cost before the iterations, the last journal entry the iterations first; a finalized turn's code tells whether the reply had a final |
| Promises.FinalExactly | apps/orchestrator/orchestrator/harness/loop.py:426-457 | When the last reply reaches the output decision, the turn counts as ended by the model's final if and only if the reply has one, nothing waits for approval, it is not the last reply allowed, and neither wall clock nor cost has reached its cap |
| Promises.FinalExpires | apps/orchestrator/orchestrator/harness/sites/output.py:52-61 | A turn that says what it has to say, emits its final and expires all the same, its message sent |
| Runs.SentMessage | apps/orchestrator/orchestrator/harness/loop.py:386-443 | What a run sends is a function of its transcript: the last ask of the last reply, else every non-empty say of all replies joined by newlines, else nothing; failures, suspensions, no progress and too many actions send nothing |
| Sending.MessageExactly | apps/orchestrator/orchestrator/harness/sites/output.py:113-154 | A turn that asks something last sends that ask, with its own body, button and section texts and its list or buttons cut to the channel, never as plain text; else it sends every non-empty text of all its replies, each at its place, in order, one line break between them and nothing else; and nothing when nothing was said |
| Sending.OtherwiseSent | apps/orchestrator/orchestrator/harness/loop.py:395-424 | Every other turn sends nothing, but one handed to the team sends the blueprint's text for that or the standard one |
| Sending.NonEmptyExactly | apps/orchestrator/orchestrator/harness/loop.py:386-389 | Of the texts said exactly the empty ones are left out, the others in order |
| Sending.SaidAdds | apps/orchestrator/orchestrator/harness/loop.py:386-389 | Each reply adds its own texts, the empty ones left out, after those of the replies before |
| Sending.DraftExactly | apps/orchestrator/orchestrator/harness/loop.py:386-393 | The draft stored with a turn is the last ask of the last reply acted on that asked anything, uncut |
| Runs.MessageLimits | apps/orchestrator/orchestrator/harness/sites/output.py:113-144 | Whatever the model asked for, what a run sends has 1 to 10 items with titles of at most 24 characters, or at most 3 buttons with titles of at most 20, each the beginning of what the last ask wanted, ids kept |
| Runs.GateSafety | apps/orchestrator/orchestrator/harness/sites/permission.py:49-145 | Over a whole run, the calls that reached the dispatch are exactly the executed calls of the iterations that went through their sites, whose number the code tells, and every one was admissible |
| Runs.ResourceBounds | apps/orchestrator/orchestrator/harness/loop.py:238-252 | At most `max_iterations` recorded model calls; executed calls within both action caps; the total cost is the sum of the recorded costs; all recorded calls but the last cost less than the cap |
| Journal.JournalGrammar | apps/orchestrator/orchestrator/harness/loop.py:172-483 | Every continued iteration spells COMPACTION PERMISSION MEMORY? TOOLS+ SWARM CRITIC OUTPUT(iterate) with its own number, and the last spells a terminal word that agrees with the turn's outcome and code |
| Journal.IntentsPaired | apps/orchestrator/orchestrator/harness/sites/tools.py:64-78 | In every prefix of every run's journal the results name the first intents in order, all of them or all but one |
| Reports.AnswersTell | apps/orchestrator/orchestrator/harness/sites/tools.py:44-147 | In an iteration that does not suspend, each refused call is answered with ok=false and its reason, and each executed one with the ok, output and error of what answered it: the registry for a built-in, the endpoint for a tenant's tool (its error only when it failed), a refusal without a tenant or without either |
| Reports.CorrectionTells | apps/orchestrator/orchestrator/harness/sites/memory_verify.py:38-59 | The corrections are exactly the failed checks: one record, ok=false and with the reason, for each cleared claim that was refuted |
| Reports.KeptExactly | apps/orchestrator/orchestrator/harness/sites/memory_verify.py:38-59 | A cleared call goes on exactly when it claims nothing or its claim was not refuted |
| Reports.OthersTell | apps/orchestrator/orchestrator/harness/sites/swarm.py:46-110 | What is fed back of memory, sub-agents and the critic: each key's value, each agent's own answer or an error for an unknown one, and the objection when there is one |
| Reports.VerdictExactly | apps/orchestrator/orchestrator/harness/sites/critic.py:76-88 | The critic objects exactly when its line begins with the word revise, in any case |
| Reports.VerdictFirstLine | apps/orchestrator/orchestrator/harness/sites/critic.py:76-88 | Only the first line of its answer is read |
| Reports.VerdictReason | apps/orchestrator/orchestrator/harness/sites/critic.py:76-88 | The reason is what follows the first colon, trimmed |
| Reports.JournalTells | apps/orchestrator/orchestrator/harness/sites/tools.py:64-78 | In every run every entry of the journal says what happened at its site; each result follows the intent of a side-effecting call that its iteration executed, holds what answered that call, and says ok if and only if that answer was ok |
| Reconcile.JournalReconciles | apps/orchestrator/orchestrator/harness/sites/tools.py:3-6 | In every run the journaled intents are exactly the side-effecting calls that were invoked, in the same order and iterations and with the same arguments, and each has its result when the turn is over |
| NoProgress.NextDigest | apps/orchestrator/orchestrator/harness/loop.py:486-501 | The digested text grows by every reply and its feedback, and stays equal only for an empty reply without feedback |
| Conversation.StartExactly | apps/orchestrator/orchestrator/harness/loop.py:160-167 | The first messages are the last ones of the history up to the cap (all for a cap of zero, all but the first ones for a negative cap) and then the customer's message as the user's |
| Conversation.ExchangeExactly | apps/orchestrator/orchestrator/harness/loop.py:485-501 | A continued iteration adds the reply as the assistant's message and, exactly when there is feedback, one user message with each record in its block, in order, one per line |
| Conversation.CompactedExactly | apps/orchestrator/orchestrator/harness/sites/compaction.py:42-92 | Messages are compacted exactly when there are six and 320,000 characters or more; then one user message with the trimmed summary of the others stands before the last four, which stay as they are |
| Conversation.SummarisedExactly | apps/orchestrator/orchestrator/harness/sites/compaction.py:58-70 | The summarised transcript has one line, with the role, for each message that has text, in order |
| Conversation.MeasuredExactly | apps/orchestrator/orchestrator/harness/loop.py:111-126 | What the digest and the estimate see: the text of a plain message, the texts of a message's parts in turn, and nothing else |
| Conversation.LastExchangesGiven | apps/orchestrator/orchestrator/harness/loop.py:172-501 | Whatever was compacted, the model is always given its last two replies and their results word for word, and before its second reply the customer's message too |
| Conversation.WholeConversation | apps/orchestrator/orchestrator/harness/loop.py:485-501 | Until a first compaction it is given the whole conversation |
| NoProgress.NoProgressExact | apps/orchestrator/orchestrator/harness/loop.py:186-201 | Without compaction a run ends for lack of progress if and only if its last replies (as many as the threshold) were empty, no cap was reached at the last of them, and nothing was ever said |
| NoProgress.EmptyAtTheCap | apps/orchestrator/orchestrator/harness/sites/output.py:52-61 | A concrete turn whose replies are all empty and which still expires with another code: empty replies alone are not enough |
| SuspendedTurn.Store.Save | apps/orchestrator/orchestrator/harness/state.py:147-159 | The document of the turn replaces that of the same turn id and no other |
| SuspendedTurn.StoredNotLoaded | apps/orchestrator/orchestrator/harness/state.py:147-198 | The code, the digest and the streak are stored with the turn but not read back |
| SuspendedTurn.SuspendedRoundTrip | apps/orchestrator/orchestrator/harness/state.py:162-198 | A suspended turn of any run, stored and read back key by key, has its identifiers and every field but the progress digest and streak (the missing code is lossless), and every load of its thread finds it if and only if it is the newest suspended one |
| Pricing.WithinThree | packages/llm-router/llm_router/pricing.py:47-54 | The cost is never above the exact price and less than three paise below it |
| Pricing.Monotone | packages/llm-router/llm_router/pricing.py:47-54 | More input or output tokens never cost less |
| Pricing.CachingExact | packages/llm-router/llm_router/pricing.py:47-54 | Reading more of the input from the cache raises the cost by at most one paisa, and exactly when a stated condition on remainders holds |
| Pricing.CachingCanCostMore | packages/llm-router/llm_router/pricing.py:47-54 | A concrete prompt for which one more cached token costs a paisa more |
| Pricing.SplitCalls | packages/llm-router/llm_router/pricing.py:47-54 | The costs of n calls sum to at most the cost of their total and to less than 3n paise below its exact price |
| Router.ProviderChain | packages/llm-router/llm_router/router.py:283-292 | The loops build the default, the fallbacks and the global fallbacks without repetition |
| Router.ChainShape | packages/llm-router/llm_router/router.py:283-292 | Whatever the route, the default comes first, then the fallbacks and the global ones in their order, no provider twice, and every global fallback is there |
| Router.TryProviders | packages/llm-router/llm_router/router.py:156-180 | A call succeeds if and only if some provider of the chain answers within two attempts, and then the first such one answers |
| Router.BudgetStore.CheckBudget | packages/llm-router/llm_router/router.py:230-242 | Admitted exactly when there is no tenant, or today's live counter and the estimate fit the budget |
| Router.BudgetStore.RecordUsage | packages/llm-router/llm_router/router.py:255-260 | A tenant's counter of today grows by the cost and lives two more days; the others stay, and without a tenant all do |
| Router.BudgetBound | packages/llm-router/llm_router/router.py:230-260 | For every interleaving of checks, records, failures and clock ticks, across midnight too: each day's counter is the sum of its recorded costs, and with today's calls in flight it exceeds the budget by at most k·C plus that day's unchecked embeddings |
| Router.PlainDay | packages/llm-router/llm_router/router.py:146-154 | A day without embeddings keeps within budget + k·C, calls in flight included |
| Router.BoundAttained | packages/llm-router/llm_router/router.py:230-260 | For all k and C from 1 on there is a history without embeddings that spends exactly budget + k·C in a day: the bound cannot be lowered |
| Router.EmbeddingOverspends | packages/llm-router/llm_router/router.py:209-221 | One embedding can overspend a day by any amount |
| Router.PlainBoundExactly | packages/llm-router/llm_router/router.py:209-260 | Over all histories that embed for at most u a day, budget + k·C holds if and only if u is zero, or no call can cost anything and u fits the budget |
| PathTemplate.DecodeEncode | apps/orchestrator/orchestrator/tools/dispatcher.py:45-52 | Percent-decoding either encoding of a slot gives back the argument's bytes |
| PathTemplate.TemplateStructure | apps/orchestrator/orchestrator/tools/dispatcher.py:33-52 | The reserved characters of a templated path are those of the template's literal parts in order, and every slot decodes to its argument |
| PathTemplate.SubstitutedExactly | apps/orchestrator/orchestrator/tools/dispatcher.py:33-52 | What stands before the first placeholder is copied, the placeholder becomes a text that decodes to its argument (nothing for a missing one) and holds no reserved character, and the rest is templated in the same way |
| PathTemplate.PlaceholderExactly | apps/orchestrator/orchestrator/tools/dispatcher.py:33-33 | A placeholder is exactly an identifier in braces |
| PathTemplate.Utf8Exactly | apps/orchestrator/orchestrator/tools/dispatcher.py:45-52 | A character's bytes have the form of section 3 of RFC 3629 and hold its number |
| PathTemplate.ImplementationsAgree | apps/dashboard/app/api/api-tools/sandbox-test/route.ts:25-30 | The two implementations give the same path if and only if each slot's argument has none of `!'()*`, or is missing and not named like an inherited object property |
| Blueprints.Service.CreateBlueprint | apps/blueprint-service/blueprint_service/main.py:72-119 | The new version, the retired ones and the event are those of the history the results below are about |
| Blueprints.Service.MutateBlueprint | apps/blueprint-service/blueprint_service/main.py:131-192 | Not found exactly without a current version; nothing changes unless a version is returned; then it is the last row |
| Blueprints.HistoryIs | apps/blueprint-service/blueprint_service/main.py:72-192 | Under any serial requests the versions are 1..n with only n current, each event starts where the one before it ended and carries its row, and replaying the diffs from the latest full create rebuilds every content |
| Blueprints.RequestExactly | apps/blueprint-service/blueprint_service/main.py:72-192 | After any requests the current content is the last created one with the patches since, the failing ones left out; each request that does anything adds one row and one event and changes no earlier content, version, diff or event; any other changes nothing |
| BlueprintCache.Staleness | apps/orchestrator/orchestrator/common/blueprint_loader.py:31-59 | In every interleaving whose loads write, or raise, within d of their read, a version served at t was current at some instant of [t - 300 - d, t] |
| BlueprintCache.DeleteExact | apps/blueprint-service/blueprint_service/main.py:106 | After a delete every load serves the current version until the next commit if and only if no load that read an earlier one has yet to write its entry |
| BlueprintCache.StaleWriteServesLater | apps/orchestrator/orchestrator/common/blueprint_loader.py:54-58 | Such a write makes loads after it serve the earlier version |
| BlueprintCache.LateWriteHappens | apps/orchestrator/orchestrator/common/blueprint_loader.py:31-59 | A history from the start in which it happens: version 0 is served while version 1 is current |
| Window.Edge.ReceiveNote | apps/edge/src/channels/aisensy/adapter.ts:72-131 | The id is claimed before any filter; only a translated user message of a known project is logged and refreshes its window |
| Window.Edge.IsIdempotentlyNew | apps/edge/src/redis.ts:16-20 | True exactly when no live key was there, and then the key lives a day |
| Window.Edge.SendOnce | apps/edge/src/sender/sender.ts:23-71 | What is handed over, or that the message is dropped, is that of the specification `SendExactly` is about |
| Window.HeadersMeet | apps/edge/src/redis.ts:22-24 | Two accounts can share a window key, for some phone numbers, if and only if the key of one up to the phone begins with that of the other |
| Window.KeysApart | apps/edge/src/redis.ts:22-24 | Keys tell customers apart when tenant ids hold no colon and either no project id does or no phone number does |
| Window.KeysCollide | apps/edge/src/redis.ts:22-24 | Two different customers with one key, one with a plain phone number and one with a plain project id |
| Window.StoreByKey | apps/edge/src/channels/aisensy/adapter.ts:125-142 | In every run, with any ids at all, a window key exists if and only if someone with that key wrote less than 24 hours before; and no notification is processed twice within 24 hours |
| Window.ProcessedExactly | apps/edge/src/channels/aisensy/adapter.ts:72-131 | After any run a notification opens its customer's window exactly when it is a user's message under one of the two topics, its tenant is known and its content understood, and no notification with its id, whatever it held, claimed it within a day |
| Window.StoreRefinesLog | apps/edge/src/channels/aisensy/adapter.ts:125-142 | In every run about customers with keys of their own, a customer's key exists if and only if the full inbound log holds a message of that customer less than 24 hours old |
| Window.RefinesExactly | apps/edge/src/channels/aisensy/adapter.ts:125-142 | The store refines the log in all runs about some customers if and only if no two of them share a key |
| Window.WindowSafety | apps/edge/src/sender/sender.ts:41-59 | In every run about customers with keys of their own, each free-form message handed over under the check had at that moment an inbound of its customer less than 24 hours old |
| Window.SafeExactly | apps/edge/src/sender/sender.ts:41-59 | That holds in all runs about some customers if and only if none of a named tenant shares a key with another |
| Window.StrangerWrittenTo | apps/edge/src/sender/sender.ts:41-59 | A tenant whose project id holds a colon: a customer who never wrote is sent a free-form message under the check |
| Window.SendExactly | apps/edge/src/sender/sender.ts:41-59 | After any such run a checked free-form message goes out as it is if and only if its tenant is known and its customer wrote within 24 hours, else as the template, else not at all |
| Window.UncheckedSent | apps/edge/src/sender/sender.ts:35-59 | A template, or a message that asks for no check, goes out as it is |
| Lease.Daemon.RunForTenant | apps/daemon/daemon/main.py:65-81 | A run that finds a live lock does nothing; any other leaves no lock behind, also when a job raises, and counts the proposals of all jobs |
| Lease.TallyExactly | apps/daemon/daemon/main.py:65-81 | A run raises exactly when one of its jobs does, and else counts what all of them proposed |
| Lease.Exclusion | apps/daemon/daemon/main.py:65-81 | When no run outlives its lock, also when runs die without their delete, at most one is active at any time, the last included, and each delete removes the finishing run's own, still live lock |
| Lease.ExclusionExact | apps/daemon/daemon/main.py:65-81 | Over every history, the lock keeps a newcomer out at every moment if and only if no run ever outlives it |
| Lease.OverrunDeletesAnother | apps/daemon/daemon/main.py:79-79 | What an overrun costs: a second run gets in, the late delete takes its lock, a third follows |
| Lease.OverrunHappens | apps/daemon/daemon/main.py:65-81 | A valid history from the start in which all of that happens |

## Left out

- Prompt text, model providers, the databases, Redis itself, Kafka and HTTP: they answer through the
  oracles of `World` or through parameters. Only the main model call may fail; exceptions raised by
  compaction, critic, memory, dispatch or saving are not modelled.
- JSON: call arguments, approval payloads and swarm contexts stay trimmed source text (the empty text
  standing for the empty object), so the fallback to an empty object on malformed JSON is not modelled.
- The digest is the concatenated text instead of its SHA-256, so collisions do not exist.
- Timestamps, durations, provider names and the separate token counts of journal records; the payload
  of the output, critic and permission entries is kept only as far as the results speak of it.
- What the critic and the sub-agents are shown: their answers are any text. The summary is any text
  too, given the transcript.
- The writes of `<remember>`, the escalation capability call and the lists of thoughts and plans: no
  later step of a turn reads them.
- Which non-ASCII characters count as word characters is a parameter of the parser; the regular
  expressions are modelled as matchers, their engine is not.
- A tenant tool whose stored risk override is not one of the four levels makes the gate raise; only
  valid overrides are modelled, and one snapshot of the tenant's tools is used per iteration.
- Runs.GateSafety: about the calls of the reply; the escalation capability that the loop invokes itself
  is outside the gate in the source too.
- Dispatch.GuardedAlways: for one snapshot of the tenant's tools, a turn whose caps let it act at least
  once, and built-in names that can be written into a tag, as all of the source's can.
- NoProgress.NoProgressExact: assumes that no iteration compacts, because a summary may repeat the digest.
- SuspendedTurn.SuspendedRoundTrip: the stored form of buttons and items as lists instead of tuples, and
  which of two turns with equal start times is loaded, are not modelled.
- Router.BudgetBound: one check and one record are single steps, and a call that is admitted records
  once or never; a retry after a failed record could charge it twice.
- Router.TryProviders: waiting times between attempts and the model chosen for the estimate are not modelled.
- Pricing.SplitCalls: needs cached tokens within the input of each call, as providers report them.
- PathTemplate.ImplementationsAgree: string arguments only; other values are turned into text by each
  language's own rules (a missing value as `None` in one, as the empty text in the other). Body
  templates and joining with the base URL are not modelled.
- Blueprints.HistoryIs: one tenant, requests one after another, each an atomic transaction; patch
  application is an arbitrary partial function. Row-level security and concurrent transactions are not modelled.
- BlueprintCache.DeleteExact: the cache holds one tenant's entry; contents are represented by their version.
- Window.SendExactly: the credential, project and template lookups and the translation of the content are
  parameters of each step, and a key is gone at the instant its lifetime ends. Eviction and an id that is
  claimed by a delivery which then crashes are not modelled.
- Lease.Daemon.RunForTenant: the method is a run that nothing interleaves with; interleavings are the
  state machine of `Lease.Exclusion` and `Lease.ExclusionExact`.
- The other channel adapters, signature checks, secrets, sessions, dashboard pages, crawling and
  integrations: input and output plumbing, or finite tables that would only add easy members.
