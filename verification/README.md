# Communications agent core, in Dafny

A model of the decision and transformation logic of a document-collection
communications agent. The agent talks to a case-management backend for a legal
or accounting practice. It looks cases up by client name, creates cases with the
documents to request, composes and sends reminder e-mails from markdown
templates, keeps per-case context between turns, budgets the conversation
context it hands to the language model, and streams workflow events to a
frontend.

Each backend read is a parameter of the function that uses it: message counts,
summaries, history, case searches, case records, template file contents and
the replies of create, update and send calls. A read that raised is a `Failure`
(`Wrappers.Result`). What a tool returns as JSON is a datatype here. An
exception that escapes a tool is a `Failure` carrying the tool's error text.
The model is purely functional. Even the stream registry is a sequential state
machine over immutable maps.

Modules, one per source file (plus shared helpers):

- `Wrappers`: `Option`, `Result`, and `Need`, which models Python's `KeyError` on a missing key.
- `Text`: models of `str.strip` and `\s+` collapsing (full Python whitespace set), ASCII `lower` and `title`, `replace`, `split` and `join`.
- `Json`: JSON values with Python truthiness and `str()`.
- `TokenManager`: summarisation trigger, content compression, token estimate, health score.
- `AgentStateManager`: session start, context merge, lexical extraction of context keys, the store rule.
- `Ranking`, `CaseLookup`: name normalisation, similarity, the stable ranking, the confidence and clarification decision.
- `Streaming`, `StreamingCoordinator`: event variants, per-workflow state, and the registry of bounded FIFO queues. Each consumer keeps the queue it was created with, and the registry maps each registered workflow to its current queue.
- `PromptLoader`: `load_prompt` and the line-oriented template parser.
- `CaseCreator`, `EmailTool`, `EmailComposer`, `DocumentManager`, `CaseVerification`: the agent's tools.

## Model

| member | source | states |
|---|---|---|
| Wrappers.Need | src/tools/email_tool.py:26 | indexing a missing key fails with the quoted key name as the error text; a present key yields its value |
| TokenManager.SummaryPlan | src/services/token_manager.py:55-57 | messages kept is min(10, n/3); the summarised count is at least the threshold and at least the messages not kept, and equal to one of the two; it exceeds n exactly when n is below the threshold |
| TokenManager.OptimizeConversationContext | src/services/token_manager.py:39-84 | a failed count read reports action "error"; without force and at most the window nothing happens (action "none", 0 tokens saved, no summary); otherwise the backend is asked for the planned count and its summary id and tokens saved (default 0) are reported |
| TokenManager.SummarizesIff | src/services/token_manager.py:50-52 | a summary is created if and only if it is forced or the count exceeds the window |
| TokenManager.ForcedSummaryOverreaches | src/services/token_manager.py:50-57 | with the default configuration, forcing a summary of fewer than 15 messages requests more messages than exist |
| TokenManager.CompressText | src/services/token_manager.py:149-154 | a text of at most 300 characters is kept; a longer one becomes its first 300 characters plus "..." (at most 303); a non-string value raises unless it is a short container |
| TokenManager.CompressOther | src/services/token_manager.py:164-170 | a container whose str() is longer than 100 becomes its first 100 characters plus "..."; a shorter container is dropped; a scalar passes unchanged |
| TokenManager.CompressFields | src/services/token_manager.py:156-170 | the seven preserved keys are copied verbatim; every other key except "text" is kept as CompressOther decides; no key is invented |
| TokenManager.CompressMessageContent | src/services/token_manager.py:141-172 | non-dict content becomes the single key "text" holding str() cut to 200 characters plus "..." (at most 203); dict content fails exactly when its "text" entry cannot be compressed, and is otherwise the compressed text plus CompressFields |
| TokenManager.CompressTextIdempotent | src/services/token_manager.py:149-154 | compressing an already compressed text changes nothing |
| TokenManager.CompressFieldsIdempotent | src/services/token_manager.py:156-170 | compressing the compressed metadata again changes nothing |
| TokenManager.CompressIdempotent | src/services/token_manager.py:141-172 | compress(compress(c)) == compress(c) for every content that compresses |
| TokenManager.CompressMessages | src/services/token_manager.py:120-129 | the list compresses exactly when every message does; the result has one entry per message, in order |
| TokenManager.PrepareContextForAgent | src/services/token_manager.py:86-135 | the summary is included exactly when the read returned a record with content and a count; recent messages are included exactly when history is non-empty and every message compresses, each keeping its role |
| TokenManager.EstimateTokenUsage | src/services/token_manager.py:174-226 | 0 tokens without context; with a summary, min(10, n)*150 plus the summary's tokens; otherwise min(n, 20)*150 (at most 3000); the optimisation potential is the non-negative shortfall from n*150 |
| TokenManager.HealthScore | src/services/token_manager.py:244-279 | the score lies in [3, 11], and in [3, 10] whenever the window is at most 20 |
| TokenManager.HealthStatus | src/services/token_manager.py:281-287 | "healthy" if and only if the score is at least 8, "warning" if and only if it is 6 or 7, "needs_attention" if and only if it is below 6 |
| TokenManager.HealthScoreMonotone | src/services/token_manager.py:249-279 | with the default window, a longer conversation never scores higher, for the same summary and token estimate |
| TokenManager.CheckConversationHealth | src/services/token_manager.py:232-291 | fails exactly when the count read fails; the score and status follow the deduction table on the embedded estimate; has_summary holds if and only if the count exceeds 20 and a summary exists; an estimate above 3000 implies a summary exists |
| AgentStateManager.StartAgentSession | src/services/agent_state_manager.py:31-76 | the conversation is keyed by the case id, or by "general" when it is absent or empty; exactly one user message with type "user_input" and session_start true is appended; stored context is read only for a present case id, and a failed read yields {} |
| AgentStateManager.PrepareAgentContext | src/services/agent_state_manager.py:100-165 | case context is included only when the stored context is non-empty; the style defaults to "professional" and the e-mail count to 0; the summary and recent messages are copied when present; a non-dict stored preference or history entry leaves only the conversation id and agent type |
| AgentStateManager.SessionThenContext | src/services/agent_state_manager.py:63-140 | the context prepared from a started session's (conversation id, existing context) pair names that conversation; with no case or a failed context read it has no case context, preferences or e-mail activity; otherwise it is minimal exactly when a stored preferences or history entry is not a dict, and carries the stored context when that is non-empty |
| AgentStateManager.AnalyzeInteraction | src/services/agent_state_manager.py:196-244 | each of the four keys is present if and only if one of its trigger phrases occurs in the lower-cased reply; the style is "formal" if and only if "formal" or "professional" occurs, else "casual"; the e-mail count is 1 and the type is "reminder" if and only if "reminder" occurs, else "general"; the description is the reply cut to 200 characters plus "..."; the feedback is its first 300 characters and needs follow-up if and only if "follow up" occurs |
| AgentStateManager.ClientContactedRecordsEmail | src/services/agent_state_manager.py:215-233 | a reply mentioning "client contacted" records both case progress and e-mail history |
| AgentStateManager.Entries | src/services/agent_state_manager.py:202-244 | at most four entries with distinct keys, all from the four context keys |
| AgentStateManager.EntriesPresent | src/services/agent_state_manager.py:202-244 | each context key is stored if and only if the matching finding exists |
| AgentStateManager.AttemptStores | src/services/agent_state_manager.py:182-194 | one store per entry in order, carrying the case, agent type, key and value; no store follows a failing one, and the stores stop only after the last entry or at the first failing store; if no store fails, every entry is stored |
| AgentStateManager.StoreInteractionResults | src/services/agent_state_manager.py:167-194 | nothing is stored for an absent, empty or "general" case id; otherwise the extracted entries are stored in order, each request carrying the case id, agent type, key and value, stopping after the last entry or at the first failing store |
| Ranking.RankByScore | src/tools/case_lookup.py:131-132 | the result is sorted by non-increasing score and is a permutation of the input |
| Ranking.RankByScoreStable | src/tools/case_lookup.py:131-132 | items with equal scores keep their input order |
| Ranking.Annotate | src/tools/case_lookup.py:123-129 | one scored item per case, in order, carrying its own score |
| Ranking.RankedAnnotations | src/tools/case_lookup.py:123-132 | every ranked item is one of the inputs carrying its own score |
| CaseLookup.NormalizeName | src/tools/case_lookup.py:86-90 | the result has no outer whitespace and no whitespace runs, is title-cased, is empty exactly when the input is blank, and differs from the stripped, collapsed input only in letter case |
| CaseLookup.NormalizeNameIdempotent | src/tools/case_lookup.py:86-90 | normalising a normalised name changes nothing |
| CaseLookup.Similarity | src/tools/case_lookup.py:145-160 | 1.0 when the lower-cased, stripped names are equal; 0.9 when one contains the other; otherwise the sequence-matcher ratio |
| CaseLookup.SimilarityBounds | src/tools/case_lookup.py:145-160 | for a ratio in [0, 1] that is 1 only on equal strings, the similarity is in [0, 1] and is 1 if and only if the keys are equal |
| CaseLookup.EmptySearchSimilarity | src/tools/case_lookup.py:155-157 | an empty search name scores at least 0.9 against every name |
| CaseLookup.ClarificationStrategy | src/tools/case_lookup.py:162-201 | the name questions are chosen if and only if more than one match has similarity above 0.7; the contact questions if and only if not and some match has an e-mail and some has a phone; otherwise the generic questions; always 3 questions; the message counts all matches |
| CaseLookup.SingleConfidence | src/tools/case_lookup.py:99-120 | 100 if and only if the similarity is at least 0.9, 85 if and only if it is in [0.7, 0.9), 70 if and only if it is below 0.7 |
| CaseLookup.Ranked | src/tools/case_lookup.py:123-132 | the ranking is a reordering of the cases each annotated with its similarity, sorted by non-increasing similarity |
| CaseLookup.RankedEntries | src/tools/case_lookup.py:123-132 | each ranked entry is a searched case carrying its own similarity |
| CaseLookup.TopMatches | src/tools/case_lookup.py:140 | the first min(5, n) ranked entries, still sorted |
| CaseLookup.AnalyzeConfidence | src/tools/case_lookup.py:92-143 | no cases gives no match with confidence 0; exactly one gives proceed with that case at its single confidence; two or more give clarify at 40 with the top five ranked matches and the strategy computed over all of them |
| CaseLookup.Lookup | src/tools/case_lookup.py:23-84 | closed cases are searched if and only if no open case matched; one open case proceeds; several ask for clarification with at most 5 matches and 3 questions; otherwise up to 5 closed cases are offered, or a new case is suggested when there are none |
| Streaming.ParseTag | src/models/streaming.py:10-19 | a parsed wire value is the tag of the kind it yields |
| Streaming.ParseTagRoundTrip | src/models/streaming.py:10-19 | every kind's tag parses back to that kind |
| Streaming.TagInjective | src/models/streaming.py:10-19 | distinct kinds have distinct tags |
| Streaming.TypeTagIdentifiesVariant | src/models/streaming.py:34-97 | two events with the same type tag are the same variant |
| Streaming.NewWorkflowStarted | src/models/streaming.py:34-38 | tag "workflow_started" and agent type "CommunicationsAgent" by default |
| Streaming.NewToolEnd | src/models/streaming.py:59-66 | tag "tool_end", success true by default, no output, error or time |
| Streaming.NewHeartbeat | src/models/streaming.py:94-97 | tag "heartbeat" with status "processing" by default |
| Streaming.NewState | src/models/streaming.py:113-121 | a fresh state is active with zero counters and no tools |
| Streaming.IncrementStep | src/models/streaming.py:123-127 | the step counter rises by exactly one, the new value is returned, and only activity time changes besides |
| Streaming.AddTool | src/models/streaming.py:129-132 | an unseen name is appended, a seen one changes nothing, and a duplicate-free list stays duplicate-free |
| Streaming.AddToolIdempotent | src/models/streaming.py:129-132 | adding the same tool twice is adding it once |
| Streaming.AddToolsFirstUse | src/models/streaming.py:129-132 | recording tool uses keeps the earlier list as a prefix, adds exactly the new names, never duplicates one, and leaves the counters alone |
| Streaming.MarkActivity | src/models/streaming.py:134-137 | the event count rises by exactly one and only the activity time changes besides |
| StreamingCoordinator.NewRegistry | src/services/streaming_coordinator.py:22-29 | an empty, valid registry with queue bound 1000 and heartbeat interval 30 |
| StreamingCoordinator.Emit | src/services/streaming_coordinator.py:116-138 | returns false if and only if the workflow is unregistered or its queue is full, changing nothing; otherwise the event is appended at the tail of that workflow's queue, no registration changes and only that workflow's state is marked active; validity (equal key sets, one queue per workflow, bounded queues) is preserved |
| StreamingCoordinator.Terminate | src/services/streaming_coordinator.py:179-187 | the termination signal is appended only to a registered queue with room; otherwise nothing changes |
| StreamingCoordinator.Cleanup | src/services/streaming_coordinator.py:189-198 | the workflow leaves both maps of registered workflows, every other entry is untouched, and every queue keeps its contents |
| StreamingCoordinator.ActiveCount | src/services/streaming_coordinator.py:244-246 | the count is zero exactly when no workflow is registered |
| StreamingCoordinator.IsActive | src/services/streaming_coordinator.py:248-250 | an active workflow means the active count is positive |
| StreamingCoordinator.ActiveAfterCreate | src/services/streaming_coordinator.py:51-77 | a created stream is active; registering a new id adds one to the count; other workflows' activity is unchanged |
| StreamingCoordinator.ActiveAfterCleanup | src/services/streaming_coordinator.py:189-198 | a cleaned-up workflow is inactive; cleaning up an active one takes one off the count; other workflows' activity is unchanged |
| StreamingCoordinator.CleanupIdempotent | src/services/streaming_coordinator.py:189-198 | cleaning up twice is cleaning up once, and emitting afterwards returns false |
| StreamingCoordinator.CreateStream | src/services/streaming_coordinator.py:51-77 | a registered id changes nothing and gets no consumer; a new id is registered with a fresh queue whose only element is its WorkflowStarted event and a fresh state with one event, and the consumer holds that queue; validity is preserved |
| StreamingCoordinator.ReRegisterKeepsOldQueue | src/services/streaming_coordinator.py:53-67 | registering again under an id that was cleaned up gives the new consumer a different queue and leaves an earlier consumer's queue untouched |
| StreamingCoordinator.ConsumeOne | src/services/streaming_coordinator.py:79-114 | one turn on the consumer's own queue: a queued event is yielded in FIFO order; the termination signal ends the stream and cleans the id up; an empty queue ends the stream only when the id is no longer registered, and otherwise waits |
| StreamingCoordinator.ConsumeIgnoresRegistry | src/services/streaming_coordinator.py:84-98 | while the consumer's queue is not empty, whether its workflow is still registered does not change what it pulls next |
| StreamingCoordinator.Drain | src/services/streaming_coordinator.py:80-114 | running the consumer until it ends or must wait yields exactly the events before the first termination signal of its queue; it ends if and only if the queue holds a signal or the workflow is no longer registered, and an ended stream is cleaned up |
| StreamingCoordinator.ConsumerKeepsQueue | src/services/streaming_coordinator.py:84-98 | cleanup, the inactivity sweep, the intended stop and a new registration under the same id lose none of the events queued for an existing consumer (stop as written never gets that far, see Findings) |
| StreamingCoordinator.CompleteWorkflow | src/services/streaming_coordinator.py:140-160 | the completion event is emitted before the termination signal; with room for both, they are the last two entries of the workflow's queue and no registration changes |
| StreamingCoordinator.CompletionEvent | src/services/streaming_coordinator.py:143-154 | the completion reports the state's step counter and tool list, or 0 and [] for an unknown workflow |
| StreamingCoordinator.CompletionReportsNothing | src/services/streaming_coordinator.py:143-145 | since the coordinator never advances the counters, every completion reports 0 steps and no tools |
| StreamingCoordinator.ErrorWorkflow | src/services/streaming_coordinator.py:162-177 | the error event, with no recovery suggestion, is emitted before the termination signal; with room for both, they are the last two entries of the workflow's queue |
| StreamingCoordinator.EmitThenTerminate | src/services/streaming_coordinator.py:155-159 | with room for two entries, an event followed by the termination signal become the queue's last two entries |
| StreamingCoordinator.EmitAllAppends | src/services/streaming_coordinator.py:116-138 | with room, emitting a sequence appends every event in order |
| StreamingCoordinator.DeliveredLifecycle | src/services/streaming_coordinator.py:80-93 | draining start, events, completion and the signal yields exactly start, events and completion |
| StreamingCoordinator.LifecycleQueue | src/services/streaming_coordinator.py:51-160 | after registering, emitting and completing, the consumer's queue holds the start event, the events, the completion and the signal, in order |
| StreamingCoordinator.StreamLifecycle | src/services/streaming_coordinator.py:51-160 | the consumer of a fresh workflow yields the start event, the emitted events in order and the completion event, then ends and leaves the workflow cleaned up |
| StreamingCoordinator.SweepInactive | src/services/streaming_coordinator.py:200-222 | exactly the workflows idle for more than an hour are removed from both maps; the rest are untouched, and queued events stay with their consumers |
| StreamingCoordinator.HeartbeatRound | src/services/streaming_coordinator.py:224-242 | heartbeats register or remove no workflow and preserve validity |
| StreamingCoordinator.HeartbeatRoundEffect | src/services/streaming_coordinator.py:230-237 | over a list naming each workflow at most once, every listed registered workflow with room gets exactly one heartbeat for itself at its queue tail and its activity marked; full queues, other queues and other states are unchanged, and unregistered ids change nothing |
| StreamingCoordinator.HeartbeatAllActive | src/services/streaming_coordinator.py:230-237 | listing exactly the registered workflows, every active stream with room gets one heartbeat and a consumer whose workflow is no longer registered gets none |
| StreamingCoordinator.Stop | src/services/streaming_coordinator.py:37-49 | the intended stop: afterwards no stream is active and no state remains; queued events stay with their consumers |
| StreamingCoordinator.AcquireLock | src/services/streaming_coordinator.py:45 | taking the lock succeeds exactly when the task does not already hold it |
| StreamingCoordinator.CleanupLocked | src/services/streaming_coordinator.py:189-197 | `_cleanup_stream` returns, with the effect of `Cleanup`, exactly when its caller does not already hold the lock |
| StreamingCoordinator.StopLoopAsWritten | src/services/streaming_coordinator.py:46-47 | the cleanup loop finishes exactly when there is nothing to clean up or the lock is not held |
| StreamingCoordinator.StopAsWritten | src/services/streaming_coordinator.py:37-49 | stop as written returns exactly when no stream is registered, and then has the intended effect |
| StreamingCoordinator.StopHangs | src/services/streaming_coordinator.py:45-47 | with one registered workflow, stop as written never returns while the intended stop leaves no stream |
| PromptLoader.LoadPrompt | src/services/prompt_loader.py:8-22 | each outcome (loaded, empty, missing, undecodable, unreadable) holds if and only if the read had the matching kind; a loaded prompt is non-empty, stripped and the read text with only whitespace around it |
| PromptLoader.HeaderName | src/services/prompt_loader.py:43 | a template key has no space, no hyphen and no upper-case letter |
| PromptLoader.HeaderNameOfWord | src/services/prompt_loader.py:37-43 | "## W Template" is a header and its key is W lower-cased with hyphens turned into underscores |
| PromptLoader.FieldValue | src/services/prompt_loader.py:49-59 | a subject or tone value has no outer whitespace |
| PromptLoader.SaveBody | src/services/prompt_loader.py:38-40 | when the current template is named and at least one body line was collected, its body becomes the stripped newline-join of those lines and its subject and tone are kept; no other template changes, and otherwise nothing changes |
| PromptLoader.BodyTextClean | src/services/prompt_loader.py:62-67 | a saved body is non-empty, stripped, and has no empty line |
| PromptLoader.JoinNoEmptyLine | src/services/prompt_loader.py:62-67 | joining non-empty collected lines with newlines puts no empty line in between |
| PromptLoader.Step | src/services/prompt_loader.py:36-63 | a header starts a fresh empty template under its key, which becomes current, with the body emptied and closed; any other line keeps the keys and the current template |
| PromptLoader.HeaderStep | src/services/prompt_loader.py:37-47 | a header saves the pending body, then stores an empty template under its key; every other stored template is kept |
| PromptLoader.SubjectStep | src/services/prompt_loader.py:49-51 | a subject line under a named template sets that template's subject to the stripped remainder, and changes nothing else |
| PromptLoader.MarkerStep | src/services/prompt_loader.py:53-55 | the body marker under a named template opens an empty body and records nothing |
| PromptLoader.ToneStep | src/services/prompt_loader.py:57-60 | a tone line under a named template sets its tone to the stripped remainder and closes the body, whose lines stay collected |
| PromptLoader.OtherStep | src/services/prompt_loader.py:62-63 | any other line records nothing: in an open body a non-blank line not starting with three backticks is appended, otherwise the line is ignored |
| PromptLoader.StepClean | src/services/prompt_loader.py:36-63 | one line keeps every stored template clean |
| PromptLoader.RunKeys | src/services/prompt_loader.py:36-47 | the keys after parsing are the keys before plus one per header line |
| PromptLoader.RunClean | src/services/prompt_loader.py:36-67 | parsing lines without newlines keeps every stored template clean |
| PromptLoader.Finish | src/services/prompt_loader.py:65-72 | the last body is saved; when "initial_reminder" exists, "initial_document_request" and "initial_contact" are bound to it |
| PromptLoader.ParseTemplates | src/services/prompt_loader.py:25-74 | the keys are the header names plus the two aliases when "initial_reminder" is among them; aliases equal the primary; every subject and tone is stripped and every body is non-empty, stripped and has no empty line |
| PromptLoader.RunBody | src/services/prompt_loader.py:62-63 | inside an open body, body-text lines are collected in order and nothing else changes |
| PromptLoader.BlockParsed | src/services/prompt_loader.py:36-63 | a header, its subject line, the body marker, body lines and its tone line store the subject and tone under the header's key, keep the other saved templates, and leave the body lines collected for the next save |
| PromptLoader.TemplateFileParsed | src/services/prompt_loader.py:25-74 | a file holding one complete block parses to exactly one template with that subject, body and tone under the header's key, and under the two aliases too when the key is "initial_reminder" |
| PromptLoader.PrimaryHeader | src/services/prompt_loader.py:43 | the header "## Initial-Reminder Template" has the key "initial_reminder" |
| PromptLoader.LoadEmailTemplates | src/services/prompt_loader.py:25-27 | templates are parsed if and only if the template file loads; otherwise the load error is returned |
| CaseCreator.StripNonBlank | src/tools/case_creator.py:39 | every kept piece is non-empty and stripped |
| CaseCreator.StripNonBlankMembers | src/tools/case_creator.py:39 | a name is kept exactly when it is non-empty and is the strip of some piece |
| CaseCreator.StripNonBlankAppend | src/tools/case_creator.py:39 | pieces are filtered one by one: the kept names of a concatenation are the concatenation of the kept names, so order is preserved |
| CaseCreator.StripNonBlankSingle | src/tools/case_creator.py:43 | one piece gives its stripped text, or nothing when that is empty |
| CaseCreator.StripNonBlankIdempotent | src/tools/case_creator.py:39 | stripping and filtering twice is doing it once |
| CaseCreator.PiecesFree | src/tools/case_creator.py:39 | no piece of a document string contains a comma, semicolon or newline |
| CaseCreator.ParseDocuments | src/tools/case_creator.py:36-43 | every parsed name is non-empty and stripped; a name is parsed exactly when it is the non-empty strip of a comma/semicolon/newline piece of a string, of the text of a list element, or of a scalar's text; names from a string contain no delimiter; a list gives at most one name per element; a scalar gives at most one name |
| CaseCreator.ParseJoinRoundTrip | src/tools/case_creator.py:37-39 | parsing names written as "a, b, c" gives exactly those names, for any names that are non-empty, stripped and free of delimiters |
| CaseCreator.ParseExample | test_case_creation_fix.py:113-126 | "W2, Tax Return, Bank Statement" parses to ["W2", "Tax Return", "Bank Statement"] |
| CaseCreator.Requested | src/tools/case_creator.py:49-55 | one requested document per name, described as "Required document: " + name |
| CaseCreator.RequestedNames | src/tools/case_creator.py:49-55 | the requested documents name exactly the parsed names, in order |
| CaseCreator.Bullets | src/tools/case_creator.py:82 | one "• name" line per document, in order |
| CaseCreator.DocListLines | src/tools/case_creator.py:82 | splitting the e-mail's document list on newlines gives back exactly one bullet per name |
| CaseCreator.Validate | src/tools/case_creator.py:26-47 | a missing client name, then e-mail, then document list is rejected with the tool's error texts in that order; validation succeeds if and only if all three are present and at least one document name parses |
| CaseCreator.EmptyDocumentsRejected | src/tools/case_creator.py:45-47 | an empty document string is rejected with the "At least one document" error |
| CaseCreator.ChooseTemplate | src/tools/case_creator.py:77-80 | the initial-reminder template is used, else the initial-contact one; an empty template counts as none |
| CaseCreator.InitialEmail | src/tools/case_creator.py:81-97 | the e-mail goes to the client's address for the new case with type "initial_contact"; subject and body are the templates filled with the client name and the bullet list; with both templates present and both fills succeeding, the e-mail is built |
| CaseCreator.CreateCase | src/tools/case_creator.py:23-131 | every failure is prefixed "Case creation failed: "; an invalid input fails with its validation error; on success the backend received one requested document per parsed name, and an e-mail was sent if and only if a template was found; when it was, `send` received the `InitialEmail` of the chosen template and the reported message id is its reply; valid input, a successful create and, when a template was found, a built and delivered e-mail make the tool succeed |
| CaseCreator.CreateAndNotify | src/tools/case_creator.py:24-126 | the steps before the error prefix is added: validation errors pass through; a created case reports the payload sent and whether the e-mail went out; a sent e-mail is the chosen template's `InitialEmail`, and its reply is the reported message id; the same conditions as `CreateCase` make it succeed |
| Json.StrJoin | src/tools/email_tool.py:84 | `', '.join` succeeds if and only if every item is a string, giving the items joined; otherwise it fails with Python's `TypeError` text naming the first non-string item and its type |
| Json.StrJoinFails | src/tools/email_tool.py:84 | joining fails exactly when some item is not a string |
| Json.FirstNonStr | src/tools/email_tool.py:84 | the index returned holds a non-string and every earlier item is a string |
| EmailTool.NormalizeEmailType | src/tools/email_tool.py:26-35 | each alias maps to its canonical type, a missing type defaults to "initial_reminder", and any other type is unchanged |
| EmailTool.CanonicalNotAlias | src/tools/email_tool.py:29-35 | no canonical type is itself an alias |
| EmailTool.NormalizeIdempotent | src/tools/email_tool.py:29-35 | normalising a normalised type changes nothing |
| EmailTool.Bullet | src/tools/email_tool.py:60-77 | a pending document's line is "• name", plus " - description" exactly when the description is non-empty and not the generated default |
| EmailTool.Pending | src/tools/email_tool.py:59-77 | a document is pending exactly when it is in the list and not completed |
| EmailTool.PendingSingle | src/tools/email_tool.py:62-67 | a single document is kept exactly when it is not completed |
| EmailTool.PendingAppend | src/tools/email_tool.py:59-77 | the filter distributes over concatenation, so pending documents keep their order and appear once each |
| EmailTool.PendingCompletedPartition | src/tools/email_tool.py:59-77 | pending and completed documents together number exactly the documents |
| EmailTool.NoneCompletedAllPending | src/tools/email_tool.py:59-77 | with nothing completed, every document is pending, in order |
| EmailTool.AllCompletedNonePending | src/tools/email_tool.py:59-77 | with everything completed, nothing is pending |
| EmailTool.CompletedNamesMembers | src/tools/email_tool.py:59-66 | a value is a completed name if and only if some completed document carries it as `document_name` (or it is "Unknown Document" for one without) |
| EmailTool.CompletedNamesCover | src/tools/email_tool.py:65-66 | every completed document contributes its name |
| EmailTool.Lines | src/tools/email_tool.py:59-77 | exactly one bullet line per pending document, in order, each the document's `Bullet` (name, then " - " and the description when there is one) |
| EmailTool.ToolDocList | src/tools/email_tool.py:52-89 | "No specific documents listed" if and only if there are no documents; a follow-up or urgent e-mail with completed documents appends the thank-you line with the completed names comma-joined, and fails with the join's error when one of them is not a string; otherwise the pending bullets, newline-joined |
| EmailTool.NotNoDocuments | src/tools/email_tool.py:52-89 | a non-empty document list never yields the placeholder text |
| EmailTool.ThankYouIff | src/tools/email_tool.py:80-84 | the list succeeds with the thank-you line if and only if the type is follow-up or urgent, some document is completed, and every completed name is a string |
| EmailTool.ToolDocListFails | src/tools/email_tool.py:80-84 | the document list fails if and only if the type is follow-up or urgent and some completed name is not a string |
| EmailTool.AllCompletedInitialEmpty | src/tools/email_tool.py:85-87 | an initial e-mail for a case whose documents are all completed gets an empty document list, without failing |
| EmailTool.ComposeEmail | src/tools/email_tool.py:41-104 | a type without a template fails; a document list that fails makes the e-mail fail with its error; otherwise the e-mail goes to the client with the type and case id, and its subject fills the subject template with the client name and its body fills the body template with the client name and the document list under the key "requested_documents"; a type with both templates, a present client name and e-mail, a successful document list and two successful fills make it succeed |
| EmailTool.ComposeAndSend | src/tools/email_tool.py:23-129 | every failure is prefixed "Email composition and sending failed: "; a missing case id or a type absent from the templates fails; success reports the case id and the normalised type, and means the case was fetched, the e-mail `ComposeEmail` builds from it was handed to `send`, and the reported message id, recipient and subject are that delivery's and that e-mail's; conversely a fetched case, a composed e-mail and a delivery carrying both ids make it succeed |
| EmailTool.SendSteps | src/tools/email_tool.py:24-125 | the steps before the error prefix is added, with the same outcomes: success means the composed e-mail was sent and its delivery's message id and recipient are reported, and those conditions make it succeed |
| EmailComposer.RecordNames | src/tools/email_composer.py:58 | succeeds if and only if every entry is a dict with a document name, giving the names in order |
| EmailComposer.PlainLines | src/tools/email_composer.py:61 | one "• entry" line per entry, in order |
| EmailComposer.ComposerDocList | src/tools/email_composer.py:54-63 | no documents gives "No specific documents listed"; a dict first entry selects the name bullets, which fail if some entry is not a dict with a name; otherwise every entry's str() is bulleted |
| EmailComposer.PlainDocListLines | src/tools/email_composer.py:60-61 | the plain list splits back into exactly one bullet per entry |
| EmailComposer.RecordDocListLines | src/tools/email_composer.py:56-58 | the dict list splits back into exactly one bullet per document name |
| EmailComposer.HtmlBody | src/tools/email_composer.py:75 | the HTML body contains no newline and is the body's lines joined with "<br>" |
| EmailComposer.ResolvedType | src/tools/email_composer.py:26-49 | the normalised type when it has a template, otherwise "initial_reminder" |
| EmailComposer.ResolvedTypeAvailable | src/tools/email_composer.py:47-51 | when the initial reminder has a template, the resolved type always has one |
| EmailComposer.ComposeEmail | src/tools/email_composer.py:22-87 | every failure is prefixed "Email composition failed: "; a missing case id fails; success reports the case id, the resolved type, which has a template, and an HTML body that is the body with newlines as "<br>"; the recipient is the client's e-mail, and subject and body are the resolved template's filled by `format` with the client name and the composer's document list; a fetched case whose resolved type has both templates, a successful document list, a client name and e-mail and two successful fills make it succeed |
| EmailComposer.ComposeSteps | src/tools/email_composer.py:23-83 | the steps before the error prefix is added, with the same outcomes, including the recipient, the filled subject and body and the conditions for success |
| DocumentManager.Updates | src/tools/document_manager.py:29-40 | the update is the input restricted to the five allowed fields, with values copied, and never includes "requested_doc_id" |
| DocumentManager.UpdatesWhole | src/tools/document_manager.py:29-40 | an input holding only allowed fields is sent whole |
| DocumentManager.UpdateDocumentStatus | src/tools/document_manager.py:24-58 | a missing "requested_doc_id" fails with its key error; every failure is prefixed "Document update failed: "; success reports the id and the allowed fields that were sent; with the id present, the tool succeeds exactly when the update does, and otherwise carries the update's error after the prefix |
| DocumentManager.CountFlag | src/tools/document_manager.py:77-78 | a count of flagged documents is at most the number of documents |
| DocumentManager.CountFlagCardinality | src/tools/document_manager.py:77-78 | the count is the number of positions whose flag is truthy, a missing flag counting as false |
| DocumentManager.CountFlagIndependent | src/tools/document_manager.py:77-78 | changing another field of a document leaves a flag count unchanged, so the completed and flagged counts are independent |
| DocumentManager.Summarize | src/tools/document_manager.py:75-89 | total is the list length; completed and flagged are the numbers of documents with those flags, each at most total; pending is total minus completed |
| DocumentManager.GetDocumentStatus | src/tools/document_manager.py:68-100 | fails, with the tool's prefix, exactly when the case read fails or its `requested_documents` is null (with the `len(None)` error); otherwise reports the case's client fields, documents and their summary |
| DocumentManager.GetPendingReminders | src/tools/document_manager.py:110-127 | the number of cases needing reminders is the length of the pending list, which is reported unchanged; a failed read gets the tool's prefix |
| CaseVerification.Counts | src/tools/case_verification.py:39-58 | total is the list length and completed agrees with the document-status summary; pending is total minus completed and never negative; the rate shows "0%" if and only if there are no documents |
| CaseVerification.VerifyCase | src/tools/case_verification.py:19-73 | the status is "failed" if and only if the case read fails or its document list is null, with the "Could not verify case" message; otherwise an absent phone shows "Not provided", an absent last communication shows "No previous communications", and the counts are those of the case's documents |
| CaseVerification.RequestClarification | src/tools/case_verification.py:85-93 | the question is echoed verbatim, with action "request_clarification" and status "waiting_for_user_input" |

## Left out

- `StreamingCoordinator.Stop`: the source's `stop` never returns while any stream is registered, because it awaits `_cleanup_stream` while holding the non-re-entrant lock that `_cleanup_stream` takes again. `Stop` and the stop half of `ConsumerKeepsQueue` give the evidently intended effect. `StopAsWritten` models the source as written (see Findings).
- Asynchrony in the stream registry is left out: apart from the `stop` deadlock above, the lock, `wait_for` timeouts, `sleep`, task cancellation and the global coordinator accessor. The registry is a sequential state machine, and the background loops are single passes (`SweepInactive`, `HeartbeatRound`).
- `StreamingCoordinator.CreateStream`: registration happens when `create_stream` is called, not on the generator's first iteration. The error event the generator emits on an unexpected exception is not modelled.
- `StreamingCoordinator.Drain`: a consumer whose queue is empty but whose workflow is registered waits; the model stops there instead of waiting for the `wait_for` timeout.
- HTTP calls, JSON parsing of tool inputs and `json.dumps` of results are left out. Inputs arrive as parsed records, and results are datatypes.
- `difflib.SequenceMatcher.ratio` is the parameter `ratio`, assumed only to lie in [0, 1] (`CaseLookup.RatioSpec`). `str.format` template filling is the parameter `format`.
- Unicode case mapping is left out: `lower` and `title` change ASCII letters only. Whitespace (`strip`, `\s`) is Python's full `str.isspace` set.
- Floating-point JSON numbers are not modelled: a value is null, a boolean, an integer, a string or a container. A float `document_name`, for example, would reach the `', '.join` TypeError as `float`, which `Json.TypeName` cannot name.
- Python `repr` of dicts and lists is left out. A container is its rendered text and its length.
- The order of dict keys is not modelled, because maps are unordered. For the same reason, the list of available templates is missing from the e-mail tool's "template not found" error.
- Clock readings are left out. `datetime.now()` is the integer `now` in the registry and an opaque string in the context findings.
- The `completion_rate` percentage is not formatted. `CaseVerification.CompletionRate` keeps its numerator and denominator, and only "0%" is rendered.
- `TokenManager.CheckConversationHealth`: the source reads the message count and the latest summary twice, once for the health check (token_manager.py:238, 265) and again inside `estimate_token_usage` (lines 188, 200). The model feeds one read of each to both, so it does not cover the backend changing between the reads or failing on one read and not the other.
- `TokenManager.HealthScore`: the bound [3, 10] is proved only for a context window of at most 20, and `HealthScoreMonotone` needs the default window of exactly 20. With a larger window the summary bonus can lift the score to 11. With any window other than 20 the score can rise from 20 to 21 messages when a summary exists.
- `manage_conversation_length` and `get_conversation_metrics` are left out. They only forward to the token manager and re-package its answers.
- The unused `agent_result` argument of `store_interaction_results` is not a parameter of the model.
- `EmailComposer.RecordNames`: a non-dict entry's `TypeError` message is written as "document entry is not a dictionary", not Python's exact text.
- `DocumentManager.GetDocumentStatus`: every entry of `requested_documents` is a dictionary. A list entry that is not one makes `doc.get` raise in the source; the model does not represent such entries.
- `Json.TypeName`: a container is named `list` when its rendering starts with `[`, and `dict` otherwise. Parsed JSON has no other containers.
- `EmailTool.NormalizeEmailType`: an `email_type` that is not a string, such as JSON `null`, is not modelled. A present type is a string.
- `CaseVerification.VerifyCase`: an entry of `requested_documents` that is not a dict, and a document list that is a string or a number, are not modelled. A `null` list fails, as `len(None)` does.
- The e-mail templates file itself, prompts/email_templates.md, is not part of this model. Which keys its bodies use is unknown, so the compose-and-send tool's `requested_documents` format key is kept as written.

## Findings

| source | as written | input that shows it | evidently intended | confidence | as-written member | corrected member |
|---|---|---|---|---|---|---|
| src/services/streaming_coordinator.py:45-47 | `stop` holds `self._lock` (an `asyncio.Lock`, not re-entrant) while awaiting `_cleanup_stream`, which takes the same lock at line 191 | one registered workflow `"w"` when `stop` is called | every registered stream is cleaned up and `stop` returns | high on the reading, not executed | StreamingCoordinator.StopAsWritten (counterexample StreamingCoordinator.StopHangs) | StreamingCoordinator.Stop |
