# A Dafny model of the SOP generator's deterministic core

The SOP generator drafts Standard Operating Procedures for laboratory equipment. The
drafting is done by LLM agents; around them sits deterministic logic, and that logic is what
this project models and proves things about:

- **Text pipeline.** The overlapping chunker of reference documents (`_split_text`, chunk
  numbering), clipping and summarising helpers, token-usage accounting, the chat client's
  endpoint and timeout settings, and the `Title|mode|prompt` section arguments of the command
  line.
- **Post-processing of generated SOP text.**
  - the artifact and repeated-header filter `_extract_clean_sop_content`;
  - the prompt-echo sanitiser of the Author/Critic loop;
  - the two section parsers of the local Streamlit front end (the mock one and the robust one,
    which hands each configured section a parsed section found by intent key, title or order,
    consuming each at most once);
  - the Markdown reader shared by both exporters (table rows, rule rows, padding, heading
    levels, bullets, paragraphs) and the DOCX/PDF content they build;
  - the instruction builder that merges the mandatory sections into the user's.
- **Rule-based scoring and classification.** Mandatory-section presence, the deduction-based
  quality assessment and its readiness levels, the real-time content validator, the risk matrix
  and hazard analysers, PPE and emergency-scenario selection, the bounded safety-integration
  score, the equipment classifier and the keyword classifiers of the prompt engine.
- **The generate/critique loops.** `iterative_generate_until_approved` (in both the agent
  configuration and the coordinator), the Author/Critic loop and the mock group chat: the
  iteration bound, the approval rule, history capping and termination.

Every LLM agent is an oracle: a total function from what the loop hands it to what it
answers. Almost every regular-expression search is an input: a match count, a boolean, a
`search` function from a pattern to "it occurs", or a header recogniser. The exception is the
Author/Critic loop's header test, which `AuthorCritic.HeaderLike` writes out directly. Python's `str` behaviour is
written out in module `Text`. Python `int()`, truthiness and JSON values are in module `Json`.
A dictionary key that may be missing is an `Option`. A path that raises in the source (a missing
key, a missing method) yields `None` in the model.

Code that works step by step is modelled as methods with loops. Each such method is proved
equal to a specification function, and the properties the source promises are lemmas about
that function. Three entities are classes because the source updates them in place:
`Session.SessionState`, whose log `add_log` appends to; `TokenUsage.UsageTotals`, the
dictionary `_accumulate_usage` adds into; and `ChatClient.Client`, whose settings
`NoAuthChatClient.__init__` fills.

Behaviour of the source that the proofs make explicit:

- The terminology deduction of `_check_terminology_consistency` and the formatting deduction
  of `_check_formatting_consistency` cannot fire:
  - the terminology check needs more than three of three terms;
  - the formatting check needs more than two issues where at most one can arise;
  - header inconsistency never fires, because every header starts with '#'.
- The `summarize_parsed_chunks` of sop_generator/agents/document_parser.py and
  `extract_structure_outline` read a "text" key that `parse_documents_to_chunks` never sets.
  Its chunks carry "content", so both find no text in real chunks. The version in the agent
  configuration reads "content".
- In "ai+doc" mode, the command-line preview reads a 'keywords' key that chunks do not carry.
  It raises `KeyError` whenever there are chunks (`SectionArgs.EntrySpec` states this as
  "the entry fails").
- The root utils.py cannot be imported. Its lines 9-12 import `create_enhanced_corpus_summary`,
  which sop_generator/utils/document_processor.py does not define, so the import raises
  `ImportError`. The root app.py imports utils.py at line 6 and fails the same way, and
  `extract_structure_outline` is never reached. Module `Outline` describes that function as
  written, as it would run if the import succeeded.
- As written, `extract_structure_outline` would return one line even when `max_lines` is below 1.
- The Author/Critic loop treats a verdict containing "готово" as approval, so "Не готово"
  also approves.
- `export_manager.populate_docx` raises `KeyError` on an untitled section when there are
  several sections.
- `_validate_completeness` calls a method the quality assessor does not have, so
  `validate_content_real_time` raises. The model gives the other three components and the
  weighting.
- `ProfessionalSafetyIntegrator()` raises `TypeError`. `EmergencyProcedure` is a dataclass
  whose seven fields have no defaults (sop_generator/utils/safety_integration.py:56-64). The
  three calls in `_load_emergency_procedures` (lines 230, 256 and 282) leave out
  `evacuation_procedure`, `cleanup_procedure` or both, and `__init__` makes those calls.
  `RealTimeContentValidator()` builds an integrator (content_validator.py:59), so it raises
  too, as do sop_generator/app_professional.py:1038, 1047 and 1075. No method of either class
  runs as written. Modules `SafetyIntegration` and `ContentValidator` describe those methods
  as written, with the fixed tables as parameters. `SafetyIntegration.IntegratorConstructorRaises`
  states the failure (see Findings).
- The `except ValueError` branch of `_validate_technical_accuracy`
  (sop_generator/utils/content_validator.py:301-311) is dead code. The captured group is a
  literal `\d+(\.\d+)?`, which `float` always accepts, so no "unparsable value" issue is ever
  made.
- The environmental hazard analyser writes risk rating 2 where the risk matrix gives 4
  (see Findings).
- In the robust parser, a title match whose parsed section is empty is overridden by the order
  fallback. The parsed sections are never empty, so "no pick" is unreachable in that pipeline.
- The mock critic can only ever report the missing purpose/scope: its two other issues are
  always fixed by the safety and quality amendments first.

## Model

| member | source | states |
|---|---|---|
| Json.Trunc | sop_generator/config/agent_config.py:419 | `int()` of a float truncates toward zero: the result lies within one of the value, on the side of zero |
| Json.ParseNatRoundTrip | sop_generator/config/agent_config.py:28-30 | `int()` of the decimal text of a natural number gives that number back |
| Json.ParseNegRoundTrip | sop_generator/config/agent_config.py:28-30 | `int()` of "-" followed by the digits of n gives -n |
| Json.ParseIntRoundTrip | sop_generator/config/agent_config.py:28-59 | `int(str(i)) == i` for every integer, so a numeric environment setting is read back exactly |
| Json.GroupedValuePlain | sop_generator/config/agent_config.py:28-30 | for plain digits, the value that allows underscore grouping is the ordinary decimal value |
| Json.GroupedExamples | sop_generator/config/agent_config.py:28-30 | `int("1_000")` is 1000, while a doubled, trailing or leading underscore raises `ValueError` |
| Text.Strip | app_local.py:426 | `strip()` never lengthens a string |
| Text.StripSpec | app_local.py:426 | `strip()` is the slice that drops exactly the leading and the trailing whitespace, and neither end of the result is whitespace |
| Text.StripIsRStripLStrip | app_local.py:426 | stripping both ends equals stripping the left end and then the right |
| Text.StripEmptyIffBlank | sop_generator/app.py:304 | `content.strip()` is empty exactly when the content is all whitespace |
| Text.StripIdempotent | utils.py:58-70 | stripping an already stripped line changes nothing |
| Text.Lower | app_local.py:518 | `lower()` keeps the length |
| Text.LowerIdempotent | app_local.py:518 | lower-casing twice equals lower-casing once |
| Text.Split | app_local.py:425 | `split(sep)` yields at least one part |
| Text.JoinSplit | app_local.py:425-444 | joining the parts of `split(sep)` with sep gives the string back |
| Text.SplitLinesNoNewline | utils.py:58 | no line produced by the line split holds a newline |
| Text.RStripChar | sop_generator/config/agent_config.py:177 | `rstrip("/")` removes exactly the trailing run of slashes |
| Text.RFind | sop_generator/config/agent_config.py:781 | `rfind` answers -1 or a position where the text occurs |
| Text.RFindLast | sop_generator/config/agent_config.py:781 | no occurrence lies after the position `rfind` answers |
| Text.ClipWithEllipsis | sop_generator/config/agent_config.py:468 | the clipped text is a prefix of at most n characters followed by "…" |
| Text.Pad3 | sop_generator/utils/safety_integration.py:427 | `{n:03d}` writes at least three digits, exactly three below 1000 |
| Text.NatToStringRoundTrip | sop_generator/utils/safety_integration.py:352 | the decimal text of n reads back as n |
| Text.NatToStringInjective | sop_generator/utils/safety_integration.py:352 | different numbers have different decimal texts |
| Text.PrefixedNumbersDistinct | sop_generator/utils/safety_integration.py:352-459 | identifiers built from one prefix and different numbers differ |
| Text.NonEmptyPartsSpec | sop_generator/config/agent_config.py:456-458 | the kept parts are all non-empty, and none is kept exactly when every part is empty |
| Text.KeptUntilOverSpec | sop_generator/config/agent_config.py:470-471 | lines are collected up to and including the first one that takes the running total of lengths past the limit, and every shorter prefix stays within it |
| DocumentProcessor.LocalBreak | sop_generator/utils/document_processor.py:141 | the soft break is -1 or a position inside the candidate where a blank line, ". " or ".\n" starts |
| DocumentProcessor.LastBreakIsMax | sop_generator/utils/document_processor.py:141 | the last break up to k is the largest of the last positions of the three patterns |
| DocumentProcessor.LocalBreakIsMaxRFind | sop_generator/utils/document_processor.py:141 | the soft break equals max(rfind("\n\n"), rfind(". "), rfind(".\n")) of the candidate |
| DocumentProcessor.WindowEnd | sop_generator/utils/document_processor.py:138-146 | a window ends after its start, inside the text, and is at most max_chunk_size long |
| DocumentProcessor.WindowEndSpec | sop_generator/utils/document_processor.py:138-146 | a window reaches the end of the text exactly when start + max_chunk_size does; a window cut short ends just after a '.' or newline lying beyond half of max_chunk_size |
| DocumentProcessor.Progress | sop_generator/utils/document_processor.py:148-150 | the next start max(0, end - overlap) lies strictly after the current start and not after the current end |
| DocumentProcessor.WindowsShape | sop_generator/utils/document_processor.py:136-150 | the windows are non-empty, the first starts at 0, each is at most max_chunk_size long, consecutive windows are linked by the overlap rule with strictly increasing starts, and only the last reaches the end of the text |
| DocumentProcessor.WindowsCover | sop_generator/utils/document_processor.py:136-150 | every position of the text lies in some window |
| DocumentProcessor.RawChunksAreWindows | sop_generator/utils/document_processor.py:147 | the raw chunks are the stripped texts of the windows, one per window |
| DocumentProcessor.RawChunksBounded | sop_generator/utils/document_processor.py:138-147 | every raw chunk is at most max_chunk_size long |
| DocumentProcessor.NonEmpty | sop_generator/utils/document_processor.py:152 | the filtered chunks are exactly the non-empty input chunks |
| DocumentProcessor.CutWindow | sop_generator/utils/document_processor.py:138-146 | the end and the candidate text of one window, as the specification function gives them |
| DocumentProcessor.ChunkLoop | sop_generator/utils/document_processor.py:135-150 | the loop's raw chunks are the stripped windows of the text |
| DocumentProcessor.SplitText | sop_generator/utils/document_processor.py:127-152 | `_split_text` returns the chunks of the specification: nothing for blank text, the stripped text when it fits, else the non-empty stripped windows |
| DocumentProcessor.SplitSpecShape | sop_generator/utils/document_processor.py:128-152 | blank text gives no chunk, a stripped text of at most max_chunk_size gives exactly itself, and every chunk is non-empty and at most max_chunk_size long |
| DocumentProcessor.AppendChunks | sop_generator/utils/document_processor.py:36-43 | the loop appends the document's non-empty pieces, each numbered by its position in the split list |
| DocumentProcessor.ChunkDocument | sop_generator/utils/document_processor.py:24-43 | an empty path or an unreadable file contributes nothing; otherwise the numbered chunks of the split text |
| DocumentProcessor.ParseDocumentsToChunks | sop_generator/utils/document_processor.py:10-44 | the chunks of all documents, in document order |
| DocumentProcessor.IndexedConsecutive | sop_generator/utils/document_processor.py:36-43 | with no empty piece, chunk k carries index i + k and the (i + k)-th piece |
| DocumentProcessor.ChunkIndicesConsecutive | sop_generator/utils/document_processor.py:36-43 | the chunks of one readable document are numbered 0, 1, 2, ... in order, and chunk k holds the k-th piece |
| ChatClient.CoerceInt | sop_generator/config/agent_config.py:28-32 | `_coerce_int`: the value `int()` gives when it succeeds, the default when the value is missing or `int()` raises |
| ChatClient.EndpointSpec | sop_generator/config/agent_config.py:177-183 | the endpoint always ends with "/chat/completions" and starts with the base; a base already ending in it is kept, one ending in "/v1" gets "/chat/completions", any other gets "/v1/chat/completions" |
| ChatClient.ClientEndpointIdempotent | sop_generator/config/agent_config.py:177-183 | configuring a client with the endpoint another client derived yields that same endpoint |
| ChatClient.Timeout | sop_generator/config/agent_config.py:185-187 | a readable positive timeout is used as configured; anything else becomes the default, so the timeout is positive whenever the default is |
| ChatClient.Headers | sop_generator/config/agent_config.py:189-193 | Content-Type is always present, every extra header is present, a non-blank stripped API key gives "Bearer <key>", and no other key appears |
| ChatClient.Client.constructor | sop_generator/config/agent_config.py:175-193 | the client's endpoint, model (defaulting to the custom model), timeout, headers and an empty last usage |
| TokenUsage.NormalizeUsage | sop_generator/config/agent_config.py:412-422 | the loop computes the normalized usage of the specification |
| TokenUsage.KeptCountsSpec | sop_generator/config/agent_config.py:415-419 | only the three token keys are kept, each exactly when it holds a number, as that number truncated to int |
| TokenUsage.NormalizedUsageSpec | sop_generator/config/agent_config.py:412-422 | only token keys appear; prompt and completion are kept as read; a numeric total is kept, and otherwise the total is prompt + completion (missing ones as 0) when either is present; the result is empty exactly when no token key holds a number |
| TokenUsage.AddAll | sop_generator/config/agent_config.py:428-430 | the loop adds every key of the usage into the running total |
| TokenUsage.UsageTotals.constructor | sop_generator/config/agent_config.py:799 | a fresh total holds 0 under each of the three token keys |
| TokenUsage.UsageTotals.Accumulate | sop_generator/config/agent_config.py:425-430 | `_accumulate_usage`: the new totals are the old ones with the usage added, and unchanged for a missing or empty usage |
| TokenUsage.AddedAllKeys | sop_generator/config/agent_config.py:428-430 | adding every key one at a time gives the accumulated totals |
| TokenUsage.AccumulatedPerKey | sop_generator/config/agent_config.py:425-430 | per key, the new total is the old total plus the usage's value (absent counts 0), and no key disappears |
| TokenUsage.AccumulatedTwice | sop_generator/config/agent_config.py:425-430 | adding two records in turn equals adding their sum |
| TokenUsage.FormatUsageForLog | sop_generator/config/agent_config.py:433-443 | the loop builds the log text of the specification |
| TokenUsage.UsageLogSpec | sop_generator/config/agent_config.py:433-443 | the log reads "нет данных" exactly when no token key is present; with a prompt count it starts with "prompt=<n>" |
| TokenUsage.UsagePartsThree | sop_generator/config/agent_config.py:440-442 | the parts come in the fixed order prompt, completion, total |
| AgentConfig.MarkdownBlocks | sop_generator/config/agent_config.py:448-456 | one block per section, numbered by position from 1 |
| AgentConfig.SectionsToMarkdown | sop_generator/config/agent_config.py:446-458 | `_sections_to_markdown`: the loop builds the document of the specification |
| AgentConfig.MarkdownBlockSpec | sop_generator/config/agent_config.py:450-456 | a titled section's block starts with "## i. title"; an untitled one is its stripped content; a block is empty exactly when the section has neither title nor content |
| AgentConfig.MarkdownEmptyIff | sop_generator/config/agent_config.py:446-458 | the document is empty exactly when no section has text, and no joined block is empty |
| AgentConfig.MemoryLines | sop_generator/config/agent_config.py:463-468 | one memory line per section, numbered by position from 1 |
| AgentConfig.SummarizeGenerationForMemory | sop_generator/config/agent_config.py:461-475 | the loop and the final clip compute the memory summary of the specification |
| AgentConfig.MemoryContentSpec | sop_generator/config/agent_config.py:465-467 | a memory content has no newline and at most 160 chars; content of at most 160 chars is kept with newlines as spaces; longer content is cut to at most 157 chars plus "…" |
| AgentConfig.MemorySummarySpec | sop_generator/config/agent_config.py:461-475 | no sections give "(пусто)"; otherwise the summary is at most max_chars + 1 long |
| AgentConfig.ClippedSpec | sop_generator/config/agent_config.py:469-475 | when the first line is non-empty, the joined and clipped summary is non-empty and at most max_chars + 1 long |
| AgentConfig.SnippetCount | sop_generator/config/agent_config.py:757-768 | the number of chunks read lies between the start and the number of chunks |
| AgentConfig.TruncatedSummary | sop_generator/config/agent_config.py:777-781 | a cut summary ends with "…", what precedes it is a prefix of the merged text, and it is at most max_length + 1 long |
| AgentConfig.CollectSnippets | sop_generator/config/agent_config.py:757-768 | the collecting loop gathers the snippets of the chunks read before it stops |
| AgentConfig.SummarizeParsedChunks | sop_generator/config/agent_config.py:755-781 | `summarize_parsed_chunks` computes the summary of the specification |
| AgentConfig.SnippetCountStops | sop_generator/config/agent_config.py:767-768 | reading stops at the end or right after a chunk that gave a snippet, and stops early only once the collected length reaches 1.5 × max_length |
| AgentConfig.SnippetsEmpty | sop_generator/config/agent_config.py:759-766 | no snippet is collected from the first n chunks exactly when none of them has usable content |
| AgentConfig.SnippetsNonEmpty | sop_generator/config/agent_config.py:764-766 | every collected snippet is non-empty |
| AgentConfig.CollectedIff | sop_generator/config/agent_config.py:757-771 | something is collected exactly when some chunk has usable content |
| AgentConfig.MergedIff | sop_generator/config/agent_config.py:770-773 | the merged text is empty exactly when nothing was collected |
| AgentConfig.ChunkSummarySpec | sop_generator/config/agent_config.py:755-781 | the summary is "" exactly when no chunk has usable content; a merged text within max_length is returned unchanged; a longer one is truncated with "…"; the result is at most max_length + 1 long |
| AgentConfig.Descriptors | sop_generator/config/agent_config.py:727-734 | one descriptor per configured section |
| AgentConfig.AddSourceData | sop_generator/config/agent_config.py:718-725 | the source-data lines of the specification |
| AgentConfig.BuildGenerationInstruction | sop_generator/config/agent_config.py:706-752 | `build_generation_instruction` computes the instruction of the specification |
| AgentConfig.DescriptorSpec | sop_generator/config/agent_config.py:729-734 | a descriptor starts with "i. ", ends with the prompt hint when there is one and with ")" after the mode otherwise |
| AgentConfig.InstructionStartsWithIntro | sop_generator/config/agent_config.py:716 | the instruction opens with the fixed request line |
| AgentConfig.InstructionListsSections | sop_generator/config/agent_config.py:726-734 | every configured section is listed in order, right after the head and the sections heading |
| AgentConfig.GeneratedSections | sop_generator/config/agent_config.py:548-582 | `generate` always yields at least one section |
| AgentConfig.ListSections | sop_generator/config/agent_config.py:552-561 | the loop over the reply's "sections" builds the listed sections of the specification |
| AgentConfig.FindAltText | sop_generator/config/agent_config.py:564-569 | the loop over the alternative keys stops at the first usable text |
| AgentConfig.ReadGeneration | sop_generator/config/agent_config.py:546-590 | the generation result read from a reply, as the specification gives it |
| AgentConfig.ListedTitlesNonEmpty | sop_generator/config/agent_config.py:554-561 | every listed section has a non-empty title ("Раздел i" when missing) |
| AgentConfig.AltTextSpec | sop_generator/config/agent_config.py:564-569 | the alternative text is the stripped, non-empty value of the first key holding usable text; None means no key has any |
| AgentConfig.FallbackTitlesSpec | sop_generator/config/agent_config.py:575-576 | fallback titles are non-empty and absent exactly when no configured section has a title |
| AgentConfig.GeneratedSectionsSpec | sop_generator/config/agent_config.py:548-582 | without reply sections, every section carries the stripped raw text, one per configured title (or a single untitled one); listed reply sections are used as they are, each titled |
| AgentConfig.ReviewOf | sop_generator/config/agent_config.py:671-685 | the critic result carries the approval, the feedback and the client's usage |
| AgentConfig.ApprovalCaseInsensitive | sop_generator/config/agent_config.py:676-680 | a string "approved" value is compared case-insensitively |
| AgentConfig.ApprovalExamples | sop_generator/config/agent_config.py:676-680 | "Yes", "ДА" and true approve; "no", the number 1 and an unparsable reply do not |
| AgentConfig.CriticFeedbackSpec | sop_generator/config/agent_config.py:673-683 | the feedback is stripped, and is the stripped raw reply unless a non-blank "feedback" string is present |
| AgentLoop.Capped | sop_generator/config/agent_config.py:830-831 | a capped history holds min(length, 5) entries |
| AgentLoop.Attempts | sop_generator/config/agent_config.py:829-831 | the attempt history never holds more than five drafts |
| AgentLoop.Feedback | sop_generator/config/agent_config.py:859-861 | the feedback history never holds more than five critiques |
| AgentLoop.IterativeGenerateUntilApproved | sop_generator/config/agent_config.py:784-875 | the loop returns the outcome of the specification: approval, last draft, logs and token total |
| AgentLoop.ExtendVerdict | sop_generator/config/agent_config.py:819-852 | after one more round, approval and the last draft are that round's |
| AgentLoop.ExtendLogs | sop_generator/config/agent_config.py:827-858 | one more round appends that round's log messages |
| AgentLoop.ExtendUsage | sop_generator/config/agent_config.py:828-846 | one more round adds the draft's usage and then the verdict's usage to the total |
| AgentLoop.ExtendHistories | sop_generator/config/agent_config.py:829-861 | one more round appends its draft to the capped attempt history; a rejection appends its feedback to the capped feedback history and becomes the critique |
| AgentLoop.TraceStays | sop_generator/config/agent_config.py:848-853 | once the critic approves, later iterations add no round |
| AgentLoop.TraceLength | sop_generator/config/agent_config.py:817-853 | at most n rounds run, and fewer only when the latest was approved |
| AgentLoop.TraceRejectedBefore | sop_generator/config/agent_config.py:848-853 | no round before the latest was approved |
| AgentLoop.TraceRounds | sop_generator/config/agent_config.py:817-861 | each round is what the agents answer given the rounds before it |
| AgentLoop.AttemptsSpec | sop_generator/config/agent_config.py:829-831 | the attempt history holds the latest drafts, up to five, in order |
| AgentLoop.CappedSuffix | sop_generator/config/agent_config.py:830-831 | a capped history is the tail of the uncapped one |
| AgentLoop.LogsLength | sop_generator/config/agent_config.py:827-858 | three log messages per rejected round, two for an approved one |
| AgentLoop.IterationsSpec | sop_generator/config/agent_config.py:817-853 | the generator runs at most max_iters times, and exactly max_iters times unless the critic approved |
| AgentLoop.ApprovalSpec | sop_generator/config/agent_config.py:848-875 | the result is approved exactly when some round was approved, and it carries the last draft |
| AgentLoop.NoIterationSpec | sop_generator/config/agent_config.py:863-873 | with max_iters < 1 the result is unapproved with empty content and sections, a zero total and only the token total logged |
| AgentLoop.OutcomeLogsSpec | sop_generator/config/agent_config.py:809-875 | the log holds three messages per rejected round, two for the approved one, and ends with the token total |
| Coordinator.FilterLines | sop_generator/agents/coordinator.py:93-131 | the filtering loop keeps the lines of the specification's fold |
| Coordinator.CollapseBlankRuns | sop_generator/agents/coordinator.py:133-142 | the blank-run loop gives the collapsed lines of the specification |
| Coordinator.ExtractCleanText | sop_generator/agents/coordinator.py:91-144 | the cleaned text for a given list of artifact phrases |
| Coordinator.ExtractCleanSopContent | sop_generator/agents/coordinator.py:91-144 | `_extract_clean_sop_content` computes the cleaned text of the specification |
| Coordinator.CleanStepKept | sop_generator/agents/coordinator.py:98-131 | one step keeps its line or drops it; it keeps only non-artifact lines, keeps a header only when it is new, and records every header it keeps |
| Coordinator.CleanKeptSubseq | sop_generator/agents/coordinator.py:93-131 | the kept lines are a subsequence of the input lines |
| Coordinator.CleanNoArtifact | sop_generator/agents/coordinator.py:102-111 | no kept line contains an artifact phrase |
| Coordinator.CleanHeadersOnce | sop_generator/agents/coordinator.py:114-123 | every kept header is recorded, and no two kept headers have the same stripped lowercase text |
| Coordinator.RepeatedHeaderDropped | sop_generator/agents/coordinator.py:118-121 | a header seen before is dropped and turns skipping on |
| Coordinator.ArtifactDropped | sop_generator/agents/coordinator.py:102-111 | an artifact line is dropped and turns skipping on |
| Coordinator.NewHeaderKept | sop_generator/agents/coordinator.py:114-131 | a new header is kept, turns skipping off and is recorded |
| Coordinator.BodyLineStep | sop_generator/agents/coordinator.py:125-131 | any other line keeps the flag and the headers and is kept exactly when not skipping |
| Coordinator.SkippedLine | sop_generator/agents/coordinator.py:125-131 | while skipping, a non-header line is dropped and the state is unchanged |
| Coordinator.SkippedUntilHeader | sop_generator/agents/coordinator.py:110-131 | after an artifact or a repeated header, every line up to the next header is dropped |
| Coordinator.KeptUntilHeader | sop_generator/agents/coordinator.py:125-131 | while not skipping, every line up to the next header or artifact is kept |
| Coordinator.CollapsedSpec | sop_generator/agents/coordinator.py:133-142 | the collapsed lines are a subsequence of the input, the flag says whether the last kept line is blank, and no two consecutive kept lines are blank |
| Coordinator.CollapsedKeepsText | sop_generator/agents/coordinator.py:137-142 | only blank lines are dropped: the non-blank lines are unchanged |
| Coordinator.CleanSopContentStripped | sop_generator/agents/coordinator.py:144 | the cleaned text has no surrounding whitespace |
| Coordinator.CleanedLinesSpec | sop_generator/agents/coordinator.py:91-144 | the cleaned text is the stripped join of lines that form a subsequence of the input, contain no artifact phrase and never hold two blank lines in a row |
| Coordinator.StepsOnTurn | sop_generator/agents/coordinator.py:169-280 | an iteration that stops ends the loop; a revision continues with one iteration fewer |
| Coordinator.RunIteration | sop_generator/agents/coordinator.py:170-278 | one iteration gives the turn result of the specification (halted, finished or revise) |
| Coordinator.GenerateUntilApproved | sop_generator/agents/coordinator.py:169-280 | the loop's result is the specification's result over the allowed iterations |
| Coordinator.IterativeGenerateUntilApproved | sop_generator/agents/coordinator.py:147-280 | `iterative_generate_until_approved` returns the outcome of the specification |
| Coordinator.TurnFinishedIff | sop_generator/agents/coordinator.py:250-276 | an iteration is approved exactly when every agent answers, validation is production ready and some critic message holds both "STATUS:" and "APPROVED"; the content is then the cleaned styled text, or the cleaned draft when the styler fails or returns nothing |
| Coordinator.TurnValidationOverride | sop_generator/agents/coordinator.py:252-255 | a failed structural validation forces a revision, with the "СТРУКТУРНАЯ ВАЛИДАЦИЯ: REVISE" block appended to the feedback |
| Coordinator.TurnHalted | sop_generator/agents/coordinator.py:171-260 | a generator failure stops the loop with the previous content; a later failure stops it with the new cleaned draft; otherwise safety and quality both answered |
| Coordinator.TurnsSpec | sop_generator/agents/coordinator.py:169-280 | at most max_iters iterations run; each follows from the revision before it; the loop ends early only after a stop or an approval |
| Coordinator.StepsResult | sop_generator/agents/coordinator.py:276-280 | the result is approved exactly when the last iteration finished, carries that iteration's content and feedback, and has no logs |
| Coordinator.NoIterations | sop_generator/agents/coordinator.py:158-280 | with max_iters < 1 the loop returns empty content and feedback, unapproved |
| AuthorCritic.ClipText | agents.py:24-29 | `_clip_text`: None stays None, a text within the limit is kept, a longer one becomes its first max_chars characters; the result is always a prefix of the text |
| AuthorCritic.Clipped | agents.py:183-217 | `_clip_text(text, n) or ""` is a prefix of the text, the text itself when it fits |
| AuthorCritic.MarkersAreLinePieces | agents.py:122-135 | no marker is empty or spans a line break |
| AuthorCritic.FirstFrom | agents.py:148-161 | the first index from k whose line satisfies the test, or -1 |
| AuthorCritic.FirstFromFirst | agents.py:148-161 | no line before the index found satisfies the test |
| AuthorCritic.FindFirst | agents.py:148-152 | the search loop finds the first header-like line, or -1 |
| AuthorCritic.SanitizeOutput | agents.py:114-170 | `_sanitize_output` computes the sanitised text of the specification |
| AuthorCritic.UnmarkedSpec | agents.py:165-169 | no kept line holds a marker, and the kept lines are input lines in input order |
| AuthorCritic.SanitizedHasNoMarker | agents.py:159-170 | no marker occurs anywhere in the sanitised text |
| AuthorCritic.SanitizedFromHeader | agents.py:154-166 | with a header-like line, the kept lines come from the first such line on and stop before the first later line holding a trailing marker |
| AuthorCritic.DocumentFromHeader | agents.py:154-163 | from the first header, the document part runs up to the first trailing marker after it (not cut when that is the header line itself) |
| AuthorCritic.SanitizedWithoutHeader | agents.py:168-170 | without a header-like line every line is kept unless it holds a marker |
| AuthorCritic.WithoutInstructionSpec | agents.py:136-142 | when the generation cue comes before the output cue, the text between them is removed and the output cue remains; otherwise the text is unchanged |
| AuthorCritic.AuthorPromptOpensWithCue | agents.py:173-198 | the author prompt opens with the generation cue |
| AuthorCritic.AuthorCriticLoop | agents.py:257-285 | the loop builds the transcript and final text of the specification |
| AuthorCritic.RunAuthorCriticLoop | agents.py:234-285 | `run_author_critic_loop` returns the specification's transcript and final text |
| AuthorCritic.StoppedStays | agents.py:281-282 | once stopped, further iterations change nothing |
| AuthorCritic.Ran | agents.py:257 | the number of iterations that ran is at most the number allowed |
| AuthorCritic.IterationShape | agents.py:258-283 | one iteration appends an Author entry and a Critic entry, makes the author text current, and stops exactly on a finished verdict |
| AuthorCritic.RunLength | agents.py:257-283 | the transcript holds two entries per iteration that ran |
| AuthorCritic.RunSenders | agents.py:273-279 | the transcript alternates Author, Critic, starting with the Author |
| AuthorCritic.RunLatest | agents.py:272-283 | the final text is the latest author entry; the loop stopped exactly when the latest critic entry is a finished verdict, and otherwise the feedback is that entry |
| AuthorCritic.RunEarlierNotFinished | agents.py:281-283 | no critic entry before the latest is a finished verdict |
| AuthorCritic.NotStoppedRanAll | agents.py:257-282 | a run that has not stopped ran every iteration |
| AuthorCritic.RunStopsOnVerdict | agents.py:257-285 | at most max_iters iterations; a stopped run ends with a finished verdict; an unstopped one ran all iterations; the transcript alternates |
| AuthorCritic.PromptsSpec | agents.py:259-270 | iteration 1 uses the author prompt; a later one uses the revision prompt with the previous text and the latest critique |
| AuthorCritic.RejectionAlsoStops | agents.py:281-282 | the stop test also matches the rejection "Не готово" |
| SopInstruction.MergeMandatory | sop_generator/agents/sop_generator.py:65-72 | the merging loop gives the merged list of the specification |
| SopInstruction.AddedSpec | sop_generator/agents/sop_generator.py:70-72 | the added sections are exactly the template sections whose lowercased title is unused, in template order |
| SopInstruction.Specs | sop_generator/agents/sop_generator.py:65 | one section dict per template entry |
| SopInstruction.MergedSpec | sop_generator/agents/sop_generator.py:65-72 | the merged list starts with the user sections unchanged, covers every template title case-insensitively, and continues with template sections in template order, none repeating a user title |
| SopInstruction.MandatoryTitlesCovered | sop_generator/agents/sop_generator.py:65-72 | every mandatory title appears, lowercased, in the merged list |
| SopInstruction.SectionSpecifications | sop_generator/agents/sop_generator.py:77-82 | the loop builds the entries of the specification, failing on a section without a title |
| SopInstruction.MissingTitleFails | sop_generator/agents/sop_generator.py:79 | once a section without a title is read, building fails (`s['title']` raises) |
| SopInstruction.SpecEntriesSpec | sop_generator/agents/sop_generator.py:77-82 | building succeeds exactly when every section has a title, and then yields one entry per section in order |
| SopInstruction.SpecEntrySpec | sop_generator/agents/sop_generator.py:79-81 | an entry is "- **title** (режим: mode)", mode defaulting to "ai", followed by a requirements line exactly when the prompt is non-empty |
| SopInstruction.BuildGenerationInstruction | sop_generator/agents/sop_generator.py:54-118 | `build_generation_instruction` computes the instruction of the specification, or fails where the source raises |
| SopInstruction.InstructionFailsIff | sop_generator/agents/sop_generator.py:66-79 | the instruction fails exactly when a user section has no title |
| SopInstruction.MergedEntriesFailIff | sop_generator/agents/sop_generator.py:65-82 | rendering the merged sections fails exactly when a user section has no title |
| SopInstruction.MergedFailIff | sop_generator/agents/sop_generator.py:65-82 | with a fully titled template, rendering fails exactly when a user section has no title |
| SopInstruction.CritiqueShown | sop_generator/agents/sop_generator.py:86-116 | the critique block appears for non-empty feedback; otherwise the instruction is the one without feedback |
| SopInstruction.CorpusShown | sop_generator/agents/sop_generator.py:74-116 | the corpus block appears for a non-empty summary; otherwise the instruction is the one without a summary |
| SopInstruction.StructureInInstruction | sop_generator/agents/sop_generator.py:84-100 | the joined section entries follow the structure heading in the instruction |
| ParserSummary.CollectLines | sop_generator/agents/document_parser.py:21-26 | the loop builds the summary lines of the specification, failing on a chunk that is not a dict |
| ParserSummary.SummarizeParsedChunks | sop_generator/agents/document_parser.py:19-27 | `summarize_parsed_chunks` computes the summary of the specification |
| ParserSummary.FailureStays | sop_generator/agents/document_parser.py:23 | once an entry that is not a dict is read, the summary fails |
| ParserSummary.SummaryLinesSpec | sop_generator/agents/document_parser.py:21-27 | the summary succeeds exactly when every read entry is a dict; it has at most one line per chunk, each the line of a chunk with a non-empty snippet |
| ParserSummary.SummaryLineSpec | sop_generator/agents/document_parser.py:23-26 | a line starts with "[src: <source>] " ("unknown" by default); the snippet has no newline, is kept when at most 500 long, and is otherwise its first 500 chars plus "..." |
| ParserSummary.NoTextNoLine | sop_generator/agents/document_parser.py:24 | a chunk without a "text" entry contributes no line, whatever its "content" |
| ParserSummary.OnlyFirstTwenty | sop_generator/agents/document_parser.py:22 | chunks after the first twenty change nothing |
| SectionValidator.NineMandatorySections | sop_generator/utils/section_validator.py:18-89 | there are exactly nine mandatory sections, from "Цель и область применения" to "Устранение неисправностей" |
| SectionValidator.Titles | sop_generator/utils/section_validator.py:104 | one title per requirement |
| SectionValidator.PartitionTitles | sop_generator/utils/section_validator.py:104-119 | the loop gives the found and missing titles of the specification |
| SectionValidator.ValidateSectionPresence | sop_generator/utils/section_validator.py:94-121 | `validate_section_presence` gives the found and missing mandatory titles |
| SectionValidator.PresencePartition | sop_generator/utils/section_validator.py:99-121 | found and missing partition the titles: together they count all of them, a title is found exactly when its search succeeds, and each list follows the mandatory order |
| SectionValidator.Report | sop_generator/utils/section_validator.py:131-149 | the count is the number of matches, sufficiency holds exactly at the threshold or above, and the examples are the first min(count, cap) matches |
| SectionValidator.ValidateTechnicalDepth | sop_generator/utils/section_validator.py:123-135 | detail suffices from 5 matches over the six patterns; 10 examples are kept |
| SectionValidator.ValidateSafetyIntegration | sop_generator/utils/section_validator.py:137-149 | safety is integrated from 3 matches over the four patterns; 5 examples are kept |
| SectionValidator.KeywordMatchesSpec | sop_generator/utils/section_validator.py:165-166 | a keyword is kept exactly when it occurs case-insensitively, in keyword order |
| SectionValidator.QualityOf | sop_generator/utils/section_validator.py:157-184 | an absent section is reported absent; a present one reports its length, whether it meets the minimum length, the keywords found, and sufficiency at ⌊required/2⌋ keywords |
| SectionValidator.QualityScoreSpec | sop_generator/utils/section_validator.py:170-184 | the quality score is 0, 0.5 or 1; 1 exactly when the section is present, long enough and has enough keywords; 0 when absent |
| SectionValidator.QualityTable | sop_generator/utils/section_validator.py:155 | one entry per requirement |
| SectionValidator.QualityLoop | sop_generator/utils/section_validator.py:155-184 | the loop gives the entries of the specification |
| SectionValidator.ValidateSectionContentQuality | sop_generator/utils/section_validator.py:151-186 | `validate_section_content_quality` gives one entry per mandatory section |
| SectionValidator.QualityTableSpec | sop_generator/utils/section_validator.py:155-184 | each entry carries its section's title and is absent exactly when the section's text was not extracted |
| SectionValidator.Recommendations | sop_generator/utils/section_validator.py:237-260 | one recommendation per failed check (missing sections, detail, safety), at most 3, the first listing the missing titles |
| SectionValidator.ComprehensiveValidation | sop_generator/utils/section_validator.py:188-235 | `comprehensive_validation` computes the validation of the specification |
| SectionValidator.OverallBounds | sop_generator/utils/section_validator.py:204-223 | the quality score lies in [0, 1] and the completeness in [0, 100] |
| SectionValidator.ReadyIff | sop_generator/utils/section_validator.py:204-217 | production ready exactly when no section is missing and both checks pass (the 0.8 threshold then holds); found + missing = 9; no recommendation exactly when ready |
| SectionValidator.TemplateOf | sop_generator/utils/section_validator.py:263-276 | one template entry per requirement |
| SectionValidator.TemplateLoop | sop_generator/utils/section_validator.py:267-275 | the loop gives the template of the specification |
| SectionValidator.CreateMandatorySectionsTemplate | sop_generator/utils/section_validator.py:263-276 | `create_mandatory_sections_template` gives the template of the nine mandatory sections |
| SectionValidator.TemplatePromptNamesSection | sop_generator/utils/section_validator.py:272 | a template prompt names its section first |
| SectionValidator.TemplateSpec | sop_generator/utils/section_validator.py:263-276 | entries in requirement order, numbered from 1, in mode "ai", with empty content and a prompt naming the section |
| QualityAssessment.DeductionsSpec | sop_generator/utils/quality_assessment.py:194-248 | the deductions lie between 0 and the budget and are 0 exactly when no check failed; one issue per failed check, each the issue of a failed check |
| QualityAssessment.ScoredSpec | sop_generator/utils/quality_assessment.py:187-254 | within budget, the score is 100 less the deductions, lies in [0, 100], is 100 exactly when no check failed, and the issue count is the number of failed checks |
| QualityAssessment.AssessTechnicalCompleteness | sop_generator/utils/quality_assessment.py:183-254 | the result is the category scored over its four checks (parameters, specifications, calibration, maintenance): with TechnicalWithinBudget and ScoredSpec, 100 less the deductions, in [0, 100], one issue per failed check |
| QualityAssessment.AssessSafetyCoverage | sop_generator/utils/quality_assessment.py:256-328 | the result is the category scored over its four checks (hazards, PPE, emergency procedures, safety references), with the same score and issue guarantees through SafetyWithinBudget and ScoredSpec |
| QualityAssessment.AssessOperationalClarity | sop_generator/utils/quality_assessment.py:330-431 | the result is the category scored over its four checks (step count, decision points, troubleshooting, success criteria), with the same guarantees through OperationalWithinBudget and ScoredSpec |
| QualityAssessment.AssessRegulatoryCompliance | sop_generator/utils/quality_assessment.py:433-488 | the result is the category scored over its three checks (documentation, traceability, quality control), with the same guarantees through RegulatoryWithinBudget and ScoredSpec |
| QualityAssessment.InconsistentTerms | sop_generator/utils/quality_assessment.py:566-580 | at most one inconsistent term per term family, so never more than the number of families |
| QualityAssessment.CheckTerminologyConsistency | sop_generator/utils/quality_assessment.py:561-580 | the loop reports the families with more than one variant found, in order |
| QualityAssessment.FormattingIssuesAtMostOne | sop_generator/utils/quality_assessment.py:582-597 | every header match starts with '#', so the header check never fires and the only possible issue is "mixed_list_styles" |
| QualityAssessment.FoundCount | sop_generator/utils/quality_assessment.py:496-506 | the number of section patterns found is at most the number of patterns |
| QualityAssessment.AssessProfessionalStandards | sop_generator/utils/quality_assessment.py:490-559 | the result is the category scored over the section count, terminology, formatting and length checks, deductions bounded through ProfessionalWithinBudget |
| QualityAssessment.CountFound | sop_generator/utils/quality_assessment.py:498-506 | the loop counts the section patterns found |
| QualityAssessment.ProfessionalDeductionsReachable | sop_generator/utils/quality_assessment.py:522-597 | at most 3 inconsistent terms, so the terminology check (needing more than 3) and the formatting check (needing more than 2) never fail |
| QualityAssessment.TechnicalWithinBudget | sop_generator/utils/quality_assessment.py:194-248 | the technical deductions stay within 100 points |
| QualityAssessment.SafetyWithinBudget | sop_generator/utils/quality_assessment.py:267-322 | the safety deductions stay within 100 points |
| QualityAssessment.OperationalWithinBudget | sop_generator/utils/quality_assessment.py:341-425 | the operational deductions stay within 100 points |
| QualityAssessment.RegulatoryWithinBudget | sop_generator/utils/quality_assessment.py:444-482 | the regulatory deductions stay within 100 points |
| QualityAssessment.ProfessionalWithinBudget | sop_generator/utils/quality_assessment.py:496-553 | the professional deductions stay within 100 points |
| QualityAssessment.TechnicalDeductions | sop_generator/utils/quality_assessment.py:194-248 | fewer than 5 parameters cost min(40, (5 - n)·8), fewer than 3 specifications min(25, (3 - n)·8), no calibration 20, no maintenance 15; the score lies in [0, 100] |
| QualityAssessment.AssessSpec | sop_generator/utils/quality_assessment.py:599-630 | overall = ⌊sum of the five scores / 5⌋ in [0, 100]; PRODUCTION_READY exactly when overall ≥ 95 and min ≥ 90, REVIEW_REQUIRED exactly when otherwise overall ≥ 85 and min ≥ 70, MAJOR_REVISION_NEEDED in every other case; the minimum never exceeds the overall score |
| QualityAssessment.IssuesOfLevel | sop_generator/utils/quality_assessment.py:57-82 | `critical_issues`, `warnings` and `suggestions` collect the issues of one level from the five categories |
| QualityAssessment.OfLevelSplit | sop_generator/utils/quality_assessment.py:57-82 | each issue list splits into its three levels |
| QualityAssessment.LevelsPartition | sop_generator/utils/quality_assessment.py:57-82 | the three lists partition all issues of the five categories by level |
| ContentValidator.LineNumberSpec | sop_generator/utils/content_validator.py:826-828 | the line number of a position is at least 1, never decreases along the content, is at most the number of lines, and rises by one exactly past a line break |
| ContentValidator.ValidateProcedureLogic | sop_generator/utils/content_validator.py:565-619 | the method computes the procedure-logic issues and deduction of the specification function ProcedureLogic |
| ContentValidator.MisnumberedSpec | sop_generator/utils/content_validator.py:576-592 | one numbering issue per flagged step, in order, each built from that step and its expected number |
| ContentValidator.FlaggedIff | sop_generator/utils/content_validator.py:578-582 | a step is flagged exactly when its number differs from its 1-based position |
| ContentValidator.ProcedureLogicSpec | sop_generator/utils/content_validator.py:575-619 | numbering is checked only with more than one step, one point per flagged step; unclear decisions cost 3 each and count only when a decision pattern matched; without decision matches every issue is minor |
| ContentValidator.StandardIssuesSpec | sop_generator/utils/content_validator.py:385-409 | one issue per missing standard, naming it |
| ContentValidator.ValidateIndustryStandards | sop_generator/utils/content_validator.py:368-435 | the method computes the issues and score of the specification function IndustryStandardsResult |
| ContentValidator.CollectStandardIssues | sop_generator/utils/content_validator.py:385-409 | the loop builds the missing-standard issues of StandardIssues |
| ContentValidator.CollectIncomplete | sop_generator/utils/content_validator.py:412-433 | the loop builds the incomplete-standard issues of IncompleteIssues |
| ContentValidator.CollectMissingElements | sop_generator/utils/content_validator.py:415-420 | the loop collects the required elements none of whose keywords occur |
| ContentValidator.MissingStandardsSpec | sop_generator/utils/content_validator.py:385-396 | the missing standards are a subsequence of the required ones and are exactly those not found |
| ContentValidator.IndustryStandardsSpec | sop_generator/utils/content_validator.py:368-435 | score in [0, 100]; one issue per missing standard (in order, naming it) then at most one per table entry; the basic level requires no standard |
| ContentValidator.RequiredStandardsNested | sop_generator/utils/content_validator.py:136-185 | the professional level requires "ISO 17025" and "ICH Q2", the production-ready level adds "GMP" and "21 CFR"; the fresh table holds three standards |
| ContentValidator.IncompleteIssuesBound | sop_generator/utils/content_validator.py:412-433 | at most one incomplete-standard issue per table entry |
| ContentValidator.UnmetIssues | sop_generator/utils/content_validator.py:494-510 | at most one issue per safety requirement |
| ContentValidator.BasicSafetyValidation | sop_generator/utils/content_validator.py:483-511 | the method computes the fallback issues and deduction of BasicSafety |
| ContentValidator.BasicSafetySpec | sop_generator/utils/content_validator.py:483-511 | the fallback deduction is 15 per unmet requirement, at most 60, and 0 when every requirement pattern is found |
| ContentValidator.UnmetNone | sop_generator/utils/content_validator.py:494-510 | no issue when every pattern is found |
| ContentValidator.GapIssues | sop_generator/utils/content_validator.py:449-459 | one issue per critical safety gap, in order |
| ContentValidator.ValidateSafetyCompliance | sop_generator/utils/content_validator.py:437-481 | the method computes the issues and score of SafetyComplianceResult, the failed integration taking the fallback path |
| ContentValidator.SafetyComplianceSpec | sop_generator/utils/content_validator.py:437-481 | score in [0, 100] and 100 exactly when nothing is reported; with an analysis, one critical issue per gap plus one when the integration score is below 80; on the fallback path every issue is major |
| ContentValidator.UnmetMajor | sop_generator/utils/content_validator.py:494-510 | every fallback issue is major |
| ContentValidator.MismatchIssues | sop_generator/utils/content_validator.py:513-563 | at most one issue per compared parameter |
| ContentValidator.ValidateTechnicalAccuracy | sop_generator/utils/content_validator.py:259-326 | the method computes the issues and score of TechnicalAccuracyResult; each out-of-range value is shown as Python writes the float |
| ContentValidator.CollectRangeIssues | sop_generator/utils/content_validator.py:272-314 | the loop builds RangeIssues: one major issue for each value outside every typical range, in match order, showing the value as Python's `{value}` writes the float |
| ContentValidator.CollectMismatches | sop_generator/utils/content_validator.py:513-563 | the loop builds the mismatch issues of MismatchIssues |
| ContentValidator.RangeIssuesSpec | sop_generator/utils/content_validator.py:272-314 | at most one issue per match, none when every value is in a typical range; a temperature is typical exactly in [15, 30] or [40, 1000] |
| ContentValidator.RangeIssueZeros | sop_generator/utils/content_validator.py:295 | the issue shows the value, not the matched text: an extra leading zero, or an extra trailing zero after the point, gives the same issue |
| ContentValidator.RangeIssueWholeNumber | sop_generator/utils/content_validator.py:295 | a whole number of at most 16 digits without a leading zero is shown with ".0" appended, as `float` prints it |
| Json.FloatReprInteger | sop_generator/utils/content_validator.py:295 | the float of a whole-number literal of at most 16 digits without a leading zero is written as the digits followed by ".0" |
| Json.FloatReprCanonical | sop_generator/utils/content_validator.py:295 | a literal with a short integer part and a fractional part, neither with a redundant zero, is written back unchanged |
| Json.FloatReprLeadingZero | sop_generator/utils/content_validator.py:295 | a leading zero does not change how the float of a literal is written |
| Json.FloatReprTrailingZero | sop_generator/utils/content_validator.py:295 | a trailing zero after the decimal point does not change how the float of a literal is written |
| ContentValidator.ParametersMatchSpec | sop_generator/utils/content_validator.py:846-867 | a value equal to a reference value matches within the 20% tolerance; no parsable content value against a non-empty reference list matches nothing |
| ContentValidator.CompletenessScoreSpec | sop_generator/utils/content_validator.py:328-367 | the completeness score lies in [0, 100] and is 100 exactly when no section is missing |
| ContentValidator.OverallScoreSpec | sop_generator/utils/content_validator.py:241-243 | the weighted overall score (0.3, 0.25, 0.2, 0.25) lies between the smallest and largest component and equals a component shared by all four |
| ContentValidator.ValidationLevelSpec | sop_generator/utils/content_validator.py:869-878 | production ready exactly when the score is at least 95 with no critical issue, basic exactly when not (score at least 80 with at most one critical issue); more issues never raise the level to production ready |
| ContentValidator.CriticalCountAppend | sop_generator/utils/content_validator.py:871 | the critical count of joined issue lists is the sum of their counts |
| ContentValidator.RealTimeResultSpec | sop_generator/utils/content_validator.py:210-257 | the result gathers the issues of the four validators in order, its overall score lies in [0, 100] and its regulatory score is the standards score |
| ContentValidator.HasKindAppend | sop_generator/utils/content_validator.py:658-662 | a suggestion kind occurs in joined lists exactly when it occurs in one of them |
| ContentValidator.FirstAppearanceSpec | sop_generator/utils/content_validator.py:629-635 | the grouping order holds every issue type that occurs, each once |
| ContentValidator.OfTypeEmpty | sop_generator/utils/content_validator.py:629-635 | a type's group is empty exactly when no issue has that type |
| ContentValidator.GroupSuggestionsSpec | sop_generator/utils/content_validator.py:637-658 | over distinct types, a comprehensive-review suggestion occurs exactly when technical accuracy has a group of 3 or more, a safety-integration one exactly when safety compliance does, and no other kind is produced |
| ContentValidator.CategorySuggestionsSpec | sop_generator/utils/content_validator.py:621-658 | at most 5 group suggestions; each of the two kinds exactly when its type has 3 or more issues |
| ContentValidator.DistinctTypesBound | sop_generator/utils/content_validator.py:629-635 | there are at most five distinct issue types |
| ContentValidator.PhraseCount | sop_generator/utils/content_validator.py:685 | the generic-phrase count is at most the number of phrases |
| ContentValidator.ContentSuggestionsSpec | sop_generator/utils/content_validator.py:666-725 | at most four content suggestions; the specificity suggestion needs more than 3 of the 4 generic phrases, so all four; long, parameter-poor content without references gets only that one |
| ContentValidator.PhraseCountAll | sop_generator/utils/content_validator.py:685 | the count reaches the number of phrases exactly when all occur |
| ContentValidator.IssueBlocks | sop_generator/utils/content_validator.py:756-768 | three report lines per critical or major issue |
| ContentValidator.MinorBullets | sop_generator/utils/content_validator.py:771-772 | one bullet line per minor issue shown |
| ContentValidator.WriteIssueBlocks | sop_generator/utils/content_validator.py:756-768 | the loop writes the lines of IssueBlocks |
| ContentValidator.WriteMinorBlock | sop_generator/utils/content_validator.py:770-775 | the loop writes the lines of MinorBlock |
| ContentValidator.WriteIssuesSection | sop_generator/utils/content_validator.py:747-775 | the method writes the lines of IssuesSection |
| ContentValidator.IssuesSectionSpec | sop_generator/utils/content_validator.py:747-775 | every critical issue is listed, at most 10 major and 5 minor ones, with the "... и еще N замечаний" line exactly when more than 5 minor issues exist; the severities partition the issues |
| ContentValidator.SeveritySplit | sop_generator/utils/content_validator.py:751-753 | the three severity lists partition the issues |
| ContentValidator.ClosingTierSpec | sop_generator/utils/content_validator.py:805-820 | the closing recommendation is rework exactly below 70 and nearly ready exactly at 85 or more, and is monotone in the score |
| SafetyIntegration.ProbabilityValue | sop_generator/utils/safety_integration.py:856-861 | a probability word's value lies in 1..5 |
| SafetyIntegration.SeverityValue | sop_generator/utils/safety_integration.py:856-861 | a severity word's value lies in 1..5 |
| SafetyIntegration.RiskRating | sop_generator/utils/safety_integration.py:856-861 | a rating lies in 1..25 |
| SafetyIntegration.RiskMatrix | sop_generator/utils/safety_integration.py:856-861 | the i-th probability with the j-th severity rates (i+1)(j+1); an unknown probability counts 3 and an unknown severity 2 |
| SafetyIntegration.RiskRatingMonotone | sop_generator/utils/safety_integration.py:856-861 | a rating never decreases when probability or severity rises on its scale |
| SafetyIntegration.SeverityToRiskLevelSpec | sop_generator/utils/safety_integration.py:863-870 | "Major" alone maps to high and "Minor" alone to low, every other word to medium, none to critical |
| SafetyIntegration.AssessRiskLevelSpec | sop_generator/utils/safety_integration.py:833-845 | high exactly when a high keyword occurs, medium exactly when only a medium one does, low otherwise, never critical |
| SafetyIntegration.AssessSeveritySpec | sop_generator/utils/safety_integration.py:847-854 | the severity is "Major", "Moderate" or "Minor", chosen by keyword with "Major" first; at medium probability it rates 6, 9 or 12 |
| SafetyIntegration.ControlMeasuresSpec | sop_generator/utils/safety_integration.py:872-907 | 1 to 5 measures: the specific group (at most 4) first, then the generic measures in order; only generic measures when no group applies; corrosion takes precedence |
| SafetyIntegration.GatheredSpec | sop_generator/utils/safety_integration.py:480-534 | a value is gathered exactly when some hazard gives it |
| SafetyIntegration.EnvironmentalRatingMismatch | sop_generator/utils/safety_integration.py:459-466 | the environmental analyzer's fixed rating 2 is not the matrix's Low × Minor (4); the corrected builder differs only in that rating; the physical analyzer's 9 is Medium × Moderate |
| SafetyIntegration.ScanBuildersSpec | sop_generator/utils/safety_integration.py:425-468 | the physical and environmental builders give numbered ids, the scan's category, the name as description and matrix-consistent ratings |
| SafetyIntegration.Detected | sop_generator/utils/safety_integration.py:421-470 | at most one detected name per pattern group |
| SafetyIntegration.ScanContent | sop_generator/utils/safety_integration.py:408-472 | the loop computes the hazards of ScanHazards |
| SafetyIntegration.AnalyzePhysicalHazards | sop_generator/utils/safety_integration.py:408-440 | `_analyze_physical_hazards` is the scan over the five physical groups |
| SafetyIntegration.AnalyzeEnvironmentalHazards | sop_generator/utils/safety_integration.py:442-472 | `_analyze_environmental_hazards` is the scan over the three environmental groups, with the fixed rating 2 the source writes |
| SafetyIntegration.EnvironmentalReportsAsWritten | sop_generator/utils/safety_integration.py:442-472 | each as-written environmental hazard is Low, rated 2 and so not matrix-consistent; the corrected scan reports the same hazards, with rating 4 as the only difference |
| SafetyIntegration.ScanHazardsSpec | sop_generator/utils/safety_integration.py:421-440 | the i-th hazard found is built as number i+1 from the i-th detected name |
| SafetyIntegration.DetectedMatch | sop_generator/utils/safety_integration.py:421-440 | every detected name belongs to a group with a pattern that occurs |
| SafetyIntegration.DetectedSpec | sop_generator/utils/safety_integration.py:421-440 | with distinct names, a group is detected exactly when one of its patterns occurs, and at most once |
| SafetyIntegration.CataloguesDistinct | sop_generator/utils/safety_integration.py:413-451 | the physical and environmental catalogues name each hazard once |
| SafetyIntegration.ScanReportsFor | sop_generator/utils/safety_integration.py:408-472 | a scan reports at most one hazard per group, numbered from 001, each rated and in the scan's category, distinct descriptions, and a group is reported exactly when it matches |
| SafetyIntegration.PhysicalReports | sop_generator/utils/safety_integration.py:408-440 | the physical scan reports each of its five hazards at most once, exactly when a pattern occurs, as PHYS_001, PHYS_002, ..., rated by the matrix |
| SafetyIntegration.EnvironmentalReports | sop_generator/utils/safety_integration.py:442-472 | the environmental scan reports each of its three hazards at most once, exactly when a pattern occurs, as ENV_001, ENV_002, ..., rated by the matrix |
| SafetyIntegration.ChemicalHazardSpec | sop_generator/utils/safety_integration.py:351-361 | a chemical record has id CHEM_nnn, chemical category, a matrix rating, a description starting with the chemical's name, and its class codes as references |
| SafetyIntegration.ClassHazards | sop_generator/utils/safety_integration.py:350-362 | one record per hazard of the class, numbered after those already found |
| SafetyIntegration.AppendClassHazards | sop_generator/utils/safety_integration.py:350-362 | the inner loop appends the class's records to the list |
| SafetyIntegration.AnalyzeChemicalHazards | sop_generator/utils/safety_integration.py:341-364 | `_analyze_chemical_hazards` computes ChemicalHazards |
| SafetyIntegration.ClassSources | sop_generator/utils/safety_integration.py:350 | each hazard of a class is paired with the class's codes |
| SafetyIntegration.ChemicalSourcesSpec | sop_generator/utils/safety_integration.py:348-350 | a description is a source exactly when it is a hazard of a class one of whose name parts occurs in the chemical |
| SafetyIntegration.ChemicalHazardsSpec | sop_generator/utils/safety_integration.py:348-362 | the i-th record is built as number i+1 from the i-th source |
| SafetyIntegration.AnalyzeChemicals | sop_generator/utils/safety_integration.py:315-324 | the two chemical loops of `analyze_hazards` compute ChemicalHazardsOf |
| SafetyIntegration.ChemicalReports | sop_generator/utils/safety_integration.py:341-364 | each chemical's records are numbered from CHEM_001, name the chemical and are rated by the matrix |
| SafetyIntegration.ChemicalHazardsOfRated | sop_generator/utils/safety_integration.py:315-324 | every chemical record of a list of chemicals is rated and chemical |
| SafetyIntegration.EquipmentHazardSpec | sop_generator/utils/safety_integration.py:393-403 | an equipment record has id EQ_nnn, level from the severity word, a matrix rating and a physical or chemical category |
| SafetyIntegration.EntryHazards | sop_generator/utils/safety_integration.py:391-404 | one record per hazard of the entry, numbered after those already found |
| SafetyIntegration.AppendEntryHazards | sop_generator/utils/safety_integration.py:391-404 | the inner loop appends the entry's records |
| SafetyIntegration.AnalyzeEquipmentHazards | sop_generator/utils/safety_integration.py:366-406 | `_analyze_equipment_hazards` computes EquipmentHazards |
| SafetyIntegration.EquipmentSourcesSpec | sop_generator/utils/safety_integration.py:389-391 | a hazard is a source exactly when its entry's key occurs in the equipment type |
| SafetyIntegration.EquipmentHazardsSpec | sop_generator/utils/safety_integration.py:389-404 | the i-th record is built as number i+1 from the i-th source |
| SafetyIntegration.EquipmentReports | sop_generator/utils/safety_integration.py:366-406 | equipment records are numbered from EQ_001, take their level from the severity, are rated by the matrix and are physical or chemical |
| SafetyIntegration.AnalyzeHazards | sop_generator/utils/safety_integration.py:309-339 | `analyze_hazards` concatenates the chemical, equipment, physical and environmental analyses, the last with the as-written rating 2 |
| SafetyIntegration.LeadingHazardsRated | sop_generator/utils/safety_integration.py:309-334 | every chemical, equipment and physical hazard is rated by the matrix and none is environmental |
| SafetyIntegration.AnalyzedHazardsRated | sop_generator/utils/safety_integration.py:309-339 | no analysed hazard is Critical; every non-environmental hazard is rated by the matrix, and every environmental one has rating 2, which the matrix does not give |
| SafetyIntegration.CorrectedHazardsRated | sop_generator/utils/safety_integration.py:309-339 | with the environmental rating corrected, every analysed hazard is rated by the matrix, and the corrected list differs from the as-written one only in the environmental ratings |
| SafetyIntegration.PpeDatabaseSpec | sop_generator/utils/safety_integration.py:119-170 | the PPE database holds eye, hand and respiratory protection, each with options |
| SafetyIntegration.PpeTypesForSpec | sop_generator/utils/safety_integration.py:480-497 | only chemical and physical hazards call for PPE; foot protection never; body protection exactly for a chemical hazard with an aggressive keyword |
| SafetyIntegration.CollectRequiredPpe | sop_generator/utils/safety_integration.py:479-497 | the first loop gathers the PPE types all hazards call for |
| SafetyIntegration.SelectPpe | sop_generator/utils/safety_integration.py:991-1002 | a selection exists exactly when there are options |
| SafetyIntegration.SelectPpeFirst | sop_generator/utils/safety_integration.py:994-999 | the selection is the first option that applies to some hazard |
| SafetyIntegration.SelectPpeDefault | sop_generator/utils/safety_integration.py:1001-1002 | when no option applies, the first option is selected |
| SafetyIntegration.SelectAppropriatePpe | sop_generator/utils/safety_integration.py:991-1002 | `_select_appropriate_ppe` computes SelectPpe |
| SafetyIntegration.WritePpeRequirements | sop_generator/utils/safety_integration.py:499-514 | every requirement is written from a required type the database holds, every such type gets one, and no type twice |
| SafetyIntegration.DistinctPpeBound | sop_generator/utils/safety_integration.py:499-514 | requirements of distinct database types are at most as many as its types |
| SafetyIntegration.GeneratePpeRequirements | sop_generator/utils/safety_integration.py:474-516 | one requirement per required type the database holds, none twice, at most as many as the database's types |
| SafetyIntegration.SelectScenarios | sop_generator/utils/safety_integration.py:524-534 | the scenario loop gathers what each hazard calls for |
| SafetyIntegration.ScenariosForSpec | sop_generator/utils/safety_integration.py:527-533 | a chemical hazard calls for the spill procedure, and the fire procedure with a fire keyword; a non-chemical high or critical hazard calls for the injury procedure |
| SafetyIntegration.RelevantScenariosSpec | sop_generator/utils/safety_integration.py:524-534 | each scenario is selected exactly when some hazard calls for it |
| SafetyIntegration.SafetyIntegrationScoreSpec | sop_generator/utils/safety_integration.py:1004-1018 | the score is 75 + min(2h, 15) + min(3p, 10), lies in 75..100, is monotone, and is 100 exactly when h ≥ 8 and p ≥ 4 |
| SafetyIntegration.CriticalCount | sop_generator/utils/safety_integration.py:1031 | the critical count is at most the number of hazards |
| SafetyIntegration.NoCriticalCount | sop_generator/utils/safety_integration.py:1031-1033 | no critical hazard gives a count of 0 |
| SafetyIntegration.CriticalSafetyGapsSpec | sop_generator/utils/safety_integration.py:1020-1041 | each of the four gaps is reported exactly when its check fails, at most once |
| SafetyIntegration.PerformSafetyIntegration | sop_generator/utils/safety_integration.py:679-707 | hazards (as written, environmental ones rated 2), PPE, score and gaps as specified; the critical-risk gap never occurs; with the three-type database the score stays below 100 |
| SafetyIntegration.CallAsWritten | sop_generator/utils/safety_integration.py:56-64 | an `EmergencyProcedure(...)` call builds a record exactly when it passes both Optional fields, which have no default |
| SafetyIntegration.IntegratorConstructorRaises | sop_generator/utils/safety_integration.py:80-84 | each of the three emergency-procedure calls omits a required field, so loading the table, and with it the constructor, fails |
| SafetyIntegration.LoadEmergencyProcedures | sop_generator/utils/safety_integration.py:227-307 | with the omitted Optional fields defaulting to None, the table's keys are exactly the calls' scenario keys |
| SafetyIntegration.EmergencyTableSpec | sop_generator/utils/safety_integration.py:227-307 | the corrected table holds the spill, fire and injury procedures, covers every scenario the hazards can select, and gives the spill a cleanup only, the fire an evacuation only and the injury neither |
| EquipmentEngine.ValueInjective | sop_generator/utils/equipment_engine.py:8-15 | distinct equipment types have distinct values |
| EquipmentEngine.Rank | sop_generator/utils/equipment_engine.py:323-354 | a type's place in the pattern table; exactly the generic type has none |
| EquipmentEngine.AddDocument | sop_generator/utils/equipment_engine.py:367-373 | adding one reference document's hits keeps a score per type |
| EquipmentEngine.Weighted | sop_generator/utils/equipment_engine.py:357-373 | the weighted scores keep a score per type |
| EquipmentEngine.WeightedSpec | sop_generator/utils/equipment_engine.py:357-373 | each type's score is its description hits plus twice its reference-document hits |
| EquipmentEngine.FirstMax | sop_generator/utils/equipment_engine.py:376 | the first largest position is among the first n |
| EquipmentEngine.FirstMaxSpec | sop_generator/utils/equipment_engine.py:376 | the position holds the largest score, and every earlier position a strictly smaller one, as `max` keeps the first maximum |
| EquipmentEngine.IdentifiedSpec | sop_generator/utils/equipment_engine.py:375-378 | the generic type exactly when every score is 0; otherwise the first type in table order with the largest, positive score |
| EquipmentEngine.AddReferenceHits | sop_generator/utils/equipment_engine.py:367-373 | the inner loop adds one document's doubled hits, as AddDocument |
| EquipmentEngine.IdentifyEquipmentType | sop_generator/utils/equipment_engine.py:317-378 | `identify_equipment_type` returns the type identified from the weighted scores |
| EquipmentEngine.BuilderForSpec | sop_generator/utils/equipment_engine.py:447-463 | the seven named section types get their own builders; any other gets the generic builder with the type itself |
| EquipmentEngine.ContentPlanSpec | sop_generator/utils/equipment_engine.py:436-446 | the lookup succeeds exactly when the type or the generic type is in the database, and uses the type's own entry when present |
| EquipmentEngine.SourceDatabaseLookup | sop_generator/utils/equipment_engine.py:37-315 | on the engine's own database the lookup succeeds exactly for the three stored types, with the type's own entry; otherwise it fails with a missing key |
| EquipmentEngine.NoHitsNoContent | sop_generator/utils/equipment_engine.py:375-444 | a description and documents without hits are classified as generic, for which the engine's database has no entry |
| EquipmentEngine.ParameterStepsSpec | sop_generator/utils/equipment_engine.py:519-524 | the parameter steps exist exactly when every parameter has a typical value, one per parameter numbered from 3 with its first typical value |
| EquipmentEngine.OperatingProcedureSteps | sop_generator/utils/equipment_engine.py:499-538 | the method computes the step list OperatingSteps |
| EquipmentEngine.OperatingStepsSpec | sop_generator/utils/equipment_engine.py:499-538 | fails exactly when one of the first four parameters has no typical value; otherwise min(n, 4) + 4 steps: 1, 2, one per parameter from 3, then n + 3 and n + 4 |
| EquipmentEngine.StepNumbering | sop_generator/utils/equipment_engine.py:519-531 | the steps are numbered 1, 2, 3, ... without a gap exactly when there are at most four parameters |
| EquipmentEngine.FirstsLength | sop_generator/utils/equipment_engine.py:397-429 | each pattern contributes at most its cap of matches |
| EquipmentEngine.FirstsMembers | sop_generator/utils/equipment_engine.py:397-429 | every kept match is one of the first cap matches of some pattern |
| EquipmentEngine.ReadingsOf | sop_generator/utils/equipment_engine.py:410-418 | a name's readings are at most the matches |
| EquipmentEngine.GroupedSpec | sop_generator/utils/equipment_engine.py:410-418 | the parameter dictionary has a key exactly for each matched name, holding that name's readings in match order |
| EquipmentEngine.NoReadingsWithoutName | sop_generator/utils/equipment_engine.py:410-418 | a name never matched has no readings |
| EquipmentEngine.CollectStripped | sop_generator/utils/equipment_engine.py:397-429 | the loop keeps the stripped first cap matches of each pattern |
| EquipmentEngine.CollectParameters | sop_generator/utils/equipment_engine.py:410-418 | the nested loop groups the first ten matches of each parameter pattern by name |
| EquipmentEngine.RecordAll | sop_generator/utils/equipment_engine.py:411-418 | the inner loop records one pattern's matches into the dictionary |
| EquipmentEngine.ExtractEquipmentContext | sop_generator/utils/equipment_engine.py:380-434 | `extract_equipment_context` computes ContextOf |
| EquipmentEngine.ContextBounds | sop_generator/utils/equipment_engine.py:380-434 | at most 5 models and 5 safety notes per pattern and 10 readings per parameter pattern, each reading under the name it matched |
| EquipmentEngine.GetEquipmentDatabaseInfo | sop_generator/utils/equipment_engine.py:795-810 | one entry per database type under the type's value, with the lengths of the specification's lists |
| EquipmentEngine.SourceDatabaseInfoKeys | sop_generator/utils/equipment_engine.py:795-810 | the engine's own database is summarised under "chromatography", "spectroscopy" and "analytical_balance" only |
| AdvancedPrompts.MapEquipmentTypeSpec | sop_generator/utils/advanced_prompts.py:712-729 | the category is that of the first keyword group found in the lower-cased text, no earlier one being found; generic exactly when none is found |
| AdvancedPrompts.MapSectionTitleSpec | sop_generator/utils/advanced_prompts.py:731-754 | the section type is that of the first keyword group found in the lower-cased title, no earlier one being found; procedures when none is found |
| AdvancedPrompts.Lookup | sop_generator/utils/advanced_prompts.py:579-581 | a template is found exactly when the category has one, and it is the one stored under it |
| AdvancedPrompts.ChooseTemplateSpec | sop_generator/utils/advanced_prompts.py:578-598 | the category's own template, else the generic one, else the first one; a minimal template when the section type has none |
| AdvancedPrompts.SourceWellFormed | sop_generator/utils/advanced_prompts.py:55-502 | the engine's template table is well formed |
| AdvancedPrompts.SourceProceduresTemplate | sop_generator/utils/advanced_prompts.py:55-502 | with the engine's table, every procedures prompt uses the chromatography template, whatever the equipment |
| AdvancedPrompts.SourceSafetyTemplate | sop_generator/utils/advanced_prompts.py:55-502 | a safety prompt for equipment other than chromatography falls back to the generic template |
| AdvancedPrompts.SourceMinimalTemplate | sop_generator/utils/advanced_prompts.py:55-502 | five of the nine section types have no templates and always get the minimal one |
| AdvancedPrompts.PromptPartsSpec | sop_generator/utils/advanced_prompts.py:600-652 | the prompt starts with the base prompt and has one part per context given, four headings, one per requirement, the custom block when there are custom requirements, and the fixed standards and format lines |
| AdvancedPrompts.PromptClipsContext | sop_generator/utils/advanced_prompts.py:607-611 | only the first 1000 characters of the reference context and the first 500 of the previous summary reach the prompt |
| AdvancedPrompts.AppendRequirements | sop_generator/utils/advanced_prompts.py:613-628 | the loop appends a heading and one marked line per requirement |
| AdvancedPrompts.AppendTemplateRequirements | sop_generator/utils/advanced_prompts.py:612-628 | the four requirement lists are appended in turn |
| AdvancedPrompts.GenerateAdvancedPrompt | sop_generator/utils/advanced_prompts.py:570-654 | `generate_advanced_prompt` joins the parts of the chosen template's prompt |
| AdvancedPrompts.EntryMaker | sop_generator/utils/advanced_prompts.py:668-703 | the entry builder applies to every section position |
| AdvancedPrompts.SectionPrompts | sop_generator/utils/advanced_prompts.py:656-710 | one entry per section configuration |
| AdvancedPrompts.PromptEntryFor | sop_generator/utils/advanced_prompts.py:668-703 | the loop body builds section i's entry from the summary of the sections before it |
| AdvancedPrompts.ExtendSummary | sop_generator/utils/advanced_prompts.py:706-707 | a generated section adds " title;" to the summary, a manual one nothing |
| AdvancedPrompts.GenerateSectionSpecificPrompts | sop_generator/utils/advanced_prompts.py:656-710 | `generate_section_specific_prompts` computes SectionPrompts |
| AdvancedPrompts.SectionPromptsSpec | sop_generator/utils/advanced_prompts.py:668-703 | every entry keeps its title and mode; manual exactly when it has no section type, with the fixed manual prompt; otherwise the types the title and the equipment map to |
| AdvancedPrompts.PreviousSummaryNonEmpty | sop_generator/utils/advanced_prompts.py:690-707 | the summary is non-empty exactly when an earlier section is not manual |
| AdvancedPrompts.ValidationScores | sop_generator/utils/advanced_prompts.py:756-825 | each sub-score lies in [0, 100] and is 100 exactly when all its tests hold; the overall score is the truncated mean |
| AdvancedPrompts.ValidationRecommendations | sop_generator/utils/advanced_prompts.py:827-837 | one recommendation per sub-score below 75, in category order, so at most four |
| Markdown.SeparatorChars | sop_generator/utils/exporter.py:306-308 | a separator line, stripped, starts with '\|' and holds only pipes, rule characters and spaces |
| Markdown.RuleRowIsSeparator | sop_generator/utils/exporter.py:306-308 | a stripped line that starts with '\|' and holds only pipes and rule characters is a separator |
| Markdown.LonePipeIsSeparator | sop_generator/utils/exporter.py:306-308 | a lone "\|" counts as a separator, since the empty set is a subset |
| Markdown.AlignedRuleIsSeparator | sop_generator/utils/exporter.py:306-308 | "\|---\|:-:\|" is a separator |
| Markdown.SpacedRuleIsNotSeparator | sop_generator/utils/exporter.py:306-308 | "\|- -\|" is not a separator: the inner space stays after the strip |
| Markdown.TrimBoundaryWindow | sop_generator/utils/exporter.py:370-374 | trimming drops at most the first and the last cell, and only empty ones |
| Markdown.RowCellsWindow | sop_generator/utils/exporter.py:370-374 | a row's cells are its stripped pipe-separated pieces less at most an empty first and an empty last one |
| Markdown.RowCellsClean | sop_generator/utils/exporter.py:370-374 | every cell is stripped and holds no pipe |
| Markdown.Width | sop_generator/utils/exporter.py:378 | the table width is the length of the longest row, 0 for no rows |
| Markdown.Padded | sop_generator/utils/exporter.py:383-386 | padding keeps one row per row |
| Markdown.PaddedSpec | sop_generator/utils/exporter.py:383-386 | every padded row has the table's width, keeps its own cells and fills the rest with "" |
| Markdown.FillTable | sop_generator/utils/exporter.py:377-386 | the grid has one row per table row and the table's width, and each cell holds the row's cell or "" |
| Markdown.Grid | sop_generator/utils/exporter.py:377-386 | reading a grid back gives one row per grid row, each of the grid's width |
| Markdown.EmitTable | sop_generator/utils/exporter.py:377-386 | the table written to the document, read back, is the rows padded to the widest row |
| Markdown.Hashes | sop_generator/utils/exporter.py:338-340 | the leading '#' count is at most the line's length |
| Markdown.HashesSpec | sop_generator/utils/exporter.py:338-340 | the count covers exactly the leading '#' characters |
| Markdown.HeadingSpec | sop_generator/utils/exporter.py:338-345 | a line is a heading exactly when it starts with '#' and is not "#" alone; the level is the hash count capped at 6, the text the stripped rest, and an all-hash line keeps its last '#' as text |
| Markdown.HeaderStartIsHeading | sop_generator/utils/exporter.py:338-345 | a line that starts a header (hashes then a space) is a heading of that many levels |
| Markdown.BlankRun | sop_generator/utils/exporter.py:330-333 | the skipped blank run is at most its cap and stays within the lines |
| Markdown.TitleSkipSpec | sop_generator/utils/exporter.py:326-336 | the embedded title, at most two blank lines and a "номер:" line after them are skipped: 1 to 4 lines |
| Markdown.BlankRunSpec | sop_generator/utils/exporter.py:330-333 | every skipped line is blank |
| Markdown.SkipEmbeddedTitle | sop_generator/utils/exporter.py:326-336 | the skip loop ends where TitleSkipEnd says |
| Markdown.BlockEnd | sop_generator/utils/exporter.py:350-361 | the table block ends within the lines, at or after its start |
| Markdown.SawSeparatorSnoc | sop_generator/utils/exporter.py:358-359 | one more line marks the block as a table exactly when it or an earlier line does |
| Markdown.TableRowsSpec | sop_generator/utils/exporter.py:362-376 | at most one row per block line, each the non-empty cells of a non-rule line with a pipe |
| Markdown.CollectTableRows | sop_generator/utils/exporter.py:362-376 | the loop collects TableRows |
| Markdown.ScanBlock | sop_generator/utils/exporter.py:347-361 | the block loop ends at BlockEnd and reports whether a separator was seen |
| Markdown.BulletEnd | sop_generator/utils/exporter.py:399-406 | the bullet run ends within the lines |
| Markdown.Bullets | sop_generator/utils/exporter.py:391-406 | one bullet block per line of the run |
| Markdown.CollectBullets | sop_generator/utils/exporter.py:391-407 | the loop emits the bullets of the run and stops at its end |
| Markdown.ParagraphEnd | sop_generator/utils/exporter.py:410-415 | the paragraph ends within the lines |
| Markdown.RStripAll | sop_generator/utils/exporter.py:413 | right-stripping keeps one line per line |
| Markdown.CollectParagraph | sop_generator/utils/exporter.py:409-417 | the paragraph joins its right-stripped lines with newlines and stops at ParagraphEnd |
| Markdown.StepAt | sop_generator/utils/exporter.py:320-417 | every step of the outer loop advances |
| Markdown.BlocksFromStep | sop_generator/utils/exporter.py:320-417 | the blocks from a line are the step's blocks followed by the blocks from where it ends |
| Markdown.WriteStep | sop_generator/utils/exporter.py:320-417 | one pass of the loop emits the step's blocks and advances to its end |
| Markdown.WriteMarkdown | sop_generator/utils/exporter.py:317-417 | `_write_markdown_to_docx` emits MarkdownBlocks of the content's lines |
| Markdown.TableOfWellFormed | sop_generator/utils/exporter.py:362-386 | every table emitted is well formed: non-empty rows of clean cells |
| Markdown.StepSize | sop_generator/utils/exporter.py:320-417 | a step emits at most one block per line it consumes |
| Markdown.StepWellFormed | sop_generator/utils/exporter.py:320-417 | every block a step emits is well formed |
| Markdown.BlocksSpec | sop_generator/utils/exporter.py:317-417 | at most one block per line, every block well formed |
| Markdown.EmbeddedTitleSkipped | sop_generator/utils/exporter.py:326-336 | an embedded copy of the document title emits nothing and resumes after the skipped lines |
| Keywords.FirstHitFromSpec | sop_generator/utils/advanced_prompts.py:715-729 | the first group found from position k is found, and no group between k and it is |
| Keywords.FirstMatchSpec | sop_generator/utils/advanced_prompts.py:715-754 | the answer is that of the first group found; the default exactly when no group is found, when no group answers the default |
| Exporter.PopulateDocx | sop_generator/utils/exporter.py:109-133 | `populate_docx` builds DocxDocument with the markdown writer for the title |
| Exporter.HeaderItems | sop_generator/utils/exporter.py:110-123 | the header holds the title, the number line and the equipment line when given, and a page break |
| Exporter.SectionItems | sop_generator/utils/exporter.py:126-131 | a section is its heading then its written content when non-empty |
| Exporter.DocxSectionHeadingOnly | sop_generator/utils/exporter.py:126-131 | a section adds exactly one section heading, its title or "Раздел i", and no meta line |
| Exporter.DocxSectionHeadings | sop_generator/utils/exporter.py:126-131 | one section heading per section, in order, numbered from 1 in the fallback |
| Exporter.DocxHeaderFilters | sop_generator/utils/exporter.py:110-123 | the header has no section heading, and has the number and equipment lines exactly when those fields are non-empty |
| Exporter.DocxDocumentSpec | sop_generator/utils/exporter.py:109-133 | the document opens with the title and holds the meta lines and one section heading per section in order |
| Exporter.TitleFallbacks | sop_generator/utils/exporter.py:110-127 | the title falls back to "Стандартная операционная процедура" exactly when missing or empty; a section title is never empty, and two untitled sections get different titles |
| Exporter.NonBlankLines | sop_generator/utils/exporter.py:220 | keeps only non-blank lines |
| Exporter.CollectPdfRows | sop_generator/utils/exporter.py:230-245 | the loop collects PdfRows |
| Exporter.PdfRowsSnoc | sop_generator/utils/exporter.py:230-245 | one more line adds its cells as a row unless it is a rule, has no pipe or has no cells; the rows survive only if every non-rule line has a pipe |
| Exporter.ContentItems | sop_generator/utils/exporter.py:214-284 | the paragraph loop emits the items of each paragraph in turn |
| Documents.ContentItemsSnoc | sop_generator/utils/exporter.py:215 | one more paragraph appends its items to a section's PDF content; export_manager.py:302 has the same loop |
| Exporter.ParagraphItems | sop_generator/utils/exporter.py:216-284 | the loop body emits PdfParagraphItems |
| Exporter.ExportPdf | sop_generator/utils/exporter.py:141-303 | `export_to_pdf` builds PdfStory |
| Exporter.PdfHeaderItems | sop_generator/utils/exporter.py:198-206 | the header is the title ("СОП" by default), then the number and equipment lines when non-empty |
| Exporter.PdfSectionItems | sop_generator/utils/exporter.py:208-286 | a section is its numbered heading then its paragraphs' items |
| Exporter.PdfParagraphSpec | sop_generator/utils/exporter.py:216-284 | a blank paragraph emits nothing; otherwise one item, a table only when the lines look like a table, and every table well formed |
| Exporter.ReaderAddsNoHeadings | sop_generator/utils/exporter.py:216-284 | no paragraph emits a section heading |
| Documents.ContentHasNoHeadings | sop_generator/utils/exporter.py:214-284 | no section content emits a section heading, in either exporter (export_manager.py:301-339 likewise) |
| Exporter.PdfSectionHeadingOnly | sop_generator/utils/exporter.py:208-286 | a section adds exactly one heading, "i. title" or "i. Раздел i" |
| Exporter.PdfSectionHeadings | sop_generator/utils/exporter.py:208-286 | one heading per section, in order |
| Exporter.PdfStorySpec | sop_generator/utils/exporter.py:196-288 | the story opens with the title and holds one section heading per section, in order |
| Exporter.HeaderHasNoHeadings | sop_generator/utils/exporter.py:198-206 | the header adds no section heading |
| Exporter.LongestCell | sop_generator/utils/exporter.py:249-254 | a column length is at least 1 |
| Exporter.LongestCellSpec | sop_generator/utils/exporter.py:249-254 | a column's length bounds every cell in it and is 1 or some cell's length |
| Exporter.LongestCellSnoc | sop_generator/utils/exporter.py:251-254 | one more row widens each column to that row's cell if longer |
| Exporter.ColumnLengths | sop_generator/utils/exporter.py:248-254 | the loop computes one length per column, the longest cell or 1 |
| Exporter.Widen | sop_generator/utils/exporter.py:252-254 | the inner loop widens each column to the row's cell |
| ExportManager.PopulateDocx | sop_generator/utils/export_manager.py:195-218 | `populate_docx` builds DocxDocument, failing with a missing key when a section of several has no title |
| ExportManager.HeaderItems | sop_generator/utils/export_manager.py:199-205 | the header is the title ("СОП" by default) and the number line when non-empty |
| ExportManager.SectionItems | sop_generator/utils/export_manager.py:214-217 | a section is its numbered heading then its written content |
| ExportManager.DocxBodySome | sop_generator/utils/export_manager.py:214-217 | the body exists exactly when every section has a title |
| ExportManager.DocxSectionHeadingOnly | sop_generator/utils/export_manager.py:214-217 | a section adds exactly one heading, "i. title", and no meta line |
| ExportManager.SectionWriterHeadings | sop_generator/utils/export_manager.py:214-217 | the section writer adds exactly one numbered heading and no meta line |
| ExportManager.DocxBodyHeadings | sop_generator/utils/export_manager.py:214-217 | one numbered heading per section, in order, and no meta line |
| ExportManager.DocxHeaderSpec | sop_generator/utils/export_manager.py:199-205 | the header opens with the title, has no section heading and a number line exactly when the number is non-empty |
| ExportManager.SingleSectionHasNoHeading | sop_generator/utils/export_manager.py:207-211 | a single section is written without a section heading, whatever its title |
| ExportManager.ManySectionsNumbered | sop_generator/utils/export_manager.py:213-218 | with several sections the document exists exactly when each has a title, and has one numbered heading per section in order |
| ExportManager.BreakLines | sop_generator/utils/export_manager.py:336-337 | text without a newline is unchanged |
| ExportManager.BreakLinesSpec | sop_generator/utils/export_manager.py:336-337 | no newline survives, text without one is unchanged, and nothing gets shorter |
| ExportManager.ExportPdf | sop_generator/utils/export_manager.py:228-343 | `export_to_pdf` builds PdfStory, failing when PDF generation is unavailable or a section has no title |
| ExportManager.PdfHeaderItems | sop_generator/utils/export_manager.py:289-294 | the header is the title and the number line when non-empty |
| ExportManager.PdfSectionItems | sop_generator/utils/export_manager.py:296-341 | a section is its numbered heading then its paragraphs' items |
| ExportManager.ReadContent | sop_generator/utils/export_manager.py:301-339 | the paragraph loop emits the items of each paragraph in turn |
| ExportManager.ReadParagraph | sop_generator/utils/export_manager.py:303-339 | the loop body emits PdfParagraphItems |
| ExportManager.CollectRows | sop_generator/utils/export_manager.py:308-313 | the loop collects PdfRows |
| ExportManager.PdfBodySome | sop_generator/utils/export_manager.py:296-341 | the body exists exactly when every section has a title |
| ExportManager.PdfCellsAreNonEmptyRowCells | sop_generator/utils/export_manager.py:311 | the PDF cells of a line are its non-empty stripped pieces |
| ExportManager.PdfCellsClean | sop_generator/utils/export_manager.py:311 | every PDF cell is non-empty, stripped and pipe-free |
| ExportManager.PdfRowsSpec | sop_generator/utils/export_manager.py:308-313 | at most one row per line, each the non-empty cells of a line with a pipe that does not start a rule |
| ExportManager.PdfParagraphSpec | sop_generator/utils/export_manager.py:303-339 | at most one item per paragraph: none for a blank paragraph or a table without rows; a table exactly when the paragraph has a pipe and a rule; otherwise its text with newlines as line breaks |
| ExportManager.ReaderAddsNoHeadings | sop_generator/utils/export_manager.py:303-339 | no paragraph emits a section heading |
| ExportManager.PdfSectionHeadingOnly | sop_generator/utils/export_manager.py:296-341 | a section adds exactly one heading, "i. title" |
| ExportManager.SectionReaderHeadings | sop_generator/utils/export_manager.py:296-341 | the section reader adds exactly one numbered heading |
| ExportManager.PdfBodyHeadings | sop_generator/utils/export_manager.py:296-341 | one numbered heading per section, in order |
| ExportManager.PdfStorySpec | sop_generator/utils/export_manager.py:228-343 | the story exists exactly when PDF generation is available and every section has a title; it opens with the title and has one numbered heading per section in order |
| Session.LastLogs | app_local.py:65 | the kept log has at most 500 entries, all of it when shorter |
| Session.LastLogsSpec | app_local.py:65 | the kept log is the newest suffix of the history and the whole history while it holds at most 500 entries |
| Session.LastLogsAppend | app_local.py:62-65 | trimming after every append keeps exactly the newest 500 messages of the full history |
| Session.SessionState.constructor | app_local.py:62-63 | a fresh session starts with an empty log |
| Session.SessionState.AddLog | app_local.py:59-68 | `add_log` appends the message and keeps the newest 500 entries; the message is the last entry afterwards |
| Session.NoContentPreviewSpec | app_local.py:419-420 | blank content gives every configured section the text "Нет содержания" under its title; an untitled config fails the lookup |
| StreamlitApp.ParseSections | sop_generator/app.py:302-324 | `parse_sections_from_content` builds the preview described by PreviewSpec |
| StreamlitApp.Placeholders | sop_generator/app.py:304-305 | blank content yields the "Нет содержания" placeholder for every section |
| StreamlitApp.PreviewFromSpec | sop_generator/app.py:310-323 | each section keeps its title; a manual section with content keeps that content and every other section receives the whole generated text |
| StreamlitApp.PreviewSpec | sop_generator/app.py:302-324 | the preview has one entry per configured section, exists exactly when every section has a title, and holds the placeholder, the manual content or the whole text as the three branches decide |
| MockRun.NextBreak | app_local.py:322 | the next split point is a newline followed by a heading start, or the end of the text |
| MockRun.HeadingPartsSpec | app_local.py:322 | splitting before each "## N." heading loses nothing (the parts joined by newlines give the text back) and every part after the first starts with "##" |
| MockRun.PartsAtJoin | app_local.py:322 | the split parts joined by newlines give the original text |
| MockRun.PartsAtFirst | app_local.py:322 | text that starts with "##" has a first part that starts with "##" |
| MockRun.PartsAtStart | app_local.py:322 | every part after the first starts at a heading |
| MockRun.BodySectionsKeepHeadings | app_local.py:330 | `body_sections` keeps every heading part and only parts that start with "##" |
| MockRun.AfterFirstLine | app_local.py:333-334 | dropping the heading line shortens the part, or leaves nothing when there is no second line |
| MockRun.EntriesSpec | app_local.py:325-339 | the per-config loop produces exactly one entry per configured section, in order |
| MockRun.MockParse | app_local.py:317-340 | the nested mock `parse_sections_from_content` computes MockPreview |
| MockRun.FallbackLoop | app_local.py:324-328 | with at most one part, every section gets its title (default "Раздел") and the whole text |
| MockRun.ParsedLoop | app_local.py:331-339 | the per-config loop over the body sections computes the entries in order |
| MockRun.ParsedEntry | app_local.py:332-339 | section k gets the k-th body section without its heading line, stripped, or "" past the end |
| MockRun.MockPreviewSpec | app_local.py:317-340 | one entry per section; without a heading split every section holds the whole text; otherwise section k is titled by its config (default "Раздел k+1") and holds the k-th body section minus its heading line |
| MockRun.EnsureSpec | app_local.py:276-288 | an amendment leaves its marker in the draft and keeps everything the draft already contained |
| MockRun.ReviewedIssues | app_local.py:290-296 | after the safety and quality amendments the mock critic can only report the missing purpose/scope |
| MockRun.AgentsAmend | app_local.py:244-288 | the draft of one round is the composed outline with the safety and quality notes appended where their markers are missing |
| MockRun.ReviewRounds | app_local.py:242-304 | the round loop ends approved, after one round when the purpose is stated and after all three rounds otherwise, and the final text is the amended draft |
| RobustParser.FilterLines | app_local.py:422-443 | the pre-filter loop keeps exactly the lines the Filtered specification keeps |
| RobustParser.FilteredKeeps | app_local.py:422-444 | the kept lines are the input lines in their order, and no kept line is a specification-block trigger or a dropped artefact line |
| RobustParser.SpecBlockDropped | app_local.py:428-440 | once a specification-block trigger is seen, every line up to the next block-ending line is dropped and skipping stays on |
| RobustParser.FilteredKeepsText | app_local.py:435-443 | an ordinary line outside a specification block, or one that ends the block, is kept |
| RobustParser.HeaderTitle | app_local.py:461-468 | a recognised header yields a non-empty title with the asterisks removed |
| RobustParser.ScanLines | app_local.py:470-490 | the header scan loop computes ParsedSections |
| RobustParser.ScannedOpen | app_local.py:470-490 | a section is open after the scan exactly when some line was a header, and body text is only collected under an open section |
| RobustParser.ScannedTitles | app_local.py:461-481 | every parsed and open section title is non-empty and free of asterisks |
| RobustParser.ScannedCollected | app_local.py:470-490 | the scan has collected something exactly when some header line is followed by a line |
| RobustParser.TextAfterHeaderGrows | app_local.py:470-490 | adding a line never takes away collected sections |
| RobustParser.TextAfterHeaderAtHeader | app_local.py:472-481 | a trailing header adds no collected section of its own |
| RobustParser.TextAfterHeaderNeedsHeader | app_local.py:482-483 | lines before the first header are never collected |
| RobustParser.ParsedSectionsSpec | app_local.py:470-490 | the scan yields sections exactly when a header is followed by a line, and each has a clean non-empty title |
| RobustParser.WithFallback | app_local.py:492-494 | without parsed sections the whole text becomes one "Документ" section, so at least one section always exists |
| RobustParser.WithoutPreamble | app_local.py:496-502 | dropping the preamble never empties the section list |
| RobustParser.WithoutPreambleSpec | app_local.py:496-502 | the list is unchanged or its first section is a preamble and is the only one removed |
| RobustParser.SourceSections | app_local.py:417-502 | the parsed source always holds at least one section |
| RobustParser.ReadSections | app_local.py:422-502 | filtering, re-splitting, scanning, the fallback and the preamble drop compute SourceSections |
| RobustParser.ResplitKept | app_local.py:444-448 | joining the kept lines and splitting them again gives the same lines back |
| SectionMatching.GuessKeySpec | app_local.py:517-536 | `guess_key_from_text` answers the key of the first rule (in source order) whose keywords occur in the lower-cased text, and None exactly when no rule matches |
| SectionMatching.Candidates | app_local.py:538-542 | one guess per parsed section |
| SectionMatching.CandidatesSpec | app_local.py:538-542 | each parsed section is paired with the key guessed from its title, a newline and its content |
| SectionMatching.GuessAll | app_local.py:538-542 | the guessing loop computes Candidates |
| SectionMatching.FirstFrom | app_local.py:556-587 | a forward search answers an index in range that passes the test |
| SectionMatching.FirstFromSpec | app_local.py:556-587 | the search answers the first passing index, and nothing exactly when no index passes |
| SectionMatching.FindFirst | app_local.py:556-587 | the search loop computes FirstFrom from index 0 |
| SectionMatching.ChooseSpec | app_local.py:553-590 | a chosen section is unused and has content, the last-resort pick is the last parsed section, nothing is chosen only when nothing was parsed, and a key match wins when one exists |
| SectionMatching.ChooseIndex | app_local.py:553-590 | the three fallback loops compute the chosen index and content of Choose |
| SectionMatching.MatchOneSpec | app_local.py:546-601 | a manual section with content keeps it verbatim; any other section gets the title after the generic-title rename and the content of an unused non-empty parsed section, the last one, or "" |
| SectionMatching.MatchConfig | app_local.py:546-601 | one iteration of the matching loop computes MatchOne's entry and records its chosen index |
| SectionMatching.MatchSections | app_local.py:544-603 | the matching loop succeeds exactly when MatchAll does and yields its entries |
| SectionMatching.MatchNext | app_local.py:546-601 | one iteration extends the state of the first k configs to that of the first k+1 |
| SectionMatching.MatchAllNone | app_local.py:547 | an untitled config makes the whole matching fail (the title lookup raises) |
| SectionMatching.MatchAllSome | app_local.py:544-603 | matching succeeds exactly when every config has a title |
| SectionMatching.MatchAllShape | app_local.py:544-603 | a successful match has one entry and one pick per config, and the used set is the set of chosen indices |
| SectionMatching.MatchAllAt | app_local.py:544-603 | entry k is the single-config match against the indices used by the first k picks |
| SectionMatching.MatchAllStep | app_local.py:544-603 | the last config is matched against the state left by the earlier ones and adds its chosen index to the used set |
| SectionMatching.UsedByHas | app_local.py:589-590 | an index chosen earlier stays in the used set |
| SectionMatching.MatchAllSpec | app_local.py:544-603 | every configured section in order gets the manual content or a picked parsed section per MatchOneSpec, and a fresh pick was unused by all earlier sections |
| SectionMatching.FreshPicksUnused | app_local.py:556-590 | no parsed section is consumed twice by fresh picks: a later fresh pick differs from every earlier chosen index |
| SectionMatching.RobustParse | app_local.py:417-603 | the robust `parse_sections_from_content` computes RobustPreview |
| SectionMatching.RobustPreviewSpec | app_local.py:417-603 | the preview exists exactly when every config is titled; it has one entry per config; blank content gives the placeholder, manual content is kept, and every other entry holds the content of some parsed section and is renamed only from a generic "Раздел N" title to the canonical title of its guessed key |
| SectionArgs.SplitAtMost | sop_generator/cli.py:23 | `split("\|", 2)` yields between one and three parts |
| SectionArgs.SplitAtMostJoin | sop_generator/cli.py:23 | the parts joined by the separator give the argument back |
| SectionArgs.JoinAtOccurrence | sop_generator/cli.py:23 | splitting at an occurrence of the separator and rejoining gives the text back |
| SectionArgs.SplitAtMostFree | sop_generator/cli.py:23 | every part except the last is free of the separator, and so is the last when the split limit was not reached |
| SectionArgs.SplitAtMostStep | sop_generator/cli.py:23 | a separator-free prefix becomes the first part and the rest is split with one fewer cut |
| SectionArgs.ParseSectionArg | sop_generator/cli.py:21-27 | `_parse_section_arg` always gives a title, a mode, a prompt and empty content |
| SectionArgs.ParseTitleOnly | sop_generator/cli.py:24-27 | a bare title gives mode "ai" and an empty prompt |
| SectionArgs.ParseTitleMode | sop_generator/cli.py:24-27 | "title\|mode" gives the stripped title and mode and an empty prompt |
| SectionArgs.ParseRoundTrip | sop_generator/cli.py:21-27 | parsing "title\|mode\|prompt" built from stripped, separator-free title and mode gives those three fields back |
| SectionArgs.ParseFields | sop_generator/main.py:21-27 | the parsed title never holds the separator, nor does the mode unless defaulted; content is always empty |
| SectionArgs.Slice | sop_generator/cli.py:71 | Python slicing clamps both ends to the list |
| SectionArgs.WindowsCover | sop_generator/cli.py:67-71 | the three-part windows of the first n sections cover exactly the first 3n paragraphs |
| SectionArgs.CiteLines | sop_generator/cli.py:75 | one citation line per top chunk |
| SectionArgs.CiteLinesSpec | sop_generator/cli.py:75 | each citation line is "Источник: source \| keywords" |
| SectionArgs.CitesSpec | sop_generator/cli.py:74-75 | citations exist exactly when the first three chunks have source and keywords, and are their lines joined by newlines |
| SectionArgs.BuildPreview | sop_generator/cli.py:66-79 | the preview loop computes PreviewOf over the paragraphs of the generated text |
| SectionArgs.PreviewOfNone | sop_generator/cli.py:68-79 | one failing section makes the whole preview fail |
| SectionArgs.PreviewOfSpec | sop_generator/main.py:66-79 | the preview exists exactly when every entry does, and then holds entry k at position k |
| SectionArgs.EntrySpec | sop_generator/cli.py:68-79 | a manual section keeps its content; an ai+doc section gets its content or its paragraph window plus citations, stripped; any other gets its content, its window, or "[AI placeholder] title"; the entry fails without mode or title, or without citations for ai+doc |
| SectionArgs.RunResultOf | sop_generator/cli.py:63-81 | the result is approved exactly when the loop approved, carries the loop's logs (default []), and exists exactly when the preview does |
| SectionArgs.CommandLineAiEntry | sop_generator/cli.py:66-79 | a section parsed from the command line in "ai" mode gets its paragraph window or the placeholder |
| Outline.StrippedLines | utils.py:58 | one stripped line per line of the text |
| Outline.CollectCandidates | utils.py:67-72 | the candidate loop computes Candidates |
| Outline.CandidatesSpec | utils.py:67-72 | every candidate is a stripped, heading-like line of at most 160 characters, and every such line is a candidate |
| Outline.StripShortens | utils.py:58-70 | stripping never lengthens a line |
| Outline.DedupCandidates | utils.py:74-83 | the de-duplication loop computes Dedup |
| Outline.Take | utils.py:82-83 | taking n items yields min(n, length) of them |
| Outline.DedupTake | utils.py:74-83 | de-duplication yields the first case-insensitive-distinct candidates, at most max(max_lines, 1) of them |
| Outline.FirstsAfterKeys | utils.py:76-81 | the kept candidates differ pairwise ignoring case, none was seen before, and every unseen key is represented |
| Outline.FirstsAfterOrder | utils.py:76-81 | the kept candidates keep source order, and the first occurrence of each key is kept |
| Outline.FallbackLines | utils.py:85-90 | the fallback loop computes ShortLines |
| Outline.Shorts | utils.py:86-87 | every fallback line is non-empty and shorter than 80 characters |
| Outline.ShortLinesTake | utils.py:85-90 | the fallback gives the first max(max_lines, 1) short lines |
| Outline.ShortsOrder | utils.py:86-87 | the short lines keep source order and include every short line |
| Outline.ExtractOutline | utils.py:50-92 | `extract_structure_outline` computes OutlineText |
| Outline.OutlineLinesSpec | utils.py:74-92 | the outline is the de-duplicated candidates when any exist and the short lines otherwise, never more than max(max_lines, 1) lines |
| Outline.NoTextNoOutline | utils.py:55-92 | chunks without text give an empty outline |
| Outline.TextPartsReadText | utils.py:55 | the text parts depend only on the chunks' text fields |
| Outline.NoTextParts | utils.py:55 | chunks without text contribute no parts |

## Left out

- **Regular expressions.** There is no regex engine. Every `re.search`, `re.match`, `re.findall` and `re.split` result is an input: a count, a boolean, a match list, a `search` oracle over pattern texts, a header recogniser or a split predicate. What `\d`, `\s` and the character classes accept is therefore not modelled.
- **Python `str` methods.**
  - `lower()` and `upper()` are modelled for ASCII, Latin-1 and basic Cyrillic only; other scripts are left unchanged.
  - `splitlines()` splits on '\n' only.
  - `strip()` uses Python's whitespace set.
- **LLM agents, network and concurrency.**
  - The agents are oracles.
  - These are network I/O, asyncio or agent wiring, so they are not modelled: the chat requests (`_post`, `_verify_connection`, `create`), `_run_async`, `_run_agent_and_get_messages`, `orchestrate_workflow`, `run_groupchat`, `run_groupchat_sequential`, `generate_reply`, and the `build_*` factories.
- **Reply decoding.** `_parse_json_payload`, `_extract_content_from_response`, `_extract_text_from_content` and `_normalize_messages` are not modelled. A reply enters as its raw text together with the JSON value `json.loads` gave for it.
- **Exceptions and floats.**
  - `_coerce_float` and `_describe_exception` are left out: they handle float settings and exception text.
  - `QualityScore.percentage` and `generate_dashboard_data` are left out: they are float-only presentation.
  - The content validator's weighted overall score uses `real`.
- **Files and documents.**
  - Not modelled: the file readers (`_read_pdf`, `_read_docx`, `_read_spreadsheet`, `_read_text_from_file`), `save_uploaded_files`, `export_sop_to_docx`, `export_to_docx`, `load_template` and `_clear_document_content`. A document is its already-read text.
  - The python-docx document and the reportlab story are modelled as the sequence of blocks the code adds. Spacers, fonts (`_ensure_pdf_fonts`), `apply_styles` and the float column widths of `_compute_table_col_widths` are not recorded.
- **Inline Markdown.** These rewrite bold and italic markup with regular expressions and are not modelled; cell and paragraph texts are passed through unchanged:
  - `_clean_md_inline` and `_format_markdown_inline_for_pdf` of exporter.py;
  - the two `re.sub` calls of export_manager.py:330-334 (`**x**` to `<b>x</b>`, then `*x*` to `<i>x</i>`), which run before the modelled `'\n'` to `<br/>` replacement.
- Exporter: the `"&#160;"` filler that exporter.py:263-264 puts into a PDF table cell whose formatted text is blank is not recorded; such a cell keeps its blank text.
- **utils.py `summarize_npa_documents`** is left out. It calls `create_enhanced_corpus_summary`, which sop_generator/utils/document_processor.py does not define.
- **Content generators.** The long Russian content texts are not part of this model; the model covers the dispatch, the step numbering and the database summary. These are:
  - `equipment_engine`'s `_generate_*` builders;
  - `safety_integration`'s `_generate_hazard_analysis_content`, `_generate_ppe_content` and `generate_regulatory_compliance_content`;
  - `advanced_prompts`' `get_equipment_specific_enhancements` and the `_initialize_*` tables.
- SafetyIntegration: the constructor raises `TypeError` (see Findings), so every integrator method the model covers is unreachable as written; the model states what each would do once constructed.
- ContentValidator: the constructor builds a safety integrator and raises with it, so every validator method the model covers is likewise unreachable as written.
- SafetyIntegration.LoadEmergencyProcedures: records only the scenario and the two Optional fields; the immediate actions, notification steps, reporting requirements and contacts are long fixed texts and are not modelled.
- ContentValidator.RangeIssue: the float text is modelled exactly for literals of at most 15 significant digits; a longer literal is rounded to the nearest double first, which the model does not do. Non-ASCII digits that `\d` also matches are not modelled.
- Json.PyStr: a real, a list or a dict renders as "" where Python's `str()` prints its repr. This affects the `overall_summary` and memory lines that format such values in sop_generator/config/agent_config.py.
- Json.ParseIntText: `int()` also accepts non-ASCII decimal digits (Arabic-Indic, full-width); the model accepts ASCII digits only and yields `None` for the others.
- **Fixed tables as parameters.** The `_load_*` databases (standards, reference materials, validation patterns, emergency procedures, regulatory requirements) are parameters, or constants holding only the entries the logic reads.
- **Content validator gaps.**
  - `_extract_parameters_from_content` is regex extraction, so its parameter lists are inputs.
  - `_validate_completeness` is not modelled, because it calls `validate_section_presence`, which the assessor lacks.
- **Streamlit UI.** The `ui_*` pages, `run_generation_safe`, `run_conversation_preview`, `run_conversation_preview_safe`, the background threads and the `[-50:]` log display are not modelled. `add_log`'s `try/except` can only swallow errors of a missing Streamlit context, which the model does not have.
- **Mock group chat.** In `run_mock_generation`, the per-title section texts are part of the composed draft, which is a parameter. Its `say` messages are not recorded.
- **Command-line chunks.** The chunks of the command-line preview are a parameter, each with optional "source" and "keywords" entries.
- DocumentProcessor.SplitText: requires `2 * overlap <= max_chunk_size`, which the loop needs to make progress. The defaults (1500, 150) satisfy it. With a larger overlap the source loop can fail to advance. The `ChunkParams` type (document_processor.dfy:15-17) also requires `max_chunk_size >= 1` and `overlap >= 0`; with a size below 1 the source loop never advances, and a negative overlap skips text between chunks.
- DocumentProcessor.ChunkDocument: a document's path stands for the normalised `str(Path(raw_path))`; the `Path` normalisation itself is not modelled.
- DocumentProcessor.ParseDocumentsToChunks: requires the same chunk parameters as `SplitText`.
- Outline.ExtractOutline: requires every chunk to be a dict, as `parse_documents_to_chunks` builds them.
- QualityAssessment.AssessProfessionalStandards: requires every header to be non-empty, as the `^#+` header search returns them.
- AdvancedPrompts.GenerateAdvancedPrompt: requires every section type in the template table to have a template, as the engine's table does. The same applies to AdvancedPrompts.GenerateSectionSpecificPrompts.
- SafetyIntegration.GeneratePpeRequirements: requires every PPE database list to be non-empty, as the built-in database is. The same applies to SafetyIntegration.WritePpeRequirements and SafetyIntegration.PerformSafetyIntegration.
- EquipmentEngine.IdentifyEquipmentType: requires one hit count per scored equipment type for every text, which is the shape the pattern table produces.

## Findings

| source | as written | input that shows it | evidently intended | confidence | as-written member | corrected member |
|---|---|---|---|---|---|---|
| sop_generator/utils/safety_integration.py:465 | an environmental hazard gets the fixed `risk_rating=2`, annotated "Low × Minor" | any SOP text in which an environmental pattern occurs, e.g. "слив" | the rating `_calculate_risk_rating("Low", "Minor")` gives, 2 × 2 = 4, as every other analyser records | not executed | SafetyIntegration.EnvironmentalHazardAsWritten (SafetyIntegration.EnvironmentalRatingMismatch, SafetyIntegration.EnvironmentalReportsAsWritten, SafetyIntegration.AnalyzedHazardsRated) | SafetyIntegration.EnvironmentalHazard (SafetyIntegration.ScanBuildersSpec, SafetyIntegration.EnvironmentalReports, SafetyIntegration.CorrectedHazardsRated) |
| sop_generator/utils/safety_integration.py:230 | the `EmergencyProcedure(...)` calls of `_load_emergency_procedures` (lines 230, 256, 282) omit `evacuation_procedure` and/or `cleanup_procedure`, fields of the dataclass with no default, so each raises `TypeError` | `ProfessionalSafetyIntegrator()`, and with it `RealTimeContentValidator()` | the two `Optional[str]` fields default to `None`, and the table holds the three procedures | high, not executed | SafetyIntegration.CallAsWritten (SafetyIntegration.IntegratorConstructorRaises) | SafetyIntegration.LoadEmergencyProcedures (SafetyIntegration.EmergencyTableSpec) |
