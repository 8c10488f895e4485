# noter, the per-note pipeline

A Dafny model of the note-processing core of noter, a tool that turns personal
notes into short AI-written summaries with tags:

- `Retriever` — `parse_links`: every match of `https://\S+` in a note, left to
  right, greedy and non-overlapping, as `re.findall` returns them.
- `Agent` — the LangGraph workflow of agent.py. The `AgentState` channels
  (`messages`, `links`, `link_summary`) and their `operator.add` reducers. The
  model registry, with its `"default"` alias of the mistral entry. The four
  nodes: `initial_router`, `link_summariser_model`, `note_summariser_model` and
  `tagger_model`. Each node is a function from the state and the run's
  `configurable` settings to a partial update, which the reducers append. The
  language-model call (`Llm`) and the page fetch (`Fetcher`: text, nothing on
  a non-200 status, or an exception) are oracle parameters. `RunPipeline`
  composes one run of the graph.
- `Batch` — `process_notes`. It takes the notes from index 20 on, truncates
  each note's content to 1,000,000 characters and runs the graph on it. It
  reads the summary and tags out of the last two messages, builds the
  transformed note and issues one save per note. The destination is a class
  whose state is the log of saves issued to it. The clock is a parameter.
- `Noter` — `get_note_title` and the newest-first order of `list_notes`.
- `Strings` — the Python string operations these rely on: the whitespace
  table used by `\s` and `str.strip()`, `strip`, `split(',')` and slicing.

Choices the code makes that the model keeps:

- The router parses `messages[-1]`; the batch always starts a run with one
  message.
- Tags are split at every comma, untrimmed and unfiltered, so an empty reply
  gives one empty tag.
- The batch loop has no per-note exception boundary: the first note whose run
  raises ends `process_notes`, and the saves already issued stay.
- Whether an empty fan-out reaches `note_summariser` is up to the LangGraph
  runtime and is the parameter `joinsEmptyFanOut` of `Agent.RunPipeline`.

## Model

| member | source | states |
|---|---|---|
| `Retriever.ParseLinks` | retriever.py:5-7 | every link found starts with `https://` followed by at least one non-whitespace character, and contains no whitespace |
| `Retriever.MatchStarts` | retriever.py:5-7 | gives one start position per link found |
| `Retriever.LinksAreMatches` | retriever.py:5-7 | each link is the text of `content` at its start position, is followed by whitespace or the end of `content` (maximal), and starts a match; the positions strictly increase and the matches do not overlap |
| `Retriever.NoLinkMissed` | retriever.py:5-7 | every position of `content` at which a match could start lies inside one of the returned matches |
| `Retriever.NoLinksIff` | retriever.py:5-7 | the result is empty exactly when no position of `content` holds `https://` followed by a non-whitespace character |
| `Retriever.ParseLinksSplit` | retriever.py:5-7 | whitespace separates: the links of `x c y`, where `c` is whitespace, are the links of `x` followed by the links of `y` |
| `Retriever.SingleLink` | retriever.py:5-7 | a whitespace-free text that starts with a link is found whole, as one entry |
| `Retriever.ShortTextHasNoLinks` | retriever.py:5-7 | text of at most 8 characters has no link |
| `Retriever.EmptyContentHasNoLinks` | retriever.py:5-7 | `""` yields `[]` |
| `Retriever.BareSchemeIsNoLink` | retriever.py:5-7 | `"https:// x"` yields `[]` |
| `Retriever.NestedSchemeIsOneLink` | retriever.py:5-7 | `"https://a/https://b"` yields that one link, not two |
| `Retriever.DuplicatesKept` | retriever.py:5-7 | the same link twice, separated by a space, is returned twice |
| `Strings.Truncate` | agent.py:144 | `s[:n]` is a prefix of `s` of length at most `n`, and is `s` itself when `s` is no longer than `n` |
| `Strings.Strip` | noter.py:43 | `strip()` returns the infix left after the leading and trailing whitespace; it is empty exactly when the text is all whitespace, and otherwise starts and ends with non-whitespace |
| `Strings.StripKeepsOut` | noter.py:43 | stripping adds no character that was not there |
| `Strings.Split` | agent.py:150 | `split(',')` gives at least one piece, and no piece holds the separator |
| `Strings.JoinSplit` | agent.py:150 | joining the pieces of a split with the separator gives back the text |
| `Strings.SplitCount` | agent.py:150 | a text has one piece more than it has separators |
| `Strings.SplitJoin` | agent.py:150 | splitting the join of separator-free pieces gives back the pieces |
| `Noter.FirstLine` | noter.py:43 | `split('\n', 1)[0]` is a prefix without a newline, and is followed in the content by a newline or by the end |
| `Noter.GetNoteTitle` | noter.py:31-43 | the title is never empty, has no newline and no leading or trailing whitespace; missing or empty content, or a blank first line, gives `"[No Title]"`; otherwise it is the stripped first line |
| `Noter.NoTitleIsClean` | noter.py:42 | the placeholder itself is a non-empty, newline-free, stripped title |
| `Noter.TitleIgnoresLaterLines` | noter.py:43 | text after the first newline does not change the title |
| `Noter.FirstLineOf` | noter.py:43 | the first line of `first + "\n" + rest` is `first` |
| `Noter.CleanLineIsTitle` | noter.py:43 | a newline-free line without surrounding whitespace is its own title |
| `Noter.TitleExample` | noter.py:43 | `"Title\nbody\nmore"` is titled `"Title"` |
| `Noter.BlankFirstLine` | noter.py:43 | a whitespace-only first line gives the placeholder even when later lines hold text |
| `Noter.InsertPermutes` | noter.py:58 | inserting a note adds exactly that note to the multiset |
| `Noter.InsertSorted` | noter.py:58 | inserting into a newest-first list keeps it newest first |
| `Noter.InsertKeepsKeyOrder` | noter.py:58 | the inserted note goes before every note with the same date, and the others with that date keep their order |
| `Noter.SortByModifyDate` | noter.py:58 | the result is a permutation of the input, ordered by non-increasing `modifydate` with a missing date counted as 0, and notes with equal dates keep their input order (stable) |
| `Agent.Merge` | agent.py:52-55 | every channel of the state is kept as a prefix and the update's channel is appended after it |
| `Agent.MergeTwice` | agent.py:52-55 | merging two updates in turn is merging their concatenation |
| `Agent.SelectModel` | agent.py:26-49 | a stage with no model setting gets the mistral entry; a named model is found exactly when the registry holds that name, and otherwise the lookup raises `KeyError` (its only error); the mistral entry is chosen exactly for no setting, `"mistral"` or `"default"` |
| `Agent.Invoke` | agent.py:79-80 | a failed model lookup or a raising model call propagates; otherwise the update is exactly one AI message holding the reply, and touches no other channel |
| `Agent.Instruction` | agent.py:74-75 | the configured instruction is one human message, and nothing is added when it is not configured |
| `Agent.AsHuman` | agent.py:76-78 | one human message per text, same order |
| `Agent.RoutedLinks` | agent.py:62-66 | the earlier links are kept as a prefix and the parsed links of the last message follow, in order |
| `Agent.InitialRouter` | agent.py:62-67 | an empty message list raises `IndexError`; otherwise the links channel ends as the routed links and exactly one `Send("link_summariser", link)` is returned per entry, in order |
| `Agent.RouterSendsParsedLinks` | agent.py:62-67 | with no earlier links, the links sent are exactly the parsed links of the last message, duplicates included |
| `Agent.LinkSummary` | agent.py:88-97 | `"not available"` when the link is missing, the fetch raises, the fetch returns nothing (the concatenation then raises) or the model raises; otherwise the model's reply to the fixed request followed by the page text |
| `Agent.LinkSummariserModel` | agent.py:84-97 | only the model lookup can raise out of the node; otherwise the update holds exactly one link summary and no messages or links |
| `Agent.SummariserPrompt` | agent.py:70-78 | the prompt is the state's messages, then the instruction if configured, then one human message per link summary in order |
| `Agent.NoteSummariserModel` | agent.py:70-80 | a failed model lookup raises; otherwise it sends exactly the summariser prompt, and its update is the model call's single response |
| `Agent.TaggerPrompt` | agent.py:101-105 | the prompt is the state's messages, then the tagger instruction if configured |
| `Agent.TaggerModel` | agent.py:99-107 | the node returns exactly when the model is found and replies; the update is that single reply |
| `Agent.Summaries` | agent.py:88-97 | one link summary per link, in link order |
| `Agent.SummariesStep` | agent.py:88-97 | the first link's summary followed by the other links' summaries are the summaries of all the links |
| `Agent.FanOut` | agent.py:115-118 | the link summariser updates merged one at a time in dispatch order: it fails only when there is a link and the model lookup raises, and then with that error; otherwise only `link_summary` changes, growing by the links' summaries in link order |
| `Agent.RunPipeline` | agent.py:110-125 | no message raises `IndexError`, and it is the only cause of that error; an empty fan-out on a runtime that stops there leaves the state as it is; a `KeyError` is always the lookup of one of the three stages; a failing link-summariser lookup ends the run when a link is routed, and a failing note-summariser lookup ends it once that stage is reached; a completed run keeps the messages as a prefix, adds exactly two AI messages, leaves `links` unchanged and has one summary per routed link |
| `Agent.RunStages` | agent.py:114-121 | every error is a raising model call or one of the three lookups, never `IndexError`; a failing link-summariser lookup with a routed link is the result; otherwise the result is note_summariser and tag on the state extended by the links' summaries in link order; a completed run appends exactly two AI messages and one summary per routed link |
| `Agent.SummariseAndTag` | agent.py:118-119 | note_summariser then tag: a failing lookup or a raising call in the summariser ends the run with that error before the tagger is asked; after a summary reply, a failing tagger lookup or raising tagger call ends it likewise, and a tagger reply gives the state plus the summary and the tags as AI messages; `links` and `link_summary` are unchanged |
| `Agent.SummariserRaisesOnNote` | agent.py:74-79 | on a fresh note, a note-summariser call that raises makes the whole run raise |
| `Agent.TaggerRaisesOnNote` | agent.py:104-106 | on a fresh note, a tagger call that raises after the summary reply makes the whole run raise |
| `Agent.RunPipelineTaggerFails` | agent.py:114-121 | a run whose fan-out and summary succeed ends with the tag node's error |
| `Agent.PipelineOnNote` | agent.py:110-125 | on a fresh note, the note summariser is sent the note, the instruction and the link summaries in link order, and the tagger the note, the summary and its instruction; the run ends with the note, the summary and the tags reply |
| `Agent.SummaryStep` | agent.py:74-80 | the note summariser's prompt on a fresh note with its summaries, and the state after its reply is merged |
| `Agent.TagStep` | agent.py:104-107 | the tagger's prompt after the summary, and the state after its reply is merged |
| `Agent.RunPipelineSteps` | agent.py:114-121 | a run is the merge of the fan-out, summary and tag updates, in that order |
| `Agent.FanOutOnNote` | agent.py:62-67 | on a fresh note, the fan-out leaves one summary per parsed link and nothing else new |
| `Agent.FanOutFromEmpty` | agent.py:115-118 | from no summaries, the fan-out leaves exactly the links' summaries, in link order |
| `Batch.Pending` | agent.py:143 | `notes[20:]`: empty for 20 notes or fewer, otherwise the notes from index 20 on, in order |
| `Batch.InitialState` | agent.py:144 | one human message holding a prefix of the content of at most 1,000,000 characters, the whole content when it fits; no links or summaries |
| `Batch.ExtractTags` | agent.py:150 | no tags without messages; otherwise pieces of the last message with no comma inside, which joined with commas give that message back, one more than its commas |
| `Batch.TransformNote` | agent.py:149-156 | only content, tags and the two dates change; the content is the second-to-last message (or `""` below two messages); both dates are `now` |
| `Batch.Firestore.SaveNote` | agent.py:160 | appends one save of this note to this destination to the log |
| `Batch.ProcessNote` | agent.py:144-158 | the note is transformed from the run's messages exactly when the run on its initial state returns, and the run's exception propagates otherwise |
| `Batch.Saves` | agent.py:160 | one save per note, in order, all to the destination |
| `Batch.SavesSnoc` | agent.py:160 | one more note adds one more save at the end |
| `Batch.ProcessPending` | agent.py:143-160 | the pending notes are transformed in order, one save each; the first run that raises ends the loop with that error, after the saves of the notes before it |
| `Batch.ProcessNotes` | agent.py:128-160 | without a connection, nothing is saved; otherwise the notes from index 20 on are processed as `ProcessPending` says |
| `Batch.TransformAfterPipeline` | agent.py:143-156 | processing a note with the compiled graph succeeds when its run completes: the note summariser's reply is its content, the tagger's reply split at every comma its tags, both dates are `now`, and key and other fields are kept |
| `Batch.TransformWithoutLinks` | agent.py:143-156 | a note without links, on a runtime that stops after an empty fan-out, is processed into empty content and its own text split at commas as tags |
| `Batch.SummariserRaisesStopsNote` | agent.py:146 | processing a note whose note-summariser call raises with the compiled graph raises that error, so nothing is saved for it |
| `Batch.EmptyReplyGivesOneEmptyTag` | agent.py:150 | an empty tagger reply gives `[""]`, not `[]` |
| `Batch.ThreeTags` | agent.py:150 | `"work,ideas,follow_up"` gives the three tags in order |

## Left out

- The model clients (agent.py:26-48): network calls to Mistral, Gemini and Perplexity. Only the registry's names and the `"default"` alias are modelled; `invoke` is the `Llm` oracle.
- `retrieve_url` (retriever.py:9-14): the HTTP request and the HTML-to-text step are the `Fetcher` oracle.
- The LangGraph runtime: parallel execution of the `Send`s, the join barrier and the order in which parallel updates arrive. The link summaries are merged in dispatch order. Whether the runtime reaches `note_summariser` after an empty fan-out is the parameter `joinsEmptyFanOut`.
- `Agent.InitialRouter`: its reassignment of `state['links']` is returned as the `after` state. `Agent.RunPipeline` keeps the links channel unchanged, because the router returns only `Send`s.
- firestore.py: the connection, the document read and the merge-write are library behaviour. `get_firestore_db` is a nullable parameter, `read_notes_from_firestore` is the `notes` parameter, and each save is an entry in a write log.
- `source_path` is unused by `process_notes` and is not a parameter.
- `time.time()` is the `clock` parameter, and timestamps and `modifydate` are integers rather than floats.
- `Batch.TransformNote`: a model reply whose content is not a string (the `isinstance` test at agent.py:150) is not modelled; replies are always text.
- A stored note without a `content` field (a `KeyError` at agent.py:144) is not modelled; every `Note` has content.
- noter.py's Simplenote login, note fetching, date formatting, printing and argument parsing (noter.py:7-29, 53-85).
- config.py, server.py, `print` calls and `@traceable` tracing.
