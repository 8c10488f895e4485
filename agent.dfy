/** The graph of agent.py: its state channels and their reducers, the model
    registry lookup, and the four nodes, each a function from the state and the
    run's configuration to a partial update that the runtime merges in. The
    language-model call and the page fetch are oracle parameters. */
module Agent {
  import opened Wrappers
  import Retriever

  datatype Role = Human | Ai

  /** A chat message: `HumanMessage(content=...)` or a model's `AIMessage`. */
  datatype Message = Message(role: Role, content: string)

  /** The channels of `AgentState`. A node's partial update has the same shape;
      a channel it does not mention is the empty list, which is also what every
      `operator.add` channel holds before anything is written to it. */
  datatype State = State(messages: seq<Message>, links: seq<string>, linkSummary: seq<string>)

  type Delta = State

  /** The `operator.add` reducers: each channel of the update is appended to the
      channel of the state, so no earlier entry is removed or reordered. */
  function Merge(state: State, delta: Delta): (r: State)
    ensures |r.messages| == |state.messages| + |delta.messages|
    ensures r.messages[..|state.messages|] == state.messages
    ensures r.messages[|state.messages|..] == delta.messages
    ensures |r.links| == |state.links| + |delta.links|
    ensures r.links[..|state.links|] == state.links && r.links[|state.links|..] == delta.links
    ensures |r.linkSummary| == |state.linkSummary| + |delta.linkSummary|
    ensures r.linkSummary[..|state.linkSummary|] == state.linkSummary
    ensures r.linkSummary[|state.linkSummary|..] == delta.linkSummary
  {
    State(state.messages + delta.messages, state.links + delta.links,
          state.linkSummary + delta.linkSummary)
  }

  /** Merging two updates one after the other is merging their concatenation. */
  lemma MergeTwice(state: State, d1: Delta, d2: Delta)
    ensures Merge(Merge(state, d1), d2) == Merge(state, Merge(d1, d2))
  {
    assert Merge(Merge(state, d1), d2).messages == Merge(state, Merge(d1, d2)).messages;
    assert Merge(Merge(state, d1), d2).links == Merge(state, Merge(d1, d2)).links;
    assert Merge(Merge(state, d1), d2).linkSummary == Merge(state, Merge(d1, d2)).linkSummary;
  }

  // ---------------------------------------------------------------------------
  // The run's configuration and the model registry

  datatype ModelId = Mistral | Gemini | Perplexity

  /** The registry `models`, with `'default'` an alias of the mistral entry. */
  const MODELS: map<string, ModelId> :=
    map["mistral" := Mistral, "gemini" := Gemini, "perplexity" := Perplexity, "default" := Mistral]

  /** `config["configurable"]`: the run's named settings. */
  type Configurable = map<string, string>

  const NOTE_SUMMARISER_MODEL := "note_summariser_model"
  const LINK_SUMMARISER_MODEL := "link_summariser_model"
  const TAGGER_MODEL := "tagger_model"
  const SUMMARISER_MESSAGE := "summariser_message"
  const TAGGER_MESSAGE := "tagger_message"

  /** The exceptions that can leave a node. */
  datatype Error =
    | KeyError(key: string)  // a model name the registry does not hold
    | IndexError             // `messages[-1]` of an empty message list
    | ModelRaised            // the model client raised during `invoke`

  /** `models[config["configurable"].get(stage, "default")]`. */
  function SelectModel(cfg: Configurable, stage: string): (r: Result<ModelId, Error>)
    ensures stage !in cfg ==> r == Ok(Mistral)
    ensures stage in cfg ==> (r.Ok? <==> cfg[stage] in MODELS)
    ensures stage in cfg && cfg[stage] !in MODELS ==> r == Err(KeyError(cfg[stage]))
    ensures r.Err? ==> r.error.KeyError?
    ensures r.Ok? && r.value == Mistral <==>
            stage !in cfg || cfg[stage] == "mistral" || cfg[stage] == "default"
  {
    var name := if stage in cfg then cfg[stage] else "default";
    if name in MODELS then Ok(MODELS[name]) else Err(KeyError(name))
  }

  // ---------------------------------------------------------------------------
  // The collaborators the nodes call

  /** What `model.invoke(messages)` does: return a response, or raise. */
  datatype Reply = Replied(content: string) | Raised

  type Llm = (ModelId, seq<Message>) -> Reply

  /** What `retrieve_url(url)` does: return the page's text, return nothing on
      a status other than 200, or raise. */
  datatype Fetched = Page(text: string) | NoPage | FetchRaised

  type Fetcher = string -> Fetched

  /** Calls the selected model on `prompt`; the update is the single response. */
  function Invoke(model: Result<ModelId, Error>, prompt: seq<Message>, llm: Llm): (r: Result<Delta, Error>)
    ensures model.Err? ==> r == Err(model.error)
    ensures model.Ok? && llm(model.value, prompt).Raised? ==> r == Err(ModelRaised)
    ensures r.Ok? <==> model.Ok? && llm(model.value, prompt).Replied?
    ensures r.Ok? ==> r.value.links == [] && r.value.linkSummary == []
                      && r.value.messages == [Message(Ai, llm(model.value, prompt).content)]
  {
    var m :- model;
    match llm(m, prompt)
    case Replied(c) => Ok(State([Message(Ai, c)], [], []))
    case Raised => Err(ModelRaised)
  }

  /** The configured instruction, as one human message, or nothing. */
  function Instruction(cfg: Configurable, key: string): (r: seq<Message>)
    ensures key in cfg ==> r == [Message(Human, cfg[key])]
    ensures key !in cfg ==> r == []
  {
    if key in cfg then [Message(Human, cfg[key])] else []
  }

  function AsHuman(texts: seq<string>): (r: seq<Message>)
    ensures |r| == |texts|
    ensures forall i :: 0 <= i < |texts| ==> r[i] == Message(Human, texts[i])
  {
    seq(|texts|, i requires 0 <= i < |texts| => Message(Human, texts[i]))
  }

  // ---------------------------------------------------------------------------
  // initial_router

  const LINK_SUMMARISER := "link_summariser"

  /** `Send(node, {"link": link})`: one task for the named node. */
  datatype Send = Send(node: string, link: string)

  /** The links channel once the router has appended the links of the last message. */
  function RoutedLinks(state: State): (links: seq<string>)
    requires |state.messages| > 0
    ensures |links| == |state.links| + |Retriever.ParseLinks(state.messages[|state.messages| - 1].content)|
    ensures links[..|state.links|] == state.links
    ensures links[|state.links|..] == Retriever.ParseLinks(state.messages[|state.messages| - 1].content)
  {
    state.links + Retriever.ParseLinks(state.messages[|state.messages| - 1].content)
  }

  /** `initial_router`: appends the links of the last message to `links`, one
      at a time, then sends every entry of `links` to the link summariser, one
      task per entry, in order. `after` is the state as the router leaves it. */
  method InitialRouter(state: State) returns (r: Result<seq<Send>, Error>, after: State)
    ensures |state.messages| == 0 ==> r == Err(IndexError) && after == state
    ensures |state.messages| > 0 ==> r.Ok? && after == state.(links := RoutedLinks(state))
    ensures r.Ok? ==> |r.value| == |after.links|
                      && forall i :: 0 <= i < |after.links| ==> r.value[i] == Send(LINK_SUMMARISER, after.links[i])
  {
    if |state.messages| == 0 {
      return Err(IndexError), state;
    }
    var links := Retriever.ParseLinks(state.messages[|state.messages| - 1].content);
    after := state;
    var i := 0;
    while i < |links|
      invariant 0 <= i <= |links|
      invariant after == state.(links := state.links + links[..i])
    {
      after := after.(links := after.links + [links[i]]);
      i := i + 1;
      assert links[..i] == links[..i - 1] + [links[i - 1]];
    }
    assert links[..i] == links;
    r := Ok(seq(|after.links|, k requires 0 <= k < |after.links| => Send(LINK_SUMMARISER, after.links[k])));
  }

  /** With no earlier links, the router sends exactly the links of the last
      message, duplicates included. */
  lemma RouterSendsParsedLinks(state: State)
    requires |state.messages| > 0 && state.links == []
    ensures RoutedLinks(state) == Retriever.ParseLinks(state.messages[|state.messages| - 1].content)
  {
  }

  // ---------------------------------------------------------------------------
  // link_summariser_model

  const SUMMARY_PREFIX := "Please provide a short summary of the material on the following website: \n "
  const NOT_AVAILABLE := "not available"

  /** The summary the link summariser reports for its task's link: the model's
      answer to the fixed request followed by the page text, or the sentinel
      when there is no link, the fetch raises or returns nothing, or the model
      raises. */
  function LinkSummary(link: Option<string>, model: ModelId, llm: Llm, fetch: Fetcher): (summary: string)
    ensures link.None? ==> summary == NOT_AVAILABLE
    ensures link.Some? && !fetch(link.value).Page? ==> summary == NOT_AVAILABLE
    ensures link.Some? && fetch(link.value).Page?
            && llm(model, [Message(Human, SUMMARY_PREFIX + fetch(link.value).text)]).Raised?
            ==> summary == NOT_AVAILABLE
    ensures link.Some? && fetch(link.value).Page?
            && llm(model, [Message(Human, SUMMARY_PREFIX + fetch(link.value).text)]).Replied?
            ==> summary == llm(model, [Message(Human, SUMMARY_PREFIX + fetch(link.value).text)]).content
  {
    match link
    case None => NOT_AVAILABLE
    case Some(url) =>
      match fetch(url)
      case Page(text) => (
        match llm(model, [Message(Human, SUMMARY_PREFIX + text)])
        case Replied(c) => c
        case Raised => NOT_AVAILABLE)
      case NoPage => NOT_AVAILABLE
      case FetchRaised => NOT_AVAILABLE
  }

  /** `link_summariser_model` on the task payload `{"link": link}` (`None` when
      the key is missing or holds `None`): the model lookup may raise; otherwise
      the update holds exactly one link summary and nothing else. */
  function LinkSummariserModel(link: Option<string>, cfg: Configurable, llm: Llm, fetch: Fetcher): (r: Result<Delta, Error>)
    ensures r.Err? <==> SelectModel(cfg, LINK_SUMMARISER_MODEL).Err?
    ensures r.Err? ==> r.error == SelectModel(cfg, LINK_SUMMARISER_MODEL).error
    ensures r.Ok? ==> r.value.messages == [] && r.value.links == [] && |r.value.linkSummary| == 1
    ensures r.Ok? ==> r.value.linkSummary[0] == LinkSummary(link, SelectModel(cfg, LINK_SUMMARISER_MODEL).value, llm, fetch)
  {
    var model :- SelectModel(cfg, LINK_SUMMARISER_MODEL);
    Ok(State([], [], [LinkSummary(link, model, llm, fetch)]))
  }

  // ---------------------------------------------------------------------------
  // note_summariser_model

  /** The messages the note summariser sends: the state's messages, then the
      configured instruction, then one human message per link summary, in order. */
  function SummariserPrompt(state: State, cfg: Configurable): (prompt: seq<Message>)
    ensures var m, k := |state.messages|, |Instruction(cfg, SUMMARISER_MESSAGE)|;
            && |prompt| == m + k + |state.linkSummary|
            && prompt[..m] == state.messages
            && (SUMMARISER_MESSAGE in cfg ==> prompt[m] == Message(Human, cfg[SUMMARISER_MESSAGE]))
            && forall i :: 0 <= i < |state.linkSummary| ==> prompt[m + k + i] == Message(Human, state.linkSummary[i])
  {
    var prompt := state.messages + Instruction(cfg, SUMMARISER_MESSAGE) + AsHuman(state.linkSummary);
    assert prompt[..|state.messages|] == state.messages;
    prompt
  }

  /** `note_summariser_model`: builds the prompt one message at a time and asks
      the selected model once; `prompt` is what it sends (empty when the model
      lookup raises first). The update is the single response: neither the
      instruction nor the link summaries enter the state. */
  method NoteSummariserModel(state: State, cfg: Configurable, llm: Llm) returns (r: Result<Delta, Error>, prompt: seq<Message>)
    ensures SelectModel(cfg, NOTE_SUMMARISER_MODEL).Err? ==> r == Err(SelectModel(cfg, NOTE_SUMMARISER_MODEL).error)
    ensures SelectModel(cfg, NOTE_SUMMARISER_MODEL).Ok? ==> prompt == SummariserPrompt(state, cfg)
    ensures r == Invoke(SelectModel(cfg, NOTE_SUMMARISER_MODEL), prompt, llm)
  {
    var model := SelectModel(cfg, NOTE_SUMMARISER_MODEL);
    if model.Err? {
      return Err(model.error), [];
    }
    var messages := state.messages;
    if SUMMARISER_MESSAGE in cfg {
      messages := messages + [Message(Human, cfg[SUMMARISER_MESSAGE])];
    }
    var base := messages;
    var i := 0;
    while i < |state.linkSummary|
      invariant 0 <= i <= |state.linkSummary|
      invariant messages == base + AsHuman(state.linkSummary[..i])
    {
      messages := messages + [Message(Human, state.linkSummary[i])];
      i := i + 1;
      assert AsHuman(state.linkSummary[..i]) == AsHuman(state.linkSummary[..i - 1]) + [Message(Human, state.linkSummary[i - 1])];
    }
    assert state.linkSummary[..i] == state.linkSummary;
    prompt := messages;
    r := Invoke(model, prompt, llm);
  }

  // ---------------------------------------------------------------------------
  // tagger_model

  /** The messages the tagger sends: the state's messages, then the configured
      instruction. */
  function TaggerPrompt(state: State, cfg: Configurable): (prompt: seq<Message>)
    ensures |prompt| >= |state.messages| && prompt[..|state.messages|] == state.messages
    ensures TAGGER_MESSAGE in cfg ==> prompt == state.messages + [Message(Human, cfg[TAGGER_MESSAGE])]
    ensures TAGGER_MESSAGE !in cfg ==> prompt == state.messages
  {
    state.messages + Instruction(cfg, TAGGER_MESSAGE)
  }

  /** `tagger_model`: one call of the selected model; the update is the single response. */
  function TaggerModel(state: State, cfg: Configurable, llm: Llm): (r: Result<Delta, Error>)
    ensures r.Ok? <==> SelectModel(cfg, TAGGER_MODEL).Ok?
                       && llm(SelectModel(cfg, TAGGER_MODEL).value, TaggerPrompt(state, cfg)).Replied?
    ensures r.Ok? ==> r.value.links == [] && r.value.linkSummary == []
                      && r.value.messages == [Message(Ai, llm(SelectModel(cfg, TAGGER_MODEL).value, TaggerPrompt(state, cfg)).content)]
  {
    Invoke(SelectModel(cfg, TAGGER_MODEL), TaggerPrompt(state, cfg), llm)
  }

  // ---------------------------------------------------------------------------
  // One run of the graph

  /** The summaries of `links`, one per link, in link order. */
  function Summaries(links: seq<string>, model: ModelId, llm: Llm, fetch: Fetcher): (r: seq<string>)
    ensures |r| == |links|
    ensures forall i :: 0 <= i < |links| ==> r[i] == LinkSummary(Some(links[i]), model, llm, fetch)
  {
    if links == [] then []
    else
      var rest := Summaries(links[1..], model, llm, fetch);
      assert forall i :: 1 <= i < |links| ==> links[i] == links[1..][i - 1];
      [LinkSummary(Some(links[0]), model, llm, fetch)] + rest
  }

  /** The link summariser tasks for `links`, their updates merged into `state`
      one at a time in dispatch order. The run fails if the link summariser's
      model lookup raises, which can only happen when there is a task;
      otherwise only `linkSummary` grows, by the links' summaries in link
      order. */
  function FanOut(state: State, links: seq<string>, cfg: Configurable, llm: Llm, fetch: Fetcher): (r: Result<State, Error>)
    ensures r.Err? <==> links != [] && SelectModel(cfg, LINK_SUMMARISER_MODEL).Err?
    ensures r.Err? ==> r.error == SelectModel(cfg, LINK_SUMMARISER_MODEL).error
    ensures links == [] ==> r == Ok(state)
    ensures links != [] && SelectModel(cfg, LINK_SUMMARISER_MODEL).Ok? ==>
              r == Ok(state.(linkSummary := state.linkSummary
                             + Summaries(links, SelectModel(cfg, LINK_SUMMARISER_MODEL).value, llm, fetch)))
    decreases |links|
  {
    if links == [] then Ok(state)
    else
      var delta :- LinkSummariserModel(Some(links[0]), cfg, llm, fetch);
      var model := SelectModel(cfg, LINK_SUMMARISER_MODEL).value;
      var next := Merge(state, delta);
      var r := FanOut(next, links[1..], cfg, llm, fetch);
      var x := LinkSummary(Some(links[0]), model, llm, fetch);
      assert next == state.(linkSummary := state.linkSummary + [x]);
      SummariesStep(state.linkSummary, links, model, llm, fetch);
      assert links[1..] == [] ==> next.linkSummary + [] == next.linkSummary;
      r
  }

  /** The first link's summary followed by the remaining links' summaries are
      the summaries of all the links. */
  lemma {:induction false} SummariesStep(before: seq<string>, links: seq<string>, model: ModelId, llm: Llm, fetch: Fetcher)
    requires links != []
    ensures (before + [LinkSummary(Some(links[0]), model, llm, fetch)]) + Summaries(links[1..], model, llm, fetch)
            == before + Summaries(links, model, llm, fetch)
  {
    var x, rest := LinkSummary(Some(links[0]), model, llm, fetch), Summaries(links[1..], model, llm, fetch);
    assert Summaries(links, model, llm, fetch) == [x] + rest;
    assert (before + [x]) + rest == before + ([x] + rest);
  }

  /** `e` is the `KeyError` one of the three stages' model lookups raises. */
  predicate LookupFails(cfg: Configurable, e: Error) {
    && e.KeyError?
    && (|| SelectModel(cfg, LINK_SUMMARISER_MODEL) == Err(e)
        || SelectModel(cfg, NOTE_SUMMARISER_MODEL) == Err(e)
        || SelectModel(cfg, TAGGER_MODEL) == Err(e))
  }

  /** One run of the graph on `initial`: the router's fan-out over the links of
      the last message, then note_summariser and tag, each merging its single
      response. Whether the runtime still goes on to note_summariser when the
      router sends no task at all is the runtime's own behaviour, so it is a
      parameter, `joinsEmptyFanOut`; when it is false such a run ends with the
      state unchanged. A run fails only on an empty message list, a model
      lookup that raises `KeyError`, or a model call that raises. */
  function RunPipeline(initial: State, cfg: Configurable, llm: Llm, fetch: Fetcher, joinsEmptyFanOut: bool)
    : (r: Result<State, Error>)
    ensures |initial.messages| == 0 ==> r == Err(IndexError)
    ensures |initial.messages| > 0 && RoutedLinks(initial) == [] && !joinsEmptyFanOut ==> r == Ok(initial)
    ensures r.Ok? && (RoutedLinks(initial) != [] || joinsEmptyFanOut) ==> var m := |initial.messages|;
            && |r.value.messages| == m + 2
            && r.value.messages[..m] == initial.messages
            && r.value.messages[m].role == Ai && r.value.messages[m + 1].role == Ai
            && r.value.links == initial.links
            && |r.value.linkSummary| == |RoutedLinks(initial)| + |initial.linkSummary|
    ensures r.Err? ==> (r.error == IndexError <==> |initial.messages| == 0)
    ensures r.Err? && r.error.KeyError? ==> LookupFails(cfg, r.error)
    ensures |initial.messages| > 0 && RoutedLinks(initial) != [] && SelectModel(cfg, LINK_SUMMARISER_MODEL).Err?
            ==> r == Err(SelectModel(cfg, LINK_SUMMARISER_MODEL).error)
    ensures |initial.messages| > 0 && (RoutedLinks(initial) != [] || joinsEmptyFanOut)
            && (RoutedLinks(initial) != [] ==> SelectModel(cfg, LINK_SUMMARISER_MODEL).Ok?)
            && SelectModel(cfg, NOTE_SUMMARISER_MODEL).Err?
            ==> r == Err(SelectModel(cfg, NOTE_SUMMARISER_MODEL).error)
  {
    if |initial.messages| == 0 then Err(IndexError)
    else if RoutedLinks(initial) == [] && !joinsEmptyFanOut then Ok(initial)
    else RunStages(initial, cfg, llm, fetch)
  }

  /** The stages after the router: the link summaries merged in link order,
      then note_summariser and tag. A failing link-summariser lookup ends the
      run when there is a link; otherwise the run is note_summariser and tag on
      the state extended by the links' summaries. */
  function RunStages(initial: State, cfg: Configurable, llm: Llm, fetch: Fetcher): (r: Result<State, Error>)
    requires |initial.messages| > 0
    ensures r.Ok? ==> var m := |initial.messages|;
            && |r.value.messages| == m + 2
            && r.value.messages[..m] == initial.messages
            && r.value.messages[m].role == Ai && r.value.messages[m + 1].role == Ai
            && r.value.links == initial.links
            && |r.value.linkSummary| == |RoutedLinks(initial)| + |initial.linkSummary|
    ensures r.Err? ==> r.error == ModelRaised || LookupFails(cfg, r.error)
    ensures r.Err? ==> r.error != IndexError
    ensures RoutedLinks(initial) != [] && SelectModel(cfg, LINK_SUMMARISER_MODEL).Err?
            ==> r == Err(SelectModel(cfg, LINK_SUMMARISER_MODEL).error)
    ensures RoutedLinks(initial) == [] ==> r == SummariseAndTag(initial, cfg, llm)
    ensures RoutedLinks(initial) != [] && SelectModel(cfg, LINK_SUMMARISER_MODEL).Ok?
            ==> r == SummariseAndTag(
                       initial.(linkSummary := initial.linkSummary
                         + Summaries(RoutedLinks(initial), SelectModel(cfg, LINK_SUMMARISER_MODEL).value, llm, fetch)),
                       cfg, llm)
  {
    var afterLinks :- FanOut(initial, RoutedLinks(initial), cfg, llm, fetch);
    SummariseAndTag(afterLinks, cfg, llm)
  }

  /** note_summariser then tag, each merging its single response: the state
      gains exactly the summary and the tags reply, as AI messages, and nothing
      else. A failing model lookup or a raising model call in either stage ends
      the run with that error, the note summariser's first. */
  function SummariseAndTag(state: State, cfg: Configurable, llm: Llm): (r: Result<State, Error>)
    ensures var ns, tg := SelectModel(cfg, NOTE_SUMMARISER_MODEL), SelectModel(cfg, TAGGER_MODEL);
            && (ns.Err? ==> r == Err(ns.error))
            && (ns.Ok? && llm(ns.value, SummariserPrompt(state, cfg)).Raised? ==> r == Err(ModelRaised))
            && (ns.Ok? && llm(ns.value, SummariserPrompt(state, cfg)).Replied? ==>
                  var summarised := state.(messages := state.messages
                                     + [Message(Ai, llm(ns.value, SummariserPrompt(state, cfg)).content)]);
                  && (tg.Err? ==> r == Err(tg.error))
                  && (tg.Ok? && llm(tg.value, TaggerPrompt(summarised, cfg)).Raised? ==> r == Err(ModelRaised))
                  && (tg.Ok? && llm(tg.value, TaggerPrompt(summarised, cfg)).Replied? ==>
                        r == Ok(summarised.(messages := summarised.messages
                                  + [Message(Ai, llm(tg.value, TaggerPrompt(summarised, cfg)).content)]))))
    ensures r.Ok? ==> var m := |state.messages|;
            && |r.value.messages| == m + 2
            && r.value.messages[..m] == state.messages
            && r.value.messages[m].role == Ai && r.value.messages[m + 1].role == Ai
            && r.value.links == state.links && r.value.linkSummary == state.linkSummary
    ensures r.Err? ==> r.error == ModelRaised || LookupFails(cfg, r.error)
  {
    var summary :- Invoke(SelectModel(cfg, NOTE_SUMMARISER_MODEL), SummariserPrompt(state, cfg), llm);
    var summarised := Merge(state, summary);
    assert summarised.links == state.links && summarised.linkSummary == state.linkSummary;
    var tags :- TaggerModel(summarised, cfg, llm);
    var done := Merge(summarised, tags);
    assert done.messages == state.messages + summary.messages + tags.messages;
    Ok(done)
  }

  /** The run of a fresh note state, all the way through: the note summariser
      is sent the note, the instruction and the link summaries in link order,
      the tagger the note, the summary and its instruction, and the state ends
      with the note, the summary and the tags. */
  lemma PipelineOnNote(content: string, cfg: Configurable, llm: Llm, fetch: Fetcher, joinsEmptyFanOut: bool,
                       summaries: seq<string>, summary: string, tags: string)
    requires Retriever.ParseLinks(content) != [] || joinsEmptyFanOut
    requires SelectModel(cfg, NOTE_SUMMARISER_MODEL).Ok? && SelectModel(cfg, TAGGER_MODEL).Ok?
    requires Retriever.ParseLinks(content) != [] ==> SelectModel(cfg, LINK_SUMMARISER_MODEL).Ok?
    requires var links := Retriever.ParseLinks(content);
             |summaries| == |links|
             && forall i :: 0 <= i < |links| ==>
                  summaries[i] == LinkSummary(Some(links[i]), SelectModel(cfg, LINK_SUMMARISER_MODEL).value, llm, fetch)
    requires llm(SelectModel(cfg, NOTE_SUMMARISER_MODEL).value,
                 [Message(Human, content)] + Instruction(cfg, SUMMARISER_MESSAGE) + AsHuman(summaries))
             == Replied(summary)
    requires llm(SelectModel(cfg, TAGGER_MODEL).value,
                 [Message(Human, content), Message(Ai, summary)] + Instruction(cfg, TAGGER_MESSAGE))
             == Replied(tags)
    ensures RunPipeline(State([Message(Human, content)], [], []), cfg, llm, fetch, joinsEmptyFanOut)
            == Ok(State([Message(Human, content), Message(Ai, summary), Message(Ai, tags)], [], summaries))
  {
    var note := Message(Human, content);
    var afterLinks := FanOutOnNote(content, cfg, llm, fetch, summaries);
    var summaryDelta := SummaryStep(note, cfg, llm, summaries, summary);
    var tagDelta := TagStep(note, cfg, llm, summaries, summary, tags);
    assert RunPipeline(State([note], [], []), cfg, llm, fetch, joinsEmptyFanOut)
           == Ok(Merge(Merge(afterLinks, summaryDelta), tagDelta)) by {
      RunPipelineSteps(State([note], [], []), cfg, llm, fetch, joinsEmptyFanOut, afterLinks, summaryDelta, tagDelta);
    }
  }

  /** A raising note-summariser call ends the run of a fresh note with that
      error, whatever the tagger would have done. */
  lemma SummariserRaisesOnNote(content: string, cfg: Configurable, llm: Llm, fetch: Fetcher, joinsEmptyFanOut: bool,
                               summaries: seq<string>)
    requires Retriever.ParseLinks(content) != [] || joinsEmptyFanOut
    requires SelectModel(cfg, NOTE_SUMMARISER_MODEL).Ok?
    requires Retriever.ParseLinks(content) != [] ==> SelectModel(cfg, LINK_SUMMARISER_MODEL).Ok?
    requires var links := Retriever.ParseLinks(content);
             |summaries| == |links|
             && forall i :: 0 <= i < |links| ==>
                  summaries[i] == LinkSummary(Some(links[i]), SelectModel(cfg, LINK_SUMMARISER_MODEL).value, llm, fetch)
    requires llm(SelectModel(cfg, NOTE_SUMMARISER_MODEL).value,
                 [Message(Human, content)] + Instruction(cfg, SUMMARISER_MESSAGE) + AsHuman(summaries))
             == Raised
    ensures RunPipeline(State([Message(Human, content)], [], []), cfg, llm, fetch, joinsEmptyFanOut) == Err(ModelRaised)
  {
    var afterLinks := FanOutOnNote(content, cfg, llm, fetch, summaries);
    assert SummariserPrompt(afterLinks, cfg)
           == [Message(Human, content)] + Instruction(cfg, SUMMARISER_MESSAGE) + AsHuman(summaries);
  }

  /** A raising tagger call ends the run of a fresh note with that error, after
      the note summariser has replied. */
  lemma TaggerRaisesOnNote(content: string, cfg: Configurable, llm: Llm, fetch: Fetcher, joinsEmptyFanOut: bool,
                           summaries: seq<string>, summary: string)
    requires Retriever.ParseLinks(content) != [] || joinsEmptyFanOut
    requires SelectModel(cfg, NOTE_SUMMARISER_MODEL).Ok? && SelectModel(cfg, TAGGER_MODEL).Ok?
    requires Retriever.ParseLinks(content) != [] ==> SelectModel(cfg, LINK_SUMMARISER_MODEL).Ok?
    requires var links := Retriever.ParseLinks(content);
             |summaries| == |links|
             && forall i :: 0 <= i < |links| ==>
                  summaries[i] == LinkSummary(Some(links[i]), SelectModel(cfg, LINK_SUMMARISER_MODEL).value, llm, fetch)
    requires llm(SelectModel(cfg, NOTE_SUMMARISER_MODEL).value,
                 [Message(Human, content)] + Instruction(cfg, SUMMARISER_MESSAGE) + AsHuman(summaries))
             == Replied(summary)
    requires llm(SelectModel(cfg, TAGGER_MODEL).value,
                 [Message(Human, content), Message(Ai, summary)] + Instruction(cfg, TAGGER_MESSAGE))
             == Raised
    ensures RunPipeline(State([Message(Human, content)], [], []), cfg, llm, fetch, joinsEmptyFanOut) == Err(ModelRaised)
  {
    var note := Message(Human, content);
    var afterLinks := FanOutOnNote(content, cfg, llm, fetch, summaries);
    var summaryDelta := SummaryStep(note, cfg, llm, summaries, summary);
    assert TaggerModel(Merge(afterLinks, summaryDelta), cfg, llm) == Err(ModelRaised) by {
      assert TaggerPrompt(State([note, Message(Ai, summary)], [], summaries), cfg)
             == [note, Message(Ai, summary)] + Instruction(cfg, TAGGER_MESSAGE);
    }
    RunPipelineTaggerFails(State([note], [], []), cfg, llm, fetch, joinsEmptyFanOut, afterLinks, summaryDelta, ModelRaised);
  }

  lemma SummaryStep(note: Message, cfg: Configurable, llm: Llm, summaries: seq<string>, summary: string)
      returns (summaryDelta: Delta)
    requires SelectModel(cfg, NOTE_SUMMARISER_MODEL).Ok?
    requires llm(SelectModel(cfg, NOTE_SUMMARISER_MODEL).value,
                 [note] + Instruction(cfg, SUMMARISER_MESSAGE) + AsHuman(summaries))
             == Replied(summary)
    ensures summaryDelta == State([Message(Ai, summary)], [], [])
    ensures Invoke(SelectModel(cfg, NOTE_SUMMARISER_MODEL), SummariserPrompt(State([note], [], summaries), cfg), llm)
            == Ok(summaryDelta)
    ensures Merge(State([note], [], summaries), summaryDelta) == State([note, Message(Ai, summary)], [], summaries)
  {
    summaryDelta := State([Message(Ai, summary)], [], []);
    assert SummariserPrompt(State([note], [], summaries), cfg)
           == [note] + Instruction(cfg, SUMMARISER_MESSAGE) + AsHuman(summaries);
  }

  lemma TagStep(note: Message, cfg: Configurable, llm: Llm, summaries: seq<string>, summary: string, tags: string)
      returns (tagDelta: Delta)
    requires SelectModel(cfg, TAGGER_MODEL).Ok?
    requires llm(SelectModel(cfg, TAGGER_MODEL).value,
                 [note, Message(Ai, summary)] + Instruction(cfg, TAGGER_MESSAGE))
             == Replied(tags)
    ensures tagDelta == State([Message(Ai, tags)], [], [])
    ensures TaggerModel(State([note, Message(Ai, summary)], [], summaries), cfg, llm) == Ok(tagDelta)
    ensures Merge(State([note, Message(Ai, summary)], [], summaries), tagDelta)
            == State([note, Message(Ai, summary), Message(Ai, tags)], [], summaries)
  {
    tagDelta := State([Message(Ai, tags)], [], []);
    assert TaggerPrompt(State([note, Message(Ai, summary)], [], summaries), cfg)
           == [note, Message(Ai, summary)] + Instruction(cfg, TAGGER_MESSAGE);
  }

  lemma RunPipelineSteps(initial: State, cfg: Configurable, llm: Llm, fetch: Fetcher, joinsEmptyFanOut: bool,
                         afterLinks: State, summaryDelta: Delta, tagDelta: Delta)
    requires |initial.messages| > 0
    requires RoutedLinks(initial) != [] || joinsEmptyFanOut
    requires FanOut(initial, RoutedLinks(initial), cfg, llm, fetch) == Ok(afterLinks)
    requires Invoke(SelectModel(cfg, NOTE_SUMMARISER_MODEL), SummariserPrompt(afterLinks, cfg), llm) == Ok(summaryDelta)
    requires TaggerModel(Merge(afterLinks, summaryDelta), cfg, llm) == Ok(tagDelta)
    ensures RunPipeline(initial, cfg, llm, fetch, joinsEmptyFanOut) == Ok(Merge(Merge(afterLinks, summaryDelta), tagDelta))
  {
  }

  lemma RunPipelineTaggerFails(initial: State, cfg: Configurable, llm: Llm, fetch: Fetcher, joinsEmptyFanOut: bool,
                               afterLinks: State, summaryDelta: Delta, e: Error)
    requires |initial.messages| > 0
    requires RoutedLinks(initial) != [] || joinsEmptyFanOut
    requires FanOut(initial, RoutedLinks(initial), cfg, llm, fetch) == Ok(afterLinks)
    requires Invoke(SelectModel(cfg, NOTE_SUMMARISER_MODEL), SummariserPrompt(afterLinks, cfg), llm) == Ok(summaryDelta)
    requires TaggerModel(Merge(afterLinks, summaryDelta), cfg, llm) == Err(e)
    ensures RunPipeline(initial, cfg, llm, fetch, joinsEmptyFanOut) == Err(e)
  {
  }

  lemma FanOutOnNote(content: string, cfg: Configurable, llm: Llm, fetch: Fetcher, summaries: seq<string>)
      returns (afterLinks: State)
    requires Retriever.ParseLinks(content) != [] ==> SelectModel(cfg, LINK_SUMMARISER_MODEL).Ok?
    requires var links := Retriever.ParseLinks(content);
             |summaries| == |links|
             && forall i :: 0 <= i < |links| ==>
                  summaries[i] == LinkSummary(Some(links[i]), SelectModel(cfg, LINK_SUMMARISER_MODEL).value, llm, fetch)
    ensures afterLinks == State([Message(Human, content)], [], summaries)
    ensures var initial := State([Message(Human, content)], [], []);
            |initial.messages| > 0 && FanOut(initial, RoutedLinks(initial), cfg, llm, fetch) == Ok(afterLinks)
  {
    var initial := State([Message(Human, content)], [], []);
    assert RoutedLinks(initial) == Retriever.ParseLinks(content);
    FanOutFromEmpty(initial, Retriever.ParseLinks(content), cfg, llm, fetch, summaries);
    afterLinks := initial.(linkSummary := summaries);
  }

  /** From an empty `linkSummary`, the fan-out leaves exactly the summaries of
      the links, in link order. */
  lemma FanOutFromEmpty(state: State, links: seq<string>, cfg: Configurable, llm: Llm, fetch: Fetcher, summaries: seq<string>)
    requires state.linkSummary == []
    requires links != [] ==> SelectModel(cfg, LINK_SUMMARISER_MODEL).Ok?
    requires |summaries| == |links|
    requires forall i :: 0 <= i < |links| ==>
               summaries[i] == LinkSummary(Some(links[i]), SelectModel(cfg, LINK_SUMMARISER_MODEL).value, llm, fetch)
    ensures FanOut(state, links, cfg, llm, fetch) == Ok(state.(linkSummary := summaries))
  {
    if links != [] {
      var all := Summaries(links, SelectModel(cfg, LINK_SUMMARISER_MODEL).value, llm, fetch);
      assert summaries == all;
      assert state.linkSummary + all == all;
    }
  }
}
