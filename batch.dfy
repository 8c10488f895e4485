/** The batch step of agent.py's `process_notes`: each stored note from index
    20 on is run through the graph, and the summary and tags read out of the
    final messages replace the note's content and tags before the note is saved
    to the destination document. The store is a write log of the saves issued;
    the clock is a parameter. */
module Batch {
  import opened Wrappers
  import opened Strings
  import Agent
  import Retriever

  /** Notes before this index are never processed. */
  const SKIP_COUNT: nat := 20

  /** The longest note content the graph is given. */
  const MAX_CONTENT: nat := 1000000

  const TAG_SEPARATOR := ','

  /** A stored note. `modificationDate` and `modifydate` may be absent before
      processing; `others` holds every other field, which processing copies. */
  datatype Note = Note(key: string, content: string, tags: seq<string>,
                       modificationDate: Option<int>, modifydate: Option<int>,
                       others: map<string, string>)

  /** One `save_note_to_firestore(db, note, destination)` call. */
  datatype Save = Save(destination: string, note: Note)

  /** `notes[20:]`. */
  function Pending(notes: seq<Note>): (r: seq<Note>)
    ensures |notes| <= SKIP_COUNT ==> r == []
    ensures |notes| > SKIP_COUNT ==> |r| == |notes| - SKIP_COUNT
    ensures forall i :: 0 <= i < |r| ==> r[i] == notes[SKIP_COUNT + i]
  {
    if |notes| <= SKIP_COUNT then [] else notes[SKIP_COUNT..]
  }

  /** `{"messages": [HumanMessage(content=note['content'][:1000000])]}`. */
  function InitialState(note: Note): (s: Agent.State)
    ensures |s.messages| == 1 && s.messages[0].role == Agent.Human
    ensures |s.messages[0].content| <= MAX_CONTENT && s.messages[0].content <= note.content
    ensures |note.content| <= MAX_CONTENT ==> s.messages[0].content == note.content
    ensures s.links == [] && s.linkSummary == []
  {
    Agent.State([Agent.Message(Agent.Human, Truncate(note.content, MAX_CONTENT))], [], [])
  }

  /** The transformed content: the second-to-last message, or empty when the
      run left fewer than two messages. */
  function ExtractContent(messages: seq<Agent.Message>): string
  {
    if |messages| >= 2 then messages[|messages| - 2].content else ""
  }

  /** The tags: the last message split at every comma, neither trimmed nor
      filtered; no tags when there is no message. */
  function ExtractTags(messages: seq<Agent.Message>): (tags: seq<string>)
    ensures messages == [] <==> tags == []
    ensures forall i :: 0 <= i < |tags| ==> TAG_SEPARATOR !in tags[i]
    ensures messages != [] ==> Join(tags, TAG_SEPARATOR) == messages[|messages| - 1].content
    ensures messages != [] ==> |tags| == Occurrences(messages[|messages| - 1].content, TAG_SEPARATOR) + 1
  {
    if messages == [] then []
    else
      var last := messages[|messages| - 1].content;
      JoinSplit(last, TAG_SEPARATOR);
      SplitCount(last, TAG_SEPARATOR);
      Split(last, TAG_SEPARATOR)
  }

  /** The copy of `note` built from the run's final messages at time `now`:
      new content and tags, both dates set to `now`, every other field kept. */
  function TransformNote(note: Note, messages: seq<Agent.Message>, now: int): (t: Note)
    ensures t.(content := note.content, tags := note.tags,
               modificationDate := note.modificationDate, modifydate := note.modifydate) == note
    ensures |messages| >= 2 ==> t.content == messages[|messages| - 2].content
    ensures |messages| < 2 ==> t.content == ""
    ensures t.tags == ExtractTags(messages)
    ensures t.modificationDate == t.modifydate == Some(now)
  {
    note.(content := ExtractContent(messages), tags := ExtractTags(messages),
          modificationDate := Some(now), modifydate := Some(now))
  }

  /** The destination store, seen as the log of the saves issued to it. */
  class Firestore {
    var saves: seq<Save>

    constructor ()
      ensures saves == []
    {
      saves := [];
    }

    /** `save_note_to_firestore(db, note, destination)`. */
    method SaveNote(note: Note, destination: string)
      modifies this
      ensures saves == old(saves) + [Save(destination, note)]
    {
      saves := saves + [Save(destination, note)];
    }
  }

  /** The compiled graph as `process_notes` calls it: `app.invoke(state, config)`.
      `Pipeline` builds the one whose runs are `Agent.RunPipeline` under the
      run's configuration, model and fetcher. */
  type App = Agent.State -> Result<Agent.State, Agent.Error>

  function Pipeline(cfg: Agent.Configurable, llm: Agent.Llm, fetch: Agent.Fetcher, joinsEmptyFanOut: bool): App
  {
    s => Agent.RunPipeline(s, cfg, llm, fetch, joinsEmptyFanOut)
  }

  /** One pass of the loop's body before the save: run the graph on the note's
      initial state and, if the run returns, transform the note at `now`. */
  function ProcessNote(app: App, note: Note, now: int): (r: Result<Note, Agent.Error>)
    ensures r.Ok? <==> app(InitialState(note)).Ok?
    ensures r.Err? ==> r.error == app(InitialState(note)).error
    ensures r.Ok? ==> r.value == TransformNote(note, app(InitialState(note)).value.messages, now)
  {
    var result :- app(InitialState(note));
    Ok(TransformNote(note, result.messages, now))
  }

  /** `process_notes` from the connection check on: nothing happens without a
      connection; otherwise the pending notes are run in order, each result
      transformed at `clock(i)` and saved once, until a run raises, which ends
      the batch with that error and keeps the saves already issued. */
  method ProcessNotes(db: Firestore?, notes: seq<Note>, destination: string,
                      app: App, clock: nat -> int)
      returns (transformed: seq<Note>, failure: Option<Agent.Error>)
    modifies db
    ensures db == null ==> transformed == [] && failure == None
    ensures |transformed| <= |Pending(notes)|
    ensures forall i :: 0 <= i < |transformed| ==>
              ProcessNote(app, Pending(notes)[i], clock(i)) == Ok(transformed[i])
    ensures db != null ==> (failure.None? <==> |transformed| == |Pending(notes)|)
    ensures failure.Some? ==> |transformed| < |Pending(notes)|
                              && ProcessNote(app, Pending(notes)[|transformed|], clock(|transformed|)) == Err(failure.value)
    ensures db != null ==> db.saves == old(db.saves) + Saves(transformed, destination)
  {
    if db == null {
      return [], None;
    }
    transformed, failure := ProcessPending(db, Pending(notes), destination, app, clock);
  }

  /** The loop of `process_notes` over the pending notes, with a connection. */
  method ProcessPending(db: Firestore, pending: seq<Note>, destination: string,
                        app: App, clock: nat -> int)
      returns (transformed: seq<Note>, failure: Option<Agent.Error>)
    modifies db
    ensures |transformed| <= |pending|
    ensures forall i :: 0 <= i < |transformed| ==> ProcessNote(app, pending[i], clock(i)) == Ok(transformed[i])
    ensures failure.None? <==> |transformed| == |pending|
    ensures failure.Some? ==> |transformed| < |pending|
                              && ProcessNote(app, pending[|transformed|], clock(|transformed|)) == Err(failure.value)
    ensures db.saves == old(db.saves) + Saves(transformed, destination)
  {
    transformed := [];
    var i := 0;
    while i < |pending|
      invariant 0 <= i <= |pending| && |transformed| == i
      invariant forall j :: 0 <= j < i ==> ProcessNote(app, pending[j], clock(j)) == Ok(transformed[j])
      invariant db.saves == old(db.saves) + Saves(transformed, destination)
    {
      var result := ProcessNote(app, pending[i], clock(i));
      if result.Err? {
        return transformed, Some(result.error);
      }
      SavesSnoc(transformed, result.value, destination);
      db.SaveNote(result.value, destination);
      transformed := transformed + [result.value];
      i := i + 1;
    }
    failure := None;
  }

  /** The saves issued for `notes`, one per note, in order. */
  function Saves(notes: seq<Note>, destination: string): (r: seq<Save>)
    ensures |r| == |notes|
    ensures forall i :: 0 <= i < |notes| ==> r[i] == Save(destination, notes[i])
  {
    seq(|notes|, i requires 0 <= i < |notes| => Save(destination, notes[i]))
  }

  lemma SavesSnoc(notes: seq<Note>, note: Note, destination: string)
    ensures Saves(notes + [note], destination) == Saves(notes, destination) + [Save(destination, note)]
  {
  }

  /** A note whose run goes all the way through gets the note summariser's
      reply as its content and the tagger's reply, split at every comma, as its
      tags; the rest of the note is kept. */
  lemma TransformAfterPipeline(note: Note, cfg: Agent.Configurable, llm: Agent.Llm, fetch: Agent.Fetcher,
                               joinsEmptyFanOut: bool, summaries: seq<string>, summary: string, tags: string, now: int)
    requires var content := InitialState(note).messages[0].content;
             && (Retriever.ParseLinks(content) != [] || joinsEmptyFanOut)
             && Agent.SelectModel(cfg, Agent.NOTE_SUMMARISER_MODEL).Ok?
             && Agent.SelectModel(cfg, Agent.TAGGER_MODEL).Ok?
             && (Retriever.ParseLinks(content) != [] ==> Agent.SelectModel(cfg, Agent.LINK_SUMMARISER_MODEL).Ok?)
             && |summaries| == |Retriever.ParseLinks(content)|
             && (forall i :: 0 <= i < |summaries| ==>
                   summaries[i] == Agent.LinkSummary(Some(Retriever.ParseLinks(content)[i]),
                                                     Agent.SelectModel(cfg, Agent.LINK_SUMMARISER_MODEL).value, llm, fetch))
             && llm(Agent.SelectModel(cfg, Agent.NOTE_SUMMARISER_MODEL).value,
                    [Agent.Message(Agent.Human, content)] + Agent.Instruction(cfg, Agent.SUMMARISER_MESSAGE) + Agent.AsHuman(summaries))
                == Agent.Replied(summary)
             && llm(Agent.SelectModel(cfg, Agent.TAGGER_MODEL).value,
                    [Agent.Message(Agent.Human, content), Agent.Message(Agent.Ai, summary)] + Agent.Instruction(cfg, Agent.TAGGER_MESSAGE))
                == Agent.Replied(tags)
    ensures ProcessNote(Pipeline(cfg, llm, fetch, joinsEmptyFanOut), note, now).Ok?
    ensures var t := ProcessNote(Pipeline(cfg, llm, fetch, joinsEmptyFanOut), note, now).value;
            && t.content == summary && t.tags == Split(tags, TAG_SEPARATOR)
            && t.key == note.key && t.others == note.others
            && t.modificationDate == t.modifydate == Some(now)
  {
    var content := InitialState(note).messages[0].content;
    Agent.PipelineOnNote(content, cfg, llm, fetch, joinsEmptyFanOut, summaries, summary, tags);
  }

  /** A note without links, on a runtime that ends the run when the router
      sends no task, keeps only its own message: its new content is empty and
      its tags are its own (truncated) text split at every comma. */
  lemma TransformWithoutLinks(note: Note, cfg: Agent.Configurable, llm: Agent.Llm, fetch: Agent.Fetcher, now: int)
    requires Retriever.ParseLinks(Truncate(note.content, MAX_CONTENT)) == []
    ensures ProcessNote(Pipeline(cfg, llm, fetch, false), note, now).Ok?
    ensures var t := ProcessNote(Pipeline(cfg, llm, fetch, false), note, now).value;
            && t.content == "" && t.tags == Split(Truncate(note.content, MAX_CONTENT), TAG_SEPARATOR)
  {
    assert Agent.RoutedLinks(InitialState(note)) == [];
  }

  /** A note whose note-summariser call raises is not transformed: the error
      leaves `ProcessNote`, which ends the batch loop. */
  lemma SummariserRaisesStopsNote(note: Note, cfg: Agent.Configurable, llm: Agent.Llm, fetch: Agent.Fetcher,
                                  joinsEmptyFanOut: bool, summaries: seq<string>, now: int)
    requires var content := InitialState(note).messages[0].content;
             && (Retriever.ParseLinks(content) != [] || joinsEmptyFanOut)
             && Agent.SelectModel(cfg, Agent.NOTE_SUMMARISER_MODEL).Ok?
             && (Retriever.ParseLinks(content) != [] ==> Agent.SelectModel(cfg, Agent.LINK_SUMMARISER_MODEL).Ok?)
             && |summaries| == |Retriever.ParseLinks(content)|
             && (forall i :: 0 <= i < |summaries| ==>
                   summaries[i] == Agent.LinkSummary(Some(Retriever.ParseLinks(content)[i]),
                                                     Agent.SelectModel(cfg, Agent.LINK_SUMMARISER_MODEL).value, llm, fetch))
             && llm(Agent.SelectModel(cfg, Agent.NOTE_SUMMARISER_MODEL).value,
                    [Agent.Message(Agent.Human, content)] + Agent.Instruction(cfg, Agent.SUMMARISER_MESSAGE) + Agent.AsHuman(summaries))
                == Agent.Raised
    ensures ProcessNote(Pipeline(cfg, llm, fetch, joinsEmptyFanOut), note, now) == Err(Agent.ModelRaised)
  {
    var content := InitialState(note).messages[0].content;
    Agent.SummariserRaisesOnNote(content, cfg, llm, fetch, joinsEmptyFanOut, summaries);
  }

  /** An empty tagger reply gives one empty tag, not an empty list. */
  lemma EmptyReplyGivesOneEmptyTag(messages: seq<Agent.Message>)
    requires messages != [] && messages[|messages| - 1].content == ""
    ensures ExtractTags(messages) == [""]
  {
  }

  /** `"work,ideas,follow_up"` gives the three tags in order. */
  lemma ThreeTags(reply: string)
    requires reply == "work,ideas,follow_up"
    ensures Split(reply, TAG_SEPARATOR) == ["work", "ideas", "follow_up"]
  {
    var tags := ["work", "ideas", "follow_up"];
    assert Join(tags[2..], TAG_SEPARATOR) == "follow_up";
    assert Join(tags[1..], TAG_SEPARATOR) == "ideas,follow_up";
    assert Join(tags, TAG_SEPARATOR) == reply;
    SplitJoin(tags, TAG_SEPARATOR);
  }
}
