/**
 * The agent worker's per-turn bookkeeping (agent/agent.py): choosing the
 * system prompt from participant metadata, the retrieval step that runs
 * when a user turn ends (sources payload and injected context message),
 * and the "USER:" / "BOT:" transcript lines published to the room.
 *
 * The HTTP call to the backend, JSON decoding and LiveKit publishing are
 * foreign: the first two are function parameters, and what would be
 * published is returned to the caller.
 */
module Agent {
  import opened Wrappers
  import opened Strings
  import Rag

  // ------------------------------------------------------------ system prompt

  /** A decoded JSON value (numbers as reals). */
  datatype JsonValue =
    | JNull
    | JBool(b: bool)
    | JNumber(n: real)
    | JString(s: string)
    | JArray(items: seq<JsonValue>)
    | JObject(members: map<string, JsonValue>)

  /** Python truthiness of the decoded value. */
  predicate Truthy(v: JsonValue) {
    match v
    case JNull => false
    case JBool(b) => b
    case JNumber(n) => n != 0.0
    case JString(s) => s != ""
    case JArray(items) => items != []
    case JObject(members) => |members| > 0
  }

  /** DEFAULT_SYSTEM_PROMPT. */
  const DefaultSystemPrompt: string :=
    "\n" +
    "\n" +
    "You are a professional, reliable assistant that answers questions strictly based on the uploaded documents in the knowledge base.\n" +
    "\n" +
    "GENERAL BEHAVIOR:\n" +
    "- Greet the user politely.\n" +
    "- Maintain a professional, clear, and concise tone.\n" +
    "- Do NOT include jokes, humor, or unnecessary commentary.\n" +
    "- Do NOT add information that is not explicitly supported by the provided documents.\n" +
    "\n" +
    "CONTEXT USAGE RULES:\n" +
    "- Use ONLY the retrieved context from the knowledge base to construct your answer.\n" +
    "- Do NOT rely on prior knowledge, assumptions, or external information.\n" +
    "- If the provided context does not contain sufficient information to answer the question, clearly state:\n" +
    "\"The provided documents do not contain enough information to answer this question.\"\n" +
    "- Do NOT hallucinate, fabricate, or infer beyond what is written in the documents.\n" +
    "- Do NOT speculate or guess.\n" +
    "\n" +
    "CITATION REQUIREMENTS:\n" +
    "- Every factual statement must be supported by a citation from the retrieved documents.\n" +
    "- Always cite the exact source document and, if available, include section name, page number, or chunk reference.\n" +
    "- Use consistent citation formatting (e.g., [Document Name, Page X] or [Source ID]).\n" +
    "- Do not provide any answer without citations.\n" +
    "\n" +
    "ANSWER FORMAT:\n" +
    "1. Polite greeting.\n" +
    "2. Direct answer supported strictly by citations.\n" +
    "3. Clear citations immediately following the relevant statements.\n" +
    "4. If information is missing, explicitly state that the documents do not contain the answer.\n" +
    "\n" +
    "If multiple documents provide relevant information, cite all applicable sources.\n" +
    "Remember: Answer only from provided documents, concisely, with citations for every factual claim.\n"

  /** The agent's instructions, or the AttributeError a non-object metadata value raises. */
  datatype PromptChoice = Instructions(prompt: JsonValue) | AttributeError

  /** The decoded metadata is an object carrying a truthy "system_prompt". */
  predicate CarriesPrompt(decoded: Option<JsonValue>) {
    && decoded.Some?
    && decoded.value.JObject?
    && "system_prompt" in decoded.value.members
    && Truthy(decoded.value.members["system_prompt"])
  }

  /**
   * The prompt choice in entrypoint. `loads` stands for json.loads; `None`
   * is a decode error, which falls back to the default.
   */
  function SelectSystemPrompt(metadata: string, loads: string -> Option<JsonValue>): (choice: PromptChoice)
    ensures choice == AttributeError <==>
      metadata != "" && loads(metadata).Some? && !loads(metadata).value.JObject?
    ensures metadata != "" && CarriesPrompt(loads(metadata)) ==>
      choice == Instructions(loads(metadata).value.members["system_prompt"])
    ensures choice.Instructions? && !(metadata != "" && CarriesPrompt(loads(metadata))) ==>
      choice == Instructions(JString(DefaultSystemPrompt))
    ensures choice.Instructions? ==> Truthy(choice.prompt)
  {
    if metadata == "" then Instructions(JString(DefaultSystemPrompt))
    else
      match loads(metadata)
      case None => Instructions(JString(DefaultSystemPrompt))
      case Some(JObject(members)) =>
        if "system_prompt" in members && Truthy(members["system_prompt"])
        then Instructions(members["system_prompt"])
        else Instructions(JString(DefaultSystemPrompt))
      case Some(_) => AttributeError
  }

  // ------------------------------------------------------------ transcript lines

  const UserTag := "USER"
  const AgentTag := "BOT"

  /**
   * Reads a transcript line back as (speaker tag, text) by splitting at the
   * first ':'; `None` when the line has no ':'.
   */
  function SplitTag(line: string): (r: Option<(string, string)>)
    ensures r.None? <==> ':' !in line
    ensures r.Some? ==> ':' !in r.value.0 && line == r.value.0 + ":" + r.value.1
  {
    if line == [] then None
    else if line[0] == ':' then Some(([], line[1..]))
    else
      match SplitTag(line[1..])
      case None => None
      case Some((tag, text)) => Some(([line[0]] + tag, text))
  }

  /** A line built from a colon-free tag splits back into that tag and the text, whatever the text holds. */
  lemma {:induction false} SplitTagOfTagged(tag: string, text: string)
    requires ':' !in tag
    ensures SplitTag(tag + ":" + text) == Some((tag, text))
    decreases |tag|
  {
    if tag != [] {
      SplitTagOfTagged(tag[1..], text);
      assert (tag + ":" + text)[1..] == tag[1..] + ":" + text;
      assert [tag[0]] + tag[1..] == tag;
    }
  }

  /**
   * on_user_transcribed: a final (the default when the event does not say),
   * non-empty transcript is published as "USER:" + transcript.
   */
  function UserTranscriptLine(transcript: Option<string>, isFinal: Option<bool>): (line: Option<string>)
    ensures line.Some? <==> transcript.GetOr("") != "" && isFinal.GetOr(true)
    ensures line.Some? ==> line.value == UserTag + ":" + transcript.value
    ensures line.Some? ==> SplitTag(line.value) == Some((UserTag, transcript.value))
  {
    var text := transcript.GetOr("");
    if text != "" && isFinal.GetOr(true) then
      SplitTagOfTagged(UserTag, text);
      Some(UserTag + ":" + text)
    else None
  }

  /**
   * on_conversation_item: a non-empty text of an item whose role is
   * "assistant" is published as "BOT:" + text; a missing role reads as
   * "unknown" and a missing text as "".
   */
  function AgentTranscriptLine(role: Option<string>, text: Option<string>): (line: Option<string>)
    ensures line.Some? <==> role == Some("assistant") && text.GetOr("") != ""
    ensures line.Some? ==> line.value == AgentTag + ":" + text.value
    ensures line.Some? ==> SplitTag(line.value) == Some((AgentTag, text.value))
  {
    var content := text.GetOr("");
    if role.GetOr("unknown") == "assistant" && content != "" then
      SplitTagOfTagged(AgentTag, content);
      Some(AgentTag + ":" + content)
    else None
  }

  // ------------------------------------------------------------ on_user_turn_completed

  /** The backend's /retrieve answer; `None` is a missing key or a null value. */
  datatype RagResponse = RagResponse(documents: Option<seq<string>>, metadatas: Option<seq<Rag.Metadata>>)

  /** The payload handed to the sources publisher (before JSON encoding). */
  datatype SourcesPayload = SourcesPayload(documents: seq<string>, sources: seq<string>)

  /** `m.get("source", "unknown") if isinstance(m, dict) else "unknown"`. */
  function SourceLabel(m: Rag.Metadata): string {
    match m
    case Dict(source) => source.GetOr("unknown")
    case NonDict => "unknown"
  }

  /** One label per metadata record, in order. */
  function SourceLabels(metas: seq<Rag.Metadata>): (labels: seq<string>)
    ensures |labels| == |metas|
    ensures forall i :: 0 <= i < |metas| ==> labels[i] == SourceLabel(metas[i])
  {
    seq(|metas|, i requires 0 <= i < |metas| => SourceLabel(metas[i]))
  }

  /**
   * The labels of what the backend retrieves from an aligned store are
   * labels of records stored there: no "unknown" placeholder is invented.
   */
  lemma LabelsComeFromStore(disk: Rag.Store, query: string, k: int, search: (string, int) -> seq<int>)
    requires Rag.Aligned(disk)
    ensures var r := Rag.Retrieve(disk, query, k, search);
      r.Retrieved? ==>
      forall j :: 0 <= j < |r.metadatas| ==> SourceLabels(r.metadatas)[j] in SourceLabels(Rag.Load(disk).metadatas)
  {
    var r := Rag.Retrieve(disk, query, k, search);
    var stored := Rag.Load(disk).metadatas;
    Rag.RetrieveDrawsFromStore(disk, query, k, search);
    forall j | r.Retrieved? && 0 <= j < |r.metadatas|
      ensures SourceLabels(r.metadatas)[j] in SourceLabels(stored)
    {
      var i :| 0 <= i < |stored| && stored[i] == r.metadatas[j];
      assert SourceLabels(stored)[i] == SourceLabel(r.metadatas[j]);
    }
  }

  const ContextPrefix := "Here is relevant context from the knowledge base to help answer the user's question:\n\n"
  const ContextSeparator := "\n\n---\n\n"
  const NoContextMessage := "No relevant context was found in the knowledge base for this question."

  /**
   * The assistant message injected into the chat context: the retrieved
   * documents in order after a fixed preamble, or a fixed notice that
   * nothing was found. The two kinds cannot be confused.
   */
  function ContextMessage(docs: seq<string>): (content: string)
    ensures docs == [] ==> content == NoContextMessage
    ensures docs != [] ==>
      && ContextPrefix <= content
      && content[|ContextPrefix|..] == Join(docs, ContextSeparator)
      && docs[0] <= content[|ContextPrefix|..]
    ensures content == NoContextMessage <==> docs == []
  {
    if docs == [] then NoContextMessage
    else
      var content := ContextPrefix + Join(docs, ContextSeparator);
      JoinStartsWith(docs, ContextSeparator);
      assert content[|ContextPrefix|..] == Join(docs, ContextSeparator);
      content
  }

  /** Retrieving more documents extends the injected context after one more separator. */
  lemma ContextMessageAppend(docs: seq<string>, more: seq<string>)
    requires docs != [] && more != []
    ensures ContextMessage(docs + more) == ContextMessage(docs) + ContextSeparator + Join(more, ContextSeparator)
  {
    var a, b := Join(docs, ContextSeparator), Join(more, ContextSeparator);
    assert ContextMessage(docs + more) == ContextPrefix + Join(docs + more, ContextSeparator);
    JoinAppend(docs, more, ContextSeparator);
    assert ContextPrefix + (a + ContextSeparator + b) == (ContextPrefix + a) + ContextSeparator + b;
  }

  datatype ChatMessage = ChatMessage(role: string, content: string)

  /** The turn's chat context; add_message appends. */
  class ChatContext {
    var messages: seq<ChatMessage>

    constructor (messages: seq<ChatMessage>)
      ensures this.messages == messages
    {
      this.messages := messages;
    }

    method AddMessage(role: string, content: string)
      modifies this
      ensures messages == old(messages) + [ChatMessage(role, content)]
    {
      messages := messages + [ChatMessage(role, content)];
    }
  }

  /** RAGAgent: its instructions and whether a sources publisher was supplied. */
  class RagAgent {
    const instructions: JsonValue
    const publishesSources: bool

    constructor (instructions: JsonValue, publishesSources: bool)
      ensures this.instructions == instructions && this.publishesSources == publishesSources
    {
      this.instructions := instructions;
      this.publishesSources := publishesSources;
    }

    /**
     * on_user_turn_completed. `userQuery` is the new message's text content
     * (`None` when absent) and `retrieveContext` the backend call; the
     * result is the payload handed to the publisher, if any.
     */
    method OnUserTurnCompleted(turnCtx: ChatContext, userQuery: Option<string>,
                               retrieveContext: string -> RagResponse)
      returns (published: Option<SourcesPayload>)
      modifies turnCtx
      ensures userQuery.GetOr("") == "" ==>
        published == None && turnCtx.messages == old(turnCtx.messages)
      ensures userQuery.GetOr("") != "" ==>
        var response := retrieveContext(userQuery.value);
        var docs := response.documents.GetOr([]);
        var metas := response.metadatas.GetOr([]);
        && published == (if publishesSources && docs != [] then Some(SourcesPayload(docs, SourceLabels(metas))) else None)
        && turnCtx.messages == old(turnCtx.messages) + [ChatMessage("assistant", ContextMessage(docs))]
    {
      var query := userQuery.GetOr("");
      if query == "" {
        return None;
      }
      var response := retrieveContext(query);
      var docs := response.documents.GetOr([]);
      var metas := response.metadatas.GetOr([]);
      published := None;
      if publishesSources && docs != [] {
        published := Some(SourcesPayload(docs, SourceLabels(metas)));
      }
      turnCtx.AddMessage("assistant", ContextMessage(docs));
    }
  }
}
