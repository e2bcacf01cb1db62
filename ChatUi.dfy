/** The deterministic part of one chat turn in src/gradio_ui.py (`chat_with_markdown`):
    the blank-input guard, the chunk batch handed to the vector store, the context
    blocks built from what the store returns, the message list handed to the chat
    model, and the turn appended to the shared history. The embedding model, the
    vector store and the chat model are outside the model: what is sent to them is
    a result, and what they return is a parameter. */
module ChatUi {
  import opened Wrappers
  import opened Text
  import opened Seqs
  import opened Tables

  const SystemPrompt: string :=
    " Answer the question based on the given context. Also return the source URL and any relevant metadata for each part of your answer."

  /** The bust-in-silhouette emoji (U+1F464) that marks the user. */
  const UserGlyph: string := "\U{1F464}"

  /** The robot-face emoji (U+1F916) that marks the assistant. */
  const BotGlyph: string := "\U{1F916}"

  /** The marker in front of the user's side of a displayed turn. */
  const UserMarker: string := UserGlyph + " "

  /** The marker in front of the assistant's side of a displayed turn. */
  const BotMarker: string := BotGlyph + " "

  /** A chat message as the chat-completion call receives it. */
  datatype Message = Message(role: string, content: string)

  /** One displayed turn: the user's side and the assistant's side. */
  type Turn = (string, string)

  /** A metadata record of the vector store. */
  type Metadata = map<string, Value>

  // ---------------------------------------------------------------------------
  // The input guard
  // ---------------------------------------------------------------------------

  /** `not user_input or user_input.strip() == ""`, with `None` as `Option.None`. */
  function IsBlankInput(userInput: Option<string>): (r: bool)
    ensures r <==> userInput.None? || AllSpace(userInput.value)
  {
    userInput.None? || |userInput.value| == 0 || Strip(userInput.value) == ""
  }

  // ---------------------------------------------------------------------------
  // The chunk batch (documents, metadatas, ids) added to the collection
  // ---------------------------------------------------------------------------

  /** `f"chunk_{i}" for i in range(n)`. */
  function ChunkIds(n: nat): (r: seq<string>)
    ensures |r| == n
    ensures forall i :: 0 <= i < n ==> StartsWith(r[i], "chunk_")
  {
    seq(n, i requires 0 <= i => "chunk_" + Decimal(i))
  }

  /** The ids are pairwise distinct, so no chunk overwrites another in the collection. */
  lemma ChunkIdsDistinct(n: nat)
    ensures Distinct(ChunkIds(n))
  {
    var ids := ChunkIds(n);
    forall i, j | 0 <= i < j < n ensures ids[i] != ids[j] {
      if ids[i] == ids[j] {
        RemovePrefixOfPrepended("chunk_", Decimal(i));
        RemovePrefixOfPrepended("chunk_", Decimal(j));
        DecimalInjective(i, j);
      }
    }
  }

  /** Each id names its own position: the digits after `chunk_` read back as it. */
  lemma ChunkIdPosition(n: nat, i: nat)
    requires i < n
    ensures AllDigits(RemovePrefix("chunk_", ChunkIds(n)[i]))
    ensures ParseDecimal(RemovePrefix("chunk_", ChunkIds(n)[i])) == i
  {
    RemovePrefixOfPrepended("chunk_", Decimal(i));
    ParseDecimalOfDecimal(i);
  }

  /** What `collection.add` receives. */
  datatype ChunkBatch = ChunkBatch(documents: seq<Value>, metadatas: seq<Metadata>, ids: seq<string>)

  /** The frame has the three columns the chat turn reads. */
  predicate IsCorpus(t: Table) {
    WellFormed(t) && "chunk_text" in t.columns && "source_url" in t.columns && "tags" in t.columns
  }

  /** `dropna(subset=["chunk_text"])` keeps a row whose `chunk_text` is present. */
  predicate HasChunkText(row: Row) {
    "chunk_text" in row && !IsNull(row["chunk_text"])
  }

  /** The rows that survive `dropna(subset=["chunk_text"])`, in order. */
  function ChunkRows(t: Table): (r: seq<Row>)
    requires IsCorpus(t)
    ensures forall i :: 0 <= i < |r| ==> r[i] in t.rows && HasChunkText(r[i])
    ensures forall i :: 0 <= i < |r| ==> "source_url" in r[i] && "tags" in r[i]
    ensures IsSubsequence(r, t.rows)
    ensures forall row :: multiset(r)[row] == if HasChunkText(row) then multiset(t.rows)[row] else 0
  {
    ChunkRowsSelect(t);
    Filter(t.rows, HasChunkText)
  }

  /** What `dropna` keeps, stated of the filter that computes it. */
  lemma ChunkRowsSelect(t: Table)
    requires IsCorpus(t)
    ensures var kept := Filter(t.rows, HasChunkText);
            && (forall i :: 0 <= i < |kept| ==> kept[i] in t.rows && HasChunkText(kept[i]))
            && (forall i :: 0 <= i < |kept| ==> "source_url" in kept[i] && "tags" in kept[i])
            && IsSubsequence(kept, t.rows)
            && (forall row :: multiset(kept)[row] == if HasChunkText(row) then multiset(t.rows)[row] else 0)
  {
    var kept := Filter(t.rows, HasChunkText);
    forall i | 0 <= i < |kept| ensures kept[i] in t.rows && HasChunkText(kept[i]) {
      FilterMembership(t.rows, HasChunkText, kept[i]);
    }
    FilterSubsequence(t.rows, HasChunkText);
    forall row ensures multiset(kept)[row] == if HasChunkText(row) then multiset(t.rows)[row] else 0 {
      FilterCount(t.rows, HasChunkText, row);
    }
  }

  /** The texts of the surviving rows, their `source_url`/`tags` records
      (`to_dict(orient="records")`) and their ids. */
  function Chunks(t: Table): (r: ChunkBatch)
    requires IsCorpus(t)
    ensures |r.documents| == |r.metadatas| == |r.ids|
    ensures r.ids == ChunkIds(|r.documents|)
    ensures forall i :: 0 <= i < |r.documents| ==> !IsNull(r.documents[i])
    ensures forall i :: 0 <= i < |r.metadatas| ==> r.metadatas[i].Keys == {"source_url", "tags"}
    ensures |r.documents| == |ChunkRows(t)|
    ensures forall i :: 0 <= i < |r.documents| ==>
              && r.documents[i] == ChunkRows(t)[i]["chunk_text"]
              && r.metadatas[i] == map["source_url" := ChunkRows(t)[i]["source_url"], "tags" := ChunkRows(t)[i]["tags"]]
  {
    var kept := ChunkRows(t);
    ChunkBatch(
      seq(|kept|, i requires 0 <= i < |kept| => kept[i]["chunk_text"]),
      seq(|kept|, i requires 0 <= i < |kept| => map["source_url" := kept[i]["source_url"], "tags" := kept[i]["tags"]]),
      ChunkIds(|kept|))
  }

  /** A row's text is among the documents exactly when the row has one: no present
      text is lost and no missing one is sent. */
  lemma ChunksKeepPresentTexts(t: Table, row: Row)
    requires IsCorpus(t) && row in t.rows
    ensures HasChunkText(row) <==> exists i :: 0 <= i < |Chunks(t).documents| && ChunkRows(t)[i] == row
    ensures HasChunkText(row) ==> row["chunk_text"] in Chunks(t).documents
  {
    var kept := ChunkRows(t);
    FilterMembership(t.rows, HasChunkText, row);
    if HasChunkText(row) {
      var i :| 0 <= i < |kept| && kept[i] == row;
      assert Chunks(t).documents[i] == row["chunk_text"];
    }
  }

  // ---------------------------------------------------------------------------
  // Context blocks
  // ---------------------------------------------------------------------------

  /** `meta.get(key, "N/A")` formatted into the f-string; `show` is Python's `str`
      of a stored metadata value. */
  function Field(meta: Metadata, key: string, show: Value -> string): (r: string)
    ensures key !in meta ==> r == "N/A"
    ensures key in meta ==> r == show(meta[key])
  {
    if key in meta then show(meta[key]) else "N/A"
  }

  /** The text of the block before the document: title, author, published date, URL,
      tags and entities, one per line, then the `Content:` heading. */
  function BlockHeader(meta: Metadata, show: Value -> string): string {
    "\n    Source Title: " + Field(meta, "source_title", show)
    + "\n    Author: " + Field(meta, "author_or_channel", show)
    + "\n    Published Date: " + Field(meta, "published_date", show)
    + "\n    Source URL: " + Field(meta, "source_url", show)
    + "\n    Tags: " + Field(meta, "tags", show)
    + "\n    Entities: " + Field(meta, "entities", show)
    + "\n\n    Content:\n    "
  }

  /** The f-string block for one retrieved document and its metadata. */
  function Block(doc: string, meta: Metadata, show: Value -> string): (r: string)
    ensures |r| == |BlockHeader(meta, show)| + |doc| + 5
    ensures StartsWith(r, BlockHeader(meta, show))
    ensures r[|BlockHeader(meta, show)|..|r| - 5] == doc
  {
    BlockHeader(meta, show) + doc + "\n    "
  }

  /** Two blocks with the same metadata are equal only for the same document: the
      content can be read back from a block. */
  lemma BlockDocumentRecoverable(d1: string, d2: string, meta: Metadata, show: Value -> string)
    requires Block(d1, meta, show) == Block(d2, meta, show)
    ensures d1 == d2
  {
    var h, tail := BlockHeader(meta, show), "\n    ";
    assert (h + d1 + tail)[|h|..|h| + |d1|] == d1;
    assert (h + d2 + tail)[|h|..|h| + |d2|] == d2;
  }

  /** A stored record has no title, author, published date or entities. */
  lemma StoredRecordFields(url: Value, tags: Value, show: Value -> string)
    ensures var meta: Metadata := map["source_url" := url, "tags" := tags];
            && Field(meta, "source_title", show) == "N/A"
            && Field(meta, "author_or_channel", show) == "N/A"
            && Field(meta, "published_date", show) == "N/A"
            && Field(meta, "entities", show) == "N/A"
            && Field(meta, "source_url", show) == show(url)
            && Field(meta, "tags", show) == show(tags)
  {
    assert "source_title"[7] != "source_url"[7];
    assert "source_title"[0] != "tags"[0];
    assert "author_or_channel"[0] != "source_url"[0] && "author_or_channel"[0] != "tags"[0];
    assert "published_date"[0] != "source_url"[0] && "published_date"[0] != "tags"[0];
    assert "entities"[0] != "source_url"[0] && "entities"[0] != "tags"[0];
    assert "source_url"[0] != "tags"[0];
  }

  /** A record as the chat turn stores it (only `source_url` and `tags`) renders every
      other field as `N/A`. */
  lemma BlockOfStoredRecord(doc: string, url: Value, tags: Value, show: Value -> string)
    ensures Block(doc, map["source_url" := url, "tags" := tags], show)
            == "\n    Source Title: " + "N/A"
               + "\n    Author: " + "N/A"
               + "\n    Published Date: " + "N/A"
               + "\n    Source URL: " + show(url)
               + "\n    Tags: " + show(tags)
               + "\n    Entities: " + "N/A"
               + "\n\n    Content:\n    " + doc + "\n    "
  {
    StoredRecordFields(url, tags, show);
  }

  /** How many pairs `zip` forms. */
  function PairCount(docs: seq<string>, metas: seq<Metadata>): nat {
    if |docs| <= |metas| then |docs| else |metas|
  }

  /** The corrected reading of the block loop: one block per retrieved
      (document, metadata) pair, in the order `zip` pairs them. */
  function ContextBlocks(docs: seq<string>, metas: seq<Metadata>, show: Value -> string): (r: seq<string>)
    ensures |r| <= |docs| && |r| <= |metas| && (|r| == |docs| || |r| == |metas|)
  {
    seq(PairCount(docs, metas), i requires 0 <= i < PairCount(docs, metas) => Block(docs[i], metas[i], show))
  }

  /** The block loop as intended: a block is appended for every pair. */
  method CollectBlocks(docs: seq<string>, metas: seq<Metadata>, show: Value -> string) returns (blocks: seq<string>)
    ensures |blocks| == PairCount(docs, metas)
    ensures forall i :: 0 <= i < |blocks| ==> blocks[i] == Block(docs[i], metas[i], show)
  {
    var n := PairCount(docs, metas);
    blocks := [];
    for i := 0 to n
      invariant |blocks| == i
      invariant forall j :: 0 <= j < i ==> blocks[j] == Block(docs[j], metas[j], show)
    {
      blocks := blocks + [Block(docs[i], metas[i], show)];
    }
  }

  /** The block loop as written: `block` is reassigned on every pass and appended once,
      after the loop, so only the last pair's block is kept; with no pair at all,
      `block` is unbound and the append raises (`None`). */
  function LastBlockOnly(docs: seq<string>, metas: seq<Metadata>, show: Value -> string): (r: Option<seq<string>>)
    ensures r.None? <==> docs == [] || metas == []
    ensures r.Some? ==> |r.value| == 1
  {
    var n := PairCount(docs, metas);
    if n == 0 then None else Some([Block(docs[n - 1], metas[n - 1], show)])
  }

  /** The loop exactly as the source runs it. */
  method CollectBlocksAsWritten(docs: seq<string>, metas: seq<Metadata>, show: Value -> string)
    returns (blocks: Option<seq<string>>)
    ensures blocks == LastBlockOnly(docs, metas, show)
  {
    var n := PairCount(docs, metas);
    var block: Option<string> := None;
    for i := 0 to n
      invariant i == 0 <==> block.None?
      invariant i > 0 ==> block == Some(Block(docs[i - 1], metas[i - 1], show))
    {
      block := Some(Block(docs[i], metas[i], show));
    }
    if block.None? {
      return None;
    }
    blocks := Some([block.value]);
  }

  /** With two or more retrieved pairs the loop as written keeps one block where one
      per pair was meant, and with none it fails where an empty context was meant. */
  lemma LastBlockOnlyLosesBlocks(docs: seq<string>, metas: seq<Metadata>, show: Value -> string)
    ensures docs == [] || metas == [] ==> LastBlockOnly(docs, metas, show).None? && ContextBlocks(docs, metas, show) == []
    ensures |docs| >= 2 && |metas| >= 2 ==> LastBlockOnly(docs, metas, show) != Some(ContextBlocks(docs, metas, show))
  {
  }

  /** The one block the loop as written keeps is the last of the intended blocks. */
  lemma LastBlockOnlyIsLastContextBlock(docs: seq<string>, metas: seq<Metadata>, show: Value -> string)
    requires docs != [] && metas != []
    ensures var blocks := ContextBlocks(docs, metas, show);
            LastBlockOnly(docs, metas, show) == Some([blocks[|blocks| - 1]])
  {
    var n := PairCount(docs, metas);
    var b := Block(docs[n - 1], metas[n - 1], show);
    assert LastBlockOnly(docs, metas, show) == Some([b]);
    assert ContextBlocks(docs, metas, show)[n - 1] == b;
  }

  /** `"\n\n---\n\n".join(context_blocks)`. */
  function Context(blocks: seq<string>): (r: string)
    ensures |blocks| == 1 ==> r == blocks[0]
    ensures blocks == [] ==> r == ""
  {
    Join(blocks, "\n\n---\n\n")
  }

  // ---------------------------------------------------------------------------
  // The message list
  // ---------------------------------------------------------------------------

  /** The replay of the history: each turn as a user message and an assistant message,
      with a leading marker removed from each side (`re.sub("^...", "", ...)`). */
  function TurnMessages(history: seq<Turn>): (r: seq<Message>)
    ensures |r| == 2 * |history|
    ensures forall i :: 0 <= i < |history| ==>
              && r[2 * i] == Message("user", RemovePrefix(UserMarker, history[i].0))
              && r[2 * i + 1] == Message("assistant", RemovePrefix(BotMarker, history[i].1))
  {
    if history == [] then []
    else
      var last := history[|history| - 1];
      TurnMessages(history[..|history| - 1])
      + [Message("user", RemovePrefix(UserMarker, last.0)), Message("assistant", RemovePrefix(BotMarker, last.1))]
  }

  /** The system message carrying the prompt and the context. */
  function SystemMessage(context: string): (r: Message)
    ensures r.role == "system" && StartsWith(r.content, SystemPrompt)
    ensures RemovePrefix(SystemPrompt + "Context: ", r.content) == context
  {
    RemovePrefixOfPrepended(SystemPrompt + "Context: ", context);
    Message("system", SystemPrompt + "Context: " + context)
  }

  /** The whole message list: the system message, the replayed history, then the new input. */
  function Messages(context: string, history: seq<Turn>, userInput: string): (r: seq<Message>)
    ensures |r| == 2 * |history| + 2
    ensures r[0] == SystemMessage(context)
    ensures r[|r| - 1] == Message("user", userInput)
    ensures r[1..|r| - 1] == TurnMessages(history)
  {
    [SystemMessage(context)] + TurnMessages(history) + [Message("user", userInput)]
  }

  /** The loops that build `messages`. */
  method BuildMessages(context: string, history: seq<Turn>, userInput: string) returns (messages: seq<Message>)
    ensures messages == Messages(context, history, userInput)
  {
    messages := [SystemMessage(context)];
    for k := 0 to |history|
      invariant messages == [SystemMessage(context)] + TurnMessages(history[..k])
    {
      var h := history[k];
      messages := messages + [Message("user", RemovePrefix(UserMarker, h.0))];
      messages := messages + [Message("assistant", RemovePrefix(BotMarker, h.1))];
      assert history[..k + 1][..k] == history[..k];
    }
    assert history[..|history|] == history;
    messages := messages + [Message("user", userInput)];
  }

  /** The HTML that wraps the user's input in the displayed turn. */
  const UserDisplayOpen: string := "<span style='color: red'>" + UserGlyph + "</span> <span style='color: #FFFFFF'>"
  const UserDisplayClose: string := "</span>"

  /** How the user's side of a turn is displayed. */
  function UserDisplay(userInput: string): (r: string)
    ensures |r| == |UserDisplayOpen| + |userInput| + |UserDisplayClose|
    ensures StartsWith(r, UserDisplayOpen)
    ensures r[|UserDisplayOpen|..|r| - |UserDisplayClose|] == userInput
  {
    UserDisplayOpen + userInput + UserDisplayClose
  }

  /** The turn a reply appends; a missing reply content counts as `""`. */
  function ReplyTurn(userInput: string, reply: Option<string>): (r: Turn)
    ensures r.0 == UserDisplay(userInput)
    ensures RemovePrefix(BotMarker, r.1) == reply.GetOr("")
  {
    RemovePrefixOfPrepended(BotMarker, reply.GetOr(""));
    (UserDisplay(userInput), BotMarker + reply.GetOr(""))
  }

  /** When a turn appended by the chat is replayed in the next call, the assistant side
      reaches the model as the bare answer, while the user side keeps its HTML wrapper:
      it starts with `<`, not with the user marker. */
  lemma ReplayedTurn(context: string, history: seq<Turn>, u: string, reply: Option<string>, next: string)
    ensures var r := Messages(context, history + [ReplyTurn(u, reply)], next);
            && r[2 * |history| + 1] == Message("user", UserDisplay(u))
            && r[2 * |history| + 2] == Message("assistant", reply.GetOr(""))
  {
    var h := history + [ReplyTurn(u, reply)];
    var i := |history|;
    assert h[i] == ReplyTurn(u, reply);
    RemovePrefixOfPrepended(BotMarker, reply.GetOr(""));
    assert UserDisplay(u)[0] == UserDisplayOpen[0] == '<' != UserGlyph[0];
    assert !StartsWith(UserDisplay(u), UserMarker) by {
      assert UserDisplay(u)[..|UserMarker|][0] != UserMarker[0];
    }
    var r := Messages(context, h, next);
    assert r[1..|r| - 1][2 * i] == r[2 * i + 1];
    assert r[1..|r| - 1][2 * i + 1] == r[2 * i + 2];
  }

  // ---------------------------------------------------------------------------
  // One chat turn
  // ---------------------------------------------------------------------------

  /** The chat history list that `chat_with_markdown` appends to in place. The
      default argument `history=[]` is one list shared by every call that omits it,
      which is one `History` object passed to each such call. */
  class History {
    var turns: seq<Turn>

    constructor ()
      ensures turns == []
    {
      turns := [];
    }
  }

  /** What a chat turn sends out: the chunk batch added to the collection, the query
      text that is embedded, and the message list sent to the chat model. */
  datatype Request = Request(batch: ChunkBatch, query: string, messages: seq<Message>)

  /** What the vector-store query returns: documents and metadatas of the first query. */
  datatype Retrieval = Retrieval(documents: seq<string>, metadatas: seq<Metadata>)

  /** `chat_with_markdown(user_input, history)`: `corpus` is the frame `readFile()`
      returns, `retrieved` what the query returns and `reply` the content of the
      first choice. A blank input changes nothing and sends nothing; otherwise the
      request is built, one turn is appended and the input box is cleared. `sent` and
      `inputBox` are the request and the fourth returned value; the first two returned
      values are `history` itself, and `stats_df` passes through untouched. */
  method ChatWithMarkdown(history: History, userInput: Option<string>, corpus: Table, show: Value -> string,
                          retrieved: Retrieval, reply: Option<string>)
    returns (sent: Option<Request>, inputBox: Option<string>)
    requires IsBlankInput(userInput) || IsCorpus(corpus)
    modifies history
    ensures IsBlankInput(userInput) ==>
              history.turns == old(history.turns) && sent.None? && inputBox == userInput
    ensures !IsBlankInput(userInput) ==>
              && history.turns == old(history.turns) + [ReplyTurn(userInput.value, reply)]
              && inputBox == Some("")
              && sent == Some(Request(
                   Chunks(corpus),
                   userInput.value,
                   Messages(Context(ContextBlocks(retrieved.documents, retrieved.metadatas, show)),
                            old(history.turns), userInput.value)))
  {
    if IsBlankInput(userInput) {
      return None, userInput;
    }
    var u := userInput.value;
    var batch := Chunks(corpus);
    var blocks := CollectBlocks(retrieved.documents, retrieved.metadatas, show);
    assert blocks == ContextBlocks(retrieved.documents, retrieved.metadatas, show);
    var messages := BuildMessages(Context(blocks), history.turns, u);
    sent := Some(Request(batch, u, messages));
    history.turns := history.turns + [(UserDisplay(u), BotMarker + reply.GetOr(""))];
    inputBox := Some("");
  }

  /** `toggle_division(is_visible)`. */
  function ToggleDivision(isVisible: bool): (r: bool)
    ensures r != isVisible
  {
    !isVisible
  }

  /** Two clicks bring the division back to where it was. */
  lemma ToggleTwice(isVisible: bool)
    ensures ToggleDivision(ToggleDivision(isVisible)) == isVisible
  {
  }
}
