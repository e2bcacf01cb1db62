# Rabindra Dhant MMA data and chat: a verified model of the deterministic core

This project models the deterministic routines of a small Python application about
the Nepali MMA fighter Rabindra Dhant. The rest of the application is glue around
pandas, sentence-transformer embeddings, a ChromaDB collection, OpenAI and Gradio.
The modelled routines are:

- `src/data_prep.py` (module `DataPrep`):
  - the JSON loader that tries orjson, json and `ast.literal_eval` in that order;
  - the `M:SS` / `MM:SS` clock parser;
  - the first-present `coalesce`.
- `src/data_prune.py` (module `DataPrune`): the row filter that drops rows whose
  share of missing cells is strictly above a threshold.
- `src/data_cleanup.py`:
  - `parse_json_safe` and the in-place `clean_data` pipeline, in module
    `DataCleanup` on top of `Tables` and `ColumnExtraction`. The pipeline converts
    dates, drops duplicate rows, parses the JSON columns and extracts six keys;
  - the Rabindra Dhant filter with its perspective-corrected outcome (`DataCleanup`);
  - the career mind map (`MindMap`).
- `src/gradio_ui.py` (module `ChatUi`): the deterministic part of one chat turn.
  That is the blank-input guard, the chunk batch and its ids, the context blocks,
  the message list, and the turn appended to the shared history. It also covers
  `toggle_division`.

Supporting modules:

- `Wrappers`: `Option` and `Result`.
- `Text`: Python's `str.strip` whitespace set, decimal digits, prefix removal and `join`.
- `Seqs`: filtering, subsequences and first-occurrence deduplication.
- `Tables`: Python cell values, rows, frames as values (`Table`) and as objects
  updated in place (`Frame`).

Missing values are explicit variants of `Value`: `PyNone`, `NaN` and `NaT`.
Percentages are exact reals. An exception that escapes is an `Err`, a `None` of an
`Option`, or a `false` success flag. The following are parameters, because their
behaviour lives in libraries:

- the JSON parsers;
- `pd.to_datetime(..., errors='coerce')`;
- Python's `str` of a metadata value;
- the rows `readFile()` returns;
- what the vector store and the chat model return.

The code that works in place is modelled imperatively:

- `clean_data` is a method on a `Frame` object;
- `build_mindmap` loops over a `DiGraph` object;
- the block and message loops of `chat_with_markdown` are `for` loops;
- the history it appends to is a `History` object.

Each of these methods is proved against a function that specifies it. The
properties are then proved about those functions.

## Model

| member | source | states |
|---|---|---|
| DataPrep.FirstParse | src/data_prep.py:10-19 | The fallback chain gives `None` exactly when every parser raises. Otherwise it gives the result of the first parser that succeeds, and every earlier parser raised. |
| DataPrep.SafeJsonLoad | src/data_prep.py:6-19 | A missing value or `""` gives `{}`. A non-string gives `{}`. A string gives orjson's result, else json's, else `literal_eval`'s, else `{}`; it never raises. |
| DataPrep.MatchClock | src/data_prep.py:26-27 | A match yields one or two ASCII digits of minutes and exactly two of seconds, and the text is exactly `minutes:seconds`. |
| DataPrep.MatchClockComplete | src/data_prep.py:26-27 | Every text of that shape matches, with its two parts as the groups. |
| DataPrep.ToSecondsMmSs | src/data_prep.py:21-29 | A missing value or `""` gives NaN. An int or float gives its float value, and a bool (an `int` to `isinstance`) gives 1.0 or 0.0. A string whose stripped form lacks the clock shape gives NaN, and so does any other non-null value. A non-empty string gives an int exactly when its stripped form has the clock shape. Any int result comes from a string and lies in `[0, 99*60+99]`. |
| DataPrep.ToSecondsOfStripped | src/data_prep.py:26-29 | A string whose stripped form is `minutes:seconds` gives `minutes*60 + seconds`. |
| DataPrep.ToSecondsOfClock | src/data_prep.py:26-29 | Round trip: writing `m` and `s` (both below 100) as `M:SS`/`MM:SS`, padding it with any whitespace and parsing it gives `m*60 + s`. |
| DataPrep.SecondsNotRangeChecked | src/data_prep.py:26-29 | The seconds field is not range-checked: `"1:75"` gives 135. |
| DataPrep.MalformedClocksAreNaN | src/data_prep.py:22-28 | Three minute digits, a one-digit seconds field and a blank string each give NaN. |
| DataPrep.Coalesce | src/data_prep.py:31-35 | Gives NaN exactly when every argument is `None`, `""` or NaN, including when there are none. Otherwise gives the first argument that is none of those. |
| DataPrep.IsBlank | src/data_prep.py:33 | What `coalesce` skips: `None`, `""` and NaN (a definition, with no contract of its own). |
| DataPrune.NullCount | src/data_prune.py:20 | A row's null count is at most its number of columns. |
| DataPrune.NullCountIsNullColumns | src/data_prune.py:20 | With unique column labels, the null count is the number of columns whose cell is missing. |
| DataPrune.MissingPercentInRange | src/data_prune.py:20 | A row's missing percentage exists exactly when the frame has columns (with none it is `0/0`, NaN). It then lies between 0 and 100. |
| DataPrune.MissingPercent | src/data_prune.py:20 | A row's missing percentage is undefined (`0/0`, NaN) exactly when the frame has no columns. |
| DataPrune.Dropped | src/data_prune.py:21 | The `> row_threshold` mask selects a row only when the frame has columns, and never at a threshold of 100 or more. |
| DataPrune.Prune | src/data_prune.py:20-28 | The columns are unchanged. The survivors are an ordered subsequence of the input, and none of them is over the threshold. |
| DataPrune.PruneKeepsUndropped | src/data_prune.py:20-28 | The columns are unchanged. A row survives exactly when it is not dropped, with its full multiplicity. The survivors are a subsequence of the input, in order. |
| DataPrune.PruneAtLeast100KeepsAll | src/data_prune.py:20-28 | With a threshold of 100 or more the frame comes back unchanged. |
| DataPrune.PruneMonotone | src/data_prune.py:21-28 | Raising the threshold never removes a row that a lower threshold kept. |
| DataPrune.SixOfEightMissing | src/data_prune.py:3-21 | Six missing cells out of eight is 75%. Such a row is dropped at the default 50, kept at 80 and kept at exactly 75. |
| DataCleanup.ParseJsonSafe | src/data_cleanup.py:6-11 | Null, non-string, empty or whitespace-only input gives `{}`. Any other string gives `json.loads`'s result, or `{}` when it raises. |
| DataCleanup.ParseJsonSafeIsDict | src/data_cleanup.py:6-11 | When `json.loads` only produces objects, every parsed cell is a dict. |
| DataCleanup.Prepared | src/data_cleanup.py:17-26 | After the date conversion, duplicate removal and JSON parsing, the four input columns and the parsed `stats` and `extras` columns are present. |
| DataCleanup.PreparedParses | src/data_cleanup.py:22-26 | Each remaining row's `stats` and `extras` are the `parse_json_safe` results of its own `stats_json` and `extras_json`. |
| DataCleanup.ExtractionsIndependent | src/data_cleanup.py:29-36 | No extraction writes a column another one reads, and the six targets are distinct. |
| DataCleanup.ExtractionsSucceedIff | src/data_cleanup.py:29-36 | The six extraction statements all run exactly when every row's `stats` and `extras` are dicts. |
| DataCleanup.ExtractionsKeepOtherColumns | src/data_cleanup.py:29-36 | When the extractions run, every column they do not target keeps its cells. |
| DataCleanup.CleanSucceedsOnJsonObjects | src/data_cleanup.py:6-36 | When `json.loads` only yields objects, `clean_data` always returns. |
| DataCleanup.PrepareColumns | src/data_cleanup.py:17-26 | The frame updated in place equals `Prepared` of its old state. |
| DataCleanup.ExtractColumns | src/data_cleanup.py:28-36 | The frame updated in place, and whether all six statements ran, equal the specification `Extracted` of the old frame. |
| DataCleanup.Extracted | src/data_cleanup.py:29-36 | The six statements leave a well-formed frame. After a completed run the row count is kept and no column is lost. |
| DataCleanup.CleanData | src/data_cleanup.py:15-38 | `clean_data` updates the frame in place. The new frame and the success flag are `Extracted(Prepared(old frame))`. |
| DataCleanup.RabindraOutcome | src/data_cleanup.py:45-50 | Rabindra Dhant as fighter A: the outcome verbatim. Only as fighter B: `Loss` exactly when the lowercased outcome is `win`, otherwise `Win`. Neither: `None`. |
| DataCleanup.FilterRabindraFights | src/data_cleanup.py:41-53 | Returns a new frame equal to `RabindraFights` of the input; the input frame is not changed. |
| DataCleanup.RabindraFights | src/data_cleanup.py:41-53 | The columns gain `rabindra_outcome`. There are no more rows than in the input. Every row involves Rabindra Dhant and holds the `rabindra_outcome` computed from its own cells. |
| DataCleanup.InvolvesRabindra | src/data_cleanup.py:43 | The mask: `fighter_a` or `fighter_b` is `Rabindra Dhant` (a definition, with no contract of its own). |
| DataCleanup.IsWin | src/data_cleanup.py:49 | The comparison ignores case: `win`, `Win` and `WIN` all count, and only a three-letter string can. |
| DataCleanup.RabindraFightsSelects | src/data_cleanup.py:43-52 | The kept rows are exactly the input rows involving Rabindra Dhant, as an ordered subsequence. Each such row is kept as many times as it occurs in the input, and no other row is kept. Each carries its `rabindra_outcome`, and every other cell is unchanged. |
| DataCleanup.KeptOutcomeMissing | src/data_cleanup.py:45-50 | On a kept row the derived outcome is `None` exactly when he is fighter A and the row's outcome is `None`. |
| DataCleanup.OutcomeFromCornerB | src/data_cleanup.py:48-49 | From fighter B's corner, `WIN` becomes `Loss`, and `Draw` and `Loss` become `Win`. |
| DataCleanup.OutcomeBothCorners | src/data_cleanup.py:46-47 | With him in both corners the outcome is taken verbatim. |
| ColumnExtraction.ExtractStep | src/data_cleanup.py:29 | One `x.get(key)` column assignment succeeds exactly when every source cell is a dict. It then stores each row's lookup, with an absent key giving `None`. |
| ColumnExtraction.ExtractAll | src/data_cleanup.py:29-36 | A completed run adds exactly the target columns and keeps the row count. |
| ColumnExtraction.ExtractAllSucceeds | src/data_cleanup.py:29-36 | With untouched sources, the run completes exactly when every source cell is a dict. |
| ColumnExtraction.ExtractAllKeeps | src/data_cleanup.py:29-36 | A column that no extraction targets keeps its cells. |
| ColumnExtraction.ExtractAllValue | src/data_cleanup.py:29-36 | After a completed run, each target holds its key's entry from the row's source dict, or `None`. |
| ColumnExtraction.ExtractAllEntry | src/data_cleanup.py:29-36 | After a completed run, each source cell is a dict and the target holds `d[key]` when the key is present, `None` otherwise. |
| ColumnExtraction.RunExtraction | src/data_cleanup.py:29 | One statement on the frame. When it raises, the run stops with the frame as it was. When it succeeds, the rest of the run continues from the new frame. |
| Tables.Get | src/data_cleanup.py:29 | `d.get(key)`: raises exactly when `d` is not a dict. Gives the entry when the key is present and `None` when it is absent. |
| Tables.IsNull | src/data_prune.py:20 | `isnull`: `None`, NaN and NaT are missing (a definition, with no contract of its own). |
| Tables.Applied | src/data_cleanup.py:18-26 | `df[t] = df[s].apply(f)`: the column set gains `t`, the row count is kept, and each row's `t` is `f` of its `s`. |
| Tables.Deduplicated | src/data_cleanup.py:22 | `drop_duplicates()` keeps the columns and the set of distinct rows. |
| Tables.Frame.Apply | src/data_cleanup.py:18-26 | The frame updated in place equals `Applied` of its old state. |
| Tables.Frame.TryApply | src/data_cleanup.py:29-36 | The assignment happens exactly when no cell raises. After a raise, the frame is unchanged. |
| Tables.Frame.ApplyRows | src/data_cleanup.py:52 | The row-wise assignment adds the column and stores `f(row)` in each row. |
| Tables.Frame.DropDuplicates | src/data_cleanup.py:22 | The frame updated in place equals `Deduplicated` of its old state. |
| Seqs.DedupMembership | src/data_cleanup.py:22 | Duplicate removal loses no row and invents none. |
| Seqs.DedupDistinct | src/data_cleanup.py:22 | After duplicate removal no two rows are equal. |
| Seqs.DedupOfDistinct | src/data_cleanup.py:22 | Rows without duplicates are left as they are. |
| Seqs.DedupIdempotent | src/data_cleanup.py:22 | Removing duplicates twice is removing them once. |
| Seqs.DedupSubsequence | src/data_cleanup.py:22 | The kept rows keep their relative order. |
| Seqs.DedupKeepsFirstOrder | src/data_cleanup.py:22 | First occurrence wins: kept rows appear in the order of their first occurrences. |
| Seqs.FilterMembership | src/data_cleanup.py:43 | A boolean mask keeps exactly the rows that satisfy it. |
| Seqs.FilterSubsequence | src/data_cleanup.py:43 | A boolean mask keeps the order of the rows. |
| Seqs.Filter | src/data_cleanup.py:43 | A boolean mask never adds rows. |
| Seqs.FilterPasses | src/data_cleanup.py:43 | Every kept row satisfies the mask. |
| Seqs.FilterCount | src/data_cleanup.py:43 | A row that satisfies the mask is kept as many times as it occurs; any other row is not kept. |
| Seqs.Dedup | src/data_cleanup.py:22 | Duplicate removal never adds rows. |
| Text.Strip | src/data_prep.py:26 | `strip()` is empty exactly for all-whitespace text. Otherwise it neither starts nor ends with whitespace. |
| Text.StripPadded | src/data_prep.py:26 | `strip()` removes any whitespace padding from text that does not start or end with whitespace. |
| Text.StripIdempotent | src/data_prep.py:26 | Stripping twice is stripping once. |
| Text.ParseDecimalOfDecimal | src/data_prep.py:29 | `int()` of a number's decimal digits gives the number back. |
| Text.ParseDecimal | src/data_prep.py:29 | `int()` of a digit string is zero exactly when every digit is `0`. |
| Text.Decimal | src/gradio_ui.py:170 | `str(n)` has at least one character, all of them digits, and starts with `0` only for 0. |
| Text.Lower | src/data_cleanup.py:49 | `lower()` keeps the length, leaves no ASCII capital, and changes no other character. |
| Text.Join | src/gradio_ui.py:201 | A join of at least one part starts with the first part. |
| Text.RemovePrefix | src/gradio_ui.py:209-210 | `re.sub("^p", "", s)` drops `p` once when `s` starts with it and leaves `s` unchanged otherwise. |
| Text.RemovePrefixOfPrepended | src/gradio_ui.py:209-210 | Removing a prefix that was just prepended gives back the original text. |
| Text.DecimalInjective | src/gradio_ui.py:170 | Different numbers have different decimal texts. |
| Text.JoinLength | src/gradio_ui.py:201 | A join is as long as its parts plus one separator between each two. |
| MindMap.Label | src/data_cleanup.py:146 | A label has at most 63 characters. An item of up to 60 characters is unchanged. A longer one is its first 60 characters followed by `...`. |
| MindMap.LabelIdempotent | src/data_cleanup.py:146 | Truncating a label again changes nothing. |
| MindMap.LongItemTruncated | src/data_cleanup.py:114-146 | The long `MMA in Nepal` item is shown cut after 60 characters. |
| MindMap.DiGraph.AddNode | src/data_cleanup.py:143-147 | `add_node` adds exactly that node and no edge. |
| MindMap.DiGraph.AddEdge | src/data_cleanup.py:144-148 | `add_edge` adds the edge and both endpoints. |
| MindMap.AddLabels | src/data_cleanup.py:145-148 | The inner loop adds exactly the branch-to-label edges and the label nodes of the branch's items. |
| MindMap.AddBranch | src/data_cleanup.py:143-148 | One outer pass adds the root-to-branch edge, the branch node, and the branch's labels. |
| MindMap.AddTree | src/data_cleanup.py:137-148 | The outer loop adds exactly the tree's edges and nodes. |
| MindMap.BuildMindmap | src/data_cleanup.py:67-150 | `build_mindmap()` gives a fresh graph whose edges and nodes are exactly the specified mind map. |
| MindMap.MindmapEdges | src/data_cleanup.py:137-148 | The mind map's edges: root to each branch, and branch to each of its item labels (a definition, with no contract of its own). |
| MindMap.MindmapNodes | src/data_cleanup.py:137-148 | The mind map's nodes other than the root: the branches and the item labels (a definition, with no contract of its own). |
| MindMap.MindmapConnected | src/data_cleanup.py:134-148 | Every node is the root or an endpoint of an edge: no node is isolated. |
| MindMap.TreeRootChildren | src/data_cleanup.py:137-144 | In any tree whose root is not a branch name, the root's children are exactly the branches. |
| MindMap.RootChildren | src/data_cleanup.py:137-144 | The root's children are exactly the seven branches. |
| MindMap.TreeItemUnderBranch | src/data_cleanup.py:145-148 | In any tree, each item's label hangs from its own branch. |
| MindMap.ItemUnderBranch | src/data_cleanup.py:69-148 | Each career item's label hangs from its own branch. |
| ChatUi.IsBlankInput | src/gradio_ui.py:133-134 | The input is blank exactly when it is `None` or only whitespace, including empty. |
| ChatUi.ChunkIds | src/gradio_ui.py:170 | One id per chunk, each starting with `chunk_`. |
| ChatUi.ChunkIdsDistinct | src/gradio_ui.py:170 | The ids are pairwise distinct. |
| ChatUi.ChunkIdPosition | src/gradio_ui.py:170 | The digits after `chunk_` read back as the chunk's position. |
| ChatUi.ChunkRows | src/gradio_ui.py:137 | `dropna(subset=["chunk_text"])` keeps exactly the input rows whose `chunk_text` is present, as an ordered subsequence. Each is kept as many times as it occurs in the input, and each has `source_url` and `tags`. |
| ChatUi.ChunkRowsSelect | src/gradio_ui.py:137 | The same four facts, proved about the filter that computes the kept rows. |
| ChatUi.HasChunkText | src/gradio_ui.py:137 | A row keeps its place when it has a `chunk_text` that is not missing (a definition, with no contract of its own). |
| ChatUi.Chunks | src/gradio_ui.py:137-171 | Documents, metadatas and ids have equal lengths. The ids are `chunk_0 … chunk_{n-1}`. No document is missing. The i-th document is the i-th kept row's `chunk_text`. The i-th metadata record is exactly that row's `source_url` and `tags`. |
| ChatUi.ChunksKeepPresentTexts | src/gradio_ui.py:137-140 | A row's text is sent exactly when it is present: no present text is lost and no missing one is sent. |
| ChatUi.Field | src/gradio_ui.py:188-193 | `meta.get(key, "N/A")`: an absent key renders as `N/A` and a present one as its value's text. |
| ChatUi.StoredRecordFields | src/gradio_ui.py:143-193 | A record as stored, with only `source_url` and `tags`, has title, author, date and entities rendered as `N/A`. |
| ChatUi.BlockHeader | src/gradio_ui.py:187-195 | The f-string header: six `meta.get` fields, then `Content:` (a definition, with no contract of its own). |
| ChatUi.Block | src/gradio_ui.py:187-197 | A block starts with its header and is the header, the document and a closing newline-and-indent long. The document reads back from between the two. |
| ChatUi.BlockOfStoredRecord | src/gradio_ui.py:143-197 | The whole block of a stored record, field by field in the source's order, with `N/A` defaults. |
| ChatUi.BlockDocumentRecoverable | src/gradio_ui.py:187-197 | Two blocks with the same metadata are equal only for the same document. |
| ChatUi.CollectBlocks | src/gradio_ui.py:185-199 | The intended loop: one block per zipped (document, metadata) pair, in order. |
| ChatUi.ContextBlocks | src/gradio_ui.py:185-199 | There is one block per pair `zip` makes: as many as the shorter of the two lists. |
| ChatUi.LastBlockOnly | src/gradio_ui.py:185-199 | The loop as written fails exactly when nothing was retrieved, and otherwise keeps a single block. |
| ChatUi.CollectBlocksAsWritten | src/gradio_ui.py:185-199 | The loop as written runs to `LastBlockOnly`. |
| ChatUi.LastBlockOnlyLosesBlocks | src/gradio_ui.py:185-201 | With two or more pairs the loop as written differs from one block per pair. With none it fails where an empty context was meant. |
| ChatUi.LastBlockOnlyIsLastContextBlock | src/gradio_ui.py:185-199 | The one block it keeps is the last intended block. |
| ChatUi.Context | src/gradio_ui.py:201 | Joining one block gives that block, and joining none gives `""`. |
| ChatUi.SystemMessage | src/gradio_ui.py:207 | The role is `system` and the content starts with the system prompt. Removing the prompt and `Context: ` gives the context back. |
| ChatUi.TurnMessages | src/gradio_ui.py:208-210 | Each history turn gives a user message and then an assistant message, in order. Each has its leading marker removed. |
| ChatUi.Messages | src/gradio_ui.py:207-211 | The list has length `2*|history| + 2`. It starts with the system message (prompt + `Context: ` + context), continues with the replayed history, and ends with the new input as a user message. |
| ChatUi.BuildMessages | src/gradio_ui.py:207-211 | The message loop builds exactly `Messages`. |
| ChatUi.UserDisplay | src/gradio_ui.py:226 | The display starts with the red user marker, and the input reads back between the opening and the closing `</span>`. |
| ChatUi.ReplyTurn | src/gradio_ui.py:220-228 | The user side is `UserDisplay` of the input. Removing the `🤖 ` marker from the assistant side gives the answer, with a missing answer as `""`. |
| ChatUi.ReplayedTurn | src/gradio_ui.py:207-228 | When an appended turn is replayed, the assistant side reaches the model as the bare answer. The user side keeps its HTML wrapper, because it does not start with the marker. |
| ChatUi.History.constructor | src/gradio_ui.py:132 | The shared default history starts empty. |
| ChatUi.ChatWithMarkdown | src/gradio_ui.py:132-230 | Blank input leaves the history unchanged, sends nothing and returns the input. Otherwise: the chunk batch and query are sent with `Messages` built from the intended context and the old history; exactly one turn (`UserDisplay`, `🤖 ` + answer, with a missing answer as `""`) is appended; the input box becomes `""`. |
| ChatUi.ToggleDivision | src/gradio_ui.py:273-275 | The result is the negation of the argument. |
| ChatUi.ToggleTwice | src/gradio_ui.py:273-275 | Toggling twice restores the visibility. |

## Left out

- `src/file_read.py`, `src/db_config.py` and `src/main.py` are not part of this model. They are CSV loading, embedding and vector-store setup at import time, and LangChain glue. The rows `readFile()` returns are the `corpus` parameter of `ChatUi.ChatWithMarkdown`.
- The JSON grammars of orjson, json and `ast.literal_eval` are parameters of type `string -> Option<Value>`. Only their fallback order is modelled.
- `pd.to_datetime(..., errors='coerce')` is the cell-function parameter `toDate`. Library date inference is out of scope.
- Python's `str()` of a metadata value in the f-string is the parameter `show`.
- The embedding model, the ChromaDB client and collection, and the OpenAI call are external services. What a chat turn sends them is the result `Request`. What they return is the `retrieved` and `reply` parameters. `n_results=5` and the model name only configure those calls.
- Only the first choice's content of the reply is modelled. `print` of the choices, and all other print diagnostics, are output only.
- The column-level missing percentages in `prune_missing_values` are computed only to be printed, so they have no counterpart.
- `summarize_rabindra` and `main` in `src/data_cleanup.py` only print.
- The Gradio layout and CSS are UI only. So are `send_quick_question` and the clear-chat wiring, `transcribe_audio_to_input` (temporary files and Whisper), the static markdown and table getters (constants), and `extract_json_from_text` (unused by the chat turn).
- `stats_df` passes through `chat_with_markdown` untouched. The two copies of `history` it returns are the `History` object itself.
- networkx internals: the mind map is a set of nodes and a set of edges, so insertion order and node attributes are not modelled.
- DataPrune.Prune: drops rows by position. The source drops by index label, which is the same only when labels are unique, as a fresh `read_csv` frame has.
- DataPrune.NullCountIsNullColumns: requires unique column labels. A duplicated label would make pandas return several columns for one name.
- ChatUi.ChatWithMarkdown: requires the corpus to have `chunk_text`, `source_url` and `tags` when the input is not blank. A missing column makes pandas raise `KeyError`, which is not modelled.
- ChatUi.ChatWithMarkdown: uses the corrected block loop (see Findings). The source's `UnboundLocalError` on an empty retrieval is captured by `ChatUi.LastBlockOnly` only.
- DataCleanup.PrepareColumns: requires the input columns `published_date`, `accessed_date`, `stats_json` and `extras_json` (`HasCleanInputs`). A missing one makes pandas raise `KeyError`, which is not modelled.
- DataCleanup.CleanData: requires the same four input columns. The `KeyError` a missing one raises is not modelled.
- DataCleanup.FilterRabindraFights: requires `fighter_a`, `fighter_b` and `outcome`. The `KeyError` a missing one raises is not modelled.
- Tables.Deduplicated: compares rows by value and never raises. pandas raises `TypeError` on unhashable dict or list cells. At that point of `clean_data` the frame holds only CSV values and the converted dates; `stats` and `extras` are created after it.
- Tables.Frame.DropDuplicates: has the same limitation as `Tables.Deduplicated`.
- ColumnExtraction.ExtractStep: stores an absent key as `None`. pandas may turn it into NaN when it infers a numeric column type; `IsNull` counts both as missing.
- ColumnExtraction.ExtractAllEntry: states the absent-key value as `None`, with the same proviso about NaN.
- DataPrep.ToSecondsMmSs and DataPrep.SafeJsonLoad: a list cell is treated like any other non-string. In the source, `pd.isna` on a list returns an array whose truth value can raise.
- `\d` is taken as ASCII digits, and `lower()` as ASCII lowering. No other character lowercases to `win`.
- Floats are exact reals. NaN is a `Value` variant, and float rounding in percentages is not modelled.

## Findings

| source | as written | input that shows it | evidently intended | confidence | as-written member | corrected member |
|---|---|---|---|---|---|---|
| src/gradio_ui.py:199 | `context_blocks.append(block)` is outside the `for` loop. Only the last retrieved pair's block reaches the context, and with no results `block` is unbound and raises `UnboundLocalError`. | Two retrieved documents `["a", "b"]` with two metadata records: the context holds only the block of `"b"`. | One block per retrieved (document, metadata) pair, joined with `---` separators, with an empty context when nothing is retrieved. | high, not executed | ChatUi.LastBlockOnlyLosesBlocks | ChatUi.CollectBlocks |
