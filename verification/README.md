# bookworm: sync orchestrator, result picker and model selection

bookworm is a command-line bookmark search tool. `bookworm sync` reads the
bookmarks of every installed browser and hands them to a vector store.
`bookworm ask` reads a query, lets a language model pick matching bookmarks
from the store, lists them with numbers, and opens the one the user types.

This project models the deterministic control flow of that tool as pure
Dafny functions over immutable data:

- `Sync` (`sync.dfy`) models `bookworm_genai/commands/sync.py`. The browser
  registry is an ordered sequence of `(browser, platform -> config)` entries.
  Loaders are an uninterpreted function from a loader configuration (loader
  class and keyword arguments) to documents. A run records the documents,
  the warnings, the loaders built, every batch handed to `store_documents`,
  and the `KeyError` that escapes when a configuration lacks its kwargs,
  their `file_path`, or its loader class.
  `Walk`/`Sync` define the run one entry at a time. `Plan`, `Unsupported`
  and `LoadAll` are independent, entry-by-entry reference definitions, and
  lemmas connect the two. `RunSync` is the `for` loop of `sync` with
  `try`/`except`/`else`, and it is proved equal to `Sync`.
- `Picker` (`picker.dfy`) models the numbered listing and the re-prompt loop
  of `bookworm_genai/__main__.py`. `int()` is an abstract
  `string -> Option<int>`, and Python list indexing accepts `-n <= i < n`.
- `Cli` (`cli.dfy`) models `main`. It covers the mandatory subcommand, the
  dispatch to `sync` or `ask`, the validity gate, the early exit on an empty
  answer, and the pick.
- `Ask` (`ask.dfy`) models `_get_llm`'s precedence rule over the
  environment and the chain `ask` builds: the prompt messages, the output
  shape, the input names, and the temperature.
- `Common` (`common.dfy`) holds `Option`/`Result` and Python's decimal
  rendering of integers, which is used in the "Invalid index" warning.
  `Models` (`models.dfy`) holds the `Bookmark` record.

Where the code and its callers or tests disagree, the model follows the code:

- `sync()` is declared without parameters, but `main` calls `sync(browsers)`.
  The model takes the registry as a parameter and follows the body of `sync`
  in `bookworm_genai/commands/sync.py`.
- `sync` in `bookworm_genai/commands/sync.py` calls `store_documents` even
  with an empty list. `tests/test_sync.py` expects no call in that case (and expects loaders
  configured with `db` instead of `file_path`), which matches a later
  version. `Sync.Sync` stores the empty batch, and a configuration without
  `file_path` raises `KeyError`.
- `main` uses a `BookmarkChain` context manager (`is_valid`, `ask`) that
  `bookworm_genai/commands/ask.py` does not define. Its validity and its answer are
  parameters of `Cli.World`.

## Model

| member | source | states |
|---|---|---|
| Sync.Sync | bookworm_genai/commands/sync.py:11-29 | a completed run hands exactly its accumulated documents to `store_documents`, in one call; a run that raised stores nothing |
| Sync.RunSync | bookworm_genai/commands/sync.py:11-29 | the imperative loop (skip on `KeyError` for the platform; raise on missing kwargs, a missing `file_path` or a missing loader class; extend; then store once) computes exactly the run `Sync` defines |
| Sync.SyncCompletes | bookworm_genai/commands/sync.py:12-29 | with every supported config holding its loader class and kwargs naming `file_path`, the loaders built are exactly the supported browsers' configs in registry order; the warnings are exactly one per unsupported browser in registry order; the stored batch is the concatenation of the loaders' outputs in that order; warnings plus loaders equals the registry size |
| Sync.WalkFollowsPlan | bookworm_genai/commands/sync.py:12-25 | the loop's accumulated documents, warnings and loader constructions agree with the entry-by-entry reference definitions |
| Sync.EachEntryOneBranch | bookworm_genai/commands/sync.py:14-25 | every registry entry takes exactly one of the two branches: warned about, or loaded |
| Sync.SyncFailsAtFirstIncomplete | bookworm_genai/commands/sync.py:20-24 | the first incomplete supported config raises `KeyError` naming the first key it lacks (`bookmark_loader_kwargs`, `file_path` or `bookmark_loader`) before its loader is built; only earlier browsers' loaders were built and warnings logged; `store_documents` is never called |
| Sync.FailureSticks | bookworm_genai/commands/sync.py:21-24 | once the `KeyError` has escaped, no later registry entry changes anything |
| Sync.SyncCompletesIffWellFormed | bookworm_genai/commands/sync.py:15-24 | the run completes exactly when every supported config holds its loader class and kwargs naming `file_path`; a missing platform alone never aborts it |
| Sync.FirstMalformed | bookworm_genai/commands/sync.py:20-24 | when some supported config is incomplete, there is a first one, and every config before it is complete |
| Sync.Missing | bookworm_genai/commands/sync.py:21-24 | a config raises exactly when it is incomplete, and the key named is the first lookup that fails: the kwargs, then `file_path` inside them, then the loader class |
| Sync.Step | bookworm_genai/commands/sync.py:14-25 | after an escaped error an entry changes nothing; otherwise it adds exactly one warning or one loader, or it raises on an incomplete config of that browser without adding anything; a loader's output is appended after what was collected; nothing is stored inside the loop |
| Sync.Walk | bookworm_genai/commands/sync.py:14-25 | the loop itself never hands anything to `store_documents` |
| Sync.UnsupportedWarning | bookworm_genai/commands/sync.py:18 | the warning is "Platform ", the platform, " not supported for browser ", then the browser |
| Sync.UnsupportedEntryIsolated | bookworm_genai/commands/sync.py:15-19 | a browser without a config for the platform adds exactly the warning "Platform {p} not supported for browser {b}" and no documents or loaders, and every later browser is still loaded |
| Sync.SupportedEntryContribution | bookworm_genai/commands/sync.py:20-25 | a supported browser adds no warning and exactly one loader, built with exactly that platform's loader class and kwargs; its output appears in place, in its own order |
| Sync.SyncSplit | bookworm_genai/commands/sync.py:14-25 | a run's warnings, loaders and documents split around any one registry entry into before, that entry, and after |
| Ask.IsSet | bookworm_genai/commands/ask.py:46-50 | has no contract of its own; it is the truthiness of `os.environ.get`, and `Ask.EmptyKeyIsAbsent` proves an empty value counts as absent |
| Ask.GetLlm | bookworm_genai/commands/ask.py:41-55 | a selected model always has temperature 0.0; a failure always carries "No OpenAI API key found in environment variables" |
| Ask.OpenAiKeyWins | bookworm_genai/commands/ask.py:46-48 | a non-empty `OPENAI_API_KEY` selects the OpenAI model, whatever `AZURE_OPENAI_API_KEY` holds |
| Ask.AzureKeyFallback | bookworm_genai/commands/ask.py:50-52 | without a usable OpenAI key, a non-empty `AZURE_OPENAI_API_KEY` selects the Azure model |
| Ask.NoKeyFails | bookworm_genai/commands/ask.py:54-55 | selection fails, with the fixed message, exactly when neither key has a non-empty value |
| Ask.EmptyKeyIsAbsent | bookworm_genai/commands/ask.py:46-52 | a key bound to the empty string selects the same as a missing key |
| Ask.OnlyKeysMatter | bookworm_genai/commands/ask.py:41-55 | two environments that agree on whether the two keys are usable select the same model |
| Ask.BuildChain | bookworm_genai/commands/ask.py:24-34 | the chain exists exactly when a model is selected; on a missing key no chain is built, and the failure carries the missing-key message (ask.py raises at :25, before `duckdb.connect` at :30; the connection is not modelled); the prompt is exactly the system message followed by the human template "{query}"; the model's structured output is bound to the bookmarks shape; the model is the selected one at temperature 0.0; the chain's input mapping binds exactly `context` and `query` |
| Picker.Select | bookworm_genai/__main__.py:57-68 | the loop stops at the first line that parses and indexes the list, opening exactly the bookmark it indexes; every earlier line was rejected and drew its own warning, in order; if no line is accepted, all input is read and nothing is opened |
| Picker.SelectOpensIffSomeLineAccepted | bookworm_genai/__main__.py:57-64 | a bookmark is opened exactly when some input line is accepted, and no line before the accepted one was acceptable |
| Picker.NonNumberReprompts | bookworm_genai/__main__.py:65-66 | a line that is not a number draws "Invalid input", opens nothing, and the loop reads the next line |
| Picker.OutOfRangeReprompts | bookworm_genai/__main__.py:67-68 | a number outside `-n..n-1` draws "Invalid index" with that number, opens nothing, and the loop reads the next line |
| Picker.NegativeIndexCountsFromEnd | bookworm_genai/__main__.py:60-62 | `-k` for `0 < k <= n` is accepted at once and opens bookmark `n - k`, as Python indexing does |
| Picker.Resolve | bookworm_genai/__main__.py:62 | a valid Python index denotes a position below `n`: itself if non-negative, otherwise counted from the end |
| Picker.Complain | bookworm_genai/__main__.py:65-68 | for a rejected line: "Invalid input" quoting the line exactly when `int()` rejects it, and otherwise "Invalid index" with the number `int()` read |
| Picker.ComplaintText | bookworm_genai/__main__.py:65-68 | each warning quotes the rejected line, or the rejected number in decimal, after its fixed prefix |
| Picker.ComplaintTextInjective | bookworm_genai/__main__.py:65-68 | distinct warnings have distinct texts, so a logged warning identifies the rejected input |
| Picker.Listing | bookworm_genai/__main__.py:50-55 | the listing has one line per bookmark, numbered 0..n-1 in answer order |
| Picker.ListedNumberOpensListedBookmark | bookworm_genai/__main__.py:50-64 | typing the number a bookmark was listed with opens exactly that bookmark |
| Picker.RejectsThenOpensSecond | tests/test_main.py:108-133 | the inputs "NOT_A_NUMBER", "999", "1" against two bookmarks draw one warning of each kind, then open the second bookmark |
| Common.Decimal | bookworm_genai/__main__.py:68 | `str()` of an index is non-empty and starts with a minus sign exactly when the index is negative |
| Common.DecimalInjective | bookworm_genai/__main__.py:68 | distinct integers are rendered as distinct decimal strings in the "Invalid index" warning |
| Common.DigitsRoundTrip | bookworm_genai/__main__.py:68 | reading back the rendered digits of a number gives the number |
| Cli.ParseCommand | bookworm_genai/__main__.py:16-22 | exactly `sync` or `ask` selects that command; any other argument list, the empty one included, is a usage error with exit status 2 |
| Cli.Main | bookworm_genai/__main__.py:12-68 | a usage error exits with status 2 |
| Cli.DispatchIsExclusive | bookworm_genai/__main__.py:18-29 | `sync` runs the sync command on the registry and never the query path; `ask` runs the query path and never sync; no subcommand exits with 2 |
| Cli.AskFlow | bookworm_genai/__main__.py:29-68 | a bookmark is opened exactly when the run ends by opening; the chain, if asked, was asked with the first input line; the picker runs only after the chain was asked |
| Cli.InvalidChainNeverAsks | bookworm_genai/__main__.py:35-39 | an invalid chain returns before the chain is asked, before anything is listed, and before any selection is read |
| Cli.EmptyAnswerOpensNothing | bookworm_genai/__main__.py:43-48 | an empty answer returns without a listing, without reading a selection, and without opening anything |
| Cli.AnswerIsListedAndPicked | bookworm_genai/__main__.py:41-68 | a non-empty answer is listed as 0..n-1 in order; a bookmark is opened exactly when a later input line is accepted, and it is the one the first accepted line indexes |
| Cli.TypingZeroOpensFirst | tests/test_main.py:26-47 | a query followed by "0" asks the chain with that query and opens the first bookmark |

## Left out

- Storage (`store_documents`, DuckDB, embeddings, the drop-and-rebuild of the table) is a sink here: the model records the batches handed to it and nothing more. `bookworm_genai/storage.py` is not part of this model.
- The loaders (`JSONLoader`, the SQLite loader) and the registry's actual contents: `bookworm_genai/integrations.py` is not part of this model. Loaders are an uninterpreted function, and the registry is a parameter.
- Sync.Sync: the registry is a sequence, so it can hold a browser twice, which a Python dict cannot. Nothing in the model depends on browsers being distinct.
- Sync.Sync: `lazy_load()` is not modelled as lazy. Its output is taken as one finite sequence, and an exception raised while loading is not modelled.
- Sync.Sync: the `info` and `debug` log lines ("Loading bookmarks from …", the document count) are not recorded. Only warnings are recorded.
- Running the chain in `ask` (retriever, `chain.invoke`, the `duckdb.connect` scope, and closing the connection) calls third-party LLM and vector-store code. `Ask.BuildChain` records only the names the input mapping binds (`context`, `query`), not the retriever or the connection.
- `Bookmark.open` (one subprocess per platform) and `export` are process I/O. An opened bookmark is recorded, and `open()` is assumed not to raise. If it raised `ValueError` or `IndexError`, the selection loop in `main` would re-prompt.
- Cli.ParseCommand: argparse's `-h`/`--help` (exit status 0), prefix matching and option parsing are not modelled. Only the two exact subcommands are accepted, and every other argument list is a usage error with status 2.
- Cli.Main: logging, rich markup and the debug-only `source` column of the listing are formatting. The listing is modelled as numbered bookmarks.
- Picker.Select: Python's `int()` syntax is abstract. Only what it returns for each line matters.
- `sql_loader_page_content_mapper` and the cached Firefox path (`bookworm_genai/utils.py`) and the `db` loader configuration (`bookworm_genai/integrations.py`) are outside this model. The tests also expect a copy-before-read step, a `-q` flag and `estimate_cost`, which `commands/sync.py` and `__main__.py` do not have.
- The legacy `bookworm/` package is superseded by `bookworm_genai/` and is not modelled.
