# Local chat gateway: registry, relay, titles and chat store

This project models the core of a small local chat gateway (`main.py`). It
forwards a conversation to a local language-model backend, relays the streamed
answer fragment by fragment, and keeps saved chats as JSON files in a
`saved_chats` directory. It has four parts:

- **Model registry** (`registry.dfy`): the fixed `general`/`code` table, the
  total key lookup with its fallback to `general`, and the ordered model listing.
- **Chat relay** (`relay.dfy`): the 20-message context window, and the relay
  loop that yields the `message.content` of each backend chunk and ends with a
  single `Error: ...` fragment if the backend raises. The backend is abstract.
  One call is answered by a finite sequence of chunks, optionally followed by
  a raised failure. "Fails after k chunks" is a backend with k chunks and a
  failure.
- **Title derivation** (`titles.dfy`): a chat saved with no title gets the
  first user message, cut to 50 characters with `...`. With no user message it
  gets `Untitled Chat`.
- **Chat store** (`store.dfy`): the directory as a map from file stem to what
  the file holds: bytes that are not UTF-8, text that is not JSON, a JSON
  object, or some other JSON value. `ChatStore` is a class with that map as its
  field; it has methods for save, get, delete and list. The list method sorts
  by timestamp using Python's string order (`ordering.dfy`).

`wrappers.dfy` holds Option/Result/Outcome, and `schema.dfy` holds the request
and message shapes.

Behaviour of the code worth knowing:

- A stored title is not always non-empty. Saving with no title and no messages
  stores a null title. A first user message with empty content gives an empty
  title.
- The cut applies only above 50 characters. The 50-character message "Explain
  recursion in under fifty characters please" is kept whole, with no ellipsis
  (`Titles.FiftyCharactersKeptWhole`).
- The file is written in place. There is no temporary file and no atomic rename.
- The chat endpoint does not save anything when the stream ends. Saving is a
  separate call that the client makes.
- A message role is free text. Only the exact role `user` is treated specially.

## Model

| member | source | states |
|---|---|---|
| `Registry.ModelName` | main.py:51-52 | a configured key gives its table entry; any other key gives the `general` entry, so the lookup is total and always yields a configured model name |
| `Registry.CoderOnlyForCodeKey` | main.py:30-33 | the coder model is chosen exactly for the key `code` |
| `Registry.ListModels` | main.py:56-64 | two entries, `general` then `code`; each lists its key's configured name; the keys are distinct and cover the table |
| `Registry.ListedEntriesResolve` | main.py:56-64 | resolving each listed key gives the name listed beside it |
| `Relay.BoundContext` | main.py:74-76 | the forwarded messages are a suffix of the conversation of length min(n, 20): the whole conversation when n <= 20, otherwise exactly the last 20 in order |
| `Relay.BoundContextIdempotent` | main.py:74-76 | bounding a bounded window changes nothing |
| `Relay.Fragments` | main.py:87-89 | at most one fragment per chunk; no fragment at all when no chunk carries `message.content` |
| `Relay.ContentPositions` | main.py:87-88 | the increasing positions of exactly the chunks that carry `message.content` |
| `Relay.FragmentsAreContents` | main.py:87-89 | the relayed fragments are, one for one and in order, the contents of the content-carrying chunks, and nothing else |
| `Relay.FragmentsAppend` | main.py:87-89 | relaying two stretches of the stream one after the other gives the two outputs one after the other |
| `Relay.EmittedSoFarIsPrefix` | main.py:78-91 | what has been relayed after any number of chunks is a prefix of the final output, whether or not the backend later fails |
| `Relay.RelayOutcome` | main.py:87-91 | without a failure the output is the relayed content; after a failure it is that content and then exactly one last fragment, `Error: ` followed by the failure text |
| `Relay.RelayOutput` | main.py:87-91 | the relayed content is a prefix of the output, followed by one more fragment exactly when the backend fails |
| `Relay.Generate` | main.py:78-91 | the relay loop produces exactly the specified output for every backend behaviour |
| `Relay.ChatStream` | main.py:66-93 | the backend is called with the resolved model and the bounded context, and the caller gets the relay of the backend's answer |
| `Relay.HelloWorldExample` | main.py:87-89 | chunks `Hel`, `lo`, ` world` give the body `Hello world` |
| `Relay.PartialFailureExample` | main.py:87-91 | chunks `Par`, `tial` and then a failure give `Par`, `tial`, `Error: ...` |
| `Titles.UserMessages` | main.py:139 | holds exactly the messages whose role is `user` |
| `Titles.UserMessagesAppend` | main.py:139 | filtering a concatenation gives the concatenated filterings, so user messages keep their order and repetitions |
| `Titles.FirstUserAt` | main.py:139-141 | the first user message is the one at the earliest position with role `user` |
| `Titles.Abbreviate` | main.py:142 | at most 53 characters; unchanged up to 50 characters; longer content becomes its first 50 characters followed by `...` |
| `Titles.DeriveTitle` | main.py:136-144 | a truthy supplied title is kept; a missing or empty one is also kept when there are no messages; otherwise a title of at most 53 characters is derived |
| `Titles.DerivedFromFirstUserMessage` | main.py:139-142 | the derived title is the abbreviation of the first user message |
| `Titles.NoUserMessageGivesPlaceholder` | main.py:143-144 | messages with no user message give `Untitled Chat` |
| `Titles.FiftyCharactersKeptWhole` | main.py:142 | a 50-character first user message is the title unchanged |
| `Schema.IsTruthy` | main.py:133 | an optional string is truthy exactly when it is present and non-empty, as the tests at main.py:133 and main.py:137 use it |
| `Store.ChooseId` | main.py:133 | a truthy supplied id is used; a missing or empty one is replaced by the fresh id |
| `Store.SavedRecord` | main.py:146-152 | the written record holds the messages unchanged and lists with exactly the saved id, title, timestamp and model |
| `Store.Summarize` | main.py:103-108 | each summary field is the stored value when its key is present (a null title included), otherwise the file stem, `Untitled`, `""` or `general` |
| `Store.EmptyObjectDefaults` | main.py:103-108 | an object missing every key lists as the file stem, `Untitled`, an empty timestamp and `general` |
| `Store.Fetch` | main.py:119-128 | NotFound exactly when there is no file; a read error, distinct from NotFound, exactly when the file does not parse; otherwise the parsed content unchanged |
| `Store.SummariesRemove` | main.py:99-110 | the bag of summaries does not depend on the order in which files are visited |
| `Store.SummariesSize` | main.py:99-110 | there is one summary per JSON object file, and none for any other file |
| `Store.SummaryOfListedFile` | main.py:99-108 | every JSON object file is summarised, with defaults for its missing keys |
| `Store.SummaryHasSource` | main.py:99-110 | every summary comes from a JSON object file |
| `Store.CorruptFileSkipped` | main.py:109-110 | one well-formed and one malformed file list as exactly one summary |
| `Ordering.NotAfter` | main.py:113 | Python's string order on timestamps; its meaning is pinned by `NotAfterIsLexicographic` and `NotAfterAntisymmetric`: a prefix is never after the longer string |
| `Ordering.NotAfterIsLexicographic` | main.py:113 | `a` is not after `b` exactly when `a` is a prefix of `b` or the two agree up to a position where `a` has the lower code point |
| `Ordering.NotAfterOnlyIfLexicographic` | main.py:113 | one direction of the above: a string not after another is a prefix of it or is lower at the first difference |
| `Ordering.PrefixNotAfter` | main.py:113 | a prefix is not after the longer string |
| `Ordering.LowerAtNotAfter` | main.py:113 | a string lower at the first difference is not after the other |
| `Ordering.NotAfterAntisymmetric` | main.py:113 | two strings each not after the other are equal |
| `Ordering.NotAfterTotal` | main.py:113 | any two timestamps are comparable |
| `Ordering.NotAfterTransitive` | main.py:113 | the order is transitive |
| `Store.InsertNewestFirst` | main.py:113 | inserting into a newest-first list keeps it newest first and adds exactly that entry |
| `Store.SortNewestFirst` | main.py:113 | the result is a rearrangement of the input with timestamps non-increasing in Python's string order |
| `Store.BreaksListing` | main.py:109 | the files that escape the `except`: never a JSON object, never a JSON syntax error; every non-object JSON value and every file that is not UTF-8 |
| `Store.ChatStore.constructor` | main.py:27-28 | opening the directory keeps the files already in it |
| `Store.ChatStore.Save` | main.py:130-158 | the chosen id's file is replaced by the new record, whose messages equal the input in order; reading that id back gives the record; every other id reads as before; the returned id and title are the stored ones (a client, `Store.SaveGetDeleteExample`, saves, reads back the same messages, and deletes) |
| `Store.ChatStore.Get` | main.py:116-128 | gives the fetch result for the current directory |
| `Store.ChatStore.Delete` | main.py:160-167 | succeeds exactly when the file exists; removes that file and nothing else; otherwise fails with NotFound, so a second delete fails (shown by `Store.SaveGetDeleteExample`) |
| `Store.ChatStore.List` | main.py:95-114 | the listing is a rearrangement of the summaries of the JSON object files, one per file, newest first; every other file is skipped |
| `Store.ChatStore.ListAsWritten` | main.py:95-114 | fails exactly when some file is not UTF-8 or holds JSON other than an object; otherwise it is the listing above |

## Findings

| source | as written | input that shows it | evidently intended | confidence | as-written member | corrected member |
|---|---|---|---|---|---|---|
| main.py:109 | the loop catches only `json.JSONDecodeError` (and `KeyError`, which `.get` with a default never raises); a decoding error, or a `get` on a JSON value that is not an object, escapes the loop and the whole listing fails | a directory holding `a.json` with content `[]` (or bytes that are not UTF-8) next to a good chat (`Store.NonObjectFileExample`) | an unreadable file is skipped like a syntax error, and the good chat is still listed | high, not executed | `Store.ChatStore.ListAsWritten` | `Store.ChatStore.List` |

## Left out

- HTTP routing, CORS, status codes, `StreamingResponse`, serving `index.html` and server startup. Their outcomes are the result and error values instead (`NotFound` is 404; `ReadError` and `ListingFailed` are 500).
- The inference client call. It is foreign code; the backend is a parameter that answers each call with chunks and an optional failure. The text of a failure is abstract (`str(e)` is taken as given).
- Exceptions raised by chunks of other shapes, for example a `message` that is not a mapping. Only missing `message` and `content` keys are modelled.
- JSON serialisation and file I/O. The directory is an in-memory map keyed by file stem, and parse failures are explicit variants.
- `uuid.uuid4()` and `datetime.now().isoformat()`. They are the `freshId` and `now` parameters of `Save`. The model does not assume the fresh id is unused.
- Field values of other JSON types, such as a numeric timestamp. In Python the sort raises when such a timestamp is compared with a string one, such as the `""` default or any timestamp this gateway writes. Only string values (and a null title) are modelled.
- `Store.SortNewestFirst`: keeps ties in input order, as Python's stable sort with `reverse=True` does, but this is not proved. The input order is the directory's unspecified order anyway.
- Async execution, concurrency, backpressure and client disconnects. The code writes files in place with no atomic rename, so no atomicity is claimed.
- Path handling for ids that are not plain file stems (separators, `..`, an empty stem). This is a file-system concern.
