# Chat relay backend, modelled in Dafny

This project models the core of the chat backend in `backend/index.js`: an
in-process, append-only transcript of chat messages, the `GET /messages`
handler that lists it, and the `POST /messages` handler that

1. refuses a request whose `text` or `sender` is missing or empty (400),
2. stores the user's record,
3. rebuilds the whole transcript as role-tagged turns (`"model"` for records
   whose sender is `"Bot"`, `"user"` for every other record),
4. takes the first candidate's first part text out of the generation
   service's response,
5. normalises it (`formatBotReply`: first character upper-cased, remainder
   trimmed), and
6. stores it as a `"Bot"` record (201), or answers 500 and keeps only the
   user's record.

Files:

- `text.dfy` (module `Text`): `formatBotReply` and the JavaScript `trim` it
  uses. `Trim` is proved to meet an independent definition (`IsTrimOf`: a
  slice of the input with only white space around it and none at its own
  ends) and to be the only string that does (`TrimUnique`). White space is
  the ECMAScript (ECMA-262) WhiteSpace and LineTerminator set.
- `relay.dfy` (module `Relay`): the records, the upstream response shape,
  the history replay, reply extraction, the handler as a function `Post` of
  the transcript and the inputs, and the class `Server` whose `messages`
  field is the transcript and whose methods are the two handlers. The
  generation call is not made: its outcome is an input (`Upstream`), and
  `PostMessage` returns the history it would send.
- `scenarios.dfy` (module `Scenarios`): client runs against `Server`
  (answered post, unanswered post, empty text, two exchanges in a row).

## Model

| member | source | states |
|---|---|---|
| Text.IsSpace | backend/index.js:78 | the characters `trim` strips are white space or line terminators, never a letter or a digit |
| Text.IsSpaceListed | backend/index.js:78 | the characters `trim` strips are exactly the ECMAScript WhiteSpace and LineTerminator code points, listed one by one |
| Text.Upper | backend/index.js:78 | `toUpperCase` on one character: a-z map to A-Z, every other character is unchanged, and the result is never a lower-case ASCII letter |
| Text.LeadingSpace | backend/index.js:78 | the number of characters `trim` removes at the front: all of them are white space, and the next character, if any, is not |
| Text.TrailingSpace | backend/index.js:78 | the number of characters `trim` removes at the back: all of them are white space, and the character before them, if any, is not |
| Text.Trim | backend/index.js:78 | `trim` yields a slice of its input with only white space outside it and no white space at either end |
| Text.TrimSlice | backend/index.js:78 | any slice with only white space around it and none at its own ends is exactly what `Trim` returns |
| Text.TrimUnique | backend/index.js:78 | `Trim` is the only string that meets the reference definition of a trim |
| Text.TrimOfTrimmed | backend/index.js:78 | a string without white space at its ends is its own trim |
| Text.TrimIdempotent | backend/index.js:78 | trimming a trimmed string changes nothing |
| Text.FormatBotReply | backend/index.js:77-79 | the reply is empty exactly when the input is, is no longer than it, starts with the upper-cased first character (white space there is kept) and continues with the trim of the remainder |
| Text.FormatBotReplyIdempotent | backend/index.js:77-79 | normalising a normalised reply changes nothing |
| Text.FormatBotReplyExample | backend/index.js:77-79 | `"hello world  "` becomes `"Hello world"` |
| Relay.Present | backend/index.js:21 | a request field fails the `!text` / `!sender` check exactly when it is absent or the empty string |
| Relay.ToTurn | backend/index.js:35-36 | a record is replayed with its text as the only part and role `"model"` exactly when its sender is `"Bot"`, `"user"` otherwise |
| Relay.ToHistory | backend/index.js:34-37 | one turn per record, same order, each turn's only part is the record's text, and its role is `"model"` exactly when the sender is `"Bot"`, `"user"` otherwise (so a client posting as `"Bot"` is replayed as `"model"`) |
| Relay.ToHistoryAppend | backend/index.js:34-37 | the history of a transcript extended at its end is the old history followed by the history of the new records |
| Relay.ToHistoryPrefix | backend/index.js:34-37 | the history of a prefix of a transcript is a prefix of its history |
| Relay.FirstPartText | backend/index.js:52-54 | `candidates?.[0]?.content?.parts?.[0]?.text`: when the response holds a non-empty candidate list whose first candidate has content with a non-empty part list, the result is that first part's text; a result is only ever found along that path; a transport failure gives none |
| Relay.ExtractReply | backend/index.js:51-56 | a transport failure gives no reply; a reply is given exactly when the first candidate's first part text is present and non-empty, and it is that text |
| Relay.Post | backend/index.js:19-71 | 400 exactly when `text` or `sender` is missing or empty, with the transcript unchanged and nothing sent; otherwise the user record is appended first and the history sent is the replay of the transcript ending in it; 500 exactly when no reply can be extracted, the transcript then being the old one plus the user record; 201 exactly when one can, with the user record then `{FormatBotReply(t), "Bot"}` appended; no other status |
| Relay.PostAppendOnly | backend/index.js:13-71 | on every path the old transcript is a prefix of the new one, and records with non-empty text and sender stay so |
| Relay.SentIsReplay | backend/index.js:26-37 | past validation, the history sent is the replay of the transcript as it was, followed by the new user turn |
| Relay.RunAppendOnly | backend/index.js:13-71 | over any series of posts the transcript only grows at its end, by at most two records per post, and every record keeps a non-empty text and sender |
| Relay.ReplayExtends | backend/index.js:26-37 | the second of two valid posts sends the history of the whole transcript after the first post followed by its own user turn, so it extends what the first post sent |
| Relay.Server.constructor | backend/index.js:13 | the transcript starts empty |
| Relay.Server.ListMessages | backend/index.js:15-17 | `GET /messages` returns the stored records and changes nothing |
| Relay.Server.PostMessage | backend/index.js:19-71 | `POST /messages` returns the answer and the history sent as `Post` gives them, leaves the transcript as `Post` gives it, only appends, and keeps every record well formed |
| Relay.ListTwice | backend/index.js:15-17 | two listings with no post in between return the same records |
| Scenarios.AnsweredPost | backend/index.js:19-71 | posting `"Hi"` from `"Alice"` answered with `"hi there"` gives 201 and the listing `[Hi/Alice, Hi there/Bot]` |
| Scenarios.UnansweredPost | backend/index.js:51-56 | an answer without candidates gives 500 and the listing holds only the user's record |
| Scenarios.EmptyTextPost | backend/index.js:20-23 | an empty text gives 400, nothing is sent and nothing is stored |
| Scenarios.FirstExchange | backend/index.js:19-71 | `"Hi"` from `"Alice"` on an empty transcript, answered with `"hi there"`, gives 201 and the transcript `[Hi/Alice, Hi there/Bot]` |
| Scenarios.SecondExchange | backend/index.js:26-37 | `"Bye"` from `"Alice"` after that exchange gives 201, appends `Bye/Alice` and `Bye/Bot`, and sends the turns user `Hi`, model `Hi there`, user `Bye` |
| Scenarios.TwoExchanges | backend/index.js:26-37 | two answered posts on a fresh server both give 201, the listing holds both exchanges in order, and the second post replays user, model, user turns in stored order |

## Left out

- The HTTP framework, CORS and JSON middleware, environment loading and the
  listening socket (`backend/index.js:2-11`, `73-75`).
- The generation request itself: the URL, the API key and the generation
  parameters (temperature 0.7, top-k 40, top-p 0.8, 256 output tokens) are
  passed through untouched and are not part of the model; the call's
  outcome is an input value.
- The `time` field of each record: it comes from the clock and the locale and
  is display-only, so records are `{text, sender}`.
- The log line written on failure (`backend/index.js:68`).
- Concurrency: in the source two `POST /messages` handlers may interleave at
  the `await` of the generation call, so another request's records can land
  between a user record and its reply. Each post is atomic here.
- Text.Upper: models `toUpperCase` on ASCII letters only; other scripts, and
  mappings that change length (such as `ß` to `SS`), are not modelled.
- Text.FormatBotReply: its first character is upper-cased by the ASCII
  mapping of Text.Upper only, so a reply of one character is stated to stay
  one character, which full case mapping does not promise.
- Strings are sequences of Unicode scalar values, not UTF-16 code units: the
  split of a surrogate pair by `charAt(0)` is not modelled.
- The upstream response is taken to be well-typed JSON of the documented
  shape: `candidates` and `parts` are arrays, and a part's `text` is a string
  or absent. Any other value is not modelled. In the source, a truthy
  non-string `text` passes the check at `backend/index.js:54` and then makes
  `formatBotReply` throw a `TypeError` inside the `try`, so the answer is 500
  with only the user record stored. A non-array `candidates` or `parts` is
  indexed by `?.[0]` as a string or object would be.
- Request fields that are JSON values other than strings (numbers, booleans,
  objects) are not modelled; a field is an optional string, and "missing"
  means absent or empty. A missing request body is not modelled either.
