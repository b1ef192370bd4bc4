# Cybermeme market server, modelled in Dafny

This project models the decision logic of a small real-time meme marketplace
backend (`index.js`, an Express and Socket.IO server). Clients post memes,
bid credits on them and vote on them, and every change is broadcast to all
connected clients. The decision logic modelled here is:

- the mock **user directory**, a fixed table from a handle to an id and a
  credit balance (module `Users`);
- the **caption generator** wrapper. It strips a Markdown code fence from the
  language model's reply, trims the text, parses it, and falls back to a
  fixed caption and vibe when any step fails (module `Caption`);
- the **leaderboard query**: the top 10 memes by upvotes, projected onto id,
  title and upvotes (module `Leaderboard`);
- the three **mutation handlers** (POST `/memes`, POST `/bids`,
  POST `/memes/:id/vote`), the process-wide **leaderboard cache**, and
  GET `/leaderboard`. These run as methods of one class, `Server.MemeServer`.
  Its fields are the `memes` table (a map from id to row), the `bids` table
  (a sequence), the cache, and the log of every `(event, payload)` emitted.

Each handler is a fixed chain of guards: unknown user (401), invalid input
(400), missing meme (404) and store failure (500). After the guards it writes
to the store and then appends its events to the log. Each contract says three
things. Every guard answers its status and leaves the whole object unchanged.
Nothing is emitted unless the write succeeded. The new state is given in full.
`Valid()` is the object invariant that every handler keeps:

- the store is keyed by id below its id sequence;
- the cache holds at most 10 rows, ordered by upvotes with the largest first;
- the cache equals the payload of the last `leaderboard_update` broadcast;
- the tables hold the rows found when the process started, plus one row per
  `new_meme` or `new_bid` event emitted since.

The handlers take their collaborators as parameters:

- the store's failures: `insertError` or `updateError`, each carrying the
  store's error message, and `fetchFails`;
- the language model call, `gen`, whose reply is `None` when the call throws;
- JSON.parse, `parse`, which is `None` when parsing throws;
- the creation time the store assigns.

The store's tables outlive the process. The constructor therefore takes them
as it finds them, together with the next value of each serial id sequence,
while the cache starts empty (index.js:30).

The bid guard `!credits || credits < 0` rejects an amount of 0 as well as an
absent or negative one, because 0 is falsy, so only a positive amount is
accepted (`Server.CreditsAccepted`,
`Scenarios.NonPositiveBidsRefused`).

## Model

| member | source | states |
|---|---|---|
| `Users.Lookup` | index.js:27 | exactly the handles "neonhacker" and "cybershadow" are users; they have ids 1 and 2 and 1000 credits each |
| `Users.PropertyLookup` | index.js:65 | `users[handle]` as JavaScript evaluates it: an own entry for the two handles, an inherited member for the Object.prototype names, undefined otherwise |
| `Users.PassesGuardAsWritten` | index.js:65 | `!users[handle]` lets a request through exactly for the table's two handles and the 12 inherited Object.prototype names |
| `Users.InheritedHandlePassesGuard` | index.js:65-68 | the guard as written lets the handle "toString" through, although it names no user |
| `Users.GuardDiffersOnlyOnInheritedNames` | index.js:65 | the guard as written and the intended lookup disagree exactly on the inherited Object.prototype names; on a real user they agree |
| `Caption.StripFences` | index.js:40 | the global replace of "```json\n" and "\n```" never lengthens the text and leaves text containing neither marker unchanged |
| `Caption.StripLeadingOpenFence` | index.js:40 | a leading "```json\n" is removed and the rest is scanned as if it stood alone |
| `Caption.StripKeepsFirst` | index.js:40 | where no marker starts at the first character, the scan keeps that character and moves on, including a lone backtick or a newline that starts no marker |
| `Caption.StripClosingFence` | index.js:40 | a body without backticks followed by "\n```" loses exactly the closing marker |
| `Caption.FencedReplyIsUnwrapped` | index.js:39-41 | a reply "```json\n" + body + "\n```" (body without backticks) reaches JSON.parse as the trimmed body |
| `Caption.ClosingFenceWithoutNewlineIsKept` | index.js:40 | a payload closed by a bare "```" keeps those backticks: "```json\n{}```" becomes "{}```" |
| `Caption.Clean` | index.js:40 | the cleaned reply is never longer than the reply, equals the trimmed reply when the reply holds no marker, and neither starts nor ends with white space |
| `Caption.TrimStart` | index.js:40 | the result is a suffix of the input; all the characters removed are white space; the result does not start with white space |
| `Caption.TrimEnd` | index.js:40 | the result is a prefix of the input; all the characters removed are white space; the result does not end with white space |
| `Caption.Trim` | index.js:40 | `trim()` returns an infix of the input with only white space removed on either side, and neither end of the result is white space |
| `Caption.Generate` | index.js:32-46 | whenever the model call fails, or the parse of the cleaned reply fails, the result is the fallback `{caption: 'YOLO to the moon!', vibe: 'Neon Chaos Mode'}`; otherwise it is what the parser made of the cleaned reply. The failure never reaches the caller |
| `Caption.FencedReplyParsesBody` | index.js:39-44 | for a fenced reply, the generator yields the parse of the trimmed body, or the fallback when that parse fails |
| `Leaderboard.Insert` | index.js:141 | inserting into a list ordered by upvotes keeps it ordered, and the result is the old list plus the new row (as a multiset) |
| `Leaderboard.InsertedBelowHead` | index.js:141 | what Insert places after the head of the list has no more upvotes than that head |
| `Leaderboard.SortByUpvotes` | index.js:141 | `order('upvotes', {ascending: false})`: the output is ordered by upvotes, largest first, and is a permutation of the input |
| `Leaderboard.Query` | index.js:138-142 | the leaderboard query returns at most 10 rows, ordered by upvotes with the largest first |
| `Leaderboard.Rows` | index.js:138-140 | the table scan yields at most as many rows as there are ids below the bound, and every row it yields is a stored meme; that no id repeats is `Leaderboard.RowsAscending` |
| `Leaderboard.ToEntry` | index.js:140 | `select('id, title, upvotes')` keeps exactly a row's id, title and upvotes |
| `Leaderboard.Entries` | index.js:140 | the projection of a scan has one entry per row, in the same order, each carrying that row's id, title and upvotes |
| `Leaderboard.RowsComplete` | index.js:138-140 | the table scan yields every stored meme |
| `Leaderboard.RowsSound` | index.js:138-140 | every row the table scan yields is the stored meme under its id |
| `Leaderboard.RowsAscending` | index.js:138-140 | the table scan yields rows in strictly ascending id order, all below the sequence |
| `Leaderboard.InsertDistinct` | index.js:141 | inserting a row whose id is absent keeps the ids distinct |
| `Leaderboard.ConsDistinct` | index.js:141 | putting a row in front of rows whose ids all differ from it keeps the ids distinct |
| `Leaderboard.SortDistinct` | index.js:141 | sorting keeps the ids distinct |
| `Leaderboard.QueryDistinct` | index.js:138-142 | no meme appears twice on the leaderboard |
| `Leaderboard.QueryRowFromScan` | index.js:138-142 | every leaderboard row comes from the projected table scan |
| `Leaderboard.QueryRowsAreStoredMemes` | index.js:138-142 | every leaderboard row is the id/title/upvotes projection of a stored meme |
| `Leaderboard.QueryKeepsTopMemes` | index.js:138-142 | a meme left off the leaderboard has no more upvotes than any row on it; if fewer than 10 rows come back, no meme is left off |
| `Leaderboard.QueryIsTopTen` | index.js:138-143 | the leaderboard is bounded by 10, ordered, built from distinct stored memes, and is the top of the store |
| `Server.ResolveImage` | index.js:70-73 | an absent or empty `image_url` becomes 'https://picsum.photos/200'; any other URL is kept; the result is never empty |
| `Server.CreditsAccepted` | index.js:93 | a bid passes the falsy-or-negative check exactly when its credits are present and positive, so 0 is refused |
| `Server.VoteIncrement` | index.js:113-114 | only 'up' and 'down' are accepted, giving +1 and -1 |
| `Server.LogAppend` | index.js:84 | one emit moves the last broadcast leaderboard only when it is a leaderboard_update, and adds one to the new_meme or new_bid count only for an event of that kind |
| `Server.InsertMemeKeepsInv` | index.js:71-84 | storing a meme under the next id and then emitting new_meme keeps the server invariant, and the id was free |
| `Server.AppendBidKeepsInv` | index.js:94-103 | appending a bid under the next id and then emitting new_bid keeps the server invariant |
| `Server.VoteKeepsInv` | index.js:127-144 | rewriting a stored meme's upvotes, emitting vote_update, replacing the cache by a fresh query and emitting it keeps the server invariant: the cache stays bounded by 10, stays ordered, and equals the last broadcast |
| `Server.MemeServer.constructor` | index.js:27-30 | a process starts over the store as it finds it, with an empty leaderboard cache and nothing emitted, and the invariant holds |
| `Server.MemeServer.CreateMeme` | index.js:62-86 | Three outcomes. An unknown owner gets 401 and nothing changes. A store error gets 500 with the store's message and nothing changes. Otherwise the meme is inserted with the resolved image, owner_id = users[owner].id, the generator's caption and vibe (from a request that carries the resolved image) and 0 upvotes, then exactly one `new_meme` event carrying that row is emitted and the row is returned; the invariant is kept |
| `Server.MemeServer.CommitMeme` | index.js:71-84 | the success path of POST /memes: the row is stored under the next id, which was free, and then exactly one new_meme event carrying it is emitted; nothing else changes |
| `Server.MemeServer.PlaceBid` | index.js:89-105 | An unknown bidder gets 401, checked before the credits. Absent, zero or negative credits get 400. A store error gets 500. Each of these changes nothing. Otherwise one bid row is appended, `new_bid {meme_id, credits, user}` is emitted, and the row is returned; memes and cache are untouched |
| `Server.MemeServer.CommitBid` | index.js:94-103 | the success path of POST /bids: the row is appended, and then exactly one new_bid event with the meme id, the credits and the bidder's handle is emitted; nothing else changes |
| `Server.MemeServer.Vote` | index.js:108-146 | Guards in order: 401 for an unknown voter, 400 for a bad type, 404 for a missing meme or failed fetch, 500 for a failed update; each changes nothing. Otherwise upvotes become the old value ±1 with no floor, `vote_update {meme_id, upvotes}` is emitted, the cache becomes a fresh top-10 query of the updated store, `leaderboard_update` is emitted with that cache as payload, and the updated row is returned |
| `Server.MemeServer.VoteAsWritten` | index.js:108-146 | the vote handler with the guard as written: every handle that passes `!users[user]`, the inherited Object.prototype names included, gets the same 400, 404 and 500 guards and the same counted vote, both broadcasts and cache refresh as a real user |
| `Server.MemeServer.ApplyVote` | index.js:113-145 | the vote handler after its user guard: 400 for a bad type, 404 for a missing meme or failed fetch, 500 for a failed update, each changing nothing; otherwise the count moves by ±1, vote_update and the fresh leaderboard are broadcast and the cache is that leaderboard |
| `Server.MemeServer.CommitVote` | index.js:126-145 | the success path of a vote: write the count, emit `vote_update`, replace the cache by the query result, and emit it |
| `Server.MemeServer.GetLeaderboard` | index.js:148-151 | GET /leaderboard returns the cache unchanged: at most 10 rows, ordered, and equal to the last broadcast leaderboard; it changes no state |
| `Server.UpThenDown` | index.js:113-136 | an up vote followed by a down vote, with no failure in between, restores the memes and bids tables; both votes are counted, since there is no duplicate-vote check |
| `Scenarios.GlitchCatWithFailingGenerator` | index.js:62-86 | posting "Glitch Cat" with tags ["cyber"] as "neonhacker" to an empty store, with a failing generator, yields meme 1 with the placeholder image, the fallback caption and vibe, 0 upvotes and owner_id 1, and one event on the `new_meme` channel |
| `Scenarios.NonPositiveBidsRefused` | index.js:92-104 | bids of -10 and of 0 credits get 400 and insert nothing; a bid of 1 is stored |
| `Scenarios.UpVoteOnThree` | index.js:108-145 | an up vote on a meme with 3 upvotes answers 4 and broadcasts the new count on `vote_update`, then the recomputed leaderboard on `leaderboard_update` |
| `Scenarios.InheritedHandleVoteCounted` | index.js:112-145 | a vote by "toString" is refused with 401 by the intended guard, but with the guard as written it is counted and broadcast |
| `Scenarios.RestartedServerBoardIsEmpty` | index.js:30 | a process restarted over a store holding a meme serves an empty leaderboard until the first vote refills the cache |
| `Scenarios.OneMemeBoard` | index.js:138-142 | the leaderboard query over a store holding one meme lists exactly that meme |
| `Scenarios.DownVoteBelowZero` | index.js:114-126 | a down vote on a fresh meme gives -1 |
| `Scenarios.RefusedVotes` | index.js:112-124 | an unknown voter gets 401 even with a bad type; a bad type gets 400; an unknown meme gets 404; none of them emits |
| `Scenarios.TwoMemeRows` | index.js:138-140 | the table scan over memes 1 and 2 yields them in that order |
| `Scenarios.SortTwo` | index.js:141 | ordering two rows puts the one with more upvotes first and keeps their order on a tie |
| `Scenarios.TwoMemeBoard` | index.js:138-142 | the leaderboard query over two memes lists the one with more upvotes first, and the older one first on a tie |
| `Scenarios.VoteReordersBoard` | index.js:108-146 | one up vote on a newer meme puts it ahead of an older one on the cached leaderboard |

## Left out

- Express and Socket.IO wiring are not modelled: CORS origin, ping settings, connection and disconnect handlers, and `server.listen`. They are transport configuration with no decision logic. A broadcast is modelled as one entry appended to the event log; fan-out to subscribers and delivery are not.
- GET `/` and GET `/memes` are not modelled. The first returns a fixed banner, and the second is a store query ordered by creation time that adds no logic of its own.
- The Supabase client is replaced by an in-memory table. Its failures are handler parameters. Ids come from serial counters; the creation time is a parameter.
- The prompt text and the Gemini model choice (index.js:34-38) are not modelled. The model is the parameter `gen`, which receives the title, the tags and the resolved image URL.
- JSON.parse is the parameter `parse`, which yields a caption and vibe or fails. A reply that parses to some other JSON value is not modelled. For `null`, the destructuring at index.js:70 throws outside the generator's try, so nothing is inserted. What the client then sees depends on the Express and Node versions. Under Express 4, the handler's promise rejects and no response is sent; on Node 15 or later that unhandled rejection also ends the process, which empties `leaderboardCache`. Under Express 5, the client gets a 500. For an object without `caption` or `vibe`, or a number, string or boolean, the fields are undefined.
- Handlers run one at a time, as atomic steps. The race between reading and writing upvotes, and cache writes that interleave across concurrent votes, are not modelled.
- The leaderboard query's error is unchecked in the source (index.js:138-143) and is taken to succeed.
- `Leaderboard.Query` fixes the order of rows with equal upvotes to ascending id, because the store leaves that order unspecified. Where the tenth place is tied, the store may also keep any of the tied rows; the model keeps those with the lowest ids.
- The request fields are modelled with simple types. `credits` is an integer or absent. Strings, fractions and other JSON values are not modelled. Titles and vote types are strings; an absent vote type behaves like any other string that is neither 'up' nor 'down'.
- The meme id of a vote is taken as an integer, so the `parseInt(id)` conversion is not modelled.
- A bid on a meme that does not exist can be rejected only by the store (a foreign key, say). The model does not look the meme up: whether such an insert fails is left to the `insertError` parameter, and with no error the bid is stored.
- `console.log` and `console.error` output is not modelled.
- Server.MemeServer.CreateMeme: guards with the intended `Users.Lookup`. As written, an inherited Object.prototype name passes index.js:65, and the row is inserted with `owner_id` undefined (index.js:75). An undefined owner id is not modelled, because ids are integers.
- Server.MemeServer.PlaceBid: guards with the intended `Users.Lookup`. As written, an inherited Object.prototype name passes index.js:92, and the bid is inserted with `user_id` undefined (index.js:96). An undefined user id is not modelled, because ids are integers.
- Server.MemeServer.Vote: guards with the intended `Users.Lookup`. The guard as written, which counts a vote by an inherited name in full, is `Server.MemeServer.VoteAsWritten`.
- Bids never debit the bidder's balance, and a user may vote any number of times. Both are kept as in the source.

## Findings

| source | as written | input that shows it | evidently intended | confidence | as-written member | corrected member |
|---|---|---|---|---|---|---|
| index.js:65 | `if (!users[owner])` reads a property of a plain object, so the names that object inherits from Object.prototype are truthy and pass the 401 guard. The same guard appears at index.js:92 and index.js:112. `users[owner].id` is then undefined, and a vote by such a name is counted (`Server.MemeServer.VoteAsWritten`, `Scenarios.InheritedHandleVoteCounted`) | `owner: "toString"` (or `"__proto__"`, `"constructor"`, …) on POST /memes, POST /bids or POST /memes/:id/vote | only the table's two handles are accepted; every other handle gets 401 | medium; not executed | `Users.InheritedHandlePassesGuard` | `Users.Lookup` |
