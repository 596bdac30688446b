# Map-ban draft sessions, modelled in Dafny

This project models the draft-session engine of a small map-ban server
(`server.js`). Two teams share a session. They call a coin toss, which
records a winner and a loser. Whoever wins the toss, the first turn goes to
TeamB in a `bo1` match and to TeamA otherwise. The teams then ban and pick
maps from a pool of seven. The pool is drawn from a shuffled catalog of eleven maps. Finally the
teams choose attacking and defending sides.

The project has three modules:

- `MapPool` (`mappool.dfy`): the catalog and `shuffleMaps`. `ShuffleMaps`
  copies the catalog into a fresh array and rearranges it in place. It is
  proved to return a permutation of the catalog. A drawn pool of seven then
  holds distinct, unbanned catalog entries.
- `Draft` (`draft.dfy`): the session record as a value. `WellFormed` is the
  invariant every reachable session keeps:
  - `bans` has no duplicates and holds exactly the ids of banned maps;
  - `selectedMaps` has no duplicates and only pool ids;
  - the sides are both unset, or both set and different;
  - the toss fields are consistent.
  There is one pure step function per handler that changes a session
  (`Join`, `Toss`, `Ban`, `Select`, `ChooseSide`). Each has a contract for
  when it accepts, what it changes and what it keeps. Lemmas relate several
  steps, and `Replay` applies any sequence of client events.
- `Server` (`server.dfy`): the class `DraftTable`. Its
  field `sessions: map<string, Session>` stands for the process-wide
  `sessions` object. Each socket handler is a method that updates the table
  in place. For `create-session` the postcondition states the new entry
  through the predicate `IsNewSession`. For the handlers that change an
  existing session it ties the new table to that handler's step function.
  In both cases no other session changes. `disconnect` leaves the table as
  it is. Every handler keeps `Valid()`: every session is `WellFormed`.

Random values become inputs:

- the session id;
- the coin result, a `Coin`;
- the order of the shuffle, a sequence of index exchanges that the sort
  performs (`swaps`, with each index taken modulo 11).

The code does not harden the protocol, and the model keeps it that way:

- a `disconnect` removes no session;
- `ban-map` and `select-map` ignore a rejected action and send no error
  reply;
- `ban-map` does not check `selectedMaps`, so a map can be both picked and
  banned (`Draft.SelectedMapCanBeBanned`);
- nothing enforces the turn, and nothing prevents a second toss;
- nothing waits for the toss: an accepted ban or selection before it already
  sets the turn (a null turn becomes TeamA) while the toss is still not done
  (`Draft.BanBeforeTossSetsTurn`).

## Model

| member | source | states |
|---|---|---|
| `MapPool.ShuffleMaps` | server.js:120-135 | whatever exchanges the in-place sort performs on the fresh copy of the catalog, the result is a permutation (equal multiset) of the catalog |
| `MapPool.CatalogShape` | server.js:121-133 | the catalog has 11 unbanned maps and the map with id k sits at index k - 1, so ids are distinct |
| `MapPool.PermutationOfCatalog` | server.js:121-134 | any permutation of the catalog has 11 maps, each the catalog entry of its own id, unbanned, with pairwise-distinct ids |
| `MapPool.DrawnPool` | server.js:28 | the first seven maps of a shuffled catalog are distinct catalog entries, none banned |
| `MapPool.PermutationKeepsDistinctIds` | server.js:134 | rearranging a sequence keeps its length and entries and keeps ids pairwise distinct |
| `Draft.NewSession` | server.js:26-37 | a created session has 7 maps with distinct catalog ids, none banned; `bans` and `selectedMaps` are empty; turn and toss fields are null; the toss is not done; TeamA is named after the creator and TeamB has name `''`; and it satisfies the invariant |
| `Draft.FindMap` | server.js:78 | the index found holds the id and no earlier map has it; no index is found exactly when no map carries the id |
| `Draft.FoundMapIsUnique` | server.js:78-79 | a map is found exactly when the id is a pool id; with distinct ids, the found map is banned exactly when the id is among the banned ids |
| `Draft.FlipTurn` | server.js:82 | the new turn differs from the old one, and a null turn becomes TeamA |
| `Draft.OtherSide` | server.js:105 | the other team's side always differs from the given side and is `Attackers` or `Defenders`; any side other than `Attackers` gives `Attackers`; for `Attackers`/`Defenders` the two sides are exactly that pair |
| `Draft.Join` | server.js:49 | only TeamB's name changes, to the joiner's name; the invariant is kept |
| `Draft.Toss` | server.js:62-68 | TeamA wins exactly when the call equals the coin's text; the winner differs from the loser; the turn is TeamB exactly for a `bo1` match; the toss is done; no other field changes; the invariant is kept |
| `Draft.Ban` | server.js:75-84 | on a well-formed session, a ban is accepted exactly when the id is a pool id not yet in `bans`. It then sets exactly that map's flag, appends the id to `bans` and adds it to the banned ids. It flips the turn and keeps the pool's ids in order. No other field changes, and the invariant is kept |
| `Draft.Select` | server.js:88-96 | on a well-formed session, a selection is accepted exactly when the id is a pool id that is neither banned nor selected. It then appends the id to `selectedMaps` and flips the turn. The id was not banned at that moment. No other field changes, and the invariant is kept |
| `Draft.ChooseSide` | server.js:100-109 | the named team (any value other than `TeamA` names TeamB) holds the given side and the other team holds the opposite side, so both are set and different; names and all other fields are unchanged; the invariant is kept |
| `Draft.BanTwiceIsIgnored` | server.js:79-81 | banning the same id a second time is ignored |
| `Draft.BannedMapCannotBeSelected` | server.js:92 | a map that was just banned cannot be selected |
| `Draft.SelectTwiceIsIgnored` | server.js:92-93 | selecting the same id a second time is ignored |
| `Draft.SelectedMapCanBeBanned` | server.js:79-81 | a selected map can still be banned, leaving its id in both `bans` and `selectedMaps` |
| `Draft.TwoActionsRestoreTurn` | server.js:82-94 | two accepted bans or selections in a row give the turn back to the team that held it, and lead from a null turn to TeamB |
| `Draft.ApplyKeepsInvariant` | server.js:43-109 | every client event on a session keeps the invariant and the pool's size and ids, and only appends to `bans` and `selectedMaps` |
| `Draft.ReplayKeepsInvariant` | server.js:43-109 | any sequence of events keeps the invariant and the pool's ids, and `bans`/`selectedMaps` only grow at the end (the old lists are prefixes of the new ones) |
| `Draft.ReplayRecordsAcceptedActions` | server.js:75-96 | after any sequence of events, `bans` is the old list followed by exactly the ids of the accepted bans, in the order they were accepted, and `selectedMaps` likewise for the accepted selections |
| `Draft.ApplyRecordsAction` | server.js:80-94 | one event appends to `bans` the id of the ban it gets accepted and to `selectedMaps` the id of the selection it gets accepted, and nothing otherwise |
| `Draft.BanBeforeTossSetsTurn` | server.js:75-82 | on a session with no toss and no turn, an accepted ban hands the turn to TeamA while the toss stays not done |
| `Draft.MultiMapTurnIgnoresToss` | server.js:62-67 | in a match other than `bo1`, TeamA has the first turn whatever the coin shows, while the winner is TeamA exactly when the call matches the coin |
| `Server.DraftTable.constructor` | server.js:18 | the table starts empty |
| `Server.DraftTable.CreateSession` | server.js:24-38 | registers a new session (as in `NewSession`) under the given id, overwriting any entry with that id. Other entries are unchanged, the id is acknowledged and the table invariant is kept |
| `Server.DraftTable.JoinSession` | server.js:43-52 | an unknown id gets the `Session not found` error and leaves the table unchanged; otherwise only that session's TeamB name changes and the session is acknowledged |
| `Server.DraftTable.HandleToss` | server.js:56-72 | an unknown id gets the error and changes nothing; otherwise the session becomes `Toss` of it, the reply carries the coin and the winner, and `emitted` says an update is sent |
| `Server.DraftTable.BanMap` | server.js:75-85 | an unknown session, or a ban that `Ban` rejects, leaves the table unchanged with no update sent. Otherwise only that session changes, as `Ban` states, and an update is sent |
| `Server.DraftTable.SelectMap` | server.js:88-97 | an unknown session, or a selection that `Select` rejects, leaves the table unchanged with no update sent. Otherwise only that session changes, as `Select` states, and an update is sent |
| `Server.DraftTable.SelectSide` | server.js:100-111 | an unknown session leaves the table unchanged; otherwise only that session changes, as `ChooseSide` states, and an update is sent |
| `Server.DraftTable.Disconnect` | server.js:114-116 | a disconnect leaves the table unchanged |

## Left out

- HTTP server, CORS, socket.io rooms and `io.to(...).emit` broadcasts, `socket.join`, `console.log` and port binding are I/O. A broadcast is reported only as the boolean `emitted`, and the acknowledgement callbacks become return values.
- `Math.random` is not modelled. The session id, the coin result and the order produced by the comparator sort are inputs. Uniformity is not modelled: the comparator-based shuffle is biased, and the model only proves that its result is a permutation of the catalog.
- The shuffle is described by the index exchanges the sort performs, not by the engine's sort algorithm. Any permutation can be reached this way.
- Arguments are modelled by type: map ids are `int`, and team names, calls, match types, sides and team labels are `string`. A map id of another JavaScript type never equals a pool id under `===`, so it takes the same "ignored" path as an absent id. Other non-string arguments (`undefined`, numbers) are not modelled.
- Plain-object lookups of inherited property names (such as `toString` used as a session id) are not modelled: the table is a `map`, so these ids are unknown.
- Object identity is not modelled. Each session gets its own freshly built map array, so no state is shared between sessions. The session returned to a joiner is a snapshot value, not a live reference.

