/** The socket handlers of server.js acting on the process-wide table of
    sessions. Transport, rooms, broadcasts and logging are left out; a
    handler that broadcasts `session-update` reports it by returning
    `emitted`, and the acknowledgement callbacks become return values. */
module Server {
  import opened MapPool
  import opened Draft

  /** The error reply of `join-session` and `handle-toss`. */
  const NotFoundMessage: string := "Session not found"

  /** What `handle-toss` acknowledges: the drawn coin and the winner. */
  datatype TossOutcome = TossOutcome(result: Coin, tossWinner: Team)

  /** An acknowledgement: `{ error: ... }` or a value. */
  datatype Reply<T> = Error(message: string) | Ok(value: T)

  /** The `sessions` object of server.js: session id to session record. */
  class DraftTable {
    var sessions: map<string, Session>

    /** Every registered session is one the handlers can reach. */
    ghost predicate Valid()
      reads this
    {
      forall id :: id in sessions ==> WellFormed(sessions[id])
    }

    /** The table is empty when the server starts. */
    constructor ()
      ensures Valid() && sessions == map[]
    {
      sessions := map[];
    }

    /** `create-session`: registers a fresh session under `sessionId` (the
        source draws it at random; an existing entry under the same id is
        overwritten) and acknowledges with that id. `swaps` stands for the
        random order of the shuffle. */
    method CreateSession(sessionId: string, matchType: string, teamName: string, swaps: seq<(nat, nat)>)
      returns (id: string)
      requires Valid()
      modifies this
      ensures Valid()
      ensures id == sessionId && sessionId in sessions
      ensures IsNewSession(sessions[sessionId], matchType, teamName)
      ensures sessions == old(sessions)[sessionId := sessions[sessionId]]
    {
      var shuffled := ShuffleMaps(swaps);
      sessions := sessions[sessionId := NewSession(matchType, teamName, shuffled)];
      id := sessionId;
    }

    /** `join-session`: an unknown id is answered with an error and changes
        nothing; otherwise only TeamB's name changes and the caller gets the
        session. */
    method JoinSession(sessionId: string, teamName: string) returns (reply: Reply<Session>)
      requires Valid()
      modifies this
      ensures Valid()
      ensures sessionId !in old(sessions) ==> reply == Error(NotFoundMessage) && sessions == old(sessions)
      ensures sessionId in old(sessions) ==>
                && sessions == old(sessions)[sessionId := Join(old(sessions)[sessionId], teamName)]
                && reply == Ok(sessions[sessionId])
    {
      if sessionId !in sessions {
        return Error(NotFoundMessage);
      }
      var session := sessions[sessionId];
      session := session.(teamB := session.teamB.(name := teamName));
      sessions := sessions[sessionId := session];
      reply := Ok(session);
    }

    /** `handle-toss` with the drawn `coin`: TeamA wins exactly when `call`
        names the coin; the first turn goes to TeamB for a 'bo1' match and to
        TeamA otherwise. Re-tossing is not prevented. */
    method HandleToss(sessionId: string, call: string, coin: Coin)
      returns (reply: Reply<TossOutcome>, emitted: bool)
      requires Valid()
      modifies this
      ensures Valid()
      ensures emitted <==> sessionId in old(sessions)
      ensures sessionId !in old(sessions) ==> reply == Error(NotFoundMessage) && sessions == old(sessions)
      ensures sessionId in old(sessions) ==>
                && sessions == old(sessions)[sessionId := Toss(old(sessions)[sessionId], call, coin)]
                && reply == Ok(TossOutcome(coin, if call == CoinText(coin) then TeamA else TeamB))
    {
      if sessionId !in sessions {
        return Error(NotFoundMessage), false;
      }
      var session := sessions[sessionId];
      var isWin := call == CoinText(coin);
      session := session.(tossWinner := Some(if isWin then TeamA else TeamB));
      session := session.(tossLoser := Some(if isWin then TeamB else TeamA));
      session := session.(currentTurn := Some(if session.matchType == SingleMap then TeamB else TeamA));
      session := session.(isTossDone := true);
      sessions := sessions[sessionId := session];
      emitted := true;
      reply := Ok(TossOutcome(coin, session.tossWinner.value));
    }

    /** `ban-map`: ignored for an unknown session, an id not in the pool or
        a map already banned; otherwise bans the map, records the id and
        flips the turn. */
    method BanMap(sessionId: string, mapId: int) returns (emitted: bool)
      requires Valid()
      modifies this
      ensures Valid()
      ensures sessionId !in old(sessions) ==> !emitted && sessions == old(sessions)
      ensures sessionId in old(sessions) ==>
                var r := Ban(old(sessions)[sessionId], mapId);
                && emitted == r.Some?
                && sessions == if r.Some? then old(sessions)[sessionId := r.value] else old(sessions)
    {
      if sessionId !in sessions {
        return false;
      }
      var session := sessions[sessionId];
      var found := FindMap(session.maps, mapId);
      emitted := false;
      if found.Some? && !session.maps[found.value].banned {
        var i := found.value;
        ghost var before := session;
        session := session.(maps := session.maps[i := session.maps[i].(banned := true)]);
        session := session.(bans := session.bans + [mapId]);
        session := session.(currentTurn := Some(FlipTurn(session.currentTurn)));
        assert Ban(before, mapId) == Some(session);
        sessions := sessions[sessionId := session];
        emitted := true;
      }
    }

    /** `select-map`: ignored for an unknown session, an id not in the pool,
        a banned map or an id already selected; otherwise records the id and
        flips the turn. */
    method SelectMap(sessionId: string, mapId: int) returns (emitted: bool)
      requires Valid()
      modifies this
      ensures Valid()
      ensures sessionId !in old(sessions) ==> !emitted && sessions == old(sessions)
      ensures sessionId in old(sessions) ==>
                var r := Select(old(sessions)[sessionId], mapId);
                && emitted == r.Some?
                && sessions == if r.Some? then old(sessions)[sessionId := r.value] else old(sessions)
    {
      if sessionId !in sessions {
        return false;
      }
      var session := sessions[sessionId];
      var found := FindMap(session.maps, mapId);
      emitted := false;
      if found.Some? && !session.maps[found.value].banned && mapId !in session.selectedMaps {
        session := session.(selectedMaps := session.selectedMaps + [mapId]);
        session := session.(currentTurn := Some(FlipTurn(session.currentTurn)));
        sessions := sessions[sessionId := session];
        emitted := true;
      }
    }

    /** `select-side`: ignored for an unknown session; otherwise the team
        named by `team` takes `side` and the other team the opposite side. */
    method SelectSide(sessionId: string, team: string, side: string) returns (emitted: bool)
      requires Valid()
      modifies this
      ensures Valid()
      ensures sessionId !in old(sessions) ==> !emitted && sessions == old(sessions)
      ensures sessionId in old(sessions) ==>
                && emitted
                && sessions == old(sessions)[sessionId := ChooseSide(old(sessions)[sessionId], team, side)]
    {
      if sessionId !in sessions {
        return false;
      }
      var session := sessions[sessionId];
      if team == "TeamA" {
        session := session.(teamA := session.teamA.(side := Some(side)));
        session := session.(teamB := session.teamB.(side := Some(OtherSide(side))));
      } else {
        session := session.(teamB := session.teamB.(side := Some(side)));
        session := session.(teamA := session.teamA.(side := Some(OtherSide(side))));
      }
      sessions := sessions[sessionId := session];
      emitted := true;
    }

    /** `disconnect`: only logs; no session is removed. */
    method Disconnect()
      ensures sessions == old(sessions)
    {
    }
  }
}
