/** The draft session of server.js as a value: its record, the invariant
    every reachable session keeps, and one pure step function per socket
    handler that changes a session. The handlers themselves, acting on the
    table of sessions, are in module Server. */
module Draft {
  import opened MapPool

  datatype Option<T> = None | Some(value: T)

  /** The two team labels, 'TeamA' and 'TeamB'. */
  datatype Team = TeamA | TeamB

  /** The two faces of the coin. */
  datatype Coin = Heads | Tails

  /** The string the source compares a caller's call against. */
  function CoinText(c: Coin): string
  {
    match c
    case Heads => "heads"
    case Tails => "tails"
  }

  /** A team: its name and its side, `null` (None) until a side is chosen. */
  datatype TeamInfo = TeamInfo(name: string, side: Option<string>)

  /** A session record. `None` stands for the source's `null`. */
  datatype Session = Session(
    matchType: string,
    maps: seq<MapEntry>,
    bans: seq<int>,
    selectedMaps: seq<int>,
    currentTurn: Option<Team>,
    tossWinner: Option<Team>,
    tossLoser: Option<Team>,
    teamA: TeamInfo,
    teamB: TeamInfo,
    isTossDone: bool)

  /** Number of maps drawn from the shuffled catalog for a session. */
  const PoolSize: nat := 7

  /** The match type whose first turn goes to TeamB. */
  const SingleMap: string := "bo1"

  const Attackers: string := "Attackers"
  const Defenders: string := "Defenders"

  /** The ids of the maps of a pool. */
  ghost function Ids(maps: seq<MapEntry>): set<int>
  {
    set i | 0 <= i < |maps| :: maps[i].id
  }

  /** The ids of the maps of a pool whose `banned` flag is set. */
  ghost function BannedIds(maps: seq<MapEntry>): set<int>
  {
    set i | 0 <= i < |maps| && maps[i].banned :: maps[i].id
  }

  ghost predicate NoDup(xs: seq<int>)
  {
    forall i, j :: 0 <= i < j < |xs| ==> xs[i] != xs[j]
  }

  /** The sides are both unset, or both set and different. */
  ghost predicate SidesConsistent(a: TeamInfo, b: TeamInfo)
  {
    (a.side.None? && b.side.None?) || (a.side.Some? && b.side.Some? && a.side != b.side)
  }

  /** The toss fields are all unset, or all set with distinct winner and loser
      and a team holding the turn. */
  ghost predicate TossConsistent(s: Session)
  {
    && s.isTossDone == s.tossWinner.Some?
    && s.tossWinner.Some? == s.tossLoser.Some?
    && (s.isTossDone ==> s.tossWinner != s.tossLoser && s.currentTurn.Some?)
  }

  /** The invariant of every session the handlers can reach: seven maps with
      distinct catalog ids; `bans` is duplicate-free and holds exactly the ids
      of the banned maps; `selectedMaps` is duplicate-free and drawn from the
      pool; sides and toss fields are consistent. */
  ghost predicate WellFormed(s: Session)
  {
    && |s.maps| == PoolSize
    && DistinctIds(s.maps)
    && (forall i :: 0 <= i < |s.maps| ==> 1 <= s.maps[i].id <= CatalogSize)
    && NoDup(s.bans)
    && (forall id :: id in s.bans <==> id in BannedIds(s.maps))
    && NoDup(s.selectedMaps)
    && (forall id :: id in s.selectedMaps ==> id in Ids(s.maps))
    && SidesConsistent(s.teamA, s.teamB)
    && TossConsistent(s)
  }

  /** What `create-session` registers for a creator `teamName`. */
  ghost predicate IsNewSession(s: Session, matchType: string, teamName: string)
  {
    && s.matchType == matchType
    && |s.maps| == PoolSize
    && FromCatalog(s.maps)
    && DistinctIds(s.maps)
    && (forall i :: 0 <= i < |s.maps| ==> !s.maps[i].banned)
    && s.bans == [] && s.selectedMaps == []
    && s.currentTurn.None? && s.tossWinner.None? && s.tossLoser.None?
    && !s.isTossDone
    && s.teamA == TeamInfo(teamName, None)
    && s.teamB == TeamInfo("", None)
  }

  /** `create-session`'s record, given the shuffled catalog. */
  function NewSession(matchType: string, teamName: string, shuffled: seq<MapEntry>): (s: Session)
    requires multiset(shuffled) == multiset(Catalog)
    ensures IsNewSession(s, matchType, teamName)
    ensures WellFormed(s)
    ensures |shuffled| >= PoolSize && s.maps == shuffled[..PoolSize]
  {
    DrawnPool(shuffled);
    Session(matchType, shuffled[..PoolSize], [], [], None, None, None,
            TeamInfo(teamName, None), TeamInfo("", None), false)
  }

  /** `maps.find((m) => m.id === mapId)`: the index of the first map with
      that id, if any. */
  function FindMap(maps: seq<MapEntry>, id: int): (r: Option<nat>)
    ensures r.Some? ==> r.value < |maps| && maps[r.value].id == id
    ensures r.Some? ==> forall k :: 0 <= k < r.value ==> maps[k].id != id
    ensures r.None? ==> forall k :: 0 <= k < |maps| ==> maps[k].id != id
  {
    if maps == [] then None
    else if maps[0].id == id then Some(0)
    else match FindMap(maps[1..], id)
      case None => None
      case Some(k) => Some(k + 1)
  }

  /** The turn flip of ban and select: TeamA goes to TeamB, anything else
      (TeamB or no turn yet) to TeamA. */
  function FlipTurn(t: Option<Team>): (r: Team)
    ensures Some(r) != t
    ensures t.None? ==> r == TeamA
  {
    if t == Some(TeamA) then TeamB else TeamA
  }

  /** The side given to the other team: 'Defenders' for 'Attackers', and
      'Attackers' for any other value. */
  function OtherSide(side: string): (r: string)
    ensures r != side
    ensures r == Attackers || r == Defenders
    ensures side != Attackers ==> r == Attackers
    ensures side == Attackers || side == Defenders ==> {side, r} == {Attackers, Defenders}
  {
    if side == Attackers then Defenders else Attackers
  }

  /** `join-session` on an existing session: only TeamB's name changes. */
  function Join(s: Session, teamName: string): (r: Session)
    ensures r.teamB.name == teamName && r.teamB.side == s.teamB.side
    ensures r.(teamB := s.teamB) == s
    ensures WellFormed(s) ==> WellFormed(r)
  {
    s.(teamB := s.teamB.(name := teamName))
  }

  /** `handle-toss` on an existing session with the drawn `coin`. */
  function Toss(s: Session, call: string, coin: Coin): (r: Session)
    ensures r.tossWinner == Some(TeamA) <==> call == CoinText(coin)
    ensures r.tossWinner.Some? && r.tossLoser.Some? && r.tossWinner != r.tossLoser
    ensures r.currentTurn.Some?
    ensures r.currentTurn == Some(TeamB) <==> s.matchType == SingleMap
    ensures r.isTossDone
    ensures r.(tossWinner := s.tossWinner, tossLoser := s.tossLoser,
               currentTurn := s.currentTurn, isTossDone := s.isTossDone) == s
    ensures WellFormed(s) ==> WellFormed(r)
  {
    var isWin := call == CoinText(coin);
    s.(tossWinner := Some(if isWin then TeamA else TeamB),
       tossLoser := Some(if isWin then TeamB else TeamA),
       currentTurn := Some(if s.matchType == SingleMap then TeamB else TeamA),
       isTossDone := true)
  }

  /** Setting the `banned` flag of map `i` adds its id to the banned ids and
      leaves the pool's ids alone. */
  lemma SetBannedFlag(maps: seq<MapEntry>, i: nat)
    requires i < |maps|
    ensures BannedIds(maps[i := maps[i].(banned := true)]) == BannedIds(maps) + {maps[i].id}
    ensures Ids(maps[i := maps[i].(banned := true)]) == Ids(maps)
  {
    var after := maps[i := maps[i].(banned := true)];
    assert maps[i].id == after[i].id && after[i].banned;
    forall id | id in BannedIds(after)
      ensures id in BannedIds(maps) + {maps[i].id}
    {
      var k :| 0 <= k < |after| && after[k].banned && after[k].id == id;
      if k != i {
        assert maps[k].banned && maps[k].id == id;
      }
    }
    forall id | id in BannedIds(maps)
      ensures id in BannedIds(after)
    {
      var k :| 0 <= k < |maps| && maps[k].banned && maps[k].id == id;
      assert after[k].banned && after[k].id == id;
    }
    forall id | id in Ids(after)
      ensures id in Ids(maps)
    {
      var k :| 0 <= k < |after| && after[k].id == id;
      assert maps[k].id == id;
    }
    forall id | id in Ids(maps)
      ensures id in Ids(after)
    {
      var k :| 0 <= k < |maps| && maps[k].id == id;
      assert after[k].id == id;
    }
  }

  /** In a pool with distinct ids, the map found for `id` is the only one
      carrying it; `id` is banned exactly when that map's flag is set. */
  lemma FoundMapIsUnique(maps: seq<MapEntry>, id: int)
    ensures FindMap(maps, id).Some? <==> id in Ids(maps)
    ensures DistinctIds(maps) && FindMap(maps, id).Some? ==>
              (id in BannedIds(maps) <==> maps[FindMap(maps, id).value].banned)
  {
  }

  /** `ban-map` on an existing session: accepted when a map with that id is
      in the pool and not banned; then that map, and only that one, becomes
      banned, the id is appended to `bans` and the turn flips. None stands
      for "ignored, nothing changes". */
  function Ban(s: Session, mapId: int): (r: Option<Session>)
    ensures WellFormed(s) ==> (r.Some? <==> mapId in Ids(s.maps) && mapId !in s.bans)
    ensures r.Some? ==> r.value.bans == s.bans + [mapId]
    ensures r.Some? ==> BannedIds(r.value.maps) == BannedIds(s.maps) + {mapId}
    ensures r.Some? ==> |r.value.maps| == |s.maps|
    ensures r.Some? ==> forall i :: 0 <= i < |s.maps| ==> r.value.maps[i].id == s.maps[i].id
    ensures WellFormed(s) && r.Some? ==>
              forall i :: 0 <= i < |s.maps| ==>
                r.value.maps[i] == if s.maps[i].id == mapId then s.maps[i].(banned := true) else s.maps[i]
    ensures r.Some? ==> r.value.currentTurn == Some(FlipTurn(s.currentTurn))
    ensures r.Some? ==> r.value.(maps := s.maps, bans := s.bans, currentTurn := s.currentTurn) == s
    ensures WellFormed(s) && r.Some? ==> WellFormed(r.value)
  {
    FoundMapIsUnique(s.maps, mapId);
    match FindMap(s.maps, mapId)
    case None => None
    case Some(i) =>
      if s.maps[i].banned then None
      else
        SetBannedFlag(s.maps, i);
        Some(s.(maps := s.maps[i := s.maps[i].(banned := true)],
                bans := s.bans + [mapId],
                currentTurn := Some(FlipTurn(s.currentTurn))))
  }

  /** `select-map` on an existing session: accepted when a map with that id
      is in the pool, is not banned and has not been selected; then the id is
      appended to `selectedMaps` and the turn flips. */
  function Select(s: Session, mapId: int): (r: Option<Session>)
    ensures WellFormed(s) ==>
              (r.Some? <==> mapId in Ids(s.maps) && mapId !in s.bans && mapId !in s.selectedMaps)
    ensures r.Some? ==> r.value.selectedMaps == s.selectedMaps + [mapId]
    ensures WellFormed(s) && r.Some? ==> mapId !in BannedIds(s.maps)
    ensures r.Some? ==> r.value.currentTurn == Some(FlipTurn(s.currentTurn))
    ensures r.Some? ==> r.value.(selectedMaps := s.selectedMaps, currentTurn := s.currentTurn) == s
    ensures WellFormed(s) && r.Some? ==> WellFormed(r.value)
  {
    FoundMapIsUnique(s.maps, mapId);
    match FindMap(s.maps, mapId)
    case None => None
    case Some(i) =>
      if s.maps[i].banned || mapId in s.selectedMaps then None
      else
        Some(s.(selectedMaps := s.selectedMaps + [mapId],
                currentTurn := Some(FlipTurn(s.currentTurn))))
  }

  /** `select-side` on an existing session: the team named by `team` (any
      value other than 'TeamA' names TeamB) takes `side`, the other team the
      opposite side. */
  function ChooseSide(s: Session, team: string, side: string): (r: Session)
    ensures var (named, other) := if team == "TeamA" then (r.teamA, r.teamB) else (r.teamB, r.teamA);
            named.side == Some(side) && other.side == Some(OtherSide(side))
    ensures r.teamA.side.Some? && r.teamB.side.Some? && r.teamA.side != r.teamB.side
    ensures r.teamA.name == s.teamA.name && r.teamB.name == s.teamB.name
    ensures r.(teamA := s.teamA, teamB := s.teamB) == s
    ensures WellFormed(s) ==> WellFormed(r)
  {
    if team == "TeamA" then
      s.(teamA := s.teamA.(side := Some(side)), teamB := s.teamB.(side := Some(OtherSide(side))))
    else
      s.(teamB := s.teamB.(side := Some(side)), teamA := s.teamA.(side := Some(OtherSide(side))))
  }

  /** Banning the same id twice: the second ban is ignored. */
  lemma BanTwiceIsIgnored(s: Session, mapId: int)
    requires WellFormed(s) && Ban(s, mapId).Some?
    ensures Ban(Ban(s, mapId).value, mapId).None?
  {
  }

  /** A banned map can no longer be selected. */
  lemma BannedMapCannotBeSelected(s: Session, mapId: int)
    requires WellFormed(s) && Ban(s, mapId).Some?
    ensures Select(Ban(s, mapId).value, mapId).None?
  {
  }

  /** Selecting the same id twice: the second selection is ignored. */
  lemma SelectTwiceIsIgnored(s: Session, mapId: int)
    requires WellFormed(s) && Select(s, mapId).Some?
    ensures Select(Select(s, mapId).value, mapId).None?
  {
  }

  /** `ban-map` does not look at `selectedMaps`: a map just selected can
      still be banned, and its id then sits in both `bans` and
      `selectedMaps`. */
  lemma SelectedMapCanBeBanned(s: Session, mapId: int)
    requires WellFormed(s) && Select(s, mapId).Some?
    ensures Ban(Select(s, mapId).value, mapId).Some?
    ensures var t := Ban(Select(s, mapId).value, mapId).value;
            mapId in t.bans && mapId in t.selectedMaps
  {
  }

  /** One event a client can send about an existing session. */
  datatype Event =
    | JoinEvent(teamName: string)
    | TossEvent(call: string, coin: Coin)
    | BanEvent(banId: int)
    | SelectEvent(selectId: int)
    | SideEvent(team: string, side: string)

  /** The session after one event; an ignored ban or selection leaves it as it was. */
  function Apply(s: Session, e: Event): Session
  {
    match e
    case JoinEvent(name) => Join(s, name)
    case TossEvent(call, coin) => Toss(s, call, coin)
    case BanEvent(id) => (match Ban(s, id) case Some(t) => t case None => s)
    case SelectEvent(id) => (match Select(s, id) case Some(t) => t case None => s)
    case SideEvent(team, side) => ChooseSide(s, team, side)
  }

  /** The session after a sequence of events, in order. */
  function Replay(s: Session, events: seq<Event>): Session
    decreases |events|
  {
    if events == [] then s else Replay(Apply(s, events[0]), events[1..])
  }

  /** Two accepted bans or selections in a row give the turn back to the
      team that held it; from no turn at all they end on TeamB. */
  lemma TwoActionsRestoreTurn(s: Session, a: Event, b: Event)
    requires a.BanEvent? || a.SelectEvent?
    requires b.BanEvent? || b.SelectEvent?
    requires a.BanEvent? ==> Ban(s, a.banId).Some?
    requires a.SelectEvent? ==> Select(s, a.selectId).Some?
    requires b.BanEvent? ==> Ban(Apply(s, a), b.banId).Some?
    requires b.SelectEvent? ==> Select(Apply(s, a), b.selectId).Some?
    ensures Apply(Apply(s, a), b).currentTurn == if s.currentTurn.Some? then s.currentTurn else Some(TeamB)
  {
    var t := Apply(s, a);
    assert t.currentTurn == Some(FlipTurn(s.currentTurn));
    assert Apply(t, b).currentTurn == Some(FlipTurn(t.currentTurn));
    if s.currentTurn.Some? {
      assert FlipTurn(Some(FlipTurn(s.currentTurn))) == s.currentTurn.value;
    }
  }

  /** Every event keeps the invariant, the pool's ids (in order) and its
      size, and only appends to `bans`. */
  lemma ApplyKeepsInvariant(s: Session, e: Event)
    requires WellFormed(s)
    ensures WellFormed(Apply(s, e))
    ensures |Apply(s, e).maps| == |s.maps|
    ensures forall i :: 0 <= i < |s.maps| ==> Apply(s, e).maps[i].id == s.maps[i].id
    ensures s.bans <= Apply(s, e).bans
    ensures s.selectedMaps <= Apply(s, e).selectedMaps
  {
  }

  /** Any sequence of events keeps the invariant and the pool's ids, and
      `bans` and `selectedMaps` only grow at the end: they record bans and
      selections in the order they were accepted. */
  lemma {:induction false} ReplayKeepsInvariant(s: Session, events: seq<Event>)
    requires WellFormed(s)
    ensures WellFormed(Replay(s, events))
    ensures |Replay(s, events).maps| == |s.maps|
    ensures forall i :: 0 <= i < |s.maps| ==> Replay(s, events).maps[i].id == s.maps[i].id
    ensures s.bans <= Replay(s, events).bans
    ensures s.selectedMaps <= Replay(s, events).selectedMaps
    decreases |events|
  {
    if events != [] {
      var t := Apply(s, events[0]);
      ApplyKeepsInvariant(s, events[0]);
      ReplayKeepsInvariant(t, events[1..]);
    }
  }

  /** The id `e` appends to `bans` on session `s`: the ban's id when it is
      accepted, nothing otherwise. */
  function BanRecord(s: Session, e: Event): seq<int>
  {
    if e.BanEvent? && Ban(s, e.banId).Some? then [e.banId] else []
  }

  /** The id `e` appends to `selectedMaps` on session `s`. */
  function SelectRecord(s: Session, e: Event): seq<int>
  {
    if e.SelectEvent? && Select(s, e.selectId).Some? then [e.selectId] else []
  }

  /** The ids of the bans that `events` gets accepted, in order, starting
      from session `s`. */
  function AcceptedBans(s: Session, events: seq<Event>): seq<int>
    decreases |events|
  {
    if events == [] then [] else BanRecord(s, events[0]) + AcceptedBans(Apply(s, events[0]), events[1..])
  }

  /** The ids of the selections that `events` gets accepted, in order,
      starting from session `s`. */
  function AcceptedSelections(s: Session, events: seq<Event>): seq<int>
    decreases |events|
  {
    if events == [] then [] else SelectRecord(s, events[0]) + AcceptedSelections(Apply(s, events[0]), events[1..])
  }

  /** One event appends to `bans` and `selectedMaps` exactly what it gets
      accepted. */
  lemma ApplyRecordsAction(s: Session, e: Event)
    ensures Apply(s, e).bans == s.bans + BanRecord(s, e)
    ensures Apply(s, e).selectedMaps == s.selectedMaps + SelectRecord(s, e)
  {
  }

  /** After any sequence of events, `bans` and `selectedMaps` are the old
      lists followed by exactly the accepted bans and selections, in the
      order they were accepted. */
  lemma {:induction false} ReplayRecordsAcceptedActions(s: Session, events: seq<Event>)
    ensures Replay(s, events).bans == s.bans + AcceptedBans(s, events)
    ensures Replay(s, events).selectedMaps == s.selectedMaps + AcceptedSelections(s, events)
    decreases |events|
  {
    if events != [] {
      var t := Apply(s, events[0]);
      ApplyRecordsAction(s, events[0]);
      ReplayRecordsAcceptedActions(t, events[1..]);
      assert s.bans + AcceptedBans(s, events) == (s.bans + BanRecord(s, events[0])) + AcceptedBans(t, events[1..]);
      assert s.selectedMaps + AcceptedSelections(s, events)
          == (s.selectedMaps + SelectRecord(s, events[0])) + AcceptedSelections(t, events[1..]);
    }
  }

  /** Nothing waits for the toss: on a session without a toss and without a
      turn, an accepted ban already hands the turn to TeamA, while the toss
      is still not done. */
  lemma BanBeforeTossSetsTurn(s: Session, mapId: int)
    requires !s.isTossDone && s.currentTurn.None? && Ban(s, mapId).Some?
    ensures Ban(s, mapId).value.currentTurn == Some(TeamA)
    ensures !Ban(s, mapId).value.isTossDone
  {
  }

  /** The scenario of a multi-map match: whatever the coin shows, TeamA has
      the first turn; the toss winner is TeamA exactly when the call matched. */
  lemma MultiMapTurnIgnoresToss(s: Session, call: string, coin: Coin)
    requires s.matchType != SingleMap
    ensures Toss(s, call, coin).currentTurn == Some(TeamA)
    ensures Toss(s, call, coin).tossWinner == Some(if call == CoinText(coin) then TeamA else TeamB)
  {
  }
}
