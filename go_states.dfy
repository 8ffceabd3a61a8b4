/** The two enumerations of the Go server and their JSON encoders
    (server/turn_state.go, server/room_state.go). The room package uses the
    same constants. */
module GoStates {

  /** Go: `type TurnState string`; any string is a value of the type. */
  type TurnState = string

  const NotStarted: TurnState := "not_started"
  const WaitingForStory: TurnState := "waiting_for_story"
  const SelectingCards: TurnState := "selecting_cards"
  const Voting: TurnState := "voting"
  const Scoring: TurnState := "scoring"

  /** The five declared constants. */
  const KnownTurnStates: set<TurnState> := {NotStarted, WaitingForStory, SelectingCards, Voting, Scoring}

  const TurnStateToString: map<TurnState, string> := map[
    NotStarted := "not_started",
    WaitingForStory := "waiting_for_story",
    SelectingCards := "selecting_cards",
    Voting := "voting",
    Scoring := "scoring"
  ]

  /** Go's map index yields "" for a missing key. */
  function LookupOrEmpty<K>(m: map<K, string>, k: K): string
  {
    if k in m then m[k] else ""
  }

  /** MarshalJSON: the table entry wrapped in double quotes. */
  function MarshalTurnState(ts: TurnState): (out: string)
    ensures |out| >= 2 && out[0] == '"' && out[|out| - 1] == '"'
    ensures ts in KnownTurnStates ==> out == "\"" + ts + "\""
    ensures ts !in KnownTurnStates ==> out == "\"\""
  {
    "\"" + LookupOrEmpty(TurnStateToString, ts) + "\""
  }

  /** Between the quotes stands the table entry. */
  lemma {:induction false} QuotedBody(body: string)
    ensures ("\"" + body + "\"")[1..|body| + 1] == body
    ensures |"\"" + body + "\""| == |body| + 2
  {
    var out := "\"" + body + "\"";
    assert forall i :: 0 <= i < |body| ==> out[1..|body| + 1][i] == body[i];
  }

  /** Distinct declared states marshal to distinct strings. */
  lemma {:induction false} MarshalTurnStateInjective(a: TurnState, b: TurnState)
    requires a in KnownTurnStates && b in KnownTurnStates
    ensures MarshalTurnState(a) == MarshalTurnState(b) ==> a == b
  {
    if MarshalTurnState(a) == MarshalTurnState(b) {
      QuotedBody(a);
      QuotedBody(b);
    }
  }

  /** Go: `type RoomState int32` with iota constants. */
  newtype RoomState = x: int | -0x8000_0000 <= x < 0x8000_0000

  const WaitingForPlayers: RoomState := 0
  const PlayingGame: RoomState := 1
  const Ended: RoomState := 2

  const GameStateToString: map<RoomState, string> := map[
    WaitingForPlayers := "waiting",
    PlayingGame := "playing",
    Ended := "ended"
  ]

  function MarshalRoomState(rs: RoomState): (out: string)
    ensures |out| >= 2 && out[0] == '"' && out[|out| - 1] == '"'
    ensures rs == WaitingForPlayers ==> out == "\"waiting\""
    ensures rs == PlayingGame ==> out == "\"playing\""
    ensures rs == Ended ==> out == "\"ended\""
    ensures !(0 <= rs <= 2) ==> out == "\"\""
  {
    "\"" + LookupOrEmpty(GameStateToString, rs) + "\""
  }

  /** The three declared states marshal to three distinct strings. */
  lemma {:induction false} MarshalRoomStateInjective(a: RoomState, b: RoomState)
    requires 0 <= a <= 2 && 0 <= b <= 2
    ensures MarshalRoomState(a) == MarshalRoomState(b) ==> a == b
  {
  }
}
