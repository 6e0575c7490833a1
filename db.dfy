/** The persistence layer: a single-row `simulation` table holding the world
    state and the chat history as JSON text, with the helpers that read,
    overwrite and reset that row. */
module Db {
  import opened Common
  import opened Json
  import opened Chat
  import opened Constants

  /** The row with `id = 1`. The table's `CHECK (id = 1)` allows no other
      row, so the table is `None` (empty) or `Some(row)`. */
  datatype Row = Row(worldState: string, chatHistory: string, updatedAt: string)

  /** The value the `chat_history` column defaults to and is reset to. */
  const EmptyHistoryText := "[]"

  /** `JSON.parse`, with a thrown error as `Err`. */
  function Parse(codec: Codec, text: string): (r: Result<Json>)
    ensures r.Ok? <==> codec.decode(text).Some?
    ensures r.Ok? ==> codec.decode(text) == Some(r.value)
  {
    match codec.decode(text)
    case Some(j) => Ok(j)
    case None => Err(ParseFailure)
  }

  /** Opening the database: an empty table is seeded with the initial
      state, an empty history and the current time; a stored row is kept. */
  function Seeded(table: Option<Row>, codec: Codec, now: string): (r: Option<Row>)
    ensures r.Some?
    ensures table.Some? ==> r == table
    ensures table.None? ==> r.value.chatHistory == EmptyHistoryText && r.value.updatedAt == now
  {
    if table.Some? then table
    else Some(Row(codec.encode(InitialStateJson), EmptyHistoryText, now))
  }

  /** `getState`: the parsed `world_state`, or the initial state without a row. */
  function ReadState(table: Option<Row>, codec: Codec): (r: Result<Json>)
    ensures table.None? ==> r == Ok(InitialStateJson)
    ensures table.Some? ==> (r.Ok? <==> codec.decode(table.value.worldState).Some?)
    ensures table.Some? && r.Ok? ==> codec.decode(table.value.worldState) == Some(r.value)
  {
    if table.None? then Ok(InitialStateJson) else Parse(codec, table.value.worldState)
  }

  /** `getChatHistory`: the parsed `chat_history`, or an empty list without a row. */
  function ReadHistory(table: Option<Row>, codec: Codec): (r: Result<Json>)
    ensures table.None? ==> r == Ok(JArray([]))
    ensures table.Some? ==> (r.Ok? <==> codec.decode(table.value.chatHistory).Some?)
    ensures table.Some? && r.Ok? ==> codec.decode(table.value.chatHistory) == Some(r.value)
  {
    if table.None? then Ok(JArray([])) else Parse(codec, table.value.chatHistory)
  }

  /** `saveSimulation`: an `UPDATE ... WHERE id = 1`, which changes the row
      if there is one and does nothing otherwise. */
  function Saved(table: Option<Row>, codec: Codec, state: Json, history: seq<Turn>, now: string): (r: Option<Row>)
    ensures r.Some? <==> table.Some?
    ensures r.Some? ==> r.value.updatedAt == now
  {
    if table.None? then None
    else Some(Row(codec.encode(state), codec.encode(HistoryToJson(history)), now))
  }

  /** `resetSimulation`: the same update with the initial state and the literal `'[]'`. */
  function Reset(table: Option<Row>, codec: Codec, now: string): (r: Option<Row>)
    ensures r.Some? <==> table.Some?
    ensures r.Some? ==> r.value.chatHistory == EmptyHistoryText && r.value.updatedAt == now
  {
    if table.None? then None
    else Some(Row(codec.encode(InitialStateJson), EmptyHistoryText, now))
  }

  /** Opening never overwrites a stored row, and opening twice is opening once. */
  lemma SeedKeepsRow(table: Option<Row>, codec: Codec, now: string, later: string)
    ensures table.Some? ==> Seeded(table, codec, now) == table
    ensures Seeded(Seeded(table, codec, now), codec, later) == Seeded(table, codec, now)
  {
  }

  /** A freshly seeded table reads back as the initial state and an empty history. */
  lemma ReadAfterSeed(codec: Codec, now: string)
    requires Sound(codec)
    ensures ReadState(Seeded(None, codec, now), codec) == Ok(InitialStateJson)
    ensures ReadHistory(Seeded(None, codec, now), codec) == Ok(JArray([]))
  {
  }

  /** What is saved is what is read back: the state itself, and a history
      that reads back as the very turns that were saved. */
  lemma ReadAfterSave(table: Option<Row>, codec: Codec, state: Json, history: seq<Turn>, now: string)
    requires Sound(codec) && table.Some?
    ensures ReadState(Saved(table, codec, state, history, now), codec) == Ok(state)
    ensures ReadHistory(Saved(table, codec, state, history, now), codec) == Ok(HistoryToJson(history))
    ensures HistoryFromJson(HistoryToJson(history)) == Some(history)
  {
    HistoryRoundTrip(history);
  }

  /** After a reset the row reads as the initial state and an empty history,
      whatever was there before. */
  lemma ReadAfterReset(table: Option<Row>, codec: Codec, now: string)
    requires Sound(codec) && table.Some?
    ensures ReadState(Reset(table, codec, now), codec) == Ok(InitialStateJson)
    ensures ReadHistory(Reset(table, codec, now), codec) == Ok(JArray([]))
    ensures HistoryFromJson(JArray([])) == Some([])
  {
  }

  /** Resetting twice is resetting once (up to the timestamp), and a reset
      row holds exactly what a freshly seeded one does. */
  lemma ResetIdempotent(table: Option<Row>, codec: Codec, t1: string, t2: string)
    requires table.Some?
    ensures Reset(Reset(table, codec, t1), codec, t2) == Reset(table, codec, t2)
    ensures Reset(table, codec, t1) == Seeded(None, codec, t1)
  {
  }

  /** Without a row, saving and resetting change nothing and the reads fall back. */
  lemma MissingRow(codec: Codec, state: Json, history: seq<Turn>, now: string)
    ensures Saved(None, codec, state, history, now) == None
    ensures Reset(None, codec, now) == None
    ensures ReadState(None, codec) == Ok(InitialStateJson)
    ensures ReadHistory(None, codec) == Ok(JArray([]))
  {
  }

  /** The database connection with its `simulation` table: whether the
      row exists, and its three columns. */
  class SimulationStore {
    /** `JSON.stringify` / `JSON.parse` used on the columns. */
    const codec: Codec
    var present: bool
    var worldState: string
    var chatHistory: string
    var updatedAt: string

    /** The table's contents; the columns mean nothing without a row. */
    function Table(): Option<Row>
      reads this
    {
      if present then Some(Row(worldState, chatHistory, updatedAt)) else None
    }

    /** Opens the database whose table holds `stored`, seeding it when it is empty. */
    constructor Open(codec: Codec, stored: Option<Row>, now: string)
      ensures this.codec == codec
      ensures Table() == Seeded(stored, codec, now)
    {
      this.codec := codec;
      present := true;
      if stored.None? {
        worldState, chatHistory, updatedAt := codec.encode(InitialStateJson), EmptyHistoryText, now;
      } else {
        worldState, chatHistory, updatedAt := stored.value.worldState, stored.value.chatHistory, stored.value.updatedAt;
      }
    }

    method GetState() returns (r: Result<Json>)
      ensures r == ReadState(Table(), codec)
    {
      if !present {
        r := Ok(InitialStateJson);
      } else {
        r := Parse(codec, worldState);
      }
    }

    method GetChatHistory() returns (r: Result<Json>)
      ensures r == ReadHistory(Table(), codec)
    {
      if !present {
        r := Ok(JArray([]));
      } else {
        r := Parse(codec, chatHistory);
      }
    }

    method SaveSimulation(state: Json, history: seq<Turn>, now: string)
      modifies this
      ensures present == old(present)
      ensures Table() == Saved(old(Table()), codec, state, history, now)
    {
      if present {
        worldState := codec.encode(state);
        chatHistory := codec.encode(HistoryToJson(history));
        updatedAt := now;
      }
    }

    method ResetSimulation(now: string)
      modifies this
      ensures present == old(present)
      ensures Table() == Reset(old(Table()), codec, now)
    {
      if present {
        worldState := codec.encode(InitialStateJson);
        chatHistory := EmptyHistoryText;
        updatedAt := now;
      }
    }
  }
}
