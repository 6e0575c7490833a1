/** The HTTP server's routes: the in-memory configuration, the status and
    reset routes, and the action route that builds the prompt, calls the
    model, parses its reply and persists the new state and history. */
module Server {
  import opened Common
  import opened Text
  import opened Json
  import opened Chat
  import opened Constants
  import opened Ai
  import opened Db

  /** The model used until one is configured. */
  const DefaultModel := "google/gemini-2.5-flash"

  const InputRequired := "input is required"
  const NoApiKey := "No API key configured. Set it via POST /api/config."

  /** What the action route reads as a history when the stored column is
      not a list of `{ role, content }` strings. */
  const NotAHistory := "chat_history is not a list of turns"

  /** The user turn of the seed exchange used on a fresh start. */
  const SeedUserContent := "初始化模擬，時間設定為 07:00"

  /** The assistant turn of the seed exchange: the opening narrative and the
      initial state, in the format the system instruction asks for. */
  function SeedAssistantContent(codec: Codec): string {
    NarrativeMarker + "\n" + InitialNarrative + "\n\n" + StateMarker + "\n" + codec.encode(InitialStateJson)
  }

  function SeedTurns(codec: Codec): (r: seq<Turn>)
    ensures |r| == 2 && r[0].role == UserRole && r[1].role == AssistantRole
  {
    [Turn(UserRole, SeedUserContent), Turn(AssistantRole, SeedAssistantContent(codec))]
  }

  /** The labels around the state and the new event in the user turn, and
      the request that closes it. */
  const StateLabel := "【當前世界絕對狀態】："
  const InputLabel := "\n【使用者輸入/新事件】："
  const Request := "\n請根據上述「當前狀態」與「新事件」，推演下一步，並輸出新的 JSON。"

  /** The user turn that carries the current state and the new event. */
  function UserMessage(codec: Codec, state: Json, input: string): (r: string)
    ensures OccursAt(r, codec.encode(state), |StateLabel|)
    ensures OccursAt(r, input, |StateLabel| + |codec.encode(state)| + |InputLabel|)
    ensures EndsWith(r, Request)
  {
    var r := StateLabel + codec.encode(state) + InputLabel + input + Request;
    assert r[|StateLabel|..|StateLabel| + |codec.encode(state)|] == codec.encode(state);
    assert r[|StateLabel| + |codec.encode(state)| + |InputLabel|..|StateLabel| + |codec.encode(state)| + |InputLabel| + |input|] == input;
    assert r[|r| - |Request|..] == Request;
    r
  }

  /** The earlier conversation sent with a request: the stored history, or
      the seed exchange when there is none. */
  function Context(codec: Codec, history: seq<Turn>): (r: seq<Turn>)
    ensures r != []
    ensures history != [] ==> r == history
    ensures history == [] ==> |r| == 2 && r[|r| - 1].role == AssistantRole
  {
    if |history| == 0 then SeedTurns(codec) else history
  }

  /** The request's messages: the system instruction, the context, the new user turn. */
  function BuildMessages(codec: Codec, history: seq<Turn>, user: string): (r: seq<Turn>)
    ensures |r| >= 3
    ensures r[0] == Turn(SystemRole, SystemInstruction) && r[|r| - 1] == Turn(UserRole, user)
    ensures history != [] ==> r[1..|r| - 1] == history
  {
    var r := [Turn(SystemRole, SystemInstruction)] + Context(codec, history) + [Turn(UserRole, user)];
    assert r[1..|r| - 1] == Context(codec, history);
    r
  }

  /** The history saved after a reply: the context, the user turn and the
      raw reply, without the system instruction. */
  function NewHistory(codec: Codec, history: seq<Turn>, user: string, raw: string): (r: seq<Turn>)
    ensures |r| >= 3
    ensures r[|r| - 2] == Turn(UserRole, user) && r[|r| - 1] == Turn(AssistantRole, raw)
    ensures history != [] ==> |history| <= |r| && r[..|history|] == history
  {
    var r := Context(codec, history) + [Turn(UserRole, user), Turn(AssistantRole, raw)];
    assert r[..|Context(codec, history)|] == Context(codec, history);
    r
  }

  predicate IsAssistant(t: Turn) {
    t.role == AssistantRole
  }

  /** The narratives of the assistant turns of a history, in order. */
  function AssistantNarratives(codec: Codec, history: seq<Turn>): (r: seq<string>)
    ensures |r| == |Filter(history, IsAssistant)|
    ensures forall i :: 0 <= i < |r| ==>
      r[i] == ParseResponse(Filter(history, IsAssistant)[i].content, codec).narrative
  {
    var a := Filter(history, IsAssistant);
    seq(|a|, i requires 0 <= i < |a| => ParseResponse(a[i].content, codec).narrative)
  }

  /** The narratives shown on reload: those of the history, or the opening
      narrative alone when the history has none. */
  function NarrativeHistory(codec: Codec, history: seq<Turn>): (r: seq<string>)
    ensures r != []
    ensures AssistantNarratives(codec, history) == [] ==> r == [InitialNarrative]
    ensures AssistantNarratives(codec, history) != [] ==> r == AssistantNarratives(codec, history)
  {
    var n := AssistantNarratives(codec, history);
    if |n| > 0 then n else [InitialNarrative]
  }

  /** The body of a successful `GET /api/state`. */
  datatype StatusView = StatusView(state: Json, narrativeHistory: seq<string>)

  /** `GET /api/state` on a table: an error when a column does not parse. */
  function StatusOf(table: Option<Row>, codec: Codec): (r: Result<StatusView>)
    ensures r.Ok? <==> ReadState(table, codec).Ok? && ReadHistory(table, codec).Ok?
                       && HistoryFromJson(ReadHistory(table, codec).value).Some?
    ensures r.Ok? ==> ReadState(table, codec) == Ok(r.value.state) && r.value.narrativeHistory != []
    ensures r.Ok? ==>
      r.value.narrativeHistory == NarrativeHistory(codec, HistoryFromJson(ReadHistory(table, codec).value).value)
  {
    match (ReadState(table, codec), ReadHistory(table, codec))
    case (Err(e), _) => Err(e)
    case (_, Err(e)) => Err(e)
    case (Ok(state), Ok(hj)) =>
      match HistoryFromJson(hj)
      case None => Err(NotAHistory)
      case Some(h) => Ok(StatusView(state, NarrativeHistory(codec, h)))
  }

  /** The outcome of `POST /api/action`: a 400, a 401, a 500 with the
      error's message, or the new narrative and state. */
  datatype Reply =
    | BadRequest(error: string)
    | Unauthorized(error: string)
    | ServerError(error: string)
    | Success(narrative: string, state: Json)

  /** The completion endpoint as seen from the server: the reply it gives to
      a list of messages, a model name and an API key, or the error `fetch`
      rejects with. */
  type Transport = (seq<Turn>, string, string) -> Result<HttpReply>

  /** `POST /api/action` on a table: the reply and the table afterwards. */
  function Action(table: Option<Row>, codec: Codec, key: string, model: string,
                  input: Option<string>, transport: Transport, now: string): (r: (Reply, Option<Row>))
    ensures r.1.Some? <==> table.Some?
    ensures r.0.BadRequest? ==> r.0.error == InputRequired
    ensures r.0.Unauthorized? ==> r.0.error == NoApiKey
  {
    if input.None? || Trim(input.value) == [] then (BadRequest(InputRequired), table)
    else if key == [] then (Unauthorized(NoApiKey), table)
    else
      match (ReadState(table, codec), ReadHistory(table, codec))
      case (Err(e), _) => (ServerError(e), table)
      case (_, Err(e)) => (ServerError(e), table)
      case (Ok(state), Ok(hj)) =>
        match HistoryFromJson(hj)
        case None => (ServerError(NotAHistory), table)
        case Some(h) => Exchange(table, codec, key, model, input.value, transport, now, state, h)
  }

  /** The part of `POST /api/action` after the checks and the reads: call
      the endpoint, parse its reply, and save the state and the history. */
  function Exchange(table: Option<Row>, codec: Codec, key: string, model: string, input: string,
                    transport: Transport, now: string, state: Json, h: seq<Turn>): (r: (Reply, Option<Row>))
    ensures !r.0.Success? ==> r.1 == table
    ensures r.1.Some? <==> table.Some?
  {
    var user := UserMessage(codec, state, input);
    match RawText(CallOpenRouter(transport(BuildMessages(codec, h, user), model, key), codec))
    case Err(e) => (ServerError(e), table)
    case Ok(raw) =>
      var p := ParseResponse(raw, codec);
      (Success(p.narrative, p.state), Saved(table, codec, p.state, NewHistory(codec, h, user, raw), now))
  }

  /** The request is the system instruction, then the stored history (or
      the two seed turns), then the new user turn. */
  lemma PromptShape(codec: Codec, history: seq<Turn>, user: string)
    ensures var m := BuildMessages(codec, history, user);
      && |m| == 1 + (if |history| == 0 then 2 else |history|) + 1
      && m[0] == Turn(SystemRole, SystemInstruction)
      && m[|m| - 1] == Turn(UserRole, user)
      && (|history| > 0 ==> m[1..|m| - 1] == history)
  {
    var m := BuildMessages(codec, history, user);
    assert m[1..|m| - 1] == Context(codec, history);
  }

  /** The saved history extends the old one by exactly the user turn and
      the reply (a fresh history starts with the seed exchange), and equals
      the request's messages without the system instruction, plus the reply. */
  lemma HistoryGrows(codec: Codec, history: seq<Turn>, user: string, raw: string)
    ensures var n := NewHistory(codec, history, user, raw);
      && |n| == (if |history| == 0 then 4 else |history| + 2)
      && n[..|n| - 2] == Context(codec, history)
      && n[|n| - 2..] == [Turn(UserRole, user), Turn(AssistantRole, raw)]
      && n == BuildMessages(codec, history, user)[1..] + [Turn(AssistantRole, raw)]
  {
    var c := Context(codec, history);
    var n := NewHistory(codec, history, user, raw);
    assert n[..|n| - 2] == c;
    var m := BuildMessages(codec, history, user);
    assert m[1..] == c + [Turn(UserRole, user)];
  }

  /** The seed exchange's reply parses to the opening narrative and the initial state. */
  lemma SeedParses(codec: Codec)
    requires Sound(codec)
    ensures ParseResponse(SeedAssistantContent(codec), codec) == Parsed(InitialNarrative, InitialStateJson)
  {
    MarkerFacts();
    var payload := codec.encode(InitialStateJson);
    CompactIsBare(payload);
    WellFormedReply(codec, "\n", InitialNarrative, "\n\n", "\n", payload);
    assert SeedAssistantContent(codec)
        == NarrativeMarker + "\n" + InitialNarrative + "\n\n" + StateMarker + "\n" + payload;
  }

  /** Each new reply adds its narrative to the end of the narrative history. */
  lemma NarrativesOfNewHistory(codec: Codec, history: seq<Turn>, user: string, raw: string)
    ensures AssistantNarratives(codec, NewHistory(codec, history, user, raw))
         == AssistantNarratives(codec, Context(codec, history)) + [ParseResponse(raw, codec).narrative]
  {
    var c := Context(codec, history);
    var tail := [Turn(UserRole, user), Turn(AssistantRole, raw)];
    assert NewHistory(codec, history, user, raw) == c + tail;
    AssistantNarrativesAppend(codec, c, tail);
    assert tail[1..][1..] == [];
    assert Filter(tail, IsAssistant) == [Turn(AssistantRole, raw)];
    assert AssistantNarratives(codec, tail) == [ParseResponse(raw, codec).narrative];
  }

  /** The narratives of two histories one after the other are those of the
      first followed by those of the second. */
  lemma AssistantNarrativesAppend(codec: Codec, a: seq<Turn>, b: seq<Turn>)
    ensures AssistantNarratives(codec, a + b) == AssistantNarratives(codec, a) + AssistantNarratives(codec, b)
  {
    FilterAppend(a, b, IsAssistant);
    var fa, fb := Filter(a, IsAssistant), Filter(b, IsAssistant);
    var na, nb := AssistantNarratives(codec, a), AssistantNarratives(codec, b);
    var n := AssistantNarratives(codec, a + b);
    assert |n| == |na| + |nb|;
    forall i | 0 <= i < |n|
      ensures n[i] == (na + nb)[i]
    {
      if i < |fa| {
        assert (fa + fb)[i] == fa[i];
      } else {
        assert (fa + fb)[i] == fb[i - |fa|];
      }
    }
  }

  /** What an action adds to the narrative view: the new reply's narrative
      at the end. A history with no assistant turn showed the opening
      narrative in its place, which the new narrative then replaces; a
      fresh start keeps it, since the seed exchange supplies it. */
  lemma ViewAfterAction(codec: Codec, h: seq<Turn>, user: string, raw: string)
    requires Sound(codec)
    ensures h == [] || AssistantNarratives(codec, h) != [] ==>
      NarrativeHistory(codec, NewHistory(codec, h, user, raw))
        == NarrativeHistory(codec, h) + [ParseResponse(raw, codec).narrative]
    ensures h != [] && AssistantNarratives(codec, h) == [] ==>
      NarrativeHistory(codec, NewHistory(codec, h, user, raw)) == [ParseResponse(raw, codec).narrative]
  {
    NarrativesOfNewHistory(codec, h, user, raw);
    if h == [] {
      FirstNarratives(codec, user, raw);
    }
  }

  /** The first reply after a fresh start is shown after the opening narrative. */
  lemma FirstNarratives(codec: Codec, user: string, raw: string)
    requires Sound(codec)
    ensures NarrativeHistory(codec, NewHistory(codec, [], user, raw))
         == [InitialNarrative, ParseResponse(raw, codec).narrative]
  {
    NarrativesOfNewHistory(codec, [], user, raw);
    SeedNarratives(codec);
    assert Context(codec, []) == SeedTurns(codec);
  }

  /** The seed exchange contributes exactly the opening narrative. */
  lemma SeedNarratives(codec: Codec)
    requires Sound(codec)
    ensures AssistantNarratives(codec, SeedTurns(codec)) == [InitialNarrative]
  {
    var seed := SeedTurns(codec);
    assert seed[1..][1..] == [];
    assert Filter(seed, IsAssistant) == [seed[1]];
    SeedParses(codec);
  }

  /** A blank or missing input is a 400 and an empty key a 401, whatever
      the table and the endpoint; neither touches the table. */
  lemma Rejections(table: Option<Row>, codec: Codec, key: string, model: string,
                   input: Option<string>, transport: Transport, now: string)
    ensures input.None? || IsBlank(input.value) ==>
      Action(table, codec, key, model, input, transport, now) == (BadRequest(InputRequired), table)
    ensures input.Some? && !IsBlank(input.value) && key == [] ==>
      Action(table, codec, key, model, input, transport, now) == (Unauthorized(NoApiKey), table)
  {
  }

  /** Only a successful action changes the table. */
  lemma FailureKeepsTable(table: Option<Row>, codec: Codec, key: string, model: string,
                          input: Option<string>, transport: Transport, now: string)
    ensures var (reply, after) := Action(table, codec, key, model, input, transport, now);
      !reply.Success? ==> after == table
  {
    if input.Some? && Trim(input.value) != [] && key != []
      && ReadState(table, codec).Ok? && ReadHistory(table, codec).Ok?
      && HistoryFromJson(ReadHistory(table, codec).value).Some?
    {
      var state := ReadState(table, codec).value;
      var h := HistoryFromJson(ReadHistory(table, codec).value).value;
      assert Action(table, codec, key, model, input, transport, now)
          == Exchange(table, codec, key, model, input.value, transport, now, state, h);
    }
  }

  /** Once the input, the key and both reads have passed, every way the
      call can fail is a 500 carrying the thrown error's message, and the
      table is left as it was. */
  lemma CallFailures(table: Option<Row>, codec: Codec, key: string, model: string,
                     input: Option<string>, transport: Transport, now: string, state: Json, h: seq<Turn>)
    requires input.Some? && !IsBlank(input.value) && key != []
    requires ReadState(table, codec) == Ok(state)
    requires ReadHistory(table, codec).Ok? && HistoryFromJson(ReadHistory(table, codec).value) == Some(h)
    ensures var f := transport(BuildMessages(codec, h, UserMessage(codec, state, input.value)), model, key);
      var act := Action(table, codec, key, model, input, transport, now);
      && (f.Err? ==> act == (ServerError(f.error), table))
      && (f.Ok? && !f.value.ok ==>
            act == (ServerError("OpenRouter " + Decimal(f.value.status) + ": " + f.value.body), table))
      && (f.Ok? && f.value.ok && codec.decode(f.value.body).None? ==> act == (ServerError(ParseFailure), table))
      && (f.Ok? && f.value.ok && codec.decode(f.value.body) == Some(JNull) ==> act == (ServerError(NullBody), table))
      && (CallOpenRouter(f, codec).Ok? && !CallOpenRouter(f, codec).value.JString? ==>
            act == (ServerError(NotText), table))
      && (RawText(CallOpenRouter(f, codec)).Err? ==>
            act == (ServerError(RawText(CallOpenRouter(f, codec)).error), table))
  {
    assert Trim(input.value) != [];
  }

  /** A successful action returns the parsed reply, and the table then reads
      back as exactly that state and the extended history. */
  lemma SuccessPersists(table: Option<Row>, codec: Codec, key: string, model: string,
                        input: Option<string>, transport: Transport, now: string, h: seq<Turn>)
    requires Sound(codec) && table.Some?
    requires ReadHistory(table, codec).Ok? && HistoryFromJson(ReadHistory(table, codec).value) == Some(h)
    ensures var (reply, after) := Action(table, codec, key, model, input, transport, now);
      reply.Success? ==>
        && var raw := RawText(CallOpenRouter(transport(BuildMessages(codec, h, UserMessage(codec, ReadState(table, codec).value, input.value)), model, key), codec)).value;
        && reply == Success(ParseResponse(raw, codec).narrative, ParseResponse(raw, codec).state)
        && ReadState(after, codec) == Ok(reply.state)
        && ReadHistory(after, codec).Ok?
        && HistoryFromJson(ReadHistory(after, codec).value)
             == Some(NewHistory(codec, h, UserMessage(codec, ReadState(table, codec).value, input.value), raw))
  {
    var (reply, after) := Action(table, codec, key, model, input, transport, now);
    if reply.Success? {
      var user := UserMessage(codec, ReadState(table, codec).value, input.value);
      var raw := RawText(CallOpenRouter(transport(BuildMessages(codec, h, user), model, key), codec)).value;
      ReadAfterSave(table, codec, ParseResponse(raw, codec).state, NewHistory(codec, h, user, raw), now);
    }
  }

  /** After any successful action on a stored history of turns, the status
      shows the state the action returned, and the narrative view gains the
      new narrative at its end. */
  lemma StatusAfterAction(table: Option<Row>, codec: Codec, key: string, model: string,
                          input: Option<string>, transport: Transport, now: string, h: seq<Turn>)
    requires Sound(codec) && table.Some?
    requires ReadHistory(table, codec).Ok? && HistoryFromJson(ReadHistory(table, codec).value) == Some(h)
    ensures var (reply, after) := Action(table, codec, key, model, input, transport, now);
      reply.Success? && (h == [] || AssistantNarratives(codec, h) != []) ==>
        StatusOf(after, codec) == Ok(StatusView(reply.state, NarrativeHistory(codec, h) + [reply.narrative]))
  {
    var (reply, after) := Action(table, codec, key, model, input, transport, now);
    if reply.Success? && (h == [] || AssistantNarratives(codec, h) != []) {
      SuccessPersists(table, codec, key, model, input, transport, now, h);
      var user := UserMessage(codec, ReadState(table, codec).value, input.value);
      var raw := RawText(CallOpenRouter(transport(BuildMessages(codec, h, user), model, key), codec)).value;
      ViewAfterAction(codec, h, user, raw);
    }
  }

  /** Right after a reset the status is the initial state with the opening
      narrative alone. */
  lemma StatusAfterInit(table: Option<Row>, codec: Codec, now: string)
    requires Sound(codec) && table.Some?
    ensures StatusOf(Reset(table, codec, now), codec) == Ok(StatusView(InitialStateJson, [InitialNarrative]))
  {
    ReadAfterReset(table, codec, now);
    assert AssistantNarratives(codec, []) == [];
  }

  /** After a reset and one successful action, the status shows the state
      the action returned and two narratives: the opening one and the new one. */
  lemma StatusAfterFirstAction(table: Option<Row>, codec: Codec, key: string, model: string,
                               input: Option<string>, transport: Transport, t0: string, t1: string)
    requires Sound(codec) && table.Some?
    ensures var (reply, after) := Action(Reset(table, codec, t0), codec, key, model, input, transport, t1);
      reply.Success? ==>
        StatusOf(after, codec) == Ok(StatusView(reply.state, [InitialNarrative, reply.narrative]))
  {
    var start := Reset(table, codec, t0);
    var (reply, after) := Action(start, codec, key, model, input, transport, t1);
    if reply.Success? {
      ReadAfterReset(table, codec, t0);
      SuccessPersists(start, codec, key, model, input, transport, t1, []);
      var user := UserMessage(codec, InitialStateJson, input.value);
      var raw := RawText(CallOpenRouter(transport(BuildMessages(codec, [], user), model, key), codec)).value;
      FirstNarratives(codec, user, raw);
    }
  }

  /** The body of `POST /api/config`. */
  datatype ConfigReply = ConfigReply(ok: bool, model: string, hasApiKey: bool)

  /** The running server: its in-memory settings and its store. */
  class Server {
    const store: SimulationStore
    /** The API key, never written to disk; `""` means none. */
    var apiKey: string
    var model: string

    /** Starts with the key from the environment, if any, and the default model. */
    constructor(store: SimulationStore, envKey: Option<string>)
      ensures this.store == store
      ensures apiKey == (if envKey.Some? then envKey.value else "")
      ensures model == DefaultModel
    {
      this.store := store;
      apiKey := if envKey.Some? then envKey.value else "";
      model := DefaultModel;
    }

    /** `GET /api/state`. */
    method Status() returns (r: Result<StatusView>)
      ensures r == StatusOf(store.Table(), store.codec)
    {
      var state := store.GetState();
      if state.Err? {
        return Err(state.error);
      }
      var hj := store.GetChatHistory();
      if hj.Err? {
        return Err(hj.error);
      }
      var h := HistoryFromJson(hj.value);
      if h.None? {
        return Err(NotAHistory);
      }
      r := Ok(StatusView(state.value, NarrativeHistory(store.codec, h.value)));
    }

    /** `POST /api/init`: resets the table and answers with the opening
      narrative and the initial state. */
    method Init(now: string) returns (narrative: string, state: Json)
      modifies store
      ensures store.Table() == Reset(old(store.Table()), store.codec, now)
      ensures narrative == InitialNarrative && state == InitialStateJson
    {
      store.ResetSimulation(now);
      narrative, state := InitialNarrative, InitialStateJson;
    }

    /** `POST /api/action`. */
    method Act(input: Option<string>, transport: Transport, now: string) returns (reply: Reply)
      modifies store
      ensures (reply, store.Table()) == Action(old(store.Table()), store.codec, apiKey, model, input, transport, now)
    {
      if input.None? || Trim(input.value) == [] {
        return BadRequest(InputRequired);
      }
      var key := apiKey;
      if key == [] {
        return Unauthorized(NoApiKey);
      }
      var current := store.GetState();
      var stored := store.GetChatHistory();
      if current.Err? {
        return ServerError(current.error);
      }
      if stored.Err? {
        return ServerError(stored.error);
      }
      var history := HistoryFromJson(stored.value);
      if history.None? {
        return ServerError(NotAHistory);
      }
      var user := UserMessage(store.codec, current.value, input.value);
      var messages := BuildMessages(store.codec, history.value, user);
      var content := CallOpenRouter(transport(messages, model, key), store.codec);
      var rawText := RawText(content);
      if rawText.Err? {
        return ServerError(rawText.error);
      }
      var parsed := ParseResponse(rawText.value, store.codec);
      var newHistory := NewHistory(store.codec, history.value, user, rawText.value);
      store.SaveSimulation(parsed.state, newHistory, now);
      reply := Success(parsed.narrative, parsed.state);
    }

    /** `POST /api/config`: each setting given replaces the current one. */
    method Configure(newKey: Option<string>, newModel: Option<string>) returns (r: ConfigReply)
      modifies this
      ensures apiKey == (if newKey.Some? then newKey.value else old(apiKey))
      ensures model == (if newModel.Some? then newModel.value else old(model))
      ensures r == ConfigReply(true, model, apiKey != [])
    {
      if newKey.Some? {
        apiKey := newKey.value;
      }
      if newModel.Some? {
        model := newModel.value;
      }
      r := ConfigReply(true, model, apiKey != []);
    }
  }
}
