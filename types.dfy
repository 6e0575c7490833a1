/** The client's data types (`Character`, `WorldState`,
    `SimulationResponse`) and its own copy of the initial world. */
module Types {
  import opened Common
  import opened Json

  /** A household member; every field is free text chosen by the model. */
  datatype Character = Character(
    name: string,
    role: string,
    location: string,
    currentAction: string,
    mood: string,
    notes: Option<string>)

  datatype Environment = Environment(weather: string, temperature: string, notes: string)

  datatype WorldState = WorldState(time: string, characters: seq<Character>, environment: Environment)

  /** What the client expects back from an action. The server does not check
      that its `state` has this shape; see `Ai.ParseResponse`. */
  datatype SimulationResponse = SimulationResponse(narrative: string, state: WorldState)

  /** The client-side `INITIAL_STATE`. */
  const ClientInitialState := WorldState(
    "07:00",
    [ Character("爸爸", "工程師", "主臥室", "睡覺", "疲憊", None),
      Character("媽媽", "自由撰稿人", "廚房", "準備早餐", "平靜", None),
      Character("哥哥", "高三生", "兒童房", "賴床", "煩躁", None),
      Character("大妹", "高一生", "浴廁", "梳洗", "匆忙", None),
      Character("小妹", "小學生", "客廳", "看電視", "開心", None) ],
    Environment("晴朗", "24°C", "早晨的陽光灑進客廳"))

  /** The JSON object a character literal denotes; an absent `notes` is an absent key. */
  function CharacterToJson(c: Character): (r: Json)
    ensures r.JObject? && |r.members| == (if c.notes.Some? then 6 else 5)
  {
    JObject(
      [ ("name", JString(c.name)), ("role", JString(c.role)), ("location", JString(c.location)),
        ("current_action", JString(c.currentAction)), ("mood", JString(c.mood)) ]
      + (if c.notes.Some? then [("notes", JString(c.notes.value))] else []))
  }

  function WorldStateToJson(w: WorldState): (r: Json)
    ensures r.JObject?
  {
    JObject(
      [ ("time", JString(w.time)),
        ("characters", JArray(seq(|w.characters|, i requires 0 <= i < |w.characters| => CharacterToJson(w.characters[i])))),
        ("environment", JObject(
            [ ("weather", JString(w.environment.weather)),
              ("temperature", JString(w.environment.temperature)),
              ("notes", JString(w.environment.notes)) ])) ])
  }
}
