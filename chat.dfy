/** A conversation turn `{ role, content }` as the server builds it, sends it
    upstream and stores it in the `chat_history` column as a JSON array. */
module Chat {
  import opened Common
  import opened Json

  const SystemRole := "system"
  const UserRole := "user"
  const AssistantRole := "assistant"

  datatype Turn = Turn(role: string, content: string)

  function TurnToJson(t: Turn): Json {
    JObject([("role", JString(t.role)), ("content", JString(t.content))])
  }

  /** Reads back a turn from a parsed object; `None` unless both fields are strings. */
  function TurnFromJson(j: Json): (r: Option<Turn>)
    ensures r.Some? ==> j.JObject?
  {
    if !j.JObject? then None
    else match (Member(j.members, "role"), Member(j.members, "content"))
      case (Some(JString(role)), Some(JString(content))) => Some(Turn(role, content))
      case _ => None
  }

  function HistoryToJson(h: seq<Turn>): (r: Json)
    ensures r.JArray? && |r.items| == |h|
  {
    JArray(seq(|h|, i requires 0 <= i < |h| => TurnToJson(h[i])))
  }

  function TurnsFromJson(items: seq<Json>): (r: Option<seq<Turn>>)
    ensures r.Some? ==> |r.value| == |items|
  {
    if items == [] then Some([])
    else match (TurnFromJson(items[0]), TurnsFromJson(items[1..]))
      case (Some(t), Some(rest)) => Some([t] + rest)
      case _ => None
  }

  /** Reads back a history from a parsed `chat_history` value. */
  function HistoryFromJson(j: Json): Option<seq<Turn>> {
    if j.JArray? then TurnsFromJson(j.items) else None
  }

  lemma TurnRoundTrip(t: Turn)
    ensures TurnFromJson(TurnToJson(t)) == Some(t)
  {
    var m := TurnToJson(t).members;
    assert m[..1] == [("role", JString(t.role))];
    assert Member(m, "role") == Member(m[..1], "role") == Some(JString(t.role));
  }

  /** Every history this program writes reads back unchanged. */
  lemma {:induction false} HistoryRoundTrip(h: seq<Turn>)
    ensures HistoryFromJson(HistoryToJson(h)) == Some(h)
  {
    TurnsRoundTrip(h);
  }

  lemma {:induction false} TurnsRoundTrip(h: seq<Turn>)
    ensures TurnsFromJson(HistoryToJson(h).items) == Some(h)
  {
    if h != [] {
      var items := HistoryToJson(h).items;
      assert items[1..] == HistoryToJson(h[1..]).items;
      TurnsRoundTrip(h[1..]);
      TurnRoundTrip(h[0]);
      assert [h[0]] + h[1..] == h;
    }
  }
}
