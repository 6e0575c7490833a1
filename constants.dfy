/** The server's fixed data: the initial world, the opening narrative, the
    two section markers and the system instruction that carries them. */
module Constants {
  import opened Common
  import opened Text
  import opened Json
  import opened Types

  /** The server-side `INITIAL_STATE`. */
  const InitialState := WorldState(
    "07:00",
    [ Character("爸爸", "工程師", "主臥室", "睡覺", "疲憊", None),
      Character("媽媽", "自由撰稿人", "廚房", "準備早餐", "平靜", None),
      Character("哥哥", "高三生", "兒童房", "賴床", "煩躁", None),
      Character("大妹", "高一生", "浴廁", "梳洗", "匆忙", None),
      Character("小妹", "小學生", "客廳", "看電視", "開心", None) ],
    Environment("晴朗", "24°C", "早晨的陽光灑進客廳"))

  /** `INITIAL_STATE` as the JSON value that `JSON.stringify` is given. */
  const InitialStateJson := WorldStateToJson(InitialState)

  /** `INITIAL_NARRATIVE`, in short pieces so that each can be read
      character by character. */
  const NarrativeParts := [
    "早晨七點，陽光透過窗簾縫隙灑進屋內。", "媽媽已經在廚房忙碌，平底鍋裡滋滋作響，", "飄來煎蛋的香氣。",
    "爸爸還在主臥室呼呼大睡，", "昨晚似乎又熬夜趕專案了。", "大妹佔據了一樓的浴廁，",
    "正對著鏡子仔細整理瀏海。", "小妹穿著睡衣在客廳沙發上跳來跳去，", "等著看晨間卡通。",
    "哥哥的房間門緊閉，毫無動靜。" ]

  const InitialNarrative := Concat(NarrativeParts)

  /** The pieces joined in order. */
  function Concat(parts: seq<string>): string {
    if parts == [] then [] else Concat(parts[..|parts| - 1]) + parts[|parts| - 1]
  }

  /** A character missing from every piece is missing from the whole. */
  lemma {:induction false} ConcatLacks(parts: seq<string>, c: char)
    requires forall i :: 0 <= i < |parts| ==> c !in parts[i]
    ensures c !in Concat(parts)
  {
    if parts != [] {
      ConcatLacks(parts[..|parts| - 1], c);
    }
  }

  /** The whole starts where its first piece does, when that piece is not empty. */
  lemma {:induction false} ConcatStart(parts: seq<string>)
    requires parts != [] && parts[0] != []
    ensures Concat(parts) != [] && Concat(parts)[0] == parts[0][0]
  {
    if |parts| > 1 {
      ConcatStart(parts[..|parts| - 1]);
    }
  }

  /** The line that opens the narrative section of every reply. */
  const NarrativeMarker := "=== 📝 敘事推演 ==="

  /** The line that opens the JSON state section of every reply. */
  const StateMarker := "=== 💾 當前世界狀態庫 (JSON) ==="

  /** The six rooms the instruction's geography line names. */
  const InstructionRooms := ["客廳", "廚房", "浴廁", "主臥室", "兒童房", "書房"]

  const InstructionHead := @"
你是一個「微型虛擬世界模擬引擎」。
你的任務是模擬一個兩層樓小房子中，一家五口的生活狀態。
你必須在背景維護一個「JSON 格式的世界狀態」，並根據使用者的輸入（推進時間、或加入碎片化事件），合理推演角色的行為、對話與關係變化。

【世界基礎設定】
- 地點：一樓（客廳、廚房、浴廁）、二樓（主臥室、兒童房、書房）。
- 角色：爸爸（工程師，常熬夜）、媽媽（自由撰稿人，愛乾淨）、哥哥（高三生，叛逆期）、大妹（高一生，愛漂亮）、小妹（小學生，好奇心強）。

【你的回覆格式】
每次使用者輸入後，你「必須」嚴格按照以下兩個區塊來回覆，不要包含任何其他文字：

"

  const InstructionBody := @"
（請用生動的描述，寫出當下發生了什麼事。角色之間有什麼互動？誰移動了位置？誰的情緒改變了？）

"

  const InstructionTail := @"
（請更新並輸出最新的 JSON 狀態。必須包含所有角色的：位置 location、當前動作 current_action、情緒狀態 mood、以及特殊物品或事件 notes。同時包含 environment 和 time 欄位。）

JSON 格式範例：
{
  ""time"": ""HH:MM"",
  ""characters"": [
    { ""name"": ""爸爸"", ""role"": ""工程師"", ""location"": ""..."", ""current_action"": ""..."", ""mood"": ""..."", ""notes"": ""..."" },
    ...
  ],
  ""environment"": { ""weather"": ""..."", ""temperature"": ""..."", ""notes"": ""..."" }
}
"

  /** `SYSTEM_INSTRUCTION`: its reply-format section spells out the same two
      markers the reply parser searches for. */
  const SystemInstruction := InstructionHead + NarrativeMarker + InstructionBody + StateMarker + InstructionTail

  /** The initial world: 07:00, five characters with pairwise distinct
      names and no notes, and a sunny 24°C morning. */
  lemma InitialStateShape()
    ensures InitialState.time == "07:00"
    ensures |InitialState.characters| == 5
    ensures forall i, j :: 0 <= i < j < 5 ==> InitialState.characters[i].name != InitialState.characters[j].name
    ensures forall i :: 0 <= i < 5 ==> InitialState.characters[i].notes.None?
    ensures InitialState.environment == Environment("晴朗", "24°C", "早晨的陽光灑進客廳")
  {
  }

  /** Every character starts in one of the rooms the instruction lists. */
  lemma InitialLocationsAreRooms()
    ensures forall i :: 0 <= i < |InitialState.characters| ==> InitialState.characters[i].location in InstructionRooms
  {
  }

  /** The client's copy of the initial world is the server's, field for field. */
  lemma ClientAgreesWithServer()
    ensures ClientInitialState == InitialState
  {
  }

  /** The instruction shows the narrative marker and, after it, the state
      marker, each exactly as the parser searches for it. */
  lemma InstructionCarriesMarkers()
    ensures OccursAt(SystemInstruction, NarrativeMarker, |InstructionHead|)
    ensures OccursAt(SystemInstruction, StateMarker, |InstructionHead| + |NarrativeMarker| + |InstructionBody|)
  {
    var i := |InstructionHead|;
    var j := i + |NarrativeMarker| + |InstructionBody|;
    assert SystemInstruction[i..i + |NarrativeMarker|] == NarrativeMarker;
    assert SystemInstruction[j..j + |StateMarker|] == StateMarker;
  }

  /** Both markers open with "=== " and differ at their fifth character, an
      emoji that neither the other marker nor the opening narrative contains. */
  lemma MarkerFacts()
    ensures StartsWith(NarrativeMarker, "=== ") && StartsWith(StateMarker, "=== ")
    ensures NarrativeMarker[4] == '📝' && StateMarker[4] == '💾'
    ensures StateMarker[4] !in NarrativeMarker && StateMarker[4] !in InitialNarrative
    ensures InitialNarrative != [] && IsTrimmed(InitialNarrative)
  {
    assert StateMarker[..4] == "=== ";
    assert NarrativeMarker[..4] == "=== ";
    assert StateMarker[4] == '💾';
    NarrativeLacksDisk();
    NarrativeTrimmed();
  }

  lemma NarrativeLacksDisk()
    ensures '💾' !in InitialNarrative
  {
    PartsLackDisk();
    ConcatLacks(NarrativeParts, '💾');
  }

  lemma PartsLackDisk()
    ensures forall i :: 0 <= i < |NarrativeParts| ==> '💾' !in NarrativeParts[i]
  {
    assert '💾' !in NarrativeParts[0];
    assert '💾' !in NarrativeParts[1];
    assert '💾' !in NarrativeParts[2];
    assert '💾' !in NarrativeParts[3];
    assert '💾' !in NarrativeParts[4];
    assert '💾' !in NarrativeParts[5];
    assert '💾' !in NarrativeParts[6];
    assert '💾' !in NarrativeParts[7];
    assert '💾' !in NarrativeParts[8];
    assert '💾' !in NarrativeParts[9];
  }

  lemma NarrativeTrimmed()
    ensures InitialNarrative != [] && IsTrimmed(InitialNarrative)
  {
    ConcatStart(NarrativeParts);
    assert NarrativeParts[0][0] == '早';
    var last := NarrativeParts[|NarrativeParts| - 1];
    assert InitialNarrative == Concat(NarrativeParts[..|NarrativeParts| - 1]) + last;
    assert last[|last| - 1] == '。';
  }
}
