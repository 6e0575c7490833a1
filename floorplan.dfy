/** The house view: the two floors and their rooms, which characters are
    drawn in which room, the colour of each character's mood dot, and the
    floor switch. */
module FloorPlan {
  import opened Common
  import opened Text
  import opened Types
  import opened Constants

  datatype Floor = F1 | F2

  datatype Room = Room(id: string, name: string, className: string)

  /** The `ROOMS` table. */
  function Rooms(f: Floor): (r: seq<Room>)
    ensures |r| == 3
    ensures forall i :: 0 <= i < |r| ==> r[i].id == r[i].name
  {
    match f
    case F1 => [
      Room("廚房", "廚房", "col-span-1 row-span-1 bg-orange-50 border-orange-200"),
      Room("浴廁", "浴廁", "col-span-1 row-span-1 bg-cyan-50 border-cyan-200"),
      Room("客廳", "客廳", "col-span-2 row-span-2 bg-amber-50 border-amber-200") ]
    case F2 => [
      Room("書房", "書房", "col-span-1 row-span-1 bg-slate-50 border-slate-200"),
      Room("兒童房", "兒童房", "col-span-1 row-span-1 bg-pink-50 border-pink-200"),
      Room("主臥室", "主臥室", "col-span-2 row-span-2 bg-indigo-50 border-indigo-200") ]
  }

  function RoomNames(f: Floor): seq<string> {
    var rs := Rooms(f);
    seq(|rs|, i requires 0 <= i < |rs| => rs[i].name)
  }

  /** The names of all rooms, first floor first. */
  function AllRoomNames(): seq<string> {
    RoomNames(F1) + RoomNames(F2)
  }

  /** Each room's key is its name; the first floor holds the kitchen, the
      bathroom and the living room, the second the study, the children's
      room and the master bedroom. */
  lemma RoomTable()
    ensures forall f: Floor, i :: 0 <= i < |Rooms(f)| ==> Rooms(f)[i].id == Rooms(f)[i].name
    ensures RoomNames(F1) == ["廚房", "浴廁", "客廳"]
    ensures RoomNames(F2) == ["書房", "兒童房", "主臥室"]
  {
  }

  /** No two rooms share a name, on one floor or across the two. */
  lemma RoomsDistinct()
    ensures |AllRoomNames()| == 6
    ensures forall i, j :: 0 <= i < j < 6 ==> AllRoomNames()[i] != AllRoomNames()[j]
  {
    RoomTable();
    var all := AllRoomNames();
    assert all == ["廚房", "浴廁", "客廳", "書房", "兒童房", "主臥室"];
    var firsts := ['廚', '浴', '客', '書', '兒', '主'];
    forall i, j | 0 <= i < j < 6
      ensures all[i] != all[j]
    {
      assert all[i][0] == firsts[i] && all[j][0] == firsts[j];
    }
  }

  /** The rooms drawn are exactly the six rooms the system instruction lists. */
  lemma RoomsAreInstructionRooms()
    ensures forall n :: n in AllRoomNames() <==> n in InstructionRooms
  {
    RoomTable();
    assert AllRoomNames() == ["廚房", "浴廁", "客廳", "書房", "兒童房", "主臥室"];
    assert InstructionRooms == ["客廳", "廚房", "浴廁", "主臥室", "兒童房", "書房"];
  }

  /** `getCharactersInRoom`. */
  function CharactersInRoom(characters: seq<Character>, roomName: string): (r: seq<Character>)
    ensures forall i :: 0 <= i < |r| ==> r[i] in characters && r[i].location == roomName
    ensures forall i :: 0 <= i < |characters| && characters[i].location == roomName ==> characters[i] in r
  {
    Filter(characters, (c: Character) => c.location == roomName)
  }

  /** The characters of a room keep the order of the character list: the
      room's list for two lists joined is the two rooms' lists joined. */
  lemma CharactersInRoomInOrder(a: seq<Character>, b: seq<Character>, roomName: string)
    ensures CharactersInRoom(a + b, roomName) == CharactersInRoom(a, roomName) + CharactersInRoom(b, roomName)
  {
    FilterAppend(a, b, (c: Character) => c.location == roomName);
  }

  /** A character is drawn in a room exactly when its location is the
      room's name; so it is drawn in at most one room of a floor, and in
      none when its location names no room there. */
  lemma DrawnInOneRoom(characters: seq<Character>, k: nat, f: Floor)
    requires k < |characters|
    ensures forall i :: 0 <= i < |Rooms(f)| ==>
      (characters[k] in CharactersInRoom(characters, Rooms(f)[i].name) <==> characters[k].location == Rooms(f)[i].name)
    ensures forall i, j :: 0 <= i < j < |Rooms(f)| ==>
      !(characters[k] in CharactersInRoom(characters, Rooms(f)[i].name)
        && characters[k] in CharactersInRoom(characters, Rooms(f)[j].name))
    ensures characters[k].location !in RoomNames(f) ==>
      forall i :: 0 <= i < |Rooms(f)| ==> characters[k] !in CharactersInRoom(characters, Rooms(f)[i].name)
  {
    var c := characters[k];
    RoomTable();
    RoomsDistinct();
    forall i | 0 <= i < |Rooms(f)|
      ensures c in CharactersInRoom(characters, Rooms(f)[i].name) <==> c.location == Rooms(f)[i].name
    {
      var inRoom := CharactersInRoom(characters, Rooms(f)[i].name);
      if c in inRoom {
        var m :| 0 <= m < |inRoom| && inRoom[m] == c;
      }
    }
    forall i | 0 <= i < |Rooms(f)|
      ensures Rooms(f)[i].name == RoomNames(f)[i]
    {
    }
  }

  const Emerald := "bg-emerald-400"
  const Rose := "bg-rose-400"
  const Amber := "bg-amber-400"

  /** The colour of the mood dot next to a character. */
  function MoodIndicator(mood: string): (r: string)
    ensures r == Emerald || r == Rose || r == Amber
  {
    if Includes(mood, "開心") || Includes(mood, "平靜") then Emerald
    else if Includes(mood, "生氣") || Includes(mood, "煩躁") then Rose
    else Amber
  }

  /** The dot's rules in order: a calm word gives emerald, otherwise an
      angry or irritated word gives rose, and anything else amber. */
  lemma MoodIndicatorRules(mood: string)
    ensures MoodIndicator(mood) == Emerald <==> Includes(mood, "開心") || Includes(mood, "平靜")
    ensures MoodIndicator(mood) == Rose
        <==> !(Includes(mood, "開心") || Includes(mood, "平靜")) && (Includes(mood, "生氣") || Includes(mood, "煩躁"))
    ensures MoodIndicator(mood) == Amber
        <==> !(Includes(mood, "開心") || Includes(mood, "平靜")) && !(Includes(mood, "生氣") || Includes(mood, "煩躁"))
  {
    IndicatorsDistinct();
  }

  /** The three dot colours are different classes. */
  lemma IndicatorsDistinct()
    ensures Emerald != Rose && Emerald != Amber && Rose != Amber
  {
    assert Emerald[3] == 'e' && Rose[3] == 'r' && Amber[3] == 'a';
  }

  /** The floor switch: which floor is shown. */
  class FloorView {
    var currentFloor: Floor

    /** The view opens on the first floor. */
    constructor()
      ensures currentFloor == F1
    {
      currentFloor := F1;
    }

    /** The rooms drawn for the floor shown. */
    function VisibleRooms(): seq<Room>
      reads this
    {
      Rooms(currentFloor)
    }

    /** Whether the button for `f` is drawn as the active one. */
    function IsActive(f: Floor): bool
      reads this
    {
      currentFloor == f
    }

    /** The handler of the button for floor `f`. */
    method Select(f: Floor)
      modifies this
      ensures currentFloor == f
      ensures VisibleRooms() == Rooms(f)
      ensures IsActive(f) && forall g: Floor :: g != f ==> !IsActive(g)
    {
      currentFloor := f;
    }
  }
}
