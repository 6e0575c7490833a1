/** The character card's mood colour. */
module CharacterCard {
  import opened Text
  import FloorPlan

  const Emerald := "text-emerald-500"
  const Red := "text-red-500"
  const Amber := "text-amber-500"
  const Blue := "text-blue-500"

  predicate Calm(mood: string) {
    Includes(mood, "開心") || Includes(mood, "平靜")
  }

  predicate Upset(mood: string) {
    Includes(mood, "煩躁") || Includes(mood, "生氣")
  }

  /** `getMoodColor`: the first rule that applies decides. */
  function MoodColor(mood: string): (r: string)
    ensures r == Emerald || r == Red || r == Amber || r == Blue
  {
    if Calm(mood) then Emerald
    else if Upset(mood) then Red
    else if Includes(mood, "疲憊") then Amber
    else Blue
  }

  /** The four colours are four different classes, so each one identifies its rule. */
  lemma ColoursDistinct()
    ensures Emerald != Red && Emerald != Amber && Emerald != Blue
    ensures Red != Amber && Red != Blue && Amber != Blue
  {
    assert Emerald[5] == 'e' && Red[5] == 'r' && Amber[5] == 'a' && Blue[5] == 'b';
  }

  /** The rules in order: a calm word wins over everything, an upset word
      over tiredness, and a mood with none of the five words is blue. A
      mood both happy and angry is therefore emerald. */
  lemma MoodColorRules(mood: string)
    ensures MoodColor(mood) == Emerald <==> Calm(mood)
    ensures MoodColor(mood) == Red <==> !Calm(mood) && Upset(mood)
    ensures MoodColor(mood) == Amber <==> !Calm(mood) && !Upset(mood) && Includes(mood, "疲憊")
    ensures MoodColor(mood) == Blue <==> !Calm(mood) && !Upset(mood) && !Includes(mood, "疲憊")
  {
    ColoursDistinct();
  }

  /** The card and the floor plan agree on moods: the card is emerald
      exactly when the dot is, red exactly when the dot is rose, and amber or
      blue exactly when the dot is amber. */
  lemma AgreesWithFloorPlan(mood: string)
    ensures MoodColor(mood) == Emerald <==> FloorPlan.MoodIndicator(mood) == FloorPlan.Emerald
    ensures MoodColor(mood) == Red <==> FloorPlan.MoodIndicator(mood) == FloorPlan.Rose
    ensures (MoodColor(mood) == Amber || MoodColor(mood) == Blue)
        <==> FloorPlan.MoodIndicator(mood) == FloorPlan.Amber
  {
    ColoursDistinct();
    FloorPlan.IndicatorsDistinct();
  }
}
