/** The card tiers "1" to "5". */
module CardLevel {
  const Level1: string := "1"
  const Level2: string := "2"
  const Level3: string := "3"
  const Level4: string := "4"
  const Level5: string := "5"

  /** `CardLevel::all()`. */
  const All: map<string, string> := map[
    Level1 := "Level 1",
    Level2 := "Level 2",
    Level3 := "Level 3",
    Level4 := "Level 4",
    Level5 := "Level 5"
  ]

  /** `CardLevel::label($level)`. */
  function Label(level: string): (text: string)
    ensures level in All ==> text == All[level]
    ensures level !in All ==> text == "Unknown"
  {
    if level in All then All[level] else "Unknown"
  }

  /** `CardLevel::isValid($level)`: `isset` on the table. */
  function IsValid(level: string): (valid: bool)
    ensures valid <==> Label(level) != "Unknown"
  {
    level in All
  }

  /** The valid levels are exactly "1" to "5", each labelled "Level " and its digit. */
  lemma ValidLevels(level: string)
    ensures IsValid(level) <==>
              level == Level1 || level == Level2 || level == Level3 || level == Level4 || level == Level5
    ensures IsValid(level) ==> Label(level) == "Level " + level
    ensures !IsValid("999") && !IsValid("0")
  {
  }
}
