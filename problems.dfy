/** The problem record and its difficulty tier, as declared at the top of
    LcTrackerApp.kt. */
module Problems {
  import opened Wrappers

  /** `enum class Difficulty { EASY, MEDIUM, HARD }` */
  datatype Difficulty = Easy | Medium | Hard

  /** `data class Problem(title, isSolved, difficulty)`; the record is a value:
      every change in the app goes through `copy` or a new list. */
  datatype Problem = Problem(title: string, isSolved: bool, difficulty: Difficulty)

  /** The names `Difficulty.values()` lists, in declaration order. */
  const DifficultyNames: seq<string> := ["EASY", "MEDIUM", "HARD"]

  /** The enum constant's `name`. */
  function Name(d: Difficulty): (s: string)
    ensures s in DifficultyNames
    ensures s == DifficultyNames[0] <==> d == Easy
    ensures s == DifficultyNames[1] <==> d == Medium
    ensures s == DifficultyNames[2] <==> d == Hard
  {
    match d
    case Easy => "EASY"
    case Medium => "MEDIUM"
    case Hard => "HARD"
  }

  /** `Difficulty.valueOf(s)`: an exact, case-sensitive match on a constant's
      name; any other string throws, which is `None` here. */
  function ValueOf(s: string): (r: Option<Difficulty>)
    ensures r.Some? <==> s in DifficultyNames
    ensures forall d :: r == Some(d) <==> s == Name(d)
  {
    if s == "EASY" then Some(Easy)
    else if s == "MEDIUM" then Some(Medium)
    else if s == "HARD" then Some(Hard)
    else None
  }
}
