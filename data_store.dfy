/** `DataStoreManager` (data/DataStoreManager.kt): the problem list saved as
    a JSON array of objects under the single preferences key "problem_list",
    and read back from it.

    JSON text is not modelled. An encoded array is the sequence of its
    elements, an object is the map from its field names to their values,
    and the preferences file is one optional slot that holds the encoded
    array. The field accessors follow Android's bundled org.json:
    `getString` renders any present value as text, `getBoolean` accepts a
    boolean or the text "true"/"false" in any letter case, and
    `optString(name, fallback)` falls back only when the field is absent. */
module DataStore {
  import opened Wrappers
  import opened Problems

  /** A field value as org.json holds it after parsing. `JOther` stands for a
      number, an array or a nested object, by the text `String.valueOf`
      gives it. */
  datatype Value =
    | JString(s: string)
    | JBool(b: bool)
    | JNull
    | JOther(text: string)

  type Fields = map<string, Value>

  /** An element of the encoded array: an object, or anything else. */
  datatype Element = Object(fields: Fields) | NonObject(v: Value)

  type EncodedArray = seq<Element>

  const TitleKey: string := "title"
  const SolvedKey: string := "isSolved"
  const DifficultyKey: string := "difficulty"

  /** The exception the read path throws, with the index of the offending
      element. */
  datatype LoadError =
    | NotAnObject(index: nat)                         // getJSONObject(i)
    | MissingField(index: nat, key: string)           // getString / getBoolean: "No value for key"
    | NotABoolean(index: nat, value: Value)           // getBoolean on anything else
    | UnknownDifficulty(index: nat, name: string)     // Difficulty.valueOf

  // ---------------------------------------------------------------------
  // Save (lines 21-34)
  // ---------------------------------------------------------------------

  /** The object `saveProblems` builds for one record. */
  function EncodeProblem(p: Problem): (e: Element)
    ensures e.Object? && e.fields.Keys == {TitleKey, SolvedKey, DifficultyKey}
    ensures e.fields[TitleKey] == JString(p.title)
    ensures e.fields[SolvedKey] == JBool(p.isSolved)
    ensures e.fields[DifficultyKey] == JString(Name(p.difficulty))
  {
    Object(map[TitleKey := JString(p.title),
               SolvedKey := JBool(p.isSolved),
               DifficultyKey := JString(Name(p.difficulty))])
  }

  /** The whole array: exactly one object per record, in list order, holding
      exactly the fields title, isSolved and difficulty (the enum name). */
  function Encoded(ps: seq<Problem>): (arr: EncodedArray)
    ensures |arr| == |ps|
    ensures forall i :: 0 <= i < |ps| ==> arr[i] == EncodeProblem(ps[i])
  {
    seq(|ps|, i requires 0 <= i < |ps| => EncodeProblem(ps[i]))
  }

  /** The `forEach { jsonArray.put(obj) }` loop: appends one object per
      record to an initially empty array. */
  method BuildArray(problems: seq<Problem>) returns (arr: EncodedArray)
    ensures arr == Encoded(problems)
  {
    arr := [];
    for i := 0 to |problems|
      invariant arr == Encoded(problems[..i])
    {
      arr := arr + [EncodeProblem(problems[i])];
      assert problems[..i + 1][..i] == problems[..i];
    }
    assert problems[..|problems|] == problems;
  }

  // ---------------------------------------------------------------------
  // Load (lines 36-47)
  // ---------------------------------------------------------------------

  /** `JSON.toString(value)`: the text `getString` and `optString` hand back
      for a present field. */
  function AsText(v: Value): (s: string)
    ensures v.JString? ==> s == v.s
    ensures v.JBool? ==> AsBoolean(JString(s)) == Some(v.b)
    ensures v.JNull? ==> ValueOf(s).None? && AsBoolean(JString(s)).None?
  {
    match v
    case JString(s) => s
    case JBool(b) => if b then "true" else "false"
    case JNull => "null"
    case JOther(t) => t
  }

  /** ASCII letter case folding, as `equalsIgnoreCase` applies it to the
      letters of "true" and "false". */
  function LowerAscii(c: char): char
  {
    if 'A' <= c <= 'Z' then (c as int + 32) as char else c
  }

  predicate EqualsIgnoreCase(s: string, t: string)
  {
    |s| == |t| && forall i :: 0 <= i < |s| ==> LowerAscii(s[i]) == LowerAscii(t[i])
  }

  /** `JSON.toBoolean(value)`: a boolean, or text that reads "true" or
      "false" ignoring letter case; `None` for anything else. */
  function AsBoolean(v: Value): (r: Option<bool>)
    ensures v.JBool? ==> r == Some(v.b)
    ensures v.JString? && v.s == "true" ==> r == Some(true)
    ensures v.JString? && v.s == "false" ==> r == Some(false)
    ensures (v.JNull? || v.JOther?) ==> r == None
    ensures r.Some? <==> v.JBool? || (v.JString? && (EqualsIgnoreCase(v.s, "true") || EqualsIgnoreCase(v.s, "false")))
    ensures r == Some(true) <==> v == JBool(true) || (v.JString? && EqualsIgnoreCase(v.s, "true"))
    ensures r == Some(false) <==> v == JBool(false) || (v.JString? && EqualsIgnoreCase(v.s, "false"))
  {
    match v
    case JBool(b) => Some(b)
    case JString(s) =>
      if EqualsIgnoreCase(s, "true") then Some(true)
      else if EqualsIgnoreCase(s, "false") then Some(false)
      else None
    case _ => None
  }

  /** `optString(key, fallback)`: the field's text, or `fallback` when the
      field is absent. */
  function OptString(fields: Fields, key: string, fallback: string): (s: string)
    ensures key !in fields ==> s == fallback
    ensures key in fields ==> s == AsText(fields[key])
  {
    if key in fields then AsText(fields[key]) else fallback
  }

  /** The body of `List(n) { i -> ... }` for element i: `getJSONObject(i)`,
      then the named arguments of `Problem(...)` in the order written:
      `getString("title")`, `getBoolean("isSolved")`,
      `Difficulty.valueOf(optString("difficulty", "EASY"))`. The first that
      throws decides the error. */
  function DecodeProblem(e: Element, i: nat): (r: Result<Problem, LoadError>)
    ensures r.Ok? <==>
              && e.Object?
              && TitleKey in e.fields
              && SolvedKey in e.fields
              && AsBoolean(e.fields[SolvedKey]).Some?
              && (DifficultyKey in e.fields ==> AsText(e.fields[DifficultyKey]) in DifficultyNames)
    ensures r.Ok? ==>
              && r.value.title == AsText(e.fields[TitleKey])
              && Some(r.value.isSolved) == AsBoolean(e.fields[SolvedKey])
              && (DifficultyKey !in e.fields ==> r.value.difficulty == Easy)
              && (DifficultyKey in e.fields ==> Name(r.value.difficulty) == AsText(e.fields[DifficultyKey]))
  {
    if !e.Object? then Err(NotAnObject(i))
    else
      var fields := e.fields;
      if TitleKey !in fields then Err(MissingField(i, TitleKey))
      else
        var title := AsText(fields[TitleKey]);
        if SolvedKey !in fields then Err(MissingField(i, SolvedKey))
        else
          match AsBoolean(fields[SolvedKey])
          case None => Err(NotABoolean(i, fields[SolvedKey]))
          case Some(isSolved) =>
            var name := OptString(fields, DifficultyKey, "EASY");
            match ValueOf(name)
            case None => Err(UnknownDifficulty(i, name))
            case Some(d) => Ok(Problem(title, isSolved, d))
  }

  /** Decodes elements `i..` in index order; the first element that fails
      ends the load with its error. */
  function DecodeFrom(arr: EncodedArray, i: nat): (r: Result<seq<Problem>, LoadError>)
    requires i <= |arr|
    decreases |arr| - i
    ensures r.Ok? <==> forall k :: i <= k < |arr| ==> DecodeProblem(arr[k], k).Ok?
    ensures r.Ok? ==> |r.value| == |arr| - i
    ensures r.Ok? ==> forall k :: i <= k < |arr| ==> DecodeProblem(arr[k], k) == Ok(r.value[k - i])
    ensures r.Err? ==> exists k :: i <= k < |arr| && FirstFailure(arr, i, k) && DecodeProblem(arr[k], k) == Err(r.error)
  {
    if i == |arr| then Ok([])
    else
      match DecodeProblem(arr[i], i)
      case Err(e) =>
        assert FirstFailure(arr, i, i);
        Err(e)
      case Ok(p) =>
        match DecodeFrom(arr, i + 1)
        case Err(e) =>
          var k :| i + 1 <= k < |arr| && FirstFailure(arr, i + 1, k) && DecodeProblem(arr[k], k) == Err(e);
          assert FirstFailure(arr, i, k);
          Err(e)
        case Ok(rest) => Ok([p] + rest)
  }

  /** Element k is the first from i on that fails to decode. */
  predicate FirstFailure(arr: EncodedArray, i: nat, k: nat)
    requires i <= k < |arr|
  {
    DecodeProblem(arr[k], k).Err? && forall j :: i <= j < k ==> DecodeProblem(arr[j], j).Ok?
  }

  /** `problemsFlow`'s mapping: an absent key reads as "[]", the empty list;
      otherwise element i of the list is decoded from object i. */
  function Load(slot: Option<EncodedArray>): (r: Result<seq<Problem>, LoadError>)
    ensures slot.None? ==> r == Ok([])
    ensures slot.Some? && r.Ok? ==> |r.value| == |slot.value|
  {
    DecodeFrom(if slot.None? then [] else slot.value, 0)
  }

  /** One saved record decodes back to itself. */
  lemma DecodeEncoded(p: Problem, i: nat)
    ensures DecodeProblem(EncodeProblem(p), i) == Ok(p)
  {
    assert ValueOf(Name(p.difficulty)) == Some(p.difficulty);
  }

  /** Saving a list and loading it back gives the same list, record by
      record and in the same order. */
  lemma SaveLoadRoundTrip(ps: seq<Problem>)
    ensures Load(Some(Encoded(ps))) == Ok(ps)
  {
    var arr := Encoded(ps);
    forall k | 0 <= k < |arr| ensures DecodeProblem(arr[k], k) == Ok(ps[k]) {
      assert arr[k] == EncodeProblem(ps[k]);
      DecodeEncoded(ps[k], k);
    }
    var r := DecodeFrom(arr, 0);
    assert r.Ok?;
    assert r.value == ps by {
      forall k | 0 <= k < |ps| ensures r.value[k] == ps[k] {
        assert DecodeProblem(arr[k], k) == Ok(r.value[k]);
      }
    }
  }

  /** A record saved without a difficulty (by an older version, say) loads
      as EASY. */
  lemma MissingDifficultyIsEasy(title: string, isSolved: bool, i: nat)
    ensures DecodeProblem(Object(map[TitleKey := JString(title), SolvedKey := JBool(isSolved)]), i)
         == Ok(Problem(title, isSolved, Easy))
  {
  }

  /** A difficulty that is not exactly EASY, MEDIUM or HARD is an error,
      not a default (`valueOf` is case-sensitive). */
  lemma UnknownDifficultyFails(fields: Fields, i: nat)
    requires TitleKey in fields && SolvedKey in fields && AsBoolean(fields[SolvedKey]).Some?
    requires DifficultyKey in fields && AsText(fields[DifficultyKey]) !in DifficultyNames
    ensures DecodeProblem(Object(fields), i) == Err(UnknownDifficulty(i, AsText(fields[DifficultyKey])))
  {
  }

  /** A missing title or a missing isSolved is an error. */
  lemma MissingFieldFails(fields: Fields, i: nat)
    requires TitleKey !in fields || SolvedKey !in fields
    ensures DecodeProblem(Object(fields), i)
         == Err(MissingField(i, if TitleKey !in fields then TitleKey else SolvedKey))
  {
  }

  // ---------------------------------------------------------------------
  // The preferences file
  // ---------------------------------------------------------------------

  /** The "problem_store" preferences file, which the app uses for the one
      key "problem_list". */
  class ProblemStore {
    var problemList: Option<EncodedArray>

    /** A fresh install: the key is absent. */
    constructor ()
      ensures problemList == None
    {
      problemList := None;
    }

    /** The list `problemsFlow` currently emits. */
    function Problems(): (r: Result<seq<Problem>, LoadError>)
      reads this
      ensures problemList.None? ==> r == Ok([])
      ensures r.Ok? ==> problemList.Some? ==> |r.value| == |problemList.value|
    {
      Load(problemList)
    }

    /** `saveProblems`: builds the whole array and overwrites the key with
        it; the next load returns exactly the saved list. */
    method SaveProblems(problems: seq<Problem>)
      modifies this
      ensures problemList == Some(Encoded(problems))
      ensures Problems() == Ok(problems)
    {
      var arr := BuildArray(problems);
      problemList := Some(arr);
      SaveLoadRoundTrip(problems);
    }
  }
}
