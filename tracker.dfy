/** The tracker screen, `LcTrackerApp` in ui/theme/LcTrackerApp.kt: the list
    operations its event handlers apply (filter, toggle, add) as functions,
    and the screen's state variables as a class with one method per
    event. */
module Tracker {
  import opened Wrappers
  import opened Problems
  import opened Dashboard
  import opened DataStore

  // ---------------------------------------------------------------------
  // Filtering (lines 63-65)
  // ---------------------------------------------------------------------

  /** `r` is `s` with some elements left out, in their original order. */
  predicate IsSubsequence(r: seq<Problem>, s: seq<Problem>)
    decreases |s|
  {
    if r == [] then true
    else if s == [] then false
    else if r[0] == s[0] then IsSubsequence(r[1..], s[1..])
    else IsSubsequence(r, s[1..])
  }

  /** `problems.filter { p -> p.difficulty == d }` */
  function OfTier(ps: seq<Problem>, d: Difficulty): (r: seq<Problem>)
    ensures |r| == TierTotal(ps, d)
    ensures forall i :: 0 <= i < |r| ==> r[i].difficulty == d
    ensures IsSubsequence(r, ps)
  {
    if ps == [] then []
    else if ps[0].difficulty == d then [ps[0]] + OfTier(ps[1..], d)
    else
      var rest := OfTier(ps[1..], d);
      assert rest != [] ==> rest[0] != ps[0];
      rest
  }

  /** The list shown: everything when no tier is selected, otherwise the
      records of the selected tier. */
  function Filtered(ps: seq<Problem>, selected: Option<Difficulty>): (r: seq<Problem>)
    ensures selected.None? ==> r == ps
    ensures selected.Some? ==>
              && IsSubsequence(r, ps)
              && (forall i :: 0 <= i < |r| ==> r[i].difficulty == selected.value)
              && |r| == TierTotal(ps, selected.value)
  {
    match selected
    case None => ps
    case Some(d) => OfTier(ps, d)
  }

  /** A subsequence whose records all have tier `d` has at most as many
      records as the tier. */
  lemma {:induction false} TierSubsequenceBound(r: seq<Problem>, ps: seq<Problem>, d: Difficulty)
    requires IsSubsequence(r, ps)
    requires forall i :: 0 <= i < |r| ==> r[i].difficulty == d
    decreases |ps|
    ensures |r| <= TierTotal(ps, d)
  {
    if r != [] {
      assert ps != [];
      if r[0] == ps[0] {
        TierSubsequenceBound(r[1..], ps[1..], d);
      } else {
        TierSubsequenceBound(r, ps[1..], d);
      }
    }
  }

  /** The filtered list is the only one with those three properties: a
      subsequence of the list, all of the tier, as long as the tier. So it
      holds exactly the tier's records, in their original order. */
  lemma {:induction false} FilterExact(r: seq<Problem>, ps: seq<Problem>, d: Difficulty)
    requires IsSubsequence(r, ps)
    requires forall i :: 0 <= i < |r| ==> r[i].difficulty == d
    requires |r| == TierTotal(ps, d)
    decreases |ps|
    ensures r == Filtered(ps, Some(d))
  {
    if ps == [] {
    } else if r == [] {
      assert TierTotal(ps, d) == 0;
      assert OfTier(ps, d) == [];
    } else if r[0] == ps[0] {
      assert r[0].difficulty == d;
      FilterExact(r[1..], ps[1..], d);
      assert r == [r[0]] + r[1..];
    } else {
      if ps[0].difficulty == d {
        TierSubsequenceBound(r, ps[1..], d);
        assert false;
      }
      FilterExact(r, ps[1..], d);
    }
  }

  // ---------------------------------------------------------------------
  // Toggling by title (lines 103-107)
  // ---------------------------------------------------------------------

  /** `problems.map { if (it.title == title) it.copy(isSolved = !it.isSolved) else it }`:
      same length, same titles and tiers; the solved flag flips on exactly
      the records with that title, duplicates included. */
  function Toggled(ps: seq<Problem>, title: string): (r: seq<Problem>)
    ensures |r| == |ps|
    ensures forall i :: 0 <= i < |ps| ==>
              && r[i].title == ps[i].title
              && r[i].difficulty == ps[i].difficulty
              && (r[i].isSolved <==> (ps[i].isSolved != (ps[i].title == title)))
  {
    if ps == [] then []
    else
      var p := ps[0];
      [if p.title == title then p.(isSolved := !p.isSolved) else p] + Toggled(ps[1..], title)
  }

  /** Toggling the same title twice gives back the original list. */
  lemma {:induction false} ToggleTwice(ps: seq<Problem>, title: string)
    ensures Toggled(Toggled(ps, title), title) == ps
  {
    var r := Toggled(Toggled(ps, title), title);
    forall i | 0 <= i < |ps| ensures r[i] == ps[i] {
    }
  }

  /** Toggling a title that no record carries changes nothing. */
  lemma ToggleAbsent(ps: seq<Problem>, title: string)
    requires forall i :: 0 <= i < |ps| ==> ps[i].title != title
    ensures Toggled(ps, title) == ps
  {
    var r := Toggled(ps, title);
    forall i | 0 <= i < |ps| ensures r[i] == ps[i] {
    }
  }

  /** Toggling never moves a record between tiers: every tier total, and so
      the dashboard's tier chips' denominators, stay the same. */
  lemma {:induction false} ToggleKeepsTierTotals(ps: seq<Problem>, title: string, d: Difficulty)
    ensures TierTotal(Toggled(ps, title), d) == TierTotal(ps, d)
  {
    if ps != [] {
      ToggleKeepsTierTotals(ps[1..], title, d);
      assert Toggled(ps, title)[1..] == Toggled(ps[1..], title);
    }
  }

  // ---------------------------------------------------------------------
  // The filter chips (lines 88-94)
  // ---------------------------------------------------------------------

  /** `selected = selectedDifficulty?.name == diff.name`: a chip shows as
      selected exactly when its tier is the selected one (enum names are
      distinct). */
  function ChipSelected(selected: Option<Difficulty>, chip: Difficulty): (b: bool)
    ensures b <==> selected == Some(chip)
  {
    assert forall d :: ValueOf(Name(d)) == Some(d);
    selected.Some? && Name(selected.value) == Name(chip)
  }

  /** `if (selectedDifficulty == diff) null else diff`: clicking the selected
      chip clears the filter; clicking any other selects its tier. After the
      click, the clicked chip shows selected exactly when it did not before,
      and no other chip does. */
  function NextSelection(current: Option<Difficulty>, clicked: Difficulty): (next: Option<Difficulty>)
    ensures next.None? <==> current == Some(clicked)
    ensures forall chip :: ChipSelected(next, chip) <==> chip == clicked && !ChipSelected(current, clicked)
  {
    if current == Some(clicked) then None else Some(clicked)
  }

  // ---------------------------------------------------------------------
  // Blank titles (line 124)
  // ---------------------------------------------------------------------

  /** Kotlin's `Char.isWhitespace()` on the JVM: `Character.isWhitespace` or
      `Character.isSpaceChar` - the controls U+0009..U+000D and
      U+001C..U+001F, and the Unicode space, line and paragraph
      separators. */
  predicate IsWhitespace(c: char)
    ensures IsWhitespace(c) ==> c <= '\U{3000}' && !('0' <= c <= '9') && !('A' <= c <= 'Z') && !('a' <= c <= 'z')
    ensures c == ' ' || c == '\t' || c == '\n' || c == '\r' || c == '\U{00A0}' || c == '\U{3000}' ==> IsWhitespace(c)
  {
    || '\t' <= c <= '\r'
    || '\U{001C}' <= c <= '\U{001F}'
    || c == ' ' || c == '\U{00A0}' || c == '\U{1680}'
    || '\U{2000}' <= c <= '\U{200A}'
    || c == '\U{2028}' || c == '\U{2029}' || c == '\U{202F}' || c == '\U{205F}' || c == '\U{3000}'
  }

  /** `isBlank()`: empty, or whitespace only. */
  predicate IsBlank(s: string)
    ensures s == [] ==> IsBlank(s)
    ensures !IsBlank(s) <==> exists i :: 0 <= i < |s| && !IsWhitespace(s[i])
  {
    forall i :: 0 <= i < |s| ==> IsWhitespace(s[i])
  }

  /** Whitespace around a title does not make it blank: a text is blank
      exactly when both of its parts are. */
  lemma BlankConcat(a: string, b: string)
    ensures IsBlank(a + b) <==> IsBlank(a) && IsBlank(b)
  {
    if IsBlank(a + b) {
      forall i | 0 <= i < |a| ensures IsWhitespace(a[i]) {
        assert a[i] == (a + b)[i];
      }
      forall i | 0 <= i < |b| ensures IsWhitespace(b[i]) {
        assert b[i] == (a + b)[|a| + i];
      }
    }
  }

  // ---------------------------------------------------------------------
  // The screen
  // ---------------------------------------------------------------------

  /** The add-problem dialog's three state variables. */
  datatype Dialog = Dialog(open: bool, title: string, difficulty: Difficulty)

  /** The dialog as dismiss, cancel and a successful add leave it. */
  const ClosedDialog: Dialog := Dialog(false, "", Easy)

  /** The `remember { mutableStateOf(...) }` variables of `LcTrackerApp`
      (lines 44-51) and the store it saves to. A save launched by a handler
      is modelled as completing before the next event. */
  class Screen {
    const store: ProblemStore
    var problems: seq<Problem>
    var showDialog: bool
    var newProblemTitle: string
    var newProblemDifficulty: Difficulty
    var selectedDifficulty: Option<Difficulty>

    function DialogState(): Dialog
      reads this
    {
      Dialog(showDialog, newProblemTitle, newProblemDifficulty)
    }

    /** First composition: an empty list, the dialog closed and empty, no
        filter. */
    constructor (store: ProblemStore)
      ensures this.store == store
      ensures problems == [] && DialogState() == ClosedDialog && selectedDifficulty == None
    {
      this.store := store;
      problems := [];
      showDialog := false;
      newProblemTitle := "";
      newProblemDifficulty := Easy;
      selectedDifficulty := None;
    }

    /** `filteredProblems`, the list the `LazyColumn` shows. */
    function FilteredProblems(): (r: seq<Problem>)
      reads this
      ensures selectedDifficulty.None? ==> r == problems
      ensures selectedDifficulty.Some? ==> r == OfTier(problems, selectedDifficulty.value)
    {
      Filtered(problems, selectedDifficulty)
    }

    /** The dashboard and the chips are composed only for a non-empty list
        (line 82). */
    predicate ShowsDashboard()
      reads this
    {
      problems != []
    }

    /** Whenever the animated dashboard is shown, it reads the same numbers
        over the same arcs as `LeetcodeDashboard` would. */
    lemma ShownDashboardMatches()
      requires ShowsDashboard()
      ensures AnimatedReadout(problems) == DashboardReadout(problems)
      ensures LaidEndToEnd(RingOrigin, AnimatedTargets(problems)) == DashboardArcs(problems)
    {
      DashboardsAgree(problems);
    }

    /** One emission of `problemsFlow` collected (lines 55-57): a list that
        loads replaces `problems`; a load that throws leaves it as it was. */
    method Collect()
      modifies this
      ensures problems == (if store.Problems().Ok? then store.Problems().value else old(problems))
      ensures DialogState() == old(DialogState()) && selectedDifficulty == old(selectedDifficulty)
    {
      var loaded := store.Problems();
      if loaded.Ok? {
        problems := loaded.value;
      }
    }

    /** The floating action button (line 69). */
    method OpenDialog()
      modifies this
      ensures DialogState() == old(DialogState()).(open := true)
      ensures problems == old(problems) && selectedDifficulty == old(selectedDifficulty)
    {
      showDialog := true;
    }

    /** The title field's `onValueChange` (line 152). */
    method EditTitle(text: string)
      modifies this
      ensures DialogState() == old(DialogState()).(title := text)
      ensures problems == old(problems) && selectedDifficulty == old(selectedDifficulty)
    {
      newProblemTitle := text;
    }

    /** A difficulty row or its radio button (lines 163, 168). */
    method ChooseDifficulty(d: Difficulty)
      modifies this
      ensures DialogState() == old(DialogState()).(difficulty := d)
      ensures problems == old(problems) && selectedDifficulty == old(selectedDifficulty)
    {
      newProblemDifficulty := d;
    }

    /** A filter chip's `onClick` (line 91). */
    method ClickChip(diff: Difficulty)
      modifies this
      ensures selectedDifficulty == NextSelection(old(selectedDifficulty), diff)
      ensures problems == old(problems) && DialogState() == old(DialogState())
    {
      selectedDifficulty := if selectedDifficulty == Some(diff) then None else Some(diff);
    }

    /** A problem card's click (lines 102-111): flips `isSolved` on every
        record with the clicked title, then saves the whole list. */
    method ToggleSolved(title: string)
      modifies this, store
      ensures problems == Toggled(old(problems), title)
      ensures store.Problems() == Ok(problems)
      ensures DialogState() == old(DialogState()) && selectedDifficulty == old(selectedDifficulty)
    {
      problems := Toggled(problems, title);
      store.SaveProblems(problems);
    }

    /** The dialog's Add button (lines 123-133). A blank title does nothing
        at all. Otherwise the new unsolved record is appended, the list is
        saved, and the dialog is reset and closed. */
    method ConfirmAdd()
      modifies this, store
      ensures IsBlank(old(newProblemTitle)) ==> unchanged(this) && unchanged(store)
      ensures !IsBlank(old(newProblemTitle)) ==>
                && problems == old(problems) + [Problem(old(newProblemTitle), false, old(newProblemDifficulty))]
                && store.Problems() == Ok(problems)
                && DialogState() == ClosedDialog
      ensures selectedDifficulty == old(selectedDifficulty)
    {
      if !IsBlank(newProblemTitle) {
        problems, newProblemTitle, newProblemDifficulty, showDialog :=
          problems + [Problem(newProblemTitle, false, newProblemDifficulty)], "", Easy, false;
        store.SaveProblems(problems);
      }
    }

    /** `onDismissRequest` (lines 117-121): resets and closes the dialog,
        leaving the list alone. */
    method Dismiss()
      modifies this
      ensures DialogState() == ClosedDialog
      ensures problems == old(problems) && selectedDifficulty == old(selectedDifficulty)
    {
      showDialog := false;
      newProblemTitle := "";
      newProblemDifficulty := Easy;
    }

    /** The Cancel button (lines 139-143): the same resets as dismissing. */
    method Cancel()
      modifies this
      ensures DialogState() == ClosedDialog
      ensures problems == old(problems) && selectedDifficulty == old(selectedDifficulty)
    {
      showDialog := false;
      newProblemTitle := "";
      newProblemDifficulty := Easy;
    }
  }

  /** A user adding one problem through the dialog: open it, type the
      title, pick the tier, press Add. */
  method AddThroughDialog(screen: Screen, title: string, d: Difficulty)
    requires !IsBlank(title)
    modifies screen, screen.store
    ensures screen.problems == old(screen.problems) + [Problem(title, false, d)]
    ensures screen.store.Problems() == Ok(screen.problems)
    ensures screen.DialogState() == ClosedDialog
    ensures screen.selectedDifficulty == old(screen.selectedDifficulty)
  {
    screen.OpenDialog();
    screen.EditTitle(title);
    screen.ChooseDifficulty(d);
    assert !IsBlank(screen.newProblemTitle);
    screen.ConfirmAdd();
  }

  /** A session on a fresh install: add "Two Sum" (EASY) and "LRU Cache"
      (HARD), then mark "Two Sum" solved. The store then holds the same two
      records, and the dashboard reads 1 solved and 1 attempting out of 2,
      with EASY at 1/1 and HARD at 0/1. */
  method TwoProblemSession() returns (saved: Result<seq<Problem>, LoadError>, st: Stats)
    ensures saved == Ok([Problem("Two Sum", true, Easy), Problem("LRU Cache", false, Hard)])
    ensures st == Stats(2, 1, 1, 1, 1, 0, 0, 0, 1)
  {
    var store := new ProblemStore();
    var screen := new Screen(store);
    TitlesNotBlank();
    AddThroughDialog(screen, "Two Sum", Easy);
    AddThroughDialog(screen, "LRU Cache", Hard);
    var added := screen.problems;
    assert added == [Problem("Two Sum", false, Easy), Problem("LRU Cache", false, Hard)];
    screen.ToggleSolved("Two Sum");
    var final := [Problem("Two Sum", true, Easy), Problem("LRU Cache", false, Hard)];
    SessionToggle(added);
    saved := store.Problems();
    st := DashboardStats(final);
    SessionStats(final);
  }

  lemma SessionToggle(ps: seq<Problem>)
    requires ps == [Problem("Two Sum", false, Easy), Problem("LRU Cache", false, Hard)]
    ensures Toggled(ps, "Two Sum") == [Problem("Two Sum", true, Easy), Problem("LRU Cache", false, Hard)]
  {
    var r := Toggled(ps, "Two Sum");
    assert "LRU Cache" != "Two Sum";
    assert r[0] == Problem("Two Sum", true, Easy) && r[1] == Problem("LRU Cache", false, Hard);
  }

  lemma TitlesNotBlank()
    ensures !IsBlank("Two Sum") && !IsBlank("LRU Cache")
  {
    assert !IsWhitespace("Two Sum"[0]) && !IsWhitespace("LRU Cache"[0]);
  }

  lemma SessionStats(ps: seq<Problem>)
    requires ps == [Problem("Two Sum", true, Easy), Problem("LRU Cache", false, Hard)]
    ensures DashboardStats(ps) == Stats(2, 1, 1, 1, 1, 0, 0, 0, 1)
  {
    assert ps[1..] == [ps[1]] && [ps[1]][1..] == [];
    assert SolvedCount(ps) == 1 && AttemptingCount(ps) == 1;
    assert TierSolved(ps, Easy) == 1 && TierTotal(ps, Easy) == 1;
    assert TierSolved(ps, Medium) == 0 && TierTotal(ps, Medium) == 0;
    assert TierSolved(ps, Hard) == 0 && TierTotal(ps, Hard) == 1;
  }
}
