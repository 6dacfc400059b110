/**
 * The application: five dice, a "Dice" dropdown choosing how many of them
 * to roll, a "Roll Dice" button, a "Quit" button and the total text, and
 * the event loop that dispatches each click. Mouse input is a finite
 * sequence of click points; the random draws come with each click as a
 * vector of five values, of which a roll uses the first N.
 */
module Roller {
  import opened Text
  import opened Geometry
  import opened Buttons
  import opened Die

  const MaxDice: nat := 5
  const DiceOptions: seq<string> := ["1", "2", "3", "4", "5"]
  const DieSize: real := 1.5
  const DropdownCenter: Point := Point(2.5, 9.0)
  const RollBox: Box := BoxAround(Point(5.0, 4.5), 6.0, 1.0)
  const QuitBox: Box := BoxAround(Point(5.0, 1.0), 2.0, 1.0)

  /** Where die `i` is centred: evenly spaced along y = 7. */
  function DiePosition(i: nat): Point {
    Point(1.5 + (i as real) * 1.75, 7.0)
  }

  /** The sum of a sequence of draws, accumulated from the front. */
  function Sum(s: seq<int>): int {
    if |s| == 0 then 0 else Sum(s[..|s| - 1]) + s[|s| - 1]
  }

  /** A vector of draws of `randrange(1, 7)`, one per die slot. */
  predicate DrawsOk(d: seq<int>) {
    |d| == MaxDice && forall i :: 0 <= i < |d| ==> 1 <= d[i] <= 6
  }

  /** What the user can see: the menu, which dice are hidden, their lit pips, and the total text. */
  datatype Screen = Screen(menu: Menu, hidden: seq<bool>, faces: seq<Face>, total: string)

  /** The screen `main` shows before the first click: "Dice: 1", two dice showing 1, and "Total: 0". */
  const StartScreen: Screen := Screen(Menu(false, "1"), HiddenAfterRoll(MaxDice, 2), Ones(MaxDice), "Total: 0")

  predicate WellFormed(s: Screen) {
    s.menu.current in DiceOptions && |s.hidden| == MaxDice && |s.faces| == MaxDice
  }

  /** The number of dice the menu asks for: `int` of one of "1".."5". */
  function DiceCount(m: Menu): (n: nat)
    requires m.current in DiceOptions
    ensures 1 <= n <= MaxDice && m.current == DiceOptions[n - 1]
  {
    DiceOptionValues();
    ParseDecimal(m.current).value
  }

  /** Each dice option reads back as its own position in the list, plus one. */
  lemma DiceOptionValues()
    ensures forall i :: 0 <= i < |DiceOptions| ==> ParseDecimal(DiceOptions[i]) == Some(i + 1)
  {
    forall i | 0 <= i < |DiceOptions|
      ensures ParseDecimal(DiceOptions[i]) == Some(i + 1)
    {
      assert DiceOptions[i] == Decimal(i + 1);
      ParseDecimalOfDecimal(i + 1);
    }
  }

  /** What a roll does: the first N dice show their draws, the rest are hidden with their pips kept, and the total is their sum. */
  function RollSpec(s: Screen, draws: seq<int>): (r: Screen)
    requires WellFormed(s) && |draws| == MaxDice
    ensures WellFormed(r) && r.menu == s.menu
  {
    var n := DiceCount(s.menu);
    Screen(s.menu, HiddenAfterRoll(MaxDice, n), RolledFaces(s.faces, n, draws), "Total: " + IntToText(Sum(draws[..n])))
  }

  /** After a roll of `n` dice: the dice below `n` are shown, the others hidden. */
  function HiddenAfterRoll(count: nat, n: nat): (r: seq<bool>)
    ensures |r| == count
  {
    seq(count, i => i >= n)
  }

  /** After a roll of `n` dice: the dice below `n` show their draws, the others keep their pips. */
  function RolledFaces(faces: seq<Face>, n: nat, draws: seq<int>): (r: seq<Face>)
    requires |draws| == |faces|
    ensures |r| == |faces|
  {
    seq(|faces|, i requires 0 <= i < |faces| => if i < n then FaceOf(Pattern(draws[i])) else faces[i])
  }

  /** The hidden flags of a list of dice. */
  function HiddenFlags(ds: seq<DieView>): (r: seq<bool>)
    reads ds
    ensures |r| == |ds| && forall i :: 0 <= i < |ds| ==> r[i] == ds[i].isHidden
  {
    seq(|ds|, i requires 0 <= i < |ds| reads ds => ds[i].isHidden)
  }

  /** The faces of a list of dice. */
  function LitFaces(ds: seq<DieView>): (r: seq<Face>)
    reads ds
    ensures |r| == |ds| && forall i :: 0 <= i < |ds| ==> r[i] == ds[i].Shown()
  {
    seq(|ds|, i requires 0 <= i < |ds| reads ds => ds[i].Shown())
  }

  /** One die of a roll: die `i` is shown, then set to its draw; the other dice are untouched. */
  method ShowValue(dice: seq<DieView>, i: nat, value: int)
    requires i < |dice|
    requires forall j, k :: 0 <= j < k < |dice| ==> dice[j] != dice[k]
    modifies dice[i]
    ensures HiddenFlags(dice) == old(HiddenFlags(dice))[i := false]
    ensures LitFaces(dice) == old(LitFaces(dice))[i := FaceOf(Pattern(value))]
  {
    ghost var hidden, faces := HiddenFlags(dice), LitFaces(dice);
    dice[i].Show();
    dice[i].SetValue(value);
    ghost var hidden', faces' := HiddenFlags(dice), LitFaces(dice);
    assert hidden' == hidden[i := false] by {
      forall j | 0 <= j < |dice| ensures hidden'[j] == hidden[i := false][j] {
        if j < i { assert dice[j] != dice[i]; } else if j > i { assert dice[i] != dice[j]; }
      }
    }
    assert faces' == faces[i := FaceOf(Pattern(value))] by {
      forall j | 0 <= j < |dice| ensures faces'[j] == faces[i := FaceOf(Pattern(value))][j] {
        if j < i { assert dice[j] != dice[i]; } else if j > i { assert dice[i] != dice[j]; }
      }
    }
  }

  /** One die left out of a roll: die `i` is hidden with its pips kept; the other dice are untouched. */
  method HideAt(dice: seq<DieView>, i: nat)
    requires i < |dice|
    requires forall j, k :: 0 <= j < k < |dice| ==> dice[j] != dice[k]
    modifies dice[i]
    ensures HiddenFlags(dice) == old(HiddenFlags(dice))[i := true]
    ensures LitFaces(dice) == old(LitFaces(dice))
  {
    ghost var hidden, faces := HiddenFlags(dice), LitFaces(dice);
    dice[i].Hide();
    ghost var hidden', faces' := HiddenFlags(dice), LitFaces(dice);
    assert hidden' == hidden[i := true] by {
      forall j | 0 <= j < |dice| ensures hidden'[j] == hidden[i := true][j] {
        if j < i { assert dice[j] != dice[i]; } else if j > i { assert dice[i] != dice[j]; }
      }
    }
    assert faces' == faces by {
      forall j | 0 <= j < |dice| ensures faces'[j] == faces[j] {
        if j < i { assert dice[j] != dice[i]; } else if j > i { assert dice[i] != dice[j]; }
      }
    }
  }

  /**
   * The loop of a roll: each die below `n` is shown and set to its draw and
   * its draw is added to the total; every other die is hidden.
   */
  method RollDice(dice: seq<DieView>, n: nat, draws: seq<int>) returns (total: int)
    requires |draws| == |dice| && n <= |dice|
    requires forall i, j :: 0 <= i < j < |dice| ==> dice[i] != dice[j]
    modifies dice
    ensures HiddenFlags(dice) == HiddenAfterRoll(|dice|, n)
    ensures LitFaces(dice) == RolledFaces(old(LitFaces(dice)), n, draws)
    ensures total == Sum(draws[..n])
  {
    total := 0;
    ghost var hidden, faces := HiddenFlags(dice), LitFaces(dice);
    for i := 0 to |dice|
      invariant total == Sum(draws[..if i < n then i else n])
      invariant HiddenFlags(dice) == HiddenAfterRoll(i, n) + hidden[i..]
      invariant LitFaces(dice) == RolledFaces(faces, if i < n then i else n, draws)
    {
      if i < n {
        var value := draws[i];
        ShowValue(dice, i, value);
        SumStep(draws, i);
        RolledFacesStep(faces, i, draws);
        total := total + value;
      } else {
        HideAt(dice, i);
      }
      HiddenStep(hidden, i, n);
    }
    assert hidden[|dice|..] == [];
  }

  /** One more draw added to the running total. */
  lemma SumStep(s: seq<int>, i: nat)
    requires i < |s|
    ensures Sum(s[..i + 1]) == Sum(s[..i]) + s[i]
  {
    assert s[..i + 1][..i] == s[..i];
  }

  /** One more die rolled: die `i` now shows its draw. */
  lemma RolledFacesStep(faces: seq<Face>, i: nat, draws: seq<int>)
    requires |draws| == |faces| && i < |faces|
    ensures RolledFaces(faces, i, draws)[i := FaceOf(Pattern(draws[i]))] == RolledFaces(faces, i + 1, draws)
  {
  }

  /** One more die dealt with: die `i` is visible exactly when it is below `n`. */
  lemma HiddenStep(hidden: seq<bool>, i: nat, n: nat)
    requires i < |hidden|
    ensures (HiddenAfterRoll(i, n) + hidden[i..])[i := i >= n] == HiddenAfterRoll(i + 1, n) + hidden[i + 1..]
  {
  }

  /** Values drawn from [1, 6] sum to between one and six per die. */
  lemma {:induction false} SumBounds(s: seq<int>)
    requires forall i :: 0 <= i < |s| ==> 1 <= s[i] <= 6
    ensures |s| <= Sum(s) <= 6 * |s|
  {
    if |s| > 0 {
      SumBounds(s[..|s| - 1]);
    }
  }

  /** The sum of the values a sequence of faces shows. */
  function FacesValue(faces: seq<Face>): int {
    if |faces| == 0 then 0 else FacesValue(faces[..|faces| - 1]) + ShownValue(faces[|faces| - 1].Lit())
  }

  /** A die set to a value in [1, 6] shows that value. */
  lemma RolledValueShown(v: int)
    requires 1 <= v <= 6
    ensures ShownValue(FaceOf(Pattern(v)).Lit()) == v
  {
    FaceOfLit(FaceOf(Pattern(v)), Pattern(v));
    ShownValueOfPattern(v);
  }

  /** After a roll of `n` dice, the values the first `n` faces show add up to the sum of the draws. */
  lemma {:induction false} RolledFacesAddUp(faces: seq<Face>, n: nat, draws: seq<int>, k: nat)
    requires |draws| == |faces| && k <= n <= |faces|
    requires forall i :: 0 <= i < |draws| ==> 1 <= draws[i] <= 6
    ensures FacesValue(RolledFaces(faces, n, draws)[..k]) == Sum(draws[..k])
  {
    if k > 0 {
      var rolled := RolledFaces(faces, n, draws);
      RolledFacesAddUp(faces, n, draws, k - 1);
      RolledValueShown(draws[k - 1]);
      assert rolled[..k][..k - 1] == rolled[..k - 1];
      assert draws[..k][..k - 1] == draws[..k - 1];
    }
  }

  /** The dice faces, 1.5 wide and 1.75 apart, never touch, and all lie inside the 10 by 10 window. */
  lemma DiceApartAndInWindow(i: nat, j: nat)
    requires i < j < MaxDice
    ensures Disjoint(BoxAround(DiePosition(i), DieSize, DieSize), BoxAround(DiePosition(j), DieSize, DieSize))
    ensures var b := BoxAround(DiePosition(i), DieSize, DieSize); 0.0 <= b.xmin && b.xmax <= 10.0 && 0.0 <= b.ymin && b.ymax <= 10.0
    ensures var b := BoxAround(DiePosition(j), DieSize, DieSize); 0.0 <= b.xmin && b.xmax <= 10.0 && 0.0 <= b.ymin && b.ymax <= 10.0
  {
  }

  /** No point is both on the quit button and on the roll button. */
  lemma QuitAndRollApart()
    ensures forall p :: !(QuitBox.Contains(p) && RollBox.Contains(p))
  {
    forall p ensures !(QuitBox.Contains(p) && RollBox.Contains(p)) {
      DisjointNoCommonPoint(QuitBox, RollBox, p);
    }
  }

  /** `count` faces showing 1. */
  function Ones(count: nat): (r: seq<Face>)
    ensures |r| == count
  {
    seq(count, _ => FaceOf(Pattern(1)))
  }

  /** The centres of the five dice, computed as `main` does. */
  method DicePositions() returns (positions: seq<Point>)
    ensures |positions| == MaxDice
    ensures forall i :: 0 <= i < MaxDice ==> positions[i] == DiePosition(i)
  {
    positions := [];
    for i := 0 to MaxDice
      invariant |positions| == i
      invariant forall j :: 0 <= j < i ==> positions[j] == DiePosition(j)
    {
      positions := positions + [Point(1.5 + (i as real) * 1.75, 7.0)];
    }
  }

  /** One new die per position, each showing 1; all but the first two are hidden. */
  method MakeDice(positions: seq<Point>) returns (dice: seq<DieView>)
    ensures |dice| == |positions|
    ensures forall i :: 0 <= i < |dice| ==> fresh(dice[i])
    ensures forall i, j :: 0 <= i < j < |dice| ==> dice[i] != dice[j]
    ensures forall i :: 0 <= i < |dice| ==>
              && dice[i].center == positions[i] && dice[i].size == DieSize
              && dice[i].isHidden == (i >= 2) && dice[i].Shown() == FaceOf(Pattern(1))
    ensures HiddenFlags(dice) == HiddenAfterRoll(|positions|, 2) && LitFaces(dice) == Ones(|positions|)
  {
    dice := [];
    for i := 0 to |positions|
      invariant |dice| == i
      invariant forall j :: 0 <= j < i ==> fresh(dice[j])
      invariant forall j, k :: 0 <= j < k < i ==> dice[j] != dice[k]
      invariant forall j :: 0 <= j < i ==>
                  && dice[j].center == positions[j] && dice[j].size == DieSize
                  && dice[j].isHidden == (j >= 2) && dice[j].Shown() == FaceOf(Pattern(1))
    {
      var die := new DieView(positions[i], DieSize);
      if i >= 2 {
        die.Hide();
      }
      dice := dice + [die];
    }
    ghost var hidden, faces := HiddenFlags(dice), LitFaces(dice);
    assert hidden == HiddenAfterRoll(|positions|, 2) by {
      forall j | 0 <= j < |dice| ensures hidden[j] == HiddenAfterRoll(|positions|, 2)[j] { }
    }
    assert faces == Ones(|positions|) by {
      forall j | 0 <= j < |dice| ensures faces[j] == Ones(|positions|)[j] { }
    }
  }

  /** A new button, activated at once, as `main` does with the roll and quit buttons. */
  method NewActiveButton(center: Point, width: real, height: real, caption: string) returns (b: Button)
    ensures fresh(b)
    ensures b.box == BoxAround(center, width, height) && b.text == caption && b.active && b.drawn
  {
    b := new Button(center, width, height, caption);
    b.Activate();
  }

  /** The "Dice" dropdown of `main`, offering "1" to "5" and showing "1". */
  method NewDiceMenu() returns (menu: Dropdown)
    ensures menu.Valid() && fresh(menu.Repr)
    ensures menu.options == DiceOptions && menu.labelText == "Dice"
    ensures menu.center == DropdownCenter && menu.width == 2.0 && menu.height == 0.8
    ensures menu.optionYmin == DropdownCenter.y + 0.8 / 2.0
    ensures menu.View() == Menu(false, "1")
  {
    menu := new Dropdown(DropdownCenter, 2.0, 0.8, DiceOptions, "Dice");
  }

  /** The dropdown and the two buttons of `main`: fresh, separate widgets. */
  method NewControls() returns (menu: Dropdown, roll: Button, quit: Button)
    ensures menu.Valid() && fresh(menu.Repr) && fresh(roll) && fresh(quit)
    ensures menu.options == DiceOptions && menu.labelText == "Dice"
    ensures menu.center == DropdownCenter && menu.width == 2.0 && menu.height == 0.8
    ensures menu.optionYmin == DropdownCenter.y + 0.8 / 2.0
    ensures menu.View() == Menu(false, "1")
    ensures roll !in menu.Repr && quit !in menu.Repr
    ensures roll.box == RollBox && roll.text == "Roll Dice" && roll.active && roll.drawn
    ensures quit.box == QuitBox && quit.text == "Quit" && quit.active && quit.drawn
  {
    menu := NewDiceMenu();
    roll := NewActiveButton(Point(5.0, 4.5), 6.0, 1.0, "Roll Dice");
    quit := NewActiveButton(Point(5.0, 1.0), 2.0, 1.0, "Quit");
  }

  class Roller {
    const dropdown: Dropdown
    const dice: seq<DieView>
    const rollButton: Button
    const quitButton: Button
    var totalText: string

    /** The fixed layout of the window. */
    predicate Layout() {
      && dropdown.options == DiceOptions
      && dropdown.center == DropdownCenter && dropdown.width == 2.0 && dropdown.height == 0.8
      && dropdown.optionYmin == DropdownCenter.y + 0.8 / 2.0
      && rollButton.box == RollBox && quitButton.box == QuitBox
      && |dice| == MaxDice
      && forall i :: 0 <= i < |dice| ==> dice[i].center == DiePosition(i) && dice[i].size == DieSize
    }

    ghost predicate Valid()
      reads this, dropdown, dropdown.Repr, rollButton, quitButton, dice
    {
      && Layout()
      && dropdown.Valid() && dropdown.labelText == "Dice"
      && rollButton.active && rollButton.drawn && rollButton.text == "Roll Dice"
      && quitButton.active && quitButton.drawn && quitButton.text == "Quit"
      && this !in dropdown.Repr && rollButton !in dropdown.Repr && quitButton !in dropdown.Repr
      && (forall i :: 0 <= i < |dice| ==> dice[i] !in dropdown.Repr)
      && (forall i, j :: 0 <= i < j < |dice| ==> dice[i] != dice[j])
    }

    function View(): Screen
      reads this, dropdown, dice
    {
      Screen(dropdown.View(), HiddenFlags(dice), LitFaces(dice), totalText)
    }

    /** What one non-quit click does: a roll when it hits the roll button, then the dropdown's handling of the same point. */
    function Dispatched(s: Screen, p: Point, draws: seq<int>): (r: Screen)
      requires Layout() && WellFormed(s) && |draws| == MaxDice
      ensures WellFormed(r)
    {
      var rolled := if RollBox.Contains(p) then RollSpec(s, draws) else s;
      rolled.(menu := dropdown.Click(rolled.menu, p).0)
    }

    /** One turn of the event loop: a quit click ends it and changes nothing. */
    function Step(s: Screen, p: Point, draws: seq<int>): (r: (Screen, bool))
      requires Layout() && WellFormed(s) && |draws| == MaxDice
      ensures WellFormed(r.0)
    {
      if QuitBox.Contains(p) then (s, true) else (Dispatched(s, p, draws), false)
    }

    /** The event loop over a finite sequence of clicks; the flag says whether it ended on a quit click. */
    function RunSpec(s: Screen, clicks: seq<Point>, draws: seq<seq<int>>): (r: (Screen, bool))
      requires Layout() && WellFormed(s) && |draws| == |clicks|
      requires forall j :: 0 <= j < |draws| ==> DrawsOk(draws[j])
      ensures WellFormed(r.0)
      decreases |clicks|
    {
      if |clicks| == 0 then (s, false)
      else
        assert DrawsOk(draws[0]);
        var (next, quit) := Step(s, clicks[0], draws[0]);
        if quit then (s, true) else RunSpec(next, clicks[1..], draws[1..])
    }

    /**
     * The window as `main` sets it up: a closed "Dice: 1" dropdown, five
     * dice of which the first two are visible, active "Roll Dice" and
     * "Quit" buttons, and the text "Total: 0".
     */
    constructor ()
      ensures Valid()
      ensures fresh(dropdown.Repr) && forall i :: 0 <= i < |dice| ==> fresh(dice[i])
      ensures dropdown.View() == Menu(false, "1") && totalText == "Total: 0"
      ensures HiddenFlags(dice) == HiddenAfterRoll(MaxDice, 2)
      ensures LitFaces(dice) == Ones(MaxDice)
      ensures View() == StartScreen
    {
      // The widgets do not depend on each other, so making the dice first
      // instead of second leaves the same window.
      var positions := DicePositions();
      var ds := MakeDice(positions);
      var menu, roll, quit := NewControls();
      dropdown, dice, rollButton, quitButton := menu, ds, roll, quit;
      totalText := "Total: 0";
      new;
    }

    /** The roll: reads N from the dropdown, rolls the dice, and writes the total. */
    method Roll(draws: seq<int>) returns (total: int)
      requires Valid() && |draws| == MaxDice
      modifies this, dice
      ensures Valid() && View() == RollSpec(old(View()), draws)
      ensures total == Sum(draws[..DiceCount(old(dropdown.View()))])
    {
      DiceOptionValues();
      var numDice := dropdown.GetValue().value;
      ghost var before := View();
      assert numDice == DiceCount(before.menu);
      total := RollDice(dice, numDice, draws);
      totalText := "Total: " + IntToText(total);
    }

    /** The body of the event loop for a click that is not on the quit button. */
    method Dispatch(p: Point, draws: seq<int>)
      requires Valid() && |draws| == MaxDice
      modifies this, dice, dropdown.Repr
      ensures Valid() && fresh(dropdown.Repr - old(dropdown.Repr))
      ensures View() == Dispatched(old(View()), p, draws)
    {
      if rollButton.Clicked(p) {
        var _ := Roll(draws);
      }
      var _ := dropdown.Clicked(p);
    }

    /** The event loop: runs until a click on the quit button or the end of the clicks. */
    method Run(clicks: seq<Point>, draws: seq<seq<int>>) returns (quit: bool)
      requires Valid() && |draws| == |clicks|
      requires forall j :: 0 <= j < |draws| ==> DrawsOk(draws[j])
      modifies this, dice, dropdown.Repr
      ensures Valid() && fresh(dropdown.Repr - old(dropdown.Repr))
      ensures (View(), quit) == RunSpec(old(View()), clicks, draws)
    {
      var i := 0;
      ghost var start := View();
      while i < |clicks| && !quitButton.Clicked(clicks[i])
        invariant 0 <= i <= |clicks|
        invariant Valid()
        invariant RunSpec(start, clicks, draws) == RunSpec(View(), clicks[i..], draws[i..])
        invariant fresh(dropdown.Repr - old(dropdown.Repr))
      {
        ghost var here := View();
        RunSpecStep(here, clicks[i..], draws[i..]);
        assert clicks[i..][1..] == clicks[i + 1..] && draws[i..][1..] == draws[i + 1..];
        Dispatch(clicks[i], draws[i]);
        i := i + 1;
      }
      if i < |clicks| {
        RunSpecStep(View(), clicks[i..], draws[i..]);
      }
      quit := i < |clicks|;
    }

    /** One turn of `RunSpec`: a quit click stops it, any other click is dispatched and the rest follows. */
    lemma RunSpecStep(s: Screen, clicks: seq<Point>, draws: seq<seq<int>>)
      requires Layout() && WellFormed(s) && |draws| == |clicks| > 0
      requires forall j :: 0 <= j < |draws| ==> DrawsOk(draws[j])
      ensures QuitBox.Contains(clicks[0]) ==> RunSpec(s, clicks, draws) == (s, true)
      ensures !QuitBox.Contains(clicks[0]) ==>
                RunSpec(s, clicks, draws) == RunSpec(Dispatched(s, clicks[0], draws[0]), clicks[1..], draws[1..])
    {
      assert DrawsOk(draws[0]);
    }

    /** The roll button lies below the dropdown and below every option it can open, so a roll click never reaches the menu. */
    lemma RollClickMissesDropdown(p: Point)
      requires Layout() && RollBox.Contains(p)
      ensures !dropdown.MainBox().Contains(p)
      ensures forall j :: 0 <= j < |dropdown.options| ==> !dropdown.OptionBox(j).Contains(p)
    {
      forall j | 0 <= j < |dropdown.options|
        ensures !dropdown.OptionBox(j).Contains(p)
      {
        assert dropdown.OptionBox(j).ymin == 9.4 - 0.8 * (j as real) - 0.8;
      }
    }

    /** A quit click ends the loop and changes nothing. */
    lemma QuitClickChangesNothing(s: Screen, p: Point, draws: seq<int>)
      requires Layout() && WellFormed(s) && |draws| == MaxDice
      requires QuitBox.Contains(p)
      ensures Step(s, p, draws) == (s, true)
    {
    }

    /** Clicks after a quit click are never processed. */
    lemma {:induction false} NothingAfterQuit(s: Screen, clicks: seq<Point>, draws: seq<seq<int>>, k: nat)
      requires Layout() && WellFormed(s) && |draws| == |clicks|
      requires forall j :: 0 <= j < |draws| ==> DrawsOk(draws[j])
      requires k < |clicks| && QuitBox.Contains(clicks[k])
      ensures RunSpec(s, clicks, draws) == RunSpec(s, clicks[..k + 1], draws[..k + 1])
      ensures RunSpec(s, clicks, draws).1
      decreases k
    {
      RunSpecStep(s, clicks, draws);
      RunSpecStep(s, clicks[..k + 1], draws[..k + 1]);
      if !QuitBox.Contains(clicks[0]) {
        assert k > 0;
        assert DrawsOk(draws[0]);
        var next := Dispatched(s, clicks[0], draws[0]);
        NothingAfterQuit(next, clicks[1..], draws[1..], k - 1);
        assert clicks[..k + 1][1..] == clicks[1..][..k];
        assert draws[..k + 1][1..] == draws[1..][..k];
      }
    }

    /**
     * A roll click: the dice below the count selected before the click are
     * shown with their draws, the rest are hidden, the total is the sum of
     * the draws and of the values the shown dice display, and the menu is
     * untouched.
     */
    lemma RollClick(s: Screen, p: Point, draws: seq<int>)
      requires Layout() && WellFormed(s) && DrawsOk(draws)
      requires !QuitBox.Contains(p) && RollBox.Contains(p)
      ensures var n, r := DiceCount(s.menu), Step(s, p, draws).0;
              && !Step(s, p, draws).1
              && r.menu == s.menu
              && (forall i :: 0 <= i < MaxDice ==> r.hidden[i] == (i >= n))
              && (forall i :: 0 <= i < n ==> r.faces[i] == FaceOf(Pattern(draws[i])) && ShownValue(r.faces[i].Lit()) == draws[i])
              && (forall i :: n <= i < MaxDice ==> r.faces[i] == s.faces[i])
              && n <= Sum(draws[..n]) <= 6 * n
              && r.total == "Total: " + Decimal(Sum(draws[..n]))
              && FacesValue(r.faces[..n]) == Sum(draws[..n])
    {
      var n := DiceCount(s.menu);
      RollClickMissesDropdown(p);
      assert dropdown.OptionHit(p).None?;
      forall i | 0 <= i < n ensures ShownValue(FaceOf(Pattern(draws[i])).Lit()) == draws[i] {
        RolledValueShown(draws[i]);
      }
      SumBounds(draws[..n]);
      RolledFacesAddUp(s.faces, n, draws, n);
    }

    /** A click off the roll and quit buttons leaves the dice and the total as they were; only the menu may change. */
    lemma OtherClickKeepsDice(s: Screen, p: Point, draws: seq<int>)
      requires Layout() && WellFormed(s) && |draws| == MaxDice
      requires !QuitBox.Contains(p) && !RollBox.Contains(p)
      ensures Step(s, p, draws) == (s.(menu := dropdown.Click(s.menu, p).0), false)
    {
    }

    /** Every click that is not a quit reaches the dropdown, with the menu as it was before the click. */
    lemma DropdownSeesEveryClick(s: Screen, p: Point, draws: seq<int>)
      requires Layout() && WellFormed(s) && |draws| == MaxDice
      requires !QuitBox.Contains(p)
      ensures Step(s, p, draws).0.menu == dropdown.Click(s.menu, p).0
    {
    }

    /** The first click of `PickThreeThenRoll`: on the dropdown, which opens. */
    lemma OpenMenuStep(d: seq<int>)
      requires Layout() && DrawsOk(d)
      ensures Step(StartScreen, DropdownCenter, d) == (StartScreen.(menu := Menu(true, "1")), false)
    {
      ClickMainToggles(dropdown, StartScreen.menu, DropdownCenter);
    }

    /** The second click: on option "3" of the open menu, which is selected. */
    lemma PickThreeStep(d: seq<int>)
      requires Layout() && DrawsOk(d)
      ensures Step(StartScreen.(menu := Menu(true, "1")), Point(2.5, 7.4), d) == (StartScreen.(menu := Menu(false, "3")), false)
    {
      ClickOpenSelectsLowest(dropdown, Menu(true, "1"), Point(2.5, 7.4), 2);
    }

    /** The third click: on the roll button, with "3" selected. */
    lemma RollThreeStep(d: seq<int>)
      requires Layout() && DrawsOk(d)
      ensures Step(StartScreen.(menu := Menu(false, "3")), Point(5.0, 4.5), d)
              == (Screen(Menu(false, "3"), [false, false, false, true, true], RolledFaces(Ones(MaxDice), 3, d),
                         "Total: " + Decimal(d[0] + d[1] + d[2])), false)
    {
      var s, p := StartScreen.(menu := Menu(false, "3")), Point(5.0, 4.5);
      assert DiceCount(s.menu) == 3;
      assert RollBox.Contains(p) && !QuitBox.Contains(p);
      RollClickMissesDropdown(p);
      ClickMissUnchanged(dropdown, s.menu, p);
      assert d[..3][..2] == d[..2] && d[..2][..1] == d[..1] && d[..1][..0] == [];
      assert Sum(d[..1]) == d[0];
      assert Sum(d[..2]) == d[0] + d[1];
      assert Sum(d[..3]) == d[0] + d[1] + d[2];
      assert IntToText(Sum(d[..3])) == Decimal(d[0] + d[1] + d[2]);
      assert HiddenAfterRoll(MaxDice, 3) == [false, false, false, true, true];
      assert RollSpec(s, d) == Screen(Menu(false, "3"), [false, false, false, true, true], RolledFaces(Ones(MaxDice), 3, d),
                                      "Total: " + Decimal(d[0] + d[1] + d[2]));
    }

    /**
     * A whole session: open the menu, pick "3", roll. The first three dice
     * show the draws, the last two are hidden, and the total is their sum.
     */
    lemma PickThreeThenRoll(d: seq<int>)
      requires Layout() && DrawsOk(d)
      ensures RunSpec(StartScreen, [DropdownCenter, Point(2.5, 7.4), Point(5.0, 4.5)], [d, d, d])
              == (Screen(Menu(false, "3"), [false, false, false, true, true], RolledFaces(Ones(MaxDice), 3, d),
                         "Total: " + Decimal(d[0] + d[1] + d[2])), false)
    {
      var clicks, draws := [DropdownCenter, Point(2.5, 7.4), Point(5.0, 4.5)], [d, d, d];
      var menuShown, threePicked := StartScreen.(menu := Menu(true, "1")), StartScreen.(menu := Menu(false, "3"));
      OpenMenuStep(d);
      RunSpecStep(StartScreen, clicks, draws);
      PickThreeStep(d);
      RunSpecStep(menuShown, clicks[1..], draws[1..]);
      RollThreeStep(d);
      RunSpecStep(threePicked, clicks[2..], draws[2..]);
      assert clicks[1..][1..] == clicks[2..] && draws[1..][1..] == draws[2..];
      assert clicks[2..][1..] == [] && draws[2..][1..] == [];
    }
  }

  /** `main` from the window's construction to the end of its loop, over a finite sequence of clicks. */
  method Session(clicks: seq<Point>, draws: seq<seq<int>>) returns (r: Roller, quit: bool)
    requires |draws| == |clicks|
    requires forall j :: 0 <= j < |draws| ==> DrawsOk(draws[j])
    ensures fresh(r) && r.Valid()
    ensures (r.View(), quit) == r.RunSpec(StartScreen, clicks, draws)
  {
    r := new Roller();
    quit := r.Run(clicks, draws);
  }
}
