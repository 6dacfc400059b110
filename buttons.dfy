/**
 * The click widgets: a rectangular `Button` with an active flag, and a
 * `Dropdown` made of a main button and a list of option buttons that exists
 * only while the menu is open. Drawing is reduced to a `drawn` flag per
 * button (its rectangle and label are drawn and undrawn together) and the
 * visual style of the active state to the `active` flag itself.
 */
module Buttons {
  import opened Text
  import opened Geometry

  /** The text of a dropdown's main button: f"{label}: {option}". */
  function Caption(name: string, option: string): (s: string)
    ensures |s| == |name| + 2 + |option|
    ensures s[..|name|] == name && s[|name|..|name| + 2] == ": " && s[|name| + 2..] == option
  {
    name + ": " + option
  }

  class Button {
    /** The bounding box, fixed when the button is made. */
    const box: Box
    var text: string
    var active: bool
    var drawn: bool

    /** A button centred at `center`, drawn, and inactive. */
    constructor (center: Point, width: real, height: real, caption: string)
      ensures box == BoxAround(center, width, height)
      ensures text == caption && !active && drawn
    {
      box := BoxAround(center, width, height);
      text := caption;
      drawn := true;
      active := false;
    }

    /** True iff the button is active and `p` lies in its box, edges included. */
    predicate Clicked(p: Point): (hit: bool)
      reads this
      ensures hit ==> active
      ensures hit <==> active && Abs(p.x - (box.xmin + box.xmax) / 2.0) <= (box.xmax - box.xmin) / 2.0
                              && Abs(p.y - (box.ymin + box.ymax) / 2.0) <= (box.ymax - box.ymin) / 2.0
    {
      active && box.Contains(p)
    }

    method Activate()
      modifies this`active
      ensures active
    {
      active := true;
    }

    method Deactivate()
      modifies this`active
      ensures !active
    {
      active := false;
    }

    /** Removes the rectangle and the label from the window. */
    method Undraw()
      modifies this`drawn
      ensures !drawn
    {
      drawn := false;
    }
  }

  /** An inactive button is never clicked, wherever the point is. */
  lemma InactiveNeverClicked(b: Button, p: Point)
    requires !b.active
    ensures !b.Clicked(p)
  {
  }

  /** A button made from a centre, a width and a height is clicked exactly within half its extents of the centre. */
  lemma ClickedNearCentre(b: Button, center: Point, width: real, height: real, p: Point)
    requires b.box == BoxAround(center, width, height)
    ensures b.Clicked(p) <==> b.active && Abs(p.x - center.x) <= width / 2.0 && Abs(p.y - center.y) <= height / 2.0
  {
    BoxAroundContains(center, width, height, p);
  }

  /** The abstract state of a dropdown: whether it is open and which option it shows. */
  datatype Menu = Menu(isOpen: bool, current: string)

  class Dropdown {
    const options: seq<string>
    const labelText: string
    const mainButton: Button
    const width: real
    const height: real
    const center: Point
    /** The top edge of the main button; the options hang from it. */
    const optionYmin: real
    var currentOption: string
    var isOpen: bool
    var optionButtons: seq<Button>
    /** The objects this dropdown owns: itself, its main button and every option button it has made. */
    ghost var Repr: set<object>

    function MainBox(): Box {
      BoxAround(center, width, height)
    }

    /** The centre of the option button at index `i`: `i` heights below the main button's centre. */
    function OptionCenter(i: nat): (c: Point)
      ensures c.x == center.x
      ensures optionYmin == center.y + height / 2.0 ==> c.y == center.y - (i as real) * height
    {
      Point(center.x, optionYmin - (i as real) * height - height / 2.0)
    }

    /** The box of the option button at index `i` while the menu is open: slot `i` of a column hanging from `optionYmin`. */
    function OptionBox(i: nat): (b: Box)
      ensures b.xmin == MainBox().xmin && b.xmax == MainBox().xmax
      ensures b.ymax == optionYmin - (i as real) * height
      ensures b.ymin == optionYmin - (i as real) * height - height
    {
      BoxAround(OptionCenter(i), width, height)
    }

    ghost predicate Valid()
      reads this, Repr
    {
      && this in Repr && mainButton in Repr
      && (forall b :: b in optionButtons ==> b in Repr)
      && |options| > 0
      && currentOption in options
      && optionYmin == center.y + height / 2.0
      && mainButton.box == MainBox()
      && mainButton.active && mainButton.drawn
      && mainButton.text == Caption(labelText, currentOption)
      && mainButton !in optionButtons
      && (forall b: Button :: b in Repr && b != mainButton && b !in optionButtons ==> !b.drawn)
      && |optionButtons| == (if isOpen then |options| else 0)
      && forall i :: 0 <= i < |optionButtons| ==>
           && optionButtons[i].active && optionButtons[i].drawn
           && optionButtons[i].text == options[i]
           && optionButtons[i].box == OptionBox(i)
    }

    function View(): Menu
      reads this
    {
      Menu(isOpen, currentOption)
    }

    /** The lowest index from `i` on whose option box holds `p`. */
    function FirstHitFrom(p: Point, i: nat): (r: Option<nat>)
      ensures r.Some? ==> i <= r.value < |options| && OptionBox(r.value).Contains(p)
      ensures r.Some? ==> forall j :: i <= j < r.value ==> !OptionBox(j).Contains(p)
      ensures r.None? ==> forall j :: i <= j < |options| ==> !OptionBox(j).Contains(p)
      decreases |options| - i
    {
      if i >= |options| then None
      else if OptionBox(i).Contains(p) then Some(i)
      else FirstHitFrom(p, i + 1)
    }

    /** The lowest-index option whose box holds `p`, if any. */
    function OptionHit(p: Point): Option<nat> {
      FirstHitFrom(p, 0)
    }

    /**
     * What a click does to an open or closed menu, and whether the dropdown
     * reports it as handled: the main button toggles; otherwise an open menu
     * selects the first option hit and closes.
     */
    function Click(m: Menu, p: Point): (r: (Menu, bool))
      ensures r.0.current == m.current || r.0.current in options
      ensures !r.1 ==> r.0 == m
    {
      if MainBox().Contains(p) then (Menu(!m.isOpen, m.current), true)
      else if m.isOpen && OptionHit(p).Some? then (Menu(false, options[OptionHit(p).value]), true)
      else (m, false)
    }

    /** A closed menu showing the first option, with an active main button labelled "label: first option". */
    constructor (center: Point, width: real, height: real, options: seq<string>, name: string)
      requires |options| > 0
      ensures Valid() && fresh(Repr)
      ensures this.options == options && labelText == name
      ensures this.center == center && this.width == width && this.height == height
      ensures View() == Menu(false, options[0]) && optionButtons == []
      ensures mainButton.text == Caption(name, options[0])
    {
      this.options := options;
      currentOption := options[0];
      isOpen := false;
      optionButtons := [];
      labelText := name;
      var b := new Button(center, width, height, Caption(name, options[0]));
      b.Activate();
      mainButton := b;
      this.width := width;
      this.height := height;
      this.center := center;
      optionYmin := center.y + height / 2.0;
      Repr := {this, b};
    }

    /** Builds one active option button per option, stacked from the main button's top edge downwards. */
    method OpenOptions()
      requires Valid() && !isOpen
      modifies this
      ensures Valid() && fresh(Repr - old(Repr))
      ensures View() == Menu(true, old(currentOption))
    {
      isOpen := true;
      optionButtons := [];
      for i := 0 to |options|
        invariant isOpen && currentOption == old(currentOption)
        invariant this in Repr && mainButton in Repr && fresh(Repr - old(Repr))
        invariant forall b :: b in optionButtons ==> b in Repr
        invariant |optionButtons| == i
        invariant mainButton !in optionButtons
        invariant forall b: Button :: b in Repr && b != mainButton && b !in optionButtons ==> !b.drawn
        invariant forall j :: 0 <= j < i ==>
                    && optionButtons[j].active && optionButtons[j].drawn
                    && optionButtons[j].text == options[j]
                    && optionButtons[j].box == OptionBox(j)
        invariant forall b :: b in optionButtons ==> fresh(b)
      {
        var button := new Button(OptionCenter(i), width, height, options[i]);
        button.Activate();
        optionButtons := optionButtons + [button];
        Repr := Repr + {button};
      }
    }

    /** Undraws every option button and forgets them; on a closed menu nothing changes. */
    method CloseOptions()
      requires Valid()
      modifies Repr
      ensures Valid() && Repr == old(Repr)
      ensures View() == Menu(false, old(currentOption)) && optionButtons == []
      ensures forall b :: b in old(optionButtons) ==> !b.drawn
      ensures forall b: Button :: b in Repr && b != mainButton ==> !b.drawn
    {
      isOpen := false;
      var buttons := optionButtons;
      for i := 0 to |buttons|
        invariant !isOpen && currentOption == old(currentOption) && optionButtons == buttons && Repr == old(Repr)
        invariant unchanged(mainButton)
        invariant forall j :: 0 <= j < i ==> !buttons[j].drawn
        invariant forall b: Button :: b in Repr && b != mainButton && b !in buttons ==> !b.drawn
      {
        buttons[i].Undraw();
      }
      optionButtons := [];
    }

    method ToggleOptions()
      requires Valid()
      modifies Repr
      ensures Valid() && fresh(Repr - old(Repr))
      ensures View() == Menu(!old(isOpen), old(currentOption))
      ensures old(isOpen) ==> forall b :: b in old(optionButtons) ==> !b.drawn
    {
      if isOpen {
        CloseOptions();
      } else {
        OpenOptions();
      }
    }

    /** Shows option `index` on the main button and closes the menu. */
    method SelectOption(index: nat)
      requires Valid() && index < |options|
      modifies Repr
      ensures Valid() && Repr == old(Repr)
      ensures View() == Menu(false, options[index]) && optionButtons == []
      ensures mainButton.text == Caption(labelText, options[index])
      ensures GetValue() == ParseDecimal(options[index])
      ensures forall b :: b in old(optionButtons) ==> !b.drawn
    {
      currentOption := options[index];
      mainButton.text := Caption(labelText, currentOption);
      CloseOptions();
    }

    /** `int(current_option)`: the number an option written as a decimal denotes; `None` when it is not a digit string. */
    function GetValue(): (r: Option<nat>)
      reads this
      ensures forall n: nat {:trigger Decimal(n)} :: currentOption == Decimal(n) ==> r == Some(n)
      ensures r.Some? <==> |currentOption| > 0 && AllDigits(currentOption)
    {
      ParseInvertsDecimal();
      ParseDecimal(currentOption)
    }

    /** The click handler: main button first, then, if open, the option buttons in order. */
    method Clicked(p: Point) returns (handled: bool)
      requires Valid()
      modifies Repr
      ensures Valid() && fresh(Repr - old(Repr))
      ensures (View(), handled) == Click(old(View()), p)
      ensures old(isOpen) && !isOpen ==> forall b :: b in old(optionButtons) ==> !b.drawn
      ensures !handled ==> optionButtons == old(optionButtons) && Repr == old(Repr)
    {
      if mainButton.Clicked(p) {
        ToggleOptions();
        return true;
      }
      if isOpen {
        var i := 0;
        while i < |optionButtons|
          invariant 0 <= i <= |optionButtons|
          invariant forall j :: 0 <= j < i ==> !OptionBox(j).Contains(p)
        {
          if optionButtons[i].Clicked(p) {
            break;
          }
          i := i + 1;
        }
        if i < |optionButtons| {
          SelectOption(i);
          return true;
        }
      }
      return false;
    }
  }

  /** The quirk of the layout: option 0 hangs from the main button's top edge, so it covers the main button exactly. */
  lemma OptionZeroIsMainBox(d: Dropdown)
    requires d.optionYmin == d.center.y + d.height / 2.0
    ensures d.OptionBox(0) == d.MainBox()
  {
  }

  /** Option `i + 1` sits directly below option `i`: its top edge is option `i`'s bottom edge. */
  lemma OptionsStackDownwards(d: Dropdown, i: nat)
    requires d.optionYmin == d.center.y + d.height / 2.0
    ensures d.OptionBox(i + 1).ymax == d.OptionBox(i).ymin
    ensures d.OptionBox(i).ymax == d.optionYmin - (i as real) * d.height
  {
  }

  /** So a click can never select option 0: wherever it would hit option 0, it hits the main button first. */
  lemma ClickNeverSelectsOptionZero(d: Dropdown, m: Menu, p: Point)
    requires d.optionYmin == d.center.y + d.height / 2.0
    requires m.isOpen && d.OptionHit(p) == Some(0)
    ensures d.Click(m, p) == (Menu(false, m.current), true)
  {
    OptionZeroIsMainBox(d);
  }

  /** A click on the main button toggles the menu and keeps the option. */
  lemma ClickMainToggles(d: Dropdown, m: Menu, p: Point)
    requires d.MainBox().Contains(p)
    ensures d.Click(m, p) == (Menu(!m.isOpen, m.current), true)
  {
  }

  /** A click off the main button on an open menu selects the lowest-index option it hits and closes the menu. */
  lemma ClickOpenSelectsLowest(d: Dropdown, m: Menu, p: Point, k: nat)
    requires !d.MainBox().Contains(p) && m.isOpen
    requires k < |d.options| && d.OptionBox(k).Contains(p)
    requires forall j :: 0 <= j < k ==> !d.OptionBox(j).Contains(p)
    ensures d.Click(m, p) == (Menu(false, d.options[k]), true)
  {
    assert d.OptionHit(p) == Some(k);
  }

  /** Any other click is not handled and changes nothing. */
  lemma ClickMissUnchanged(d: Dropdown, m: Menu, p: Point)
    requires !d.MainBox().Contains(p)
    requires !m.isOpen || forall j :: 0 <= j < |d.options| ==> !d.OptionBox(j).Contains(p)
    ensures d.Click(m, p) == (m, false)
  {
  }
}
