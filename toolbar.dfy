// The class-list bookkeeping of the stock tools toolbar: which buttons carry the
// "highcharts-current" and "highcharts-active" classes and which button's submenu
// wrapper is displayed. The toolbar's buttons are an array of records; a button is
// identified by its index, and a button reference outside the array matches no button.

module StockToolsToolbar {
  import opened Wrappers

  /**
   * One toolbar button: whether it holds the current and the active class, and, when it
   * owns a submenu wrapper, whether that wrapper is displayed.
   */
  datatype Button = Button(current: bool, active: bool, submenu: Option<bool>)

  predicate IsCurrent(b: Button) { b.current }
  predicate IsActive(b: Button) { b.active }
  predicate HasOpenSubmenu(b: Button) { b.submenu == Some(true) }

  /** How many buttons satisfy f. */
  function Count(buttons: seq<Button>, f: Button -> bool): (r: nat)
    ensures r <= |buttons|
  {
    if |buttons| == 0 then 0
    else Count(buttons[..|buttons| - 1], f) + (if f(buttons[|buttons| - 1]) then 1 else 0)
  }

  /** If no button other than the one at index c satisfies f, at most one button does. */
  lemma {:induction false} CountAtMostOne(buttons: seq<Button>, f: Button -> bool, c: int)
    requires forall i :: 0 <= i < |buttons| && i != c ==> !f(buttons[i])
    ensures Count(buttons, f) <= 1
    ensures Count(buttons, f) == 1 <==> 0 <= c < |buttons| && f(buttons[c])
  {
    if |buttons| > 0 {
      CountAtMostOne(buttons[..|buttons| - 1], f, c);
    }
  }

  // ---------------------------------------------------------------------------------
  // eraseActiveButtons
  // ---------------------------------------------------------------------------------

  /** A button other than the current one: both classes removed, its submenu hidden. */
  function Erased(b: Button): Button
  {
    Button(false, false, if b.submenu.Some? then Some(false) else None)
  }

  /** The buttons after eraseActiveButtons(buttons, currentButton). */
  function EraseOthers(buttons: seq<Button>, currentButton: int): (r: seq<Button>)
  {
    if |buttons| == 0 then []
    else
      var last := |buttons| - 1;
      EraseOthers(buttons[..last], currentButton) + [if last == currentButton then buttons[last] else Erased(buttons[last])]
  }

  /**
   * eraseActiveButtons leaves the current button untouched; every other button loses
   * the current and active classes and has its submenu, if any, hidden.
   */
  lemma {:induction false} EraseOthersPointwise(buttons: seq<Button>, currentButton: int)
    ensures |EraseOthers(buttons, currentButton)| == |buttons|
    ensures forall i :: 0 <= i < |buttons| && i == currentButton ==> EraseOthers(buttons, currentButton)[i] == buttons[i]
    ensures forall i :: 0 <= i < |buttons| && i != currentButton ==> EraseOthers(buttons, currentButton)[i] == Erased(buttons[i])
    ensures forall i :: 0 <= i < |buttons| && i != currentButton ==>
      var e := EraseOthers(buttons, currentButton)[i];
      !e.current && !e.active && e.submenu != Some(true) && (e.submenu.Some? <==> buttons[i].submenu.Some?)
  {
    if |buttons| > 0 {
      EraseOthersPointwise(buttons[..|buttons| - 1], currentButton);
    }
  }

  /**
   * After eraseActiveButtons only the current button may still be current, active or
   * showing its submenu.
   */
  lemma EraseLeavesOnlyCurrentButton(buttons: seq<Button>, currentButton: int)
    ensures Count(EraseOthers(buttons, currentButton), IsCurrent) <= 1
    ensures Count(EraseOthers(buttons, currentButton), IsActive) <= 1
    ensures Count(EraseOthers(buttons, currentButton), HasOpenSubmenu) <= 1
  {
    var e := EraseOthers(buttons, currentButton);
    EraseOthersPointwise(buttons, currentButton);
    CountAtMostOne(e, IsCurrent, currentButton);
    CountAtMostOne(e, IsActive, currentButton);
    CountAtMostOne(e, HasOpenSubmenu, currentButton);
  }

  /** Clicking the same button twice erases no more than clicking it once. */
  lemma EraseOthersIdempotent(buttons: seq<Button>, currentButton: int)
    ensures EraseOthers(EraseOthers(buttons, currentButton), currentButton) == EraseOthers(buttons, currentButton)
  {
    var e := EraseOthers(buttons, currentButton);
    EraseOthersPointwise(buttons, currentButton);
    EraseOthersPointwise(e, currentButton);
  }

  method EraseActiveButtons(buttons: array<Button>, currentButton: int)
    modifies buttons
    ensures buttons[..] == EraseOthers(old(buttons[..]), currentButton)
  {
    ghost var before := buttons[..];
    EraseOthersPointwise(before, currentButton);
    for i := 0 to buttons.Length
      invariant forall j :: 0 <= j < i ==> buttons[j] == EraseOthers(before, currentButton)[j]
      invariant forall j :: i <= j < buttons.Length ==> buttons[j] == before[j]
    {
      if i != currentButton {
        var btn := buttons[i];
        btn := btn.(current := false);
        btn := btn.(active := false);
        if btn.submenu.Some? {
          btn := btn.(submenu := Some(false));
        }
        buttons[i] := btn;
      }
    }
  }

  // ---------------------------------------------------------------------------------
  // selectButton and unselectAllButtons
  // ---------------------------------------------------------------------------------

  /** selectButton toggles the active class of one button. */
  function Toggled(b: Button): (r: Button)
    ensures r.active != b.active
    ensures r.current == b.current && r.submenu == b.submenu
  {
    b.(active := !b.active)
  }

  /** The buttons after unselectAllButtons(button): the others lose the active class. */
  function UnselectOthers(buttons: seq<Button>, button: int): (r: seq<Button>)
  {
    if |buttons| == 0 then []
    else
      var last := |buttons| - 1;
      UnselectOthers(buttons[..last], button) + [if last == button then buttons[last] else buttons[last].(active := false)]
  }

  /**
   * unselectAllButtons keeps the given button as it was and removes only the active
   * class from every other one.
   */
  lemma {:induction false} UnselectOthersPointwise(buttons: seq<Button>, button: int)
    ensures |UnselectOthers(buttons, button)| == |buttons|
    ensures forall i :: 0 <= i < |buttons| && i == button ==> UnselectOthers(buttons, button)[i] == buttons[i]
    ensures forall i :: 0 <= i < |buttons| && i != button ==>
      var u := UnselectOthers(buttons, button)[i];
      !u.active && u.current == buttons[i].current && u.submenu == buttons[i].submenu
  {
    if |buttons| > 0 {
      UnselectOthersPointwise(buttons[..|buttons| - 1], button);
    }
  }

  /**
   * The selectButton event of the navigation bindings: unselectAllButtons(button) then
   * selectButton(button). Afterwards at most one button is active, and the button is
   * active exactly when it was not before (selecting an active button deselects it).
   */
  lemma SelectEventKeepsOneActive(buttons: seq<Button>, button: nat)
    requires button < |buttons|
    ensures var u := UnselectOthers(buttons, button);
      |u| == |buttons| &&
      var s := u[button := Toggled(u[button])];
      Count(s, IsActive) <= 1 && (s[button].active <==> !buttons[button].active)
  {
    UnselectOthersPointwise(buttons, button);
    var u := UnselectOthers(buttons, button);
    var s := u[button := Toggled(u[button])];
    CountAtMostOne(s, IsActive, button);
  }

  /**
   * The selectButton event when the button is an item of the submenu owned by the top-level
   * button at index parent. unselectAllButtons searches only the item's own wrapper, so it
   * clears the active class among the submenu's items alone, and the item keeps its state;
   * the handler then toggles the parent. Afterwards at most one item of the submenu is
   * active (the clicked one, exactly when it was active before), the parent is active
   * exactly when it was not, and every other top-level button keeps its classes.
   */
  lemma SubmenuItemSelectEvent(buttons: seq<Button>, parent: nat, items: seq<Button>, item: nat)
    requires parent < |buttons| && item < |items|
    ensures var u := UnselectOthers(items, item);
      |u| == |items| && u[item] == items[item] &&
      Count(u, IsActive) <= 1 && (Count(u, IsActive) == 1 <==> items[item].active)
    ensures var s := buttons[parent := Toggled(buttons[parent])];
      (s[parent].active <==> !buttons[parent].active) &&
      forall i :: 0 <= i < |buttons| && i != parent ==> s[i] == buttons[i]
  {
    UnselectOthersPointwise(items, item);
    CountAtMostOne(UnselectOthers(items, item), IsActive, item);
  }

  /**
   * On the submenu-item path the top-level buttons are not cleared: a top-level button that
   * was active stays active beside the toggled parent, so two buttons end active.
   */
  lemma SubmenuItemSelectKeepsOtherActive()
    ensures var buttons := [Button(false, true, None), Button(false, false, Some(false))];
      Count(buttons[1 := Toggled(buttons[1])], IsActive) == 2
  {
    var s := [Button(false, true, None), Button(false, false, Some(false))][1 := Toggled(Button(false, false, Some(false)))];
    assert s[..1][..0] == [];
    assert s[..|s| - 1] == s[..1];
  }

  method SelectButton(buttons: array<Button>, button: nat)
    requires button < buttons.Length
    modifies buttons
    ensures buttons[..] == old(buttons[..])[button := Toggled(old(buttons[button]))]
  {
    if buttons[button].active {
      buttons[button] := buttons[button].(active := false);
    } else {
      buttons[button] := buttons[button].(active := true);
    }
  }

  method UnselectAllButtons(buttons: array<Button>, button: nat)
    requires button < buttons.Length
    modifies buttons
    ensures buttons[..] == UnselectOthers(old(buttons[..]), button)
  {
    ghost var before := buttons[..];
    UnselectOthersPointwise(before, button);
    for i := 0 to buttons.Length
      invariant forall j :: 0 <= j < i ==> buttons[j] == UnselectOthers(before, button)[j]
      invariant forall j :: i <= j < buttons.Length ==> buttons[j] == before[j]
    {
      if buttons[i].active && i != button {
        buttons[i] := buttons[i].(active := false);
      }
    }
  }

  // ---------------------------------------------------------------------------------
  // The submenu arrow's click handler
  // ---------------------------------------------------------------------------------

  /**
   * A click on the submenu arrow of button b: erase the other buttons, then close b's
   * submenu if b was current, or open it and make b current otherwise.
   */
  function SubmenuToggled(buttons: seq<Button>, b: nat): (r: seq<Button>)
    requires b < |buttons|
    ensures |r| == |buttons|
  {
    EraseOthersPointwise(buttons, b);
    var e := EraseOthers(buttons, b);
    if e[b].current then e[b := e[b].(current := false, submenu := Some(false))]
    else e[b := e[b].(current := true, submenu := Some(true))]
  }

  /**
   * After a click on a submenu arrow at most one button is current and at most one
   * submenu is open: the clicked button's, exactly when the click made it current.
   */
  lemma SubmenuToggleExclusive(buttons: seq<Button>, b: nat)
    requires b < |buttons|
    ensures |SubmenuToggled(buttons, b)| == |buttons|
    ensures Count(SubmenuToggled(buttons, b), IsCurrent) <= 1
    ensures Count(SubmenuToggled(buttons, b), HasOpenSubmenu) <= 1
    ensures SubmenuToggled(buttons, b)[b].current <==> !buttons[b].current
    ensures SubmenuToggled(buttons, b)[b].submenu == Some(SubmenuToggled(buttons, b)[b].current)
  {
    EraseOthersPointwise(buttons, b);
    var r := SubmenuToggled(buttons, b);
    CountAtMostOne(r, IsCurrent, b);
    CountAtMostOne(r, HasOpenSubmenu, b);
  }

  /** Two clicks on the same arrow give the clicked button back its current class. */
  lemma SubmenuToggleTwice(buttons: seq<Button>, b: nat)
    requires b < |buttons|
    ensures |SubmenuToggled(buttons, b)| == |buttons|
    ensures SubmenuToggled(SubmenuToggled(buttons, b), b)[b].current == buttons[b].current
  {
    SubmenuToggleExclusive(buttons, b);
    SubmenuToggleExclusive(SubmenuToggled(buttons, b), b);
  }

  method ToggleSubmenu(buttons: array<Button>, b: nat)
    requires b < buttons.Length && buttons[b].submenu.Some?
    modifies buttons
    ensures buttons[..] == SubmenuToggled(old(buttons[..]), b)
  {
    EraseActiveButtons(buttons, b);
    if buttons[b].current {
      buttons[b] := buttons[b].(current := false);
      buttons[b] := buttons[b].(submenu := Some(false));
    } else {
      buttons[b] := buttons[b].(submenu := Some(true));
      buttons[b] := buttons[b].(current := true);
    }
  }
}
