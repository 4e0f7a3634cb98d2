/**
  One star of MudBlazor's rating widget (MudRatingItem): the icon it shows is
  derived from the group's selected and hovered values and its own value, and
  its mouse handlers report hover and click notifications to the group.
 */
module Rating {
  import opened Wrappers

  /** The group's FullIcon or EmptyIcon. */
  datatype Icon = Full | Empty

  /** An EventCallback: either nothing is raised, or it is raised with `arg`. */
  datatype Notification<A> = Silent | Emit(arg: A)

  /**
    The icon of the item with value `itemValue`: a hover at or above the item
    fills it; otherwise a selection at or above fills it unless a lower hover
    previews a smaller rating.
   */
  function SelectIcon(hovered: Option<int>, selected: int, itemValue: int): (icon: Icon)
    ensures hovered.Some? ==> (icon == Full <==> hovered.value >= itemValue)
    ensures hovered.None? ==> (icon == Full <==> selected >= itemValue)
  {
    if hovered.Some? && hovered.value >= itemValue then
      Full
    else if selected >= itemValue then
      if hovered.Some? && hovered.value < itemValue then Empty else Full
    else
      Empty
  }

  /** While something is hovered the selected value plays no part. */
  lemma HoverDecidesIcon(hovered: int, selected1: int, selected2: int, itemValue: int)
    ensures SelectIcon(Some(hovered), selected1, itemValue) == SelectIcon(Some(hovered), selected2, itemValue)
  {
  }

  /** For a fixed group state, the full items are exactly those up to some bound. */
  lemma FullIsDownwardClosed(hovered: Option<int>, selected: int, u: int, v: int)
    requires u <= v
    requires SelectIcon(hovered, selected, v) == Full
    ensures SelectIcon(hovered, selected, u) == Full
  {
  }

  /** The value an enabled click reports: 0 (clear) on the selected item, else the item's own. */
  function ClickValue(selected: int, itemValue: int): (r: int)
    ensures r == 0 || r == itemValue
    ensures r == itemValue <==> selected != itemValue || itemValue == 0
    ensures r == selected ==> selected == 0
  {
    if selected == itemValue then 0 else itemValue
  }

  /** The parent MudRating's state, which items only read. */
  class MudRating {
    var SelectedValue: int
    var HoveredValue: Option<int>

    constructor (selectedValue: int, hoveredValue: Option<int>)
      ensures SelectedValue == selectedValue && HoveredValue == hoveredValue
    {
      SelectedValue, HoveredValue := selectedValue, hoveredValue;
    }
  }

  class MudRatingItem {
    const Rating: MudRating
    var ItemValue: int
    var Disabled: bool
    var IsActive: bool
    /** The cached icon; None until parameters are first set. */
    var ItemIcon: Option<Icon>

    constructor (rating: MudRating, itemValue: int, disabled: bool)
      ensures Rating == rating && ItemValue == itemValue && Disabled == disabled
      ensures !IsActive && ItemIcon == None
    {
      Rating, ItemValue, Disabled := rating, itemValue, disabled;
      IsActive, ItemIcon := false, None;
    }

    /** The icon for the group's present state. */
    function DerivedIcon(): (icon: Icon)
      reads this, Rating
    {
      SelectIcon(Rating.HoveredValue, Rating.SelectedValue, ItemValue)
    }

    method OnParametersSet()
      modifies this`ItemIcon
      ensures ItemIcon == Some(DerivedIcon())
    {
      ItemIcon := Some(SelectIcon(Rating.HoveredValue, Rating.SelectedValue, ItemValue));
    }

    /** The pointer left the item: hover is cleared (ItemHovered(null)). */
    method HandleMouseOut() returns (hovered: Notification<Option<int>>)
      modifies this`IsActive
      ensures Disabled ==> hovered == Silent && IsActive == old(IsActive)
      ensures !Disabled ==> hovered == Emit(None) && !IsActive
    {
      if Disabled {
        return Silent;
      }
      IsActive := false;
      hovered := Emit(None);
    }

    /** The pointer entered the item: its value becomes the hovered value. */
    method HandleMouseOver() returns (hovered: Notification<Option<int>>)
      modifies this`IsActive
      ensures Disabled ==> hovered == Silent && IsActive == old(IsActive)
      ensures !Disabled ==> hovered == Emit(Some(ItemValue)) && IsActive
    {
      if Disabled {
        return Silent;
      }
      IsActive := true;
      hovered := Emit(Some(ItemValue));
    }

    method HandleClick() returns (clicked: Notification<int>)
      modifies this`IsActive
      ensures Disabled ==> clicked == Silent && IsActive == old(IsActive)
      ensures !Disabled ==> clicked == Emit(ClickValue(Rating.SelectedValue, ItemValue)) && !IsActive
    {
      if Disabled {
        return Silent;
      }
      IsActive := false;
      if Rating.SelectedValue == ItemValue {
        clicked := Emit(0);
      } else {
        clicked := Emit(ItemValue);
      }
    }
  }

  /** The four icon cases and the click on the selected item, on concrete values. */
  method IconTruthTable() returns (icons: seq<Icon>, clicked: Notification<int>)
    ensures icons == [Empty, Full, Full, Empty]
    ensures clicked == Emit(0)
  {
    icons := [SelectIcon(Some(2), 3, 3), SelectIcon(None, 3, 3), SelectIcon(Some(4), 1, 2), SelectIcon(None, 1, 5)];
    var group := new MudRating(3, None);
    var star := new MudRatingItem(group, 3, false);
    clicked := star.HandleClick();
  }
}
