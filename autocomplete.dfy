/**
  The selection state of MudBlazor's MudAutocomplete<T>: the typed text, the
  debounce timer (as a "search pending" flag), the last search result, the
  keyboard cursor into it, the open/closed state of the list and its icon.
 */
module Autocomplete {
  import opened Wrappers
  import opened DotNetString

  /** What invoking the compiled ToStringExpression on a (non-null) item gives. */
  datatype Mapping<V> = Returned(value: V) | ReturnedNull | ThrewNullReference

  /** The mutable state of one component, for stating what an operation leaves alone. */
  datatype Fields<T> = Fields(
    text: Option<string>,
    value: Option<T>,
    items: Option<seq<Option<T>>>,
    index: int,
    isOpen: bool,
    icon: Option<string>,
    timerPending: bool)

  function Min(a: int, b: int): (m: int) { if a <= b then a else b }
  function Max(a: int, b: int): (m: int) { if a <= b then b else a }

  /** Items.Length, with a null array counted as empty. */
  function Count<X>(items: Option<seq<X>>): (n: nat)
  {
    if items.None? then 0 else |items.value|
  }

  /**
    The cursor after moving it by `increment` over a list of `count` items:
    left alone when there are no items, clamped into [0, count - 1] otherwise.
   */
  function NextIndex(count: nat, index: int, increment: int): (r: int)
    ensures count == 0 ==> r == index
    ensures count > 0 ==> 0 <= r < count
    ensures count > 0 && 0 <= index + increment < count ==> r == index + increment
    ensures count > 0 && index + increment < 0 ==> r == 0
    ensures count > 0 && index + increment >= count ==> r == count - 1
  {
    if count == 0 then index else Max(0, Min(count - 1, index + increment))
  }

  /** ArrowUp on the first item keeps the cursor there. */
  lemma ArrowUpAtFirstStays(count: nat)
    requires count > 0
    ensures NextIndex(count, 0, -1) == 0
  {
  }

  /** ArrowDown on the last item keeps the cursor there. */
  lemma ArrowDownAtLastStays(count: nat)
    requires count > 0
    ensures NextIndex(count, count - 1, 1) == count - 1
  {
  }

  /** Array.IndexOf: the first position of `x` in `s`, or -1 when it is absent. */
  function IndexOf<X(==)>(s: seq<X>, x: X): (r: int)
    ensures -1 <= r < |s|
    ensures r == -1 <==> x !in s
    ensures 0 <= r ==> s[r] == x && forall j :: 0 <= j < r ==> s[j] != x
  {
    if s == [] then -1
    else if s[0] == x then 0
    else
      var k := IndexOf(s[1..], x);
      if k == -1 then -1 else k + 1
  }

  /**
    Selecting the item under the cursor moves the cursor to the first equal
    item, which is the same position when the items are pairwise distinct.
   */
  lemma IndexOfItemAt<X>(s: seq<X>, i: int)
    requires 0 <= i < |s|
    ensures 0 <= IndexOf(s, s[i]) <= i
    ensures (forall j, k :: 0 <= j < k < |s| ==> s[j] != s[k]) ==> IndexOf(s, s[i]) == i
  {
  }

  /**
    Enumerable.Take(maxItems) when a maximum is set, the whole sequence when it
    is null: the longest prefix of `s` that is not longer than the maximum.
   */
  function Take<X>(s: seq<X>, maxItems: Option<int>): (r: seq<X>)
    ensures r <= s
    ensures maxItems.None? ==> r == s
    ensures maxItems.Some? && maxItems.value <= 0 ==> r == []
    ensures maxItems.Some? && maxItems.value >= 0 ==> |r| <= maxItems.value
    ensures maxItems.Some? && |r| < |s| ==> |r| == Max(0, maxItems.value)
  {
    match maxItems
    case None => s
    case Some(n) => if n <= 0 then [] else if n >= |s| then s else s[..n]
  }

  /**
    The open state after ToggleMenu on an enabled component: flipped, then
    forced closed when the text is null or empty.
   */
  function ToggledOpen(isOpen: bool, text: Option<string>): (r: bool)
    ensures r <==> !isOpen && !IsNullOrEmpty(text)
  {
    var flipped := !isOpen;
    if flipped && IsNullOrEmpty(text) then false else flipped
  }

  /** Whether a completed debounce delay runs a search for the current text. */
  function SearchApplies(text: Option<string>, minCharacters: int): (b: bool)
    ensures b ==> text.Some? && exists i :: 0 <= i < |text.value| && !IsWhiteSpace(text.value[i])
    ensures b ==> Utf16Length(text.value) >= minCharacters
    ensures text.Some? && (forall i :: 0 <= i < |text.value| ==> text.value[i] as int <= 0xFFFF) ==>
              (b <==> !IsNullOrWhiteSpace(text) && |text.value| >= minCharacters)
    ensures minCharacters <= 0 ==> (b <==> !IsNullOrWhiteSpace(text))
  {
    !IsNullOrWhiteSpace(text) && Utf16Length(text.value) >= minCharacters
  }

  /**
    The display string of an item: "" for a null item and when the mapping
    gives null or throws a NullReferenceException; otherwise the mapped value's
    ToString(), or its culture-aware formatting when a Format is set.
   */
  function GetItemString<T, V>(item: Option<T>, toValue: T -> Mapping<V>, format: Option<string>,
                               show: V -> string, formatWith: (string, V) -> string): (r: string)
    ensures r != "" ==> item.Some? && toValue(item.value).Returned?
    ensures item.Some? && toValue(item.value).Returned? && IsNullOrEmpty(format) ==>
              r == show(toValue(item.value).value)
    ensures item.Some? && toValue(item.value).Returned? && !IsNullOrEmpty(format) ==>
              r == formatWith(format.value, toValue(item.value).value)
  {
    match item
    case None => ""
    case Some(x) =>
      match toValue(x)
      case ReturnedNull => ""
      case ThrewNullReference => ""
      case Returned(v) => if IsNullOrEmpty(format) then show(v) else formatWith(format.value, v)
  }

  class MudAutocomplete<T(==), V> {
    // Parameters set by the host.
    var OpenIcon: string
    var CloseIcon: string
    var Format: Option<string>
    var MaxItems: Option<int>
    var MinCharacters: int
    var Disabled: bool
    /** The compiled ToStringExpression. */
    const ToStringExpression: T -> Mapping<V>
    /** object.ToString() of a mapped value. */
    const Show: V -> string
    /** string.Format(CultureInfo.CurrentCulture, "{0:<format>}", value). */
    const FormatWith: (string, V) -> string

    // State.
    /** The input's text; the base class's Text setter writes it and then calls StringValueChanged. */
    var Text: Option<string>
    var Value: Option<T>
    var Items: Option<seq<Option<T>>>
    var SelectedListItemIndex: int
    var IsOpen: bool
    var CurrentIcon: Option<string>
    /** Stands for a debounce Timer that is armed and not yet fired or disposed. */
    var timerPending: bool

    function State(): (f: Fields<T>)
      reads this
    {
      Fields(Text, Value, Items, SelectedListItemIndex, IsOpen, CurrentIcon, timerPending)
    }

    /** The icon shows the list's state: OpenIcon when open, CloseIcon when closed. */
    predicate IconTracksOpen()
      reads this
    {
      CurrentIcon == Some(if IsOpen then OpenIcon else CloseIcon)
    }

    function ItemString(item: Option<T>): (shown: string)
      reads this
    {
      GetItemString(item, ToStringExpression, Format, Show, FormatWith)
    }

    /** Enter selects the highlighted item: the list is open and the cursor is on an item. */
    predicate EnterSelects()
      reads this
    {
      IsOpen && Items.Some? && 0 <= SelectedListItemIndex < |Items.value|
    }

    /** The state SelectOption(v) leaves behind. */
    twostate predicate OptionSelected(v: Option<T>)
      reads this
    {
      && Value == v
      && Text == Some(ItemString(v))
      && Items == old(Items)
      && SelectedListItemIndex == (if Items.Some? then IndexOf(Items.value, v) else old(SelectedListItemIndex))
      && !IsOpen && IconTracksOpen()
      && !timerPending
    }

    /** A freshly created component with the default MaxItems and MinCharacters. */
    constructor (openIcon: string, closeIcon: string, toStringExpression: T -> Mapping<V>,
                 show: V -> string, formatWith: (string, V) -> string)
      ensures OpenIcon == openIcon && CloseIcon == closeIcon
      ensures ToStringExpression == toStringExpression && Show == show && FormatWith == formatWith
      ensures Format == None && MaxItems == Some(10) && MinCharacters == 0 && !Disabled
      ensures State() == Fields(None, None, None, 0, false, None, false)
    {
      OpenIcon, CloseIcon := openIcon, closeIcon;
      ToStringExpression, Show, FormatWith := toStringExpression, show, formatWith;
      Format, MaxItems, MinCharacters, Disabled := None, Some(10), 0, false;
      Text, Value, Items := None, None, None;
      SelectedListItemIndex, IsOpen, CurrentIcon, timerPending := 0, false, None, false;
    }

    method UpdateIcon()
      modifies this`CurrentIcon
      ensures IconTracksOpen()
    {
      if IsOpen {
        CurrentIcon := Some(OpenIcon);
      } else {
        CurrentIcon := Some(CloseIcon);
      }
    }

    method OnInitialized()
      modifies this`CurrentIcon
      ensures IconTracksOpen()
    {
      UpdateIcon();
    }

    /** Commit `value`: show its string, locate it among the items, cancel the search, close. */
    method SelectOption(value: Option<T>)
      modifies this`Value, this`SelectedListItemIndex, this`Text, this`timerPending, this`IsOpen, this`CurrentIcon
      ensures OptionSelected(value)
    {
      Value := value;
      if Items.Some? {
        SelectedListItemIndex := IndexOf(Items.value, value);
      }
      Text := Some(GetItemString(value, ToStringExpression, Format, Show, FormatWith));
      timerPending := false;
      IsOpen := false;
      UpdateIcon();
    }

    method ToggleMenu()
      modifies this`IsOpen, this`CurrentIcon
      ensures Disabled ==> State() == old(State())
      ensures !Disabled ==> IsOpen == ToggledOpen(old(IsOpen), Text) && IconTracksOpen()
    {
      if Disabled {
        return;
      }
      IsOpen := !IsOpen;
      if IsOpen && IsNullOrEmpty(Text) {
        IsOpen := false;
      }
      UpdateIcon();
    }

    /** The user typed: the pending delay is replaced by a fresh one. */
    method StringValueChanged(text: string)
      modifies this`timerPending
      ensures timerPending
    {
      // The old Timer is disposed and a new one armed: one delay is pending either way.
      timerPending := true;
    }

    /**
      The debounce delay elapsed and the search function answered
      `searchResult` for the current text.
     */
    method OnTimerComplete(searchResult: seq<Option<T>>)
      requires timerPending
      modifies this`SelectedListItemIndex, this`Items, this`IsOpen, this`CurrentIcon, this`timerPending
      ensures !SearchApplies(Text, MinCharacters) ==> State() == old(State()).(timerPending := false)
      ensures SearchApplies(Text, MinCharacters) ==>
                && Items == Some(Take(searchResult, MaxItems))
                && SelectedListItemIndex == 0
                && (IsOpen <==> |Items.value| > 0)
                && IconTracksOpen()
                && !timerPending
    {
      timerPending := false;
      if SearchApplies(Text, MinCharacters) {
        SelectedListItemIndex := 0;
        var searched := Take(searchResult, MaxItems);
        Items := Some(searched);
        if |Items.value| == 0 {
          IsOpen := false;
          UpdateIcon();
          return;
        }
        IsOpen := true;
        UpdateIcon();
      }
    }

    method SelectNextItem(increment: int)
      modifies this`SelectedListItemIndex
      ensures SelectedListItemIndex == NextIndex(Count(Items), old(SelectedListItemIndex), increment)
    {
      if Items.None? || |Items.value| == 0 {
        return;
      }
      SelectedListItemIndex := Max(0, Min(|Items.value| - 1, SelectedListItemIndex + increment));
    }

    method OnEnterKey()
      modifies this`Value, this`SelectedListItemIndex, this`Text, this`timerPending, this`IsOpen, this`CurrentIcon
      ensures old(EnterSelects()) ==> OptionSelected(old(Items.value[SelectedListItemIndex]))
      ensures !old(EnterSelects()) ==> State() == old(State())
    {
      if !IsOpen {
        return;
      }
      if Items.None? || |Items.value| == 0 {
        return;
      }
      if 0 <= SelectedListItemIndex < |Items.value| {
        SelectOption(Items.value[SelectedListItemIndex]);
      }
    }

    method OnInputKeyDown(key: string)
      modifies this`Value, this`SelectedListItemIndex, this`Text, this`timerPending, this`IsOpen, this`CurrentIcon
      ensures key == "Enter" && old(EnterSelects()) ==> OptionSelected(old(Items.value[SelectedListItemIndex]))
      ensures key == "Enter" && !old(EnterSelects()) ==> State() == old(State())
      ensures key == "ArrowDown" ==>
                State() == old(State()).(index := NextIndex(Count(Items), old(SelectedListItemIndex), 1))
      ensures key == "ArrowUp" ==>
                State() == old(State()).(index := NextIndex(Count(Items), old(SelectedListItemIndex), -1))
      ensures key != "Enter" && key != "ArrowDown" && key != "ArrowUp" ==> State() == old(State())
    {
      if key == "Enter" {
        OnEnterKey();
      } else if key == "ArrowDown" {
        SelectNextItem(1);
      } else if key == "ArrowUp" {
        SelectNextItem(-1);
      }
    }

    /** Only the timer part of disposal: the pending delay is cancelled. */
    method Dispose()
      modifies this`timerPending
      ensures !timerPending
    {
      timerPending := false;
    }
  }

  /**
    Type "ca", let the delay elapse, receive ["cat", "car", "cab"] with
    MaxItems 2, press ArrowDown and then Enter: "car" is selected and shown.
   */
  method TypeArrowDownEnter() returns (listed: Option<seq<Option<string>>>, selected: Option<string>, shown: Option<string>)
    ensures listed == Some([Some("cat"), Some("car")])
    ensures selected == Some("car") && shown == Some("car")
  {
    var box := new MudAutocomplete<string, string>("up", "down", s => Returned(s), s => s, (f, s) => s);
    box.MaxItems := Some(2);
    box.OnInitialized();
    box.Text := Some("ca");
    box.StringValueChanged("ca");
    assert !AllWhiteSpace("ca") by {
      assert !IsWhiteSpace("ca"[0]);
    }
    assert Utf16Length("ca") == 2;
    var result := [Some("cat"), Some("car"), Some("cab")];
    assert Take(result, Some(2)) == result[..2] == [Some("cat"), Some("car")];
    box.OnTimerComplete(result);
    listed := box.Items;
    box.OnInputKeyDown("ArrowDown");
    assert box.SelectedListItemIndex == 1;
    assert IndexOf([Some("cat"), Some("car")], Some("car")) == 1;
    box.OnInputKeyDown("Enter");
    selected, shown := box.Value, box.Text;
  }
}
