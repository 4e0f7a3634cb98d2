# MudBlazor autocomplete and rating item, modelled in Dafny

This project models two interactive widgets of the MudBlazor component library.

- **MudAutocomplete<T>** (`autocomplete.dfy`, module `Autocomplete`): a text input that runs a
  caller-supplied search a short debounce delay after each keystroke. It keeps the last result
  list (`Items`), truncated to `MaxItems`, and a keyboard cursor into it (`SelectedListItemIndex`).
  It also keeps the open/closed state of the drop-down (`IsOpen`) and the icon that shows it
  (`CurrentIcon`). A value is committed by a click (`SelectOption`) or by Enter on the
  highlighted item.
- **MudRatingItem** (`rating.dfy`, module `Rating`): one star of a rating group. Its icon is
  Full or Empty, decided by the group's hovered and selected values and the star's own value.
  Its mouse handlers set `IsActive` and raise hover and click notifications for the group.

Supporting modules: `Wrappers` (`Option`, where `None` is C#'s `null`) and `DotNetString`
(`string.IsNullOrEmpty`, `string.IsNullOrWhiteSpace` with .NET's white-space characters, and
`string.Length` counted in UTF-16 code units).

Both components are classes whose methods update their fields in place. Each method's
postcondition states the new state, and `State()` packs the autocomplete's mutable fields so
that "nothing else changes" can be said in one equation. The decisions the store makes are pure
functions with their own contracts: the cursor clamp, `Array.IndexOf`, `Take`, the toggle rule,
the search guard, the display string, the icon rule and the click value.

External behaviour enters as parameters:
- The search function's answer is the argument of `OnTimerComplete`.
- The compiled `ToStringExpression` is a function returning a `Mapping` (a value, null, or a
  thrown `NullReferenceException`).
- `object.ToString()` and culture-aware `string.Format` are the function parameters `Show` and
  `FormatWith`.

Where the code and the component's documentation differ, the model follows the code:
- `MinCharacters` defaults to 0 (line 74), not the 2 that the comment on line 71 states.
- `StringValueChanged` only replaces the timer. It does not clear the list when the text
  becomes empty.
- A search result is applied whenever it arrives. There is no guard against a stale result.
- `SelectOption` of a value not among `Items` leaves the cursor at -1 (`Array.IndexOf`). So the
  cursor is not always a valid index while `Items` is non-empty; Enter checks the bounds instead.
- `ToggleMenu` may open the list while `Items` is still null, so "open implies non-empty items"
  is not an invariant of the code.

## Model

| member | source | states |
|---|---|---|
| `DotNetString.AllWhiteSpace` | src/MudBlazor/Components/Autocomplete/MudAutocomplete.razor.cs:145 | true exactly when every character of the text is white space, the test behind `string.IsNullOrWhiteSpace` |
| `DotNetString.Utf16Length` | src/MudBlazor/Components/Autocomplete/MudAutocomplete.razor.cs:145 | `Text.Length` counts UTF-16 code units: between the number of characters and twice that, and equal to it when no character lies outside the Basic Multilingual Plane |
| `Autocomplete.NextIndex` | src/MudBlazor/Components/Autocomplete/MudAutocomplete.razor.cs:209-216 | with no items the cursor is unchanged; otherwise it lands in `[0, count-1]`: moved by exactly the increment when that stays in range, 0 below the range, `count-1` above it |
| `Autocomplete.ArrowUpAtFirstStays` | src/MudBlazor/Components/Autocomplete/MudAutocomplete.razor.cs:203-213 | ArrowUp on the first item leaves the cursor at 0 |
| `Autocomplete.ArrowDownAtLastStays` | src/MudBlazor/Components/Autocomplete/MudAutocomplete.razor.cs:200-213 | ArrowDown on the last item leaves the cursor on the last item |
| `Autocomplete.IndexOf` | src/MudBlazor/Components/Autocomplete/MudAutocomplete.razor.cs:90 | `Array.IndexOf`: -1 exactly when the value is absent, otherwise a position holding the value with no earlier occurrence |
| `Autocomplete.IndexOfItemAt` | src/MudBlazor/Components/Autocomplete/MudAutocomplete.razor.cs:218-226 | after Enter on position i, `SelectOption` puts the cursor at the first equal item, at or before i, and exactly at i when the items are pairwise distinct |
| `Autocomplete.Take` | src/MudBlazor/Components/Autocomplete/MudAutocomplete.razor.cs:150-152 | the kept items are a prefix of the search result: all of it when `MaxItems` is null, none when it is `<= 0`, never more than `MaxItems`, and cut short only at exactly `MaxItems` |
| `Autocomplete.ToggledOpen` | src/MudBlazor/Components/Autocomplete/MudAutocomplete.razor.cs:103-105 | an enabled toggle opens the list exactly when it was closed and the text is neither null nor empty |
| `Autocomplete.SearchApplies` | src/MudBlazor/Components/Autocomplete/MudAutocomplete.razor.cs:145 | a search runs only for a non-null text with a non-white-space character whose UTF-16 length is at least `MinCharacters`, so a shorter text never searches; for text without characters above U+FFFF exactly when it is not null or white space and has at least `MinCharacters` characters; with `MinCharacters <= 0` exactly when the text is not null or white space |
| `Autocomplete.GetItemString` | src/MudBlazor/Components/Autocomplete/MudAutocomplete.razor.cs:170-191 | a non-empty display string comes only from a non-null item whose mapping returned a value; that value is shown with `ToString()` when no `Format` is set and through the format otherwise |
| `Autocomplete.MudAutocomplete.constructor` | src/MudBlazor/Components/Autocomplete/MudAutocomplete.razor.cs:61-84 | a new component: `MaxItems` 10, `MinCharacters` 0, no format, enabled, no text, value or items, cursor 0, closed, no icon yet, no timer |
| `Autocomplete.MudAutocomplete.UpdateIcon` | src/MudBlazor/Components/Autocomplete/MudAutocomplete.razor.cs:110-120 | the icon becomes `OpenIcon` when the list is open and `CloseIcon` when it is closed |
| `Autocomplete.MudAutocomplete.OnInitialized` | src/MudBlazor/Components/Autocomplete/MudAutocomplete.razor.cs:122-125 | initialisation establishes that the icon tracks the open state |
| `Autocomplete.MudAutocomplete.SelectOption` | src/MudBlazor/Components/Autocomplete/MudAutocomplete.razor.cs:86-97 | the value is committed and the text becomes its display string. When `Items` is non-null the cursor moves to the value's first position there (-1 if absent); otherwise it stays. The pending search is cancelled and the list is closed with the close icon |
| `Autocomplete.MudAutocomplete.ToggleMenu` | src/MudBlazor/Components/Autocomplete/MudAutocomplete.razor.cs:99-108 | when disabled nothing changes; otherwise the open state becomes `ToggledOpen` of the old one and the icon follows it |
| `Autocomplete.MudAutocomplete.StringValueChanged` | src/MudBlazor/Components/Autocomplete/MudAutocomplete.razor.cs:135-141 | every keystroke leaves exactly one debounce delay pending, the old one being cancelled, and touches nothing else |
| `Autocomplete.MudAutocomplete.OnTimerComplete` | src/MudBlazor/Components/Autocomplete/MudAutocomplete.razor.cs:143-166 | the delay is spent. Without a qualifying text nothing else changes. Otherwise `Items` becomes the result truncated by `Take`, the cursor is reset to 0, the list is open exactly when `Items` is non-empty, and the icon follows |
| `Autocomplete.MudAutocomplete.SelectNextItem` | src/MudBlazor/Components/Autocomplete/MudAutocomplete.razor.cs:209-216 | the cursor becomes `NextIndex` of the item count, the old cursor and the increment; nothing else changes |
| `Autocomplete.MudAutocomplete.OnEnterKey` | src/MudBlazor/Components/Autocomplete/MudAutocomplete.razor.cs:218-226 | with the list open and the cursor on an item, that item is selected as by `SelectOption`; otherwise (closed, null or empty items, cursor out of range) nothing changes |
| `Autocomplete.MudAutocomplete.OnInputKeyDown` | src/MudBlazor/Components/Autocomplete/MudAutocomplete.razor.cs:193-207 | Enter acts as `OnEnterKey`; ArrowDown and ArrowUp move the cursor by +1 and -1 through `NextIndex` and change nothing else; every other key changes nothing |
| `Autocomplete.MudAutocomplete.Dispose` | src/MudBlazor/Components/Autocomplete/MudAutocomplete.razor.cs:228-232 | disposal leaves no debounce delay pending |
| `Autocomplete.TypeArrowDownEnter` | src/MudBlazor/Components/Autocomplete/MudAutocomplete.razor.cs:135-226 | typing "ca", a search answering cat, car, cab with `MaxItems` 2, then ArrowDown and Enter, lists cat and car and selects and shows "car" |
| `Rating.SelectIcon` | src/MudBlazor/Components/Rating/MudRatingItem.razor.cs:80-105 | with a hovered value the item is Full exactly when the hover is at or above the item's value; with none, exactly when the selected value is |
| `Rating.HoverDecidesIcon` | src/MudBlazor/Components/Rating/MudRatingItem.razor.cs:82-92 | while a value is hovered the selected value does not affect the icon |
| `Rating.FullIsDownwardClosed` | src/MudBlazor/Components/Rating/MudRatingItem.razor.cs:80-105 | for a fixed group state, if an item shows Full then every item with a smaller or equal value shows Full |
| `Rating.ClickValue` | src/MudBlazor/Components/Rating/MudRatingItem.razor.cs:126-133 | a click reports 0 or the item's own value, the item's value exactly unless it is already selected (and non-zero), so it never reports the current selection except 0 when nothing is selected |
| `Rating.MudRatingItem.constructor` | src/MudBlazor/Components/Rating/MudRatingItem.razor.cs:29-40 | a new item joined to its group, not active, with no cached icon yet |
| `Rating.MudRatingItem.OnParametersSet` | src/MudBlazor/Components/Rating/MudRatingItem.razor.cs:74-78 | the cached `ItemIcon` equals `SelectIcon` of the group's current hovered and selected values |
| `Rating.MudRatingItem.HandleMouseOut` | src/MudBlazor/Components/Rating/MudRatingItem.razor.cs:108-113 | disabled: nothing changes and nothing is raised; enabled: the item becomes inactive and hover is reported as cleared (null) |
| `Rating.MudRatingItem.HandleMouseOver` | src/MudBlazor/Components/Rating/MudRatingItem.razor.cs:115-120 | disabled: nothing changes and nothing is raised; enabled: the item becomes active and reports its value as hovered |
| `Rating.MudRatingItem.HandleClick` | src/MudBlazor/Components/Rating/MudRatingItem.razor.cs:122-134 | disabled: nothing changes and nothing is raised; enabled: the item becomes inactive and reports `ClickValue` of the group's selection |
| `Rating.IconTruthTable` | src/MudBlazor/Components/Rating/MudRatingItem.razor.cs:80-134 | item 3 with selection 3 is Empty under hover 2 and Full without hover; item 2 is Full under hover 4; item 5 with selection 1 is Empty; clicking the selected item 3 reports 0 |

## Left out

- Rendering: CSS class builders (`Classname`, `ClassName`), `Dense`, `MaxHeight`, `Size`, `Color`, `DisableRipple`, `StateHasChanged` and `InvokeAsync`. They produce markup and schedule renders and do not affect the state modelled here.
- Debounce timing: `DebounceInterval`, `AutoResetEvent` and the thread-pool `Timer` are replaced by the flag `timerPending`. A callback already queued when the timer is disposed is not modelled.
- `OnTimerComplete` requires `timerPending`, because only the timer armed by `StringValueChanged` calls it. It fires once, since the timer has an infinite period.
- `SearchFunc`: its asynchronous call is not modelled. Its answer for the current text is the argument of `OnTimerComplete`. Exceptions it throws and a null answer are not modelled. Out-of-order completions are not modelled, and neither is a guard against them (the code has none).
- `Expression.Compile` and the `toStringFunc` cache: the compiled mapping is the constant `ToStringExpression`, fixed when the component is created. A later change to `ToStringExpression` is not modelled; the source's cache ignores such a change after the first use anyway.
- `GetItemString`: a mapping that throws an exception other than `NullReferenceException` would propagate in the source. The model does not represent such exceptions.
- Culture-aware `string.Format` with `Format`, and `object.ToString()`: total function parameters (`FormatWith`, `Show`). Two error paths are therefore not modelled. A badly formed `Format` (one containing `}`, say) makes `string.Format` throw `FormatException`; the try/catch covers only the mapping's invocation, so that exception escapes `GetItemString` and `SelectOption`. A `ToString()` that returns null would leave `Text` null in the source, while `Show` always yields a string.
- The base class `MudBaseInput` is not part of this model: the side effects of its `Value` setter, its `Text` setter (represented by a host assignment to `Text` before `StringValueChanged`), `SelectionChangedFromOutside`, and the base `Dispose` chain.
- The default `OpenIcon` and `CloseIcon` glyphs (`Icons.Material.ArrowDropUp` and `ArrowDropDown`): their SVG text is not part of this model, so the constructor receives them.
- The parent `MudRating` is not part of this model: the class `Rating.MudRating` only holds the two values an item reads (`SelectedValue`, `HoveredValue`). Not modelled: how it handles the notifications, `EventCallback.InvokeAsync` delivery, and the `FullIcon`/`EmptyIcon` strings (represented by `Icon.Full` and `Icon.Empty`).
- `MudRatingItem.IsChecked`: not used by the code-behind; the component's `.razor` markup is not part of this model.
