/**
 * The part of an HTML single-selection `<select>` element that the
 * provisioning page relies on: its option list, `length`, `value`,
 * `remove(i)`, `add(option)` and a user's choice of an option.
 *
 * A drop-down list of this kind has exactly one selected option whenever it
 * has any options: removing the selected option selects the first remaining
 * one, and adding an option to an empty list selects it. `value` is the
 * selected option's value, or the empty string for an empty list.
 */
module Dropdown {

  /** One `<option>`: its visible label and its value. */
  datatype Choice = Choice(text: string, value: string)

  /** Index of the selected option after `remove(i)` on a list of `n` options. */
  function IndexAfterRemove(selected: int, i: int, n: int): int {
    if !(0 <= i < n) || i > selected then selected
    else if i < selected then selected - 1
    else if n > 1 then 0
    else -1
  }

  class Select {
    var options: seq<Choice>
    /** The selected index, -1 exactly when there are no options. */
    var selectedIndex: int

    predicate Valid()
      reads this
    {
      -1 <= selectedIndex < |options| && (selectedIndex == -1 <==> options == [])
    }

    /** The element's `value`. */
    function Value(): string
      reads this
      requires Valid()
    {
      if selectedIndex == -1 then "" else options[selectedIndex].value
    }

    /** The page template's options; the first one starts selected. */
    constructor (template: seq<Choice>)
      ensures Valid() && options == template
      ensures selectedIndex == if template == [] then -1 else 0
    {
      options := template;
      selectedIndex := if template == [] then -1 else 0;
    }

    /** `remove(i)`: drops option `i`; an index out of range does nothing. */
    method Remove(i: int)
      requires Valid()
      modifies this
      ensures Valid()
      ensures options == if 0 <= i < |old(options)| then old(options[..i] + options[i + 1..]) else old(options)
      ensures selectedIndex == IndexAfterRemove(old(selectedIndex), i, |old(options)|)
    {
      var n := |options|;
      if 0 <= i < n {
        options := options[..i] + options[i + 1..];
      }
      selectedIndex := IndexAfterRemove(selectedIndex, i, n);
    }

    /** `add(option)`: appends; an empty list selects its new first option. */
    method Add(c: Choice)
      requires Valid()
      modifies this
      ensures Valid()
      ensures options == old(options) + [c]
      ensures selectedIndex == if old(selectedIndex) == -1 then 0 else old(selectedIndex)
    {
      options := options + [c];
      if selectedIndex == -1 {
        selectedIndex := 0;
      }
    }

    /** The user picks option `i` from the list. */
    method Choose(i: int)
      requires Valid() && 0 <= i < |options|
      modifies this
      ensures Valid() && options == old(options) && selectedIndex == i
    {
      selectedIndex := i;
    }
  }
}
