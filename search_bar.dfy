/** The search bar: a text field whose value is kept in `query`, and two
    ways to hand the trimmed query to the parent's `onSearch` callback, the
    search button and the Enter key. The callback is modelled as the value a
    handler returns: `Some(q)` when it calls `onSearch(q)`, `None` when it
    does not. */
module SearchBarComponent {
  import opened Lists
  import opened Text

  const EnterKey: string := "Enter"

  class SearchBar {
    var query: string

    constructor ()
      ensures query == ""
    {
      query := "";
    }

    /** The input's `onChange`: the field's new text becomes the query.
        Typing never reaches `onSearch`. */
    method Type(value: string)
      modifies this
      ensures query == value
    {
      query := value;
    }

    /** `handleSearch`, the button's click handler: emits `query.trim()`,
        which has no whitespace at either end and is what is left of the
        query once the whitespace at both ends is cut off. */
    method HandleSearch() returns (emitted: string)
      ensures emitted == Trim(query)
      ensures emitted == [] || (!IsWhitespace(emitted[0]) && !IsWhitespace(emitted[|emitted| - 1]))
      ensures |emitted| <= |query|
    {
      emitted := Trim(query);
    }

    /** `handleKeyDown`: the Enter key emits exactly what the button emits;
        any other key emits nothing. */
    method HandleKeyDown(key: string) returns (emitted: Option<string>)
      ensures key == EnterKey ==> emitted == Some(Trim(query))
      ensures key != EnterKey ==> emitted == None
    {
      if key == EnterKey {
        var q := HandleSearch();
        emitted := Some(q);
      } else {
        emitted := None;
      }
    }
  }
}
