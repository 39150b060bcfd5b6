/** The explore search box: a local copy of the query mirrored to the parent. */
module SearchBar {
  import opened Wrappers

  class SearchBox {
    var searchQuery: string

    /** The query starts as the `value` prop. */
    constructor (value: string)
      ensures searchQuery == value
      ensures ShowsClearButton() <==> value != ""
    {
      searchQuery := value;
    }

    /** Typing: the query becomes the new value and the parent is told the same value. */
    method HandleInputChange(newValue: string) returns (reported: string)
      modifies this
      ensures searchQuery == newValue && reported == newValue
      ensures ShowsClearButton() <==> newValue != ""
    {
      searchQuery := newValue;
      reported := newValue;
    }

    /** The clear button: the query becomes empty and the parent is told "". */
    method HandleClear() returns (reported: string)
      modifies this
      ensures searchQuery == "" && reported == ""
      ensures !ShowsClearButton()
    {
      searchQuery := "";
      reported := "";
    }

    /** A key press: Enter hands the current query to `onSearch`; any other key hands over nothing. */
    method HandleKeyDown(key: string) returns (search: Option<string>)
      ensures search.Some? <==> key == "Enter"
      ensures search.Some? ==> search.value == searchQuery
    {
      if key == "Enter" {
        search := Some(searchQuery);
      } else {
        search := None;
      }
    }

    /** The clear button is shown while the query is non-empty. */
    predicate ShowsClearButton()
      reads this
    {
      searchQuery != ""
    }
  }
}
