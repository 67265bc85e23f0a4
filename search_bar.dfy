/**
 * The search box: a controlled text input whose submit emits the
 * trimmed query, and only when something is left after trimming.
 */
module SearchBar {
  import opened Builtins

  /** The key name that submits the query from the keyboard. */
  const EnterKey := "Enter"

  /** What a submit emits for the text currently in the box. */
  function Submission(query: string): (r: Option<string>)
    ensures r.None? <==> AllWhitespace(query)
    ensures r.Some? ==> r.value == Trim(query)
    ensures r.Some? ==> r.value != [] && !IsWhitespace(r.value[0]) && !IsWhitespace(r.value[|r.value| - 1])
  {
    var t := Trim(query);
    if t != "" then Some(t) else None
  }

  /** An emitted query, typed back in and submitted again, emits itself. */
  lemma {:induction false} SubmissionStable(query: string)
    requires Submission(query).Some?
    ensures Submission(Submission(query).value) == Submission(query)
  {
    TrimIdempotent(query);
  }

  class SearchBox {
    /** The text in the input; it starts out empty. */
    var query: string

    constructor()
      ensures query == ""
    {
      query := "";
    }

    /** Typing replaces the text with the input's new value. */
    method Change(value: string)
      modifies this
      ensures query == value
    {
      query := value;
    }

    /** The clear button empties the box and emits nothing. */
    method Clear()
      modifies this
      ensures query == ""
    {
      query := "";
    }

    /** Submitting the form: the box keeps its text; the result is what reaches the page. */
    method Search() returns (emitted: Option<string>)
      ensures emitted.None? <==> AllWhitespace(query)
      ensures emitted.Some? ==> emitted.value == Trim(query) && emitted.value != ""
      ensures emitted == Submission(query)
    {
      var t := Trim(query);
      if t != "" {
        emitted := Some(t);
      } else {
        emitted := None;
      }
    }

    /** A key press searches on Enter and does nothing otherwise. */
    method KeyDown(key: string) returns (emitted: Option<string>)
      ensures key == EnterKey ==> emitted == Submission(query)
      ensures key != EnterKey ==> emitted == None
    {
      if key == EnterKey {
        emitted := Search();
      } else {
        emitted := None;
      }
    }
  }
}
