/**
 * The API key panel: an editable draft of the key, a saved key kept in
 * browser storage, and a show/hide toggle for the draft.
 */
module ApiKeyInput {
  import opened Builtins
  import opened Api

  /** What saving a draft stores: the trimmed draft, or nothing when it is blank. */
  function SavedKey(draft: string): (r: Option<string>)
    ensures r.None? <==> AllWhitespace(draft)
    ensures r.Some? ==> r.value == Trim(draft)
    ensures HasKey(r) <==> r.Some?
  {
    var t := Trim(draft);
    if t != "" then Some(t) else None
  }

  /** The draft shown when the panel opens: the stored key, or empty text. */
  function InitialDraft(stored: Option<string>): (d: string)
    ensures HasKey(stored) ==> d == stored.value
    ensures !HasKey(stored) ==> d == ""
  {
    if stored.Some? then stored.value else ""
  }

  /** Opening the panel on a saved key and saving at once stores the same key. */
  lemma {:induction false} SaveAfterReloadKeepsKey(draft: string)
    ensures SavedKey(InitialDraft(SavedKey(draft))) == SavedKey(draft)
  {
    if SavedKey(draft).Some? {
      TrimIdempotent(draft);
    }
  }

  class ApiKeyPanel {
    /** The key in storage (`null` when absent). */
    var storedKey: Option<string>
    /** The text in the input. */
    var draft: string
    /** Whether the input shows the key in clear text. */
    var showKey: bool

    constructor(stored: Option<string>)
      ensures storedKey == stored && draft == InitialDraft(stored) && !showKey
    {
      storedKey := stored;
      draft := InitialDraft(stored);
      showKey := false;
    }

    /** Typing replaces the draft; the stored key is untouched until saved. */
    method Edit(value: string)
      modifies this
      ensures draft == value
      ensures storedKey == old(storedKey) && showKey == old(showKey)
    {
      draft := value;
    }

    /** Saving stores the trimmed draft, or removes the key when the draft is blank. */
    method Save()
      modifies this
      ensures storedKey == SavedKey(draft)
      ensures draft == old(draft) && showKey == old(showKey)
    {
      var t := Trim(draft);
      if t != "" {
        storedKey := Some(t);
      } else {
        storedKey := None;
      }
    }

    /** Clearing empties the draft and removes the stored key. */
    method Clear()
      modifies this
      ensures draft == "" && storedKey == None
      ensures showKey == old(showKey)
    {
      draft := "";
      storedKey := None;
    }

    /** The eye button flips between showing and hiding the draft. */
    method ToggleShow()
      modifies this
      ensures showKey == !old(showKey)
      ensures draft == old(draft) && storedKey == old(storedKey)
    {
      showKey := !showKey;
    }
  }
}
