/** NameModal: the dialog that asks for a polygon's name and hands the trimmed name to `onSave`. */
module NameModal {
  import opened Wrappers
  import opened JsText

  /** The name `handleSave` passes to `onSave`, if it passes one at all. */
  function SavedName(input: string): (r: Option<string>)
    ensures r.Some? <==> !AllWhitespace(input)
    ensures r.Some? ==> r.value != [] && r.value == Trim(input)
  {
    TrimEmptyIff(input);
    if Trim(input) != [] then Some(Trim(input)) else None
  }

  /** A saved name has no surrounding whitespace, so saving it again gives it back. */
  lemma SavedNameStable(input: string)
    requires SavedName(input).Some?
    ensures SavedName(SavedName(input).value) == SavedName(input)
  {
    TrimIdempotent(input);
  }

  /** The dialog's component state: the text in its input field. */
  class NameModal {
    var name: string

    /** `useState('')`. */
    constructor()
      ensures name == ""
    {
      name := "";
    }

    /** The input's `onChange`. */
    method OnChange(value: string)
      modifies this
      ensures name == value
    {
      name := value;
    }

    /**
     * `handleSave`: calls `onSave` with the trimmed name only when it is not
     * blank, and then empties the field; a blank name changes nothing.
     */
    method HandleSave() returns (onSave: Option<string>)
      modifies this
      ensures onSave == SavedName(old(name))
      ensures name == if onSave.Some? then "" else old(name)
    {
      var trimmed := Trim(name);
      TrimEmptyIff(name);
      if trimmed != [] {
        onSave := Some(trimmed);
        name := "";
      } else {
        onSave := None;
      }
    }

    /**
     * The Cancel button and the overlay both call `onClose`. The method
     * has no `modifies` clause: that empty frame is what states that the
     * typed name is kept.
     */
    method Cancel() returns (onCloseCalled: bool)
      ensures onCloseCalled
    {
      onCloseCalled := true;
    }

    /** What is rendered: nothing when the dialog is closed, else an input showing the name. */
    function Render(isOpen: bool): (view: Option<string>)
      reads this
      ensures view.Some? <==> isOpen
      ensures view.Some? ==> view.value == name
    {
      if !isOpen then None else Some(name)
    }
  }
}
