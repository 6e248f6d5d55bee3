/** A growable character buffer appended to in place, as the prompt is built. */
module Text {

  class StringBuilder {
    /** The characters appended so far. */
    var chars: seq<char>

    /** A new, empty buffer. */
    constructor ()
      ensures chars == []
    {
      chars := [];
    }

    /** Appends `s` at the end of the buffer. */
    method Append(s: string)
      modifies this
      ensures chars == old(chars) + s
    {
      chars := chars + s;
    }

    /** The buffer's contents as a string. */
    method ToString() returns (s: string)
      ensures s == chars
    {
      s := chars;
    }
  }
}
