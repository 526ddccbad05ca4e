/** Standard output as the two Java examples use it: `System.out.println`
    appends its text and a line separator to what has been printed so far.
    The line separator is fixed to "\n". */
module JavaConsole {
  import opened Wrappers

  const LINE_SEPARATOR: string := "\n"

  /** A Java String reference, which may be null. */
  type JavaString = Option<string>

  /** How string concatenation and println show a String: null as "null". */
  function Show(s: JavaString): string
  {
    match s
    case None => "null"
    case Some(t) => t
  }

  /** The text one println call writes. */
  function Line(text: string): string
  {
    text + LINE_SEPARATOR
  }

  /** Everything printed so far. */
  class Console {
    var out: string

    constructor ()
      ensures out == ""
    {
      out := "";
    }

    method Println(text: string)
      modifies this
      ensures out == old(out) + Line(text)
    {
      out := out + Line(text);
    }
  }

  /** A text with a "\n" inside prints as two lines. */
  lemma EmbeddedNewlineSplitsLine(first: string, second: string)
    ensures Line(first + "\n" + second) == Line(first) + Line(second)
  {
  }
}
