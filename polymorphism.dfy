/** The polymorphism example: print a message and optional details with a
    null check, or through two overloads where the longer one delegates to
    the shorter and then prints the details on a line of their own. */
module PolymorphismExample {
  import opened Wrappers
  import opened JavaConsole

  class Polymorphism {

    constructor ()
    {
    }

    /** dontDo(message, details) */
    method DontDo(console: Console, message: JavaString, details: JavaString)
      modifies console
      ensures details.Some? ==> console.out == old(console.out) + Line(Show(message) + "\n" + Show(details))
      ensures details.None? ==> console.out == old(console.out) + Line(Show(message))
    {
      if details.Some? {
        console.Println(Show(message) + "\n" + Show(details));
      } else {
        console.Println(Show(message));
      }
    }

    /** doInstead(message) */
    method DoInstead(console: Console, message: JavaString)
      modifies console
      ensures console.out == old(console.out) + Line(Show(message))
    {
      console.Println(Show(message));
    }

    /** doInstead(message, details) */
    method DoInsteadWithDetails(console: Console, message: JavaString, details: JavaString)
      modifies console
      ensures console.out == old(console.out) + Line(Show(message)) + Line(Show(details))
    {
      DoInstead(console, message);
      console.Println(Show(details));
    }
  }

  /** With details, the two designs print the same text. */
  method CompareWithDetails(message: JavaString, details: string) returns (dontDo: string, doInstead: string)
    ensures dontDo == doInstead
    ensures doInstead == Line(Show(message)) + Line(details)
  {
    var example := new Polymorphism();
    var first := new Console();
    example.DontDo(first, message, Some(details));
    dontDo := first.out;
    var second := new Console();
    example.DoInsteadWithDetails(second, message, Some(details));
    doInstead := second.out;
    EmbeddedNewlineSplitsLine(Show(message), details);
  }

  /** Without details, dontDo prints what the one-argument doInstead prints. */
  method CompareWithoutDetails(message: JavaString) returns (dontDo: string, doInstead: string)
    ensures dontDo == doInstead
    ensures doInstead == Line(Show(message))
  {
    var example := new Polymorphism();
    var first := new Console();
    example.DontDo(first, message, None);
    dontDo := first.out;
    var second := new Console();
    example.DoInstead(second, message);
    doInstead := second.out;
  }

  /** Passing null details to the two-argument doInstead is not the same as
      dontDo with null details: the overload prints a second line "null". */
  method CompareNullDetails(message: JavaString) returns (dontDo: string, doInstead: string)
    ensures dontDo != doInstead
    ensures doInstead == dontDo + "null\n"
  {
    var example := new Polymorphism();
    var first := new Console();
    example.DontDo(first, message, None);
    dontDo := first.out;
    var second := new Console();
    example.DoInsteadWithDetails(second, message, None);
    doInstead := second.out;
  }
}
