/** The boundary-conditions example: print the successor of `value` when it
    is below `length`, computed inline or through a named local. Both compute
    `value + 1` in Java's 32-bit `int`, which wraps around at
    Integer.MAX_VALUE. */
module BoundaryConditionsExample {
  import opened Decimal
  import opened JavaConsole

  const INT_MIN: int := -0x8000_0000
  const INT_MAX: int := 0x7fff_ffff

  newtype int32 = x: int | -0x8000_0000 <= x < 0x8000_0000

  /** The 32-bit two's complement value of an exact integer result. */
  function Wrap(x: int): (r: int32)
    ensures INT_MIN <= x <= INT_MAX ==> r as int == x
    ensures INT_MAX < x <= INT_MAX + 0x1_0000_0000 ==> r as int == x - 0x1_0000_0000
  {
    ((x - INT_MIN) % 0x1_0000_0000 + INT_MIN) as int32
  }

  /** `value + 1` in Java's int arithmetic. */
  function Successor(value: int32): (next: int32)
    ensures value as int < INT_MAX ==> next as int == value as int + 1
    ensures value as int == INT_MAX ==> next as int == INT_MIN
  {
    Wrap(value as int + 1)
  }

  /** What either method prints. */
  function Printed(value: int32, length: int32): string
  {
    var next := Successor(value);
    if next < length then Line(IntToString(next as int)) else ""
  }

  class BoundaryConditions {

    constructor ()
    {
    }

    method DontDo(console: Console, value: int32, length: int32)
      modifies console
      ensures console.out == old(console.out) + Printed(value, length)
    {
      if Successor(value) < length {
        console.Println(IntToString(Successor(value) as int));
      }
    }

    method DoInsteald(console: Console, value: int32, length: int32)
      modifies console
      ensures console.out == old(console.out) + Printed(value, length)
    {
      var nextValue := Successor(value);
      if nextValue < length {
        console.Println(IntToString(nextValue as int));
      }
    }
  }

  /** Running both methods on fresh consoles gives the same text. */
  method CompareOutputs(value: int32, length: int32) returns (dontDo: string, doInstead: string)
    ensures dontDo == doInstead
    ensures dontDo == "" <==> (value as int == INT_MAX && length as int == INT_MIN) ||
                               (value as int < INT_MAX && value as int + 1 >= length as int)
  {
    var example := new BoundaryConditions();
    var first := new Console();
    example.DontDo(first, value, length);
    dontDo := first.out;
    var second := new Console();
    example.DoInsteald(second, value, length);
    doInstead := second.out;
  }

  /** At Integer.MAX_VALUE the successor wraps to Integer.MIN_VALUE, which is
      below every length but MIN_VALUE itself, so both methods print a
      negative number. */
  lemma WrapAroundAtMaxValue(length: int32)
    requires length as int > INT_MIN
    ensures Printed(INT_MAX as int32, length) == Line(IntToString(INT_MIN))
    ensures Printed(INT_MAX as int32, length)[0] == '-'
  {
  }
}
