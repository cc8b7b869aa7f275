/** Python's `%` string-formatting operator, restricted to the conversions the
    plugin's templates use: `%s` (insert the next argument) and `%%` (a literal `%`). */
module PyFormat {
  import opened Wrappers

  /** The exceptions Python raises from `fmt % args`. */
  datatype FormatError =
    | IncompleteFormat                 // a `%` at the very end of the template
    | UnsupportedFormatChar(c: char)   // a `%` followed by anything but `s` or `%`
    | NotEnoughArguments               // more `%s` slots than arguments
    | NotAllArgumentsConverted         // more arguments than `%s` slots

  /** Puts `p` in front of a successful result and passes an error through. */
  function Prepend(p: string, r: Result<string, FormatError>): Result<string, FormatError>
  {
    match r
    case Ok(s) => Ok(p + s)
    case Err(e) => Err(e)
  }

  /** `fmt % tuple(args)`: the template scanned left to right, each `%s` replaced by
      the next argument (arguments are inserted as they are and not scanned again). */
  function Format(fmt: string, args: seq<string>): Result<string, FormatError>
    decreases |fmt|
  {
    if fmt == [] then
      if args == [] then Ok("") else Err(NotAllArgumentsConverted)
    else if fmt[0] != '%' then
      Prepend([fmt[0]], Format(fmt[1..], args))
    else if |fmt| == 1 then
      Err(IncompleteFormat)
    else if fmt[1] == '%' then
      Prepend("%", Format(fmt[2..], args))
    else if fmt[1] != 's' then
      Err(UnsupportedFormatChar(fmt[1]))
    else if args == [] then
      Err(NotEnoughArguments)
    else
      Prepend(args[0], Format(fmt[2..], args[1..]))
  }

  /** Text without a `%` is copied to the output verbatim. */
  lemma {:induction false} FormatLiteral(lit: string, rest: string, args: seq<string>)
    requires '%' !in lit
    ensures Format(lit + rest, args) == Prepend(lit, Format(rest, args))
    decreases |lit|
  {
    if lit == [] {
      assert lit + rest == rest;
      match Format(rest, args)
      case Ok(s) => assert lit + s == s;
      case Err(_) =>
    } else {
      assert lit[0] in lit;
      assert (lit + rest)[0] == lit[0];
      assert (lit + rest)[1..] == lit[1..] + rest;
      FormatLiteral(lit[1..], rest, args);
      match Format(rest, args)
      case Ok(s) =>
        assert [lit[0]] + (lit[1..] + s) == lit + s;
      case Err(_) =>
    }
  }

  /** A `%s` slot consumes exactly the next argument. */
  lemma FormatSlot(x: string, rest: string, args: seq<string>)
    ensures Format("%s" + rest, [x] + args) == Prepend(x, Format(rest, args))
  {
    var f := "%s" + rest;
    assert f[0] == '%' && f[1] == 's' && f[2..] == rest;
    assert ([x] + args)[1..] == args;
  }

  /** A `%`-free literal followed by a `%s` slot: the literal, then the next argument. */
  lemma LiteralThenSlot(lit: string, rest: string, args: seq<string>)
    requires '%' !in lit && args != []
    ensures Format(lit + "%s" + rest, args) == Prepend(lit + args[0], Format(rest, args[1..]))
  {
    assert lit + "%s" + rest == lit + ("%s" + rest);
    assert args == [args[0]] + args[1..];
    FormatLiteral(lit, "%s" + rest, args);
    FormatSlot(args[0], rest, args[1..]);
    match Format(rest, args[1..])
    case Ok(s) => assert lit + (args[0] + s) == lit + args[0] + s;
    case Err(_) =>
  }

  /** One more slot in front of a template that formats successfully. */
  lemma SlotInFront(lit: string, t: string, args: seq<string>, filled: string)
    requires '%' !in lit && args != []
    requires Format(t, args[1..]) == Ok(filled)
    ensures Format(lit + "%s" + t, args) == Ok(lit + args[0] + filled)
  {
    LiteralThenSlot(lit, t, args);
  }

  /** A one-slot template: `l0 % (a,)` with `%`-free text around the slot. */
  lemma FormatOneSlot(l0: string, l1: string, a: string)
    requires '%' !in l0 && '%' !in l1
    ensures Format(l0 + "%s" + l1, [a]) == Ok(l0 + a + l1)
  {
    FormatLiteral(l1, "", []);
    assert l1 + "" == l1;
    assert Format("", []) == Ok("");
    assert [a][1..] == [];
    SlotInFront(l0, l1, [a], l1);
  }

  /** A two-slot template filled with two arguments, in slot order. */
  lemma FormatTwoSlots(l0: string, l1: string, l2: string, a: string, b: string)
    requires '%' !in l0 && '%' !in l1 && '%' !in l2
    ensures Format(l0 + "%s" + l1 + "%s" + l2, [a, b]) == Ok(l0 + a + l1 + b + l2)
  {
    FormatOneSlot(l1, l2, b);
    assert [a, b][1..] == [b];
    SlotInFront(l0, l1 + "%s" + l2, [a, b], l1 + b + l2);
    assert l0 + "%s" + (l1 + "%s" + l2) == l0 + "%s" + l1 + "%s" + l2;
    assert l0 + a + (l1 + b + l2) == l0 + a + l1 + b + l2;
  }

  /** A template of four `%s` slots between `%`-free literals, filled with four
      arguments, is the literals and the arguments interleaved in slot order. */
  lemma FormatFourSlots(l0: string, l1: string, l2: string, l3: string, l4: string,
                        a: string, b: string, c: string, d: string)
    requires '%' !in l0 && '%' !in l1 && '%' !in l2 && '%' !in l3 && '%' !in l4
    ensures Format(l0 + "%s" + l1 + "%s" + l2 + "%s" + l3 + "%s" + l4, [a, b, c, d])
         == Ok(l0 + a + l1 + b + l2 + c + l3 + d + l4)
  {
    var t := FormatNested(l0, l1, l2, l3, l4, a, b, c, d);
    Regroup(l0, "%s", l1, "%s", l2, "%s", l3, "%s", l4);
    Regroup(l0, a, l1, b, l2, c, l3, d, l4);
  }

  /** The same, with the template grouped from the right as the proof builds it. */
  lemma FormatNested(l0: string, l1: string, l2: string, l3: string, l4: string,
                        a: string, b: string, c: string, d: string) returns (t: string)
    requires '%' !in l0 && '%' !in l1 && '%' !in l2 && '%' !in l3 && '%' !in l4
    ensures t == l0 + "%s" + (l1 + "%s" + (l2 + "%s" + (l3 + "%s" + l4)))
    ensures Format(t, [a, b, c, d]) == Ok(l0 + a + (l1 + b + (l2 + c + (l3 + d + l4))))
  {
    var args := [a, b, c, d];
    assert args[1..] == [b, c, d] && args[1..][1..] == [c, d] && args[1..][1..][1..] == [d];
    FormatLiteral(l4, "", []);
    assert Format("", []) == Ok("");
    assert [d][1..] == [];
    assert l4 + "" == l4;
    var t3 := l3 + "%s" + l4;
    SlotInFront(l3, l4, [d], l4);
    var t2 := l2 + "%s" + t3;
    SlotInFront(l2, t3, [c, d], l3 + d + l4);
    var t1 := l1 + "%s" + t2;
    SlotInFront(l1, t2, [b, c, d], l2 + c + (l3 + d + l4));
    SlotInFront(l0, t1, args, l1 + b + (l2 + c + (l3 + d + l4)));
    t := l0 + "%s" + t1;
  }

  // Proof helpers below this line only split string literals or regroup
  // concatenations, in steps small enough for the solver; a reader can skip them.

  lemma Regroup(s0: string, s1: string, s2: string, s3: string, s4: string,
                s5: string, s6: string, s7: string, s8: string)
    ensures s0 + s1 + s2 + s3 + s4 + s5 + s6 + s7 + s8
         == s0 + s1 + (s2 + s3 + (s4 + s5 + (s6 + s7 + s8)))
  {
  }
}
