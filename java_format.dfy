/**
 * A model of java.lang.String.format restricted to the two conversions the
 * modelled code relies on: `%s` (the next argument, inserted verbatim) and
 * `%%` (a literal percent sign). None stands for the exception Java throws:
 * a dangling `%` at the end, a `%s` with no argument left, or any other
 * conversion, which this model does not cover. Surplus arguments are ignored,
 * as in Java.
 */
module JavaFormat {
  import opened Wrappers

  /** A template text that contains no format specifier at all. */
  predicate IsLiteral(s: string) {
    forall i :: 0 <= i < |s| ==> s[i] != '%'
  }

  /** Puts `prefix` in front of a successful result and keeps a failure. */
  function Prepend(prefix: string, o: Option<string>): Option<string> {
    match o
    case None => None
    case Some(s) => Some(prefix + s)
  }

  /**
   * `%s` inserts the next argument verbatim, `%%` gives a percent sign, any other
   * character is copied. A template without specifiers formats to itself.
   */
  function Format(template: string, args: seq<string>): (r: Option<string>)
    ensures IsLiteral(template) ==> r == Some(template)
    decreases |template|
  {
    if template == [] then Some("")
    else if template[0] != '%' then
      assert template == [template[0]] + template[1..];
      Prepend([template[0]], Format(template[1..], args))
    else if |template| == 1 then None
    else if template[1] == '%' then Prepend("%", Format(template[2..], args))
    else if template[1] == 's' then
      if args == [] then None else Prepend(args[0], Format(template[2..], args[1..]))
    else None
  }

  /** Literal text in front of the template is copied unchanged and consumes no argument. */
  lemma {:induction false} FormatLiteralPrefix(lit: string, rest: string, args: seq<string>)
    requires IsLiteral(lit)
    ensures Format(lit + rest, args) == Prepend(lit, Format(rest, args))
    decreases |lit|
  {
    if lit != [] {
      assert (lit + rest)[0] == lit[0];
      assert (lit + rest)[1..] == lit[1..] + rest;
      assert Format(lit + rest, args) == Prepend([lit[0]], Format(lit[1..] + rest, args));
      FormatLiteralPrefix(lit[1..], rest, args);
      match Format(rest, args)
      case None =>
      case Some(s) =>
        assert [lit[0]] + (lit[1..] + s) == lit + s;
    } else {
      assert lit + rest == rest;
      match Format(rest, args)
      case None =>
      case Some(s) => assert lit + s == s;
    }
  }

  /** A template `lit + "%s"` with one argument yields the literal followed by the argument, verbatim. */
  lemma FormatTrailingString(lit: string, arg: string)
    requires IsLiteral(lit)
    ensures Format(lit + "%s", [arg]) == Some(lit + arg)
  {
    FormatLiteralPrefix(lit, "%s", [arg]);
    assert Format("%s", [arg]) == Some(arg + "");
    assert arg + "" == arg;
  }

  /** A `%s` with no argument left is an error, wherever it stands after literal text. */
  lemma FormatMissingArgument(lit: string)
    requires IsLiteral(lit)
    ensures Format(lit + "%s", []) == None
  {
    FormatLiteralPrefix(lit, "%s", []);
  }
}
