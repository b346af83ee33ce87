/**
 The synopsis token of one option: its flag form, followed by one space
 unless the option's destination is boolean.
 */
module Tokens {
  import opened Specs

  /** `synopsis(spec, form)`: the form alone for a boolean destination,
      otherwise the form with one trailing space and no placeholder word. */
  function Synopsis(spec: Spec, form: string): (r: string)
    ensures |r| == |form| + (if spec.isBool then 0 else 1)
    ensures r[..|form|] == form
    ensures !spec.isBool ==> r[|form|] == ' '
  {
    if spec.isBool then form else form + " "
  }

  /** The flag form both renderers build: the short name after a dash when
      there is one, otherwise the long name after a dash. */
  function FlagForm(spec: Spec): (r: string)
    ensures |r| > 0 && r[0] == '-'
    ensures spec.short != "" ==> r[1..] == spec.short
    ensures spec.short == "" ==> r[1..] == spec.long
  {
    if spec.short != "" then "-" + spec.short else "-" + spec.long
  }

  /** The token of an option, as it appears in both renderers. */
  function Token(spec: Spec): string
  {
    Synopsis(spec, FlagForm(spec))
  }

  /** The token is a dash, the preferred flag name, and a single space
      exactly when the destination is not boolean. */
  lemma TokenShape(spec: Spec)
    ensures var name := if spec.short != "" then spec.short else spec.long;
      Token(spec) == "-" + name + (if spec.isBool then "" else " ")
  {
  }

  /** The token holds a line break only when the chosen flag name does. */
  lemma TokenNewlines(spec: Spec)
    ensures '\n' in Token(spec) <==> '\n' in (if spec.short != "" then spec.short else spec.long)
  {
  }
}
