/**
 The one-line usage synopsis: `usage: ` and the program name, one item per
 option, then one item per positional, then a line break.
 */
module UsageLine {
  import opened Specs
  import opened Classifier
  import opened Tokens

  /** The usage item of an option: a space, then its token, in square
      brackets unless the option is required. */
  function OptionItem(o: Spec): string
  {
    (if o.required then " " else " [") + Token(o) + (if o.required then "" else "]")
  }

  /** The usage item of a positional: a space, then its upper-cased long
      name, or `[NAME [NAME ...]]` when it takes several values. */
  function PositionalItem(p: Spec): string
  {
    var up := Upper(p.long);
    " " + (if p.multiple then "[" + up + " [" + up + " ...]]" else up)
  }

  /** The whole usage line for program name `prog`. */
  function Line(prog: string, specs: seq<Spec>): string
  {
    "usage: " + prog + Join(Options(specs), OptionItem) + Join(Positionals(specs), PositionalItem) + "\n"
  }

  /** One pass of the option loop of `WriteUsage`: a space, an opening
      bracket unless required, the token, a closing bracket unless required. */
  method WriteOptionItem(out: string, spec: Spec) returns (out': string)
    ensures out' == out + OptionItem(spec)
  {
    ghost var open := if spec.required then " " else " [";
    out' := out + " ";
    if !spec.required {
      AppendAssoc(out, " ", "[");
      assert " " + "[" == " [";
      out' := out' + "[";
    }
    assert out' == out + open;
    var token: string;
    if spec.short != "" {
      token := Synopsis(spec, "-" + spec.short);
    } else {
      token := Synopsis(spec, "-" + spec.long);
    }
    assert token == Token(spec);
    AppendAssoc(out, open, token);
    out' := out' + token;
    if !spec.required {
      AppendAssoc(out, open + token, "]");
      out' := out' + "]";
    }
  }

  /** One pass of the positional loop of `WriteUsage`: a space, then the
      upper-cased name, repeated in the bracketed form when it takes
      several values. */
  method WritePositionalItem(out: string, spec: Spec) returns (out': string)
    ensures out' == out + PositionalItem(spec)
  {
    out' := out + " ";
    var up := Upper(spec.long);
    if spec.multiple {
      AppendAssoc(out, " ", "[" + up + " [" + up + " ...]]");
      out' := out' + ("[" + up + " [" + up + " ...]]");
    } else {
      AppendAssoc(out, " ", up);
      out' := out' + up;
    }
  }

  /** The option loop of `WriteUsage` (usage.go:48-62). */
  method WriteOptionItems(out: string, options: seq<Spec>) returns (out': string)
    ensures out' == out + Join(options, OptionItem)
  {
    out' := out;
    assert options[..0] == [];
    var i := 0;
    while i < |options|
      invariant 0 <= i <= |options|
      invariant out' == out + Join(options[..i], OptionItem)
    {
      JoinOfLongerPrefix(options, i, OptionItem);
      AppendAssoc(out, Join(options[..i], OptionItem), OptionItem(options[i]));
      out' := WriteOptionItem(out', options[i]);
      i := i + 1;
    }
    assert options[..i] == options;
  }

  /** The positional loop of `WriteUsage` (usage.go:65-74). */
  method WritePositionalItems(out: string, positionals: seq<Spec>) returns (out': string)
    ensures out' == out + Join(positionals, PositionalItem)
  {
    out' := out;
    assert positionals[..0] == [];
    var j := 0;
    while j < |positionals|
      invariant 0 <= j <= |positionals|
      invariant out' == out + Join(positionals[..j], PositionalItem)
    {
      JoinOfLongerPrefix(positionals, j, PositionalItem);
      AppendAssoc(out, Join(positionals[..j], PositionalItem), PositionalItem(positionals[j]));
      out' := WritePositionalItem(out', positionals[j]);
      j := j + 1;
    }
    assert positionals[..j] == positionals;
  }

  /** `WriteUsage`: classify, then write the prefix, the option items, the
      positional items and the final line break. */
  method WriteUsage(prog: string, specs: seq<Spec>) returns (out: string)
    ensures out == Line(prog, specs)
  {
    var positionals, options := Classify(specs);
    out := "usage: " + prog;
    out := WriteOptionItems(out, options);
    out := WritePositionalItems(out, positionals);
    out := out + "\n";
  }

  /** With no specs the line is the prefix, the program name and a line break. */
  lemma LineOfNoSpecs(prog: string)
    ensures Line(prog, []) == "usage: " + prog + "\n"
  {
  }

  /** A non-required option's item is bracketed and a required one's is bare. */
  lemma OptionItemBrackets(o: Spec)
    ensures OptionItem(o)[..2] == " [" <==> !o.required
    ensures !o.required ==> OptionItem(o)[|OptionItem(o)| - 1] == ']'
    ensures o.required ==> OptionItem(o)[1..] == Token(o)
    ensures o.required ==> OptionItem(o) == " " + Token(o)
    ensures !o.required ==> OptionItem(o) == " [" + Token(o) + "]"
  {
    var t := Token(o);
    assert t[0] == '-';
    if o.required {
      assert OptionItem(o) == " " + t;
      assert OptionItem(o)[1] == '-';
    } else {
      assert OptionItem(o) == " [" + t + "]";
    }
  }

  /** A positional's item is bare exactly when it takes a single value. */
  lemma PositionalItemShape(p: Spec)
    ensures !p.multiple ==> PositionalItem(p) == " " + Upper(p.long)
    ensures p.multiple ==> PositionalItem(p)[1] == '[' && PositionalItem(p)[|PositionalItem(p)| - 6..] == " ...]]"
    ensures p.multiple ==> PositionalItem(p) == " [" + Upper(p.long) + " [" + Upper(p.long) + " ...]]"
  {
    if p.multiple {
      var up := Upper(p.long);
      assert " " + ("[" + up + " [" + up + " ...]]") == " [" + up + " [" + up + " ...]]";
    }
  }

  /** Declaring one more option puts its item after the items of the
      earlier options and before every positional's item. */
  lemma LineAfterNewOption(prog: string, specs: seq<Spec>, o: Spec)
    requires !o.positional
    ensures Line(prog, specs + [o]) ==
      "usage: " + prog + Join(Options(specs), OptionItem) + OptionItem(o) + Join(Positionals(specs), PositionalItem) + "\n"
  {
    var s' := specs + [o];
    var os := Options(specs);
    assert s'[..|s'| - 1] == specs;
    assert Options(s') == os + [o];
    assert Positionals(s') == Positionals(specs);
    assert (os + [o])[..|os + [o]| - 1] == os;
    assert Join(os + [o], OptionItem) == Join(os, OptionItem) + OptionItem(o);
    AppendAssoc("usage: " + prog, Join(os, OptionItem), OptionItem(o));
  }

  /** Declaring one more positional puts its item last. */
  lemma LineAfterNewPositional(prog: string, specs: seq<Spec>, p: Spec)
    requires p.positional
    ensures Line(prog, specs + [p]) ==
      "usage: " + prog + Join(Options(specs), OptionItem) + Join(Positionals(specs), PositionalItem) + PositionalItem(p) + "\n"
  {
    PartitionOfConcat(specs, [p]);
    assert [p][..0] == [];
    JoinOfConcat(Positionals(specs), [p], PositionalItem);
    assert Options(specs + [p]) == Options(specs);
  }

  /** Options always come before positionals: where an option and a
      positional sit relative to each other in the declaration list does
      not change the usage line. */
  lemma LineIgnoresOrderAcrossGroups(prog: string, a: seq<Spec>, p: Spec, o: Spec, b: seq<Spec>)
    requires p.positional && !o.positional
    ensures Line(prog, a + [p, o] + b) == Line(prog, a + [o, p] + b)
  {
    var s1, s2 := a + [p, o] + b, a + [o, p] + b;
    PartitionOfConcat(a + [p, o], b);
    PartitionOfConcat(a, [p, o]);
    PartitionOfConcat(a + [o, p], b);
    PartitionOfConcat(a, [o, p]);
    assert [p] + [o] == [p, o] && [o] + [p] == [o, p];
    PartitionOfConcat([p], [o]);
    PartitionOfConcat([o], [p]);
    assert [p][..0] == [] && [o][..0] == [];
    assert Options([p]) == [] && Options([o]) == [o];
    assert Positionals([p]) == [p] && Positionals([o]) == [];
    assert Options([p, o]) == Options([o, p]) == [o];
    assert Positionals([p, o]) == Positionals([o, p]) == [p];
    assert Options(s1) == Options(s2);
    assert Positionals(s1) == Positionals(s2);
  }

  /** When no name holds a line break, the usage line is a single line: its
      only line break is the final one. */
  lemma LineIsOneLine(prog: string, specs: seq<Spec>)
    requires '\n' !in prog
    requires forall k :: 0 <= k < |specs| ==> '\n' !in specs[k].short && '\n' !in specs[k].long
    ensures var l := Line(prog, specs); l[|l| - 1] == '\n' && '\n' !in l[..|l| - 1]
  {
    forall k | 0 <= k < |Options(specs)|
      ensures '\n' !in OptionItem(Options(specs)[k])
    {
      var o := Options(specs)[k];
      PartitionMembership(specs, o);
      TokenNewlines(o);
    }
    forall k | 0 <= k < |Positionals(specs)|
      ensures '\n' !in PositionalItem(Positionals(specs)[k])
    {
      var p := Positionals(specs)[k];
      PartitionMembership(specs, p);
      UpperKeepsNewlines(p.long);
    }
    JoinHasNoNewline(Options(specs), OptionItem);
    JoinHasNoNewline(Positionals(specs), PositionalItem);
    var l := Line(prog, specs);
    assert l[..|l| - 1] == "usage: " + prog + Join(Options(specs), OptionItem) + Join(Positionals(specs), PositionalItem);
  }

  /** A required boolean option with a short name, then a single-valued
      positional: `usage: prog -x FILE`. */
  lemma LineOfRequiredFlagAndPositional(prog: string, o: Spec, p: Spec)
    requires !o.positional && o.required && o.isBool && o.short != ""
    requires p.positional && !p.multiple
    ensures Line(prog, [o, p]) == "usage: " + prog + " -" + o.short + " " + Upper(p.long) + "\n"
  {
    assert Options([o, p]) == [o] && Positionals([o, p]) == [p] by {
      assert [o] + [p] == [o, p] && [o][..0] == [] && [p][..0] == [];
      PartitionOfConcat([o], [p]);
    }
    assert Join([o], OptionItem) == " -" + o.short by {
      assert [o][..0] == [] && Token(o) == "-" + o.short;
    }
    assert Join([p], PositionalItem) == " " + Upper(p.long) by {
      assert [p][..0] == [];
    }
  }

  /** An optional valued option with only a long name: `usage: prog [-out ]`. */
  lemma LineOfOptionalValuedOption(prog: string, o: Spec)
    requires !o.positional && !o.required && !o.isBool && o.short == ""
    ensures Line(prog, [o]) == "usage: " + prog + " [-" + o.long + " ]\n"
  {
    var item := " [" + ("-" + o.long + " ") + "]";
    assert OptionItem(o) == item;
    assert Line(prog, [o]) == "usage: " + prog + item + "\n" by {
      assert [o][..0] == [];
      assert Options([o]) == [o] && Positionals([o]) == [];
      assert Join([o], OptionItem) == item;
    }
    BracketedLongFlag(prog, o.long);
  }

  /** The text regrouping behind `LineOfOptionalValuedOption`. */
  lemma BracketedLongFlag(prog: string, long: string)
    ensures "usage: " + prog + (" [" + ("-" + long + " ") + "]") + "\n" == "usage: " + prog + " [-" + long + " ]\n"
  {
    AppendAssoc("usage: " + prog, " [", "-" + long + " ");
    assert " [" + "-" == " [-" && " " + "]" == " ]";
  }

  /** A positional taking several values: `usage: prog [FILE [FILE ...]]`. */
  lemma LineOfRepeatedPositional(prog: string, p: Spec)
    requires p.positional && p.multiple
    ensures var up := Upper(p.long); Line(prog, [p]) == "usage: " + prog + " [" + up + " [" + up + " ...]]\n"
  {
    assert [] + [p] == [p];
    LineAfterNewPositional(prog, [], p);
  }
}
