/**
 The full help listing: the name header, the authors, the usage line, the
 list of positionals, the list of options with their help text aligned at
 a fixed column, and the copyright.
 */
module HelpListing {
  import opened Specs
  import opened Classifier
  import opened Tokens
  import opened UsageLine

  /** The column at which help text starts in the option list. */
  const ColWidth: nat := 10

  /** The header: the name, the version and the tagline, each written only
      when it is non-empty, and the blank line that is always written. */
  function Header(cfg: Config): string
  {
    (if cfg.appName != "" then "name:\n  " + cfg.appName else "")
    + (if cfg.version != "" then " " + cfg.version else "")
    + (if cfg.tagline != "" then " -- " + cfg.tagline else "")
    + "\n\n"
  }

  function AuthorsSection(cfg: Config): string
  {
    if cfg.author != "" then "authors:\n  " + cfg.author + "\n\n" else ""
  }

  function PositionalLine(p: Spec): string
  {
    "  " + p.long + "\n"
  }

  function PositionalSection(ps: seq<Spec>): string
  {
    if |ps| > 0 then "\npositional arguments:\n" + Join(ps, PositionalLine) else ""
  }

  /** The left part of an option's line: an indent of two and the token,
      never bracketed. */
  function HelpLeft(o: Spec): string
  {
    "  " + Token(o)
  }

  /** What separates the left part from the help text: nothing when there is
      no help text, spaces up to the help column when the left part plus a
      margin of two stays short of it, otherwise a line break and a full
      indent to the help column. Lengths are UTF-8 byte counts, as Go's `len`
      gives them. */
  function HelpPad(o: Spec): string
  {
    if o.help == "" then ""
    else if ByteLen(HelpLeft(o)) + 2 < ColWidth then Spaces(ColWidth - ByteLen(HelpLeft(o)))
    else "\n" + Spaces(ColWidth)
  }

  function OptionLine(o: Spec): string
  {
    HelpLeft(o) + HelpPad(o) + o.help + "\n"
  }

  function OptionSection(os: seq<Spec>): string
  {
    if |os| > 0 then "\noptions:\n" + Join(os, OptionLine) else ""
  }

  function CopyrightSection(cfg: Config): string
  {
    if cfg.copyright != "" then "\ncopyright:\n  " + cfg.copyright + "\n\n" else ""
  }

  /** The whole help listing. */
  function Help(cfg: Config, prog: string, specs: seq<Spec>): string
  {
    Header(cfg) + AuthorsSection(cfg) + Line(prog, specs)
    + PositionalSection(Positionals(specs)) + OptionSection(Options(specs))
    + CopyrightSection(cfg)
  }

  /** The header writes of `WriteHelp`. */
  method WriteHeader(out: string, cfg: Config) returns (out': string)
    ensures out' == out + Header(cfg)
  {
    ghost var name := if cfg.appName != "" then "name:\n  " + cfg.appName else "";
    ghost var version := if cfg.version != "" then " " + cfg.version else "";
    ghost var tagline := if cfg.tagline != "" then " -- " + cfg.tagline else "";
    out' := out;
    if cfg.appName != "" {
      out' := out' + ("name:\n  " + cfg.appName);
    }
    assert out' == out + name;
    if cfg.version != "" {
      out' := out' + (" " + cfg.version);
    }
    AppendAssoc(out, name, version);
    assert out' == out + (name + version);
    if cfg.tagline != "" {
      out' := out' + (" -- " + cfg.tagline);
    }
    AppendAssoc(out, name + version, tagline);
    AppendAssoc(out, name + version + tagline, "\n\n");
    out' := out' + "\n\n";
  }

  /** The positional list of `WriteHelp`: written only when there is a
      positional, one long name per line. */
  method WritePositionalList(out: string, ps: seq<Spec>) returns (out': string)
    ensures out' == out + PositionalSection(ps)
  {
    out' := out;
    if |ps| > 0 {
      var head := "\npositional arguments:\n";
      out' := out' + head;
      assert ps[..0] == [];
      var i := 0;
      while i < |ps|
        invariant 0 <= i <= |ps|
        invariant out' == out + (head + Join(ps[..i], PositionalLine))
      {
        JoinOfLongerPrefix(ps, i, PositionalLine);
        AppendAssoc(head, Join(ps[..i], PositionalLine), PositionalLine(ps[i]));
        AppendAssoc(out, head + Join(ps[..i], PositionalLine), PositionalLine(ps[i]));
        out' := out' + ("  " + ps[i].long + "\n");
        i := i + 1;
      }
      assert ps[..i] == ps;
    }
  }

  /** One pass of the option loop of `WriteHelp`. */
  method WriteOptionLine(out: string, o: Spec) returns (out': string)
    ensures out' == out + OptionLine(o)
  {
    var left := "  ";
    if o.short != "" {
      left := left + Synopsis(o, "-" + o.short);
    } else {
      left := left + Synopsis(o, "-" + o.long);
    }
    assert left == HelpLeft(o);
    out' := out + left;
    if o.help != "" {
      if ByteLen(left) + 2 < ColWidth {
        out' := out' + Spaces(ColWidth - ByteLen(left));
      } else {
        out' := out' + ("\n" + Spaces(ColWidth));
      }
      AppendAssoc(out, left, HelpPad(o));
      AppendAssoc(out, left + HelpPad(o), o.help);
      out' := out' + o.help;
    } else {
      assert left + HelpPad(o) + o.help == left;
    }
    AppendAssoc(out, left + HelpPad(o) + o.help, "\n");
    out' := out' + "\n";
  }

  /** The loop over the options in `WriteHelp`. */
  method WriteOptionLines(out: string, os: seq<Spec>) returns (out': string)
    ensures out' == out + Join(os, OptionLine)
  {
    out' := out;
    assert os[..0] == [];
    var i := 0;
    while i < |os|
      invariant 0 <= i <= |os|
      invariant out' == out + Join(os[..i], OptionLine)
    {
      JoinOfLongerPrefix(os, i, OptionLine);
      AppendAssoc(out, Join(os[..i], OptionLine), OptionLine(os[i]));
      out' := WriteOptionLine(out', os[i]);
      i := i + 1;
    }
    assert os[..i] == os;
  }

  /** The option list of `WriteHelp`: written only when there is an option,
      one line per option. */
  method WriteOptionList(out: string, os: seq<Spec>) returns (out': string)
    ensures out' == out + OptionSection(os)
  {
    if |os| > 0 {
      out' := out + "\noptions:\n";
      out' := WriteOptionLines(out', os);
      AppendAssoc(out, "\noptions:\n", Join(os, OptionLine));
    } else {
      out' := out;
    }
  }

  /** `WriteHelp`: classify, then write every section in order. */
  method WriteHelp(cfg: Config, prog: string, specs: seq<Spec>) returns (out: string)
    ensures out == Help(cfg, prog, specs)
  {
    var positionals, options := Classify(specs);
    out := WriteHeader("", cfg);
    assert out == Header(cfg);
    if cfg.author != "" {
      out := out + ("authors:\n  " + cfg.author + "\n\n");
    }
    assert out == Header(cfg) + AuthorsSection(cfg);
    var usage := WriteUsage(prog, specs);
    out := out + usage;
    out := WritePositionalList(out, positionals);
    out := WriteOptionList(out, options);
    if cfg.copyright != "" {
      out := out + ("\ncopyright:\n  " + cfg.copyright + "\n\n");
    }
  }

  /** The byte column the next character is written at: how many UTF-8
      bytes follow the last line break. */
  function Column(s: string): nat
  {
    if s == [] then 0
    else if s[|s| - 1] == '\n' then 0
    else Column(s[..|s| - 1]) + CharBytes(s[|s| - 1])
  }

  /** Text without a line break moves the column on by its byte length. */
  lemma {:induction false} ColumnAfterText(a: string, b: string)
    requires '\n' !in b
    ensures Column(a + b) == Column(a) + ByteLen(b)
  {
    if b == [] {
      assert a + b == a;
    } else {
      var init := b[..|b| - 1];
      assert (a + b)[..|a + b| - 1] == a + init;
      assert (a + b)[|a + b| - 1] == b[|b| - 1];
      ColumnAfterText(a, init);
    }
  }

  lemma SpacesHaveNoNewline(n: nat)
    ensures '\n' !in Spaces(n)
  {
  }

  /** Where the help text goes: on the option's own line exactly when the
      left part is shorter than eight bytes, after a separation of at least
      three spaces that fills the line up to byte ten; otherwise, on the
      next line. */
  lemma HelpPlacement(o: Spec)
    requires o.help != ""
    ensures '\n' !in HelpPad(o) <==> ByteLen(HelpLeft(o)) < 8
    ensures '\n' !in HelpPad(o) ==>
      |HelpPad(o)| >= 3 && HelpPad(o) == Spaces(|HelpPad(o)|) && ByteLen(HelpLeft(o)) + |HelpPad(o)| == ColWidth
    ensures '\n' in HelpPad(o) ==> HelpPad(o) == "\n" + Spaces(ColWidth)
    ensures ByteLen(HelpLeft(o)) == 3 + ByteLen(if o.short != "" then o.short else o.long) + (if o.isBool then 0 else 1)
  {
    var name := if o.short != "" then o.short else o.long;
    var tail := if o.isBool then "" else " ";
    assert HelpLeft(o) == "  " + ("-" + name + tail) by {
      TokenShape(o);
    }
    IndentedFlagByteLen(name, tail);
    assert ByteLen(tail) == (if o.isBool then 0 else 1) by {
      ByteLenOfAscii(tail);
    }
  }

  /** The byte length of an indented flag, `  -name` and its tail. */
  lemma IndentedFlagByteLen(name: string, tail: string)
    ensures ByteLen("  " + ("-" + name + tail)) == 3 + ByteLen(name) + ByteLen(tail)
  {
    ByteLenOfConcat("  ", "-" + name + tail);
    ByteLenOfConcat("-" + name, tail);
    ByteLenOfConcat("-", name);
    ByteLenOfAscii("  ");
    ByteLenOfAscii("-");
  }

  /** The padding counts bytes: a valued flag `-é` (six bytes of left part,
      five characters) gets four spaces, and a boolean flag `-€€` (nine bytes,
      five characters) moves its help text to the next line. */
  lemma HelpPadCountsBytes(o: Spec)
    requires o.help != ""
    ensures o.short == "é" && !o.isBool ==> HelpPad(o) == Spaces(4)
    ensures o.short == "€€" && o.isBool ==> HelpPad(o) == "\n" + Spaces(ColWidth)
  {
    HelpPlacement(o);
    if o.short == "é" || o.short == "€€" {
      assert ByteLen(o.short) == ByteLen(o.short[..|o.short| - 1]) + CharBytes(o.short[|o.short| - 1]);
    }
  }

  /** An option without help text is its left part and a line break. */
  lemma LineWithoutHelp(o: Spec)
    requires o.help == ""
    ensures OptionLine(o) == HelpLeft(o) + "\n"
  {
  }

  /** The option list shows every option undecorated: an option's line does
      not depend on whether it is required. */
  lemma LineIgnoresRequired(o: Spec)
    ensures OptionLine(o.(required := !o.required)) == OptionLine(o)
  {
  }

  /** The help column: when the names hold no line break, the help text of
      an option starts at byte ten of its line, whether it stays on the
      option's line or moves to the next, wherever the line starts. */
  lemma HelpTextAtColumn(before: string, o: Spec)
    requires before == [] || before[|before| - 1] == '\n'
    requires o.help != ""
    requires '\n' !in o.short && '\n' !in o.long
    ensures Column(before + HelpLeft(o) + HelpPad(o)) == ColWidth
  {
    var left := HelpLeft(o);
    assert '\n' !in left by {
      TokenNewlines(o);
      assert '\n' !in "  ";
    }
    if ByteLen(left) + 2 < ColWidth {
      assert HelpPad(o) == Spaces(ColWidth - ByteLen(left));
      PaddedToColumn(before, left);
    } else {
      assert HelpPad(o) == "\n" + Spaces(ColWidth);
      BrokenToColumn(before + left);
    }
  }

  /** The same-line branch: a short left part at the start of a line, padded
      with spaces up to the help column. */
  lemma PaddedToColumn(before: string, left: string)
    requires before == [] || before[|before| - 1] == '\n'
    requires '\n' !in left && ByteLen(left) <= ColWidth
    ensures Column(before + left + Spaces(ColWidth - ByteLen(left))) == ColWidth
  {
    var pad := Spaces(ColWidth - ByteLen(left));
    assert Column(before + left) == ByteLen(left) by {
      assert Column(before) == 0;
      ColumnAfterText(before, left);
    }
    SpacesHaveNoNewline(ColWidth - ByteLen(left));
    SpacesByteLen(ColWidth - ByteLen(left));
    ColumnAfterText(before + left, pad);
  }

  /** The next-line branch: a line break and a full indent to the help column. */
  lemma BrokenToColumn(s: string)
    ensures Column(s + ("\n" + Spaces(ColWidth))) == ColWidth
  {
    AppendAssoc(s, "\n", Spaces(ColWidth));
    SpacesByteLen(ColWidth);
    ColumnAfterLineBreak(s, Spaces(ColWidth));
  }

  /** After a line break the column is the byte length of what follows,
      when that holds no line break. */
  lemma ColumnAfterLineBreak(a: string, b: string)
    requires '\n' !in b
    ensures Column(a + "\n" + b) == ByteLen(b)
  {
    assert Column(a + "\n") == 0;
    ColumnAfterText(a + "\n", b);
  }

  /** Every option line ends in a line break, so a list of them does too. */
  lemma JoinedLinesEndInNewline(os: seq<Spec>)
    requires os != []
    ensures var j := Join(os, OptionLine); |j| > 0 && j[|j| - 1] == '\n'
  {
  }

  /** The text regrouping behind `OptionSectionAround`. */
  lemma RegroupAroundHelp(hd: string, ji: string, l: string, pd: string, h: string, r: string)
    ensures hd + (ji + (l + pd + h + "\n") + r) == hd + ji + l + pd + h + ("\n" + r)
  {
    AppendAssoc(hd, ji + (l + pd + h + "\n"), r);
    AppendAssoc(hd, ji, l + pd + h + "\n");
    AppendAssoc(hd + ji, l + pd + h, "\n");
    AppendAssoc(hd + ji, l + pd, h);
    AppendAssoc(hd + ji, l, pd);
    AppendAssoc(hd + ji + l + pd + h, "\n", r);
  }

  /** The option list around the help text of option `i`. */
  lemma OptionSectionAround(os: seq<Spec>, i: nat)
    requires i < |os|
    ensures OptionSection(os) ==
      "\noptions:\n" + Join(os[..i], OptionLine) + HelpLeft(os[i]) + HelpPad(os[i]) + os[i].help
      + ("\n" + Join(os[i + 1..], OptionLine))
  {
    var o := os[i];
    JoinAround(os, i, OptionLine);
    RegroupAroundHelp("\noptions:\n", Join(os[..i], OptionLine), HelpLeft(o), HelpPad(o), o.help, Join(os[i + 1..], OptionLine));
  }

  /** In the option list, the help text of option `i` follows a prefix of
      the list that ends at byte ten of its line. */
  lemma OptionListHelpColumn(os: seq<Spec>, i: nat)
    requires i < |os|
    requires os[i].help != ""
    requires '\n' !in os[i].short && '\n' !in os[i].long
    ensures var p := "\noptions:\n" + Join(os[..i], OptionLine) + HelpLeft(os[i]) + HelpPad(os[i]);
      |p| + |os[i].help| <= |OptionSection(os)| && OptionSection(os)[..|p|] == p && Column(p) == ColWidth
      && OptionSection(os)[|p|..|p| + |os[i].help|] == os[i].help
  {
    var o := os[i];
    var before := "\noptions:\n" + Join(os[..i], OptionLine);
    if i > 0 {
      JoinedLinesEndInNewline(os[..i]);
    } else {
      assert os[..i] == [];
    }
    assert before[|before| - 1] == '\n';
    HelpTextAtColumn(before, o);
    var p := before + HelpLeft(o) + HelpPad(o);
    OptionSectionAround(os, i);
    SliceOfAppend(p, o.help, "\n" + Join(os[i + 1..], OptionLine));
  }

  /** The list sections are present exactly when there is a spec of their
      kind. */
  lemma ListSectionsPresence(specs: seq<Spec>)
    ensures PositionalSection(Positionals(specs)) != "" <==> exists k :: 0 <= k < |specs| && specs[k].positional
    ensures OptionSection(Options(specs)) != "" <==> exists k :: 0 <= k < |specs| && !specs[k].positional
  {
    var ps, os := Positionals(specs), Options(specs);
    if exists k :: 0 <= k < |specs| && specs[k].positional {
      var k :| 0 <= k < |specs| && specs[k].positional;
      PartitionMembership(specs, specs[k]);
    }
    if ps != [] {
      PartitionMembership(specs, ps[0]);
    }
    if exists k :: 0 <= k < |specs| && !specs[k].positional {
      var k :| 0 <= k < |specs| && !specs[k].positional;
      PartitionMembership(specs, specs[k]);
    }
    if os != [] {
      PartitionMembership(specs, os[0]);
    }
  }

  /** The authors section is present exactly when the author text is
      non-empty, and then it is that text under its heading. */
  lemma AuthorsPresence(cfg: Config)
    ensures AuthorsSection(cfg) != "" <==> cfg.author != ""
    ensures cfg.author != "" ==> AuthorsSection(cfg) == "authors:\n  " + cfg.author + "\n\n"
  {
  }

  /** The copyright section is present exactly when the copyright text is
      non-empty, and then it opens with a blank line. */
  lemma CopyrightPresence(cfg: Config)
    ensures CopyrightSection(cfg) != "" <==> cfg.copyright != ""
    ensures cfg.copyright != "" ==> CopyrightSection(cfg) == "\ncopyright:\n  " + cfg.copyright + "\n\n"
  {
  }

  /** The header always ends in a blank line; it starts with the name section
      exactly when the application name is set; the version follows the name
      section, or opens the header when there is no name; with no name,
      version or tagline it is the blank line alone, and a tagline alone is
      written as ` -- tagline`. */
  lemma HeaderShape(cfg: Config)
    ensures var h := Header(cfg); |h| >= 2 && h[|h| - 2..] == "\n\n"
    ensures cfg.appName != "" ==> |Header(cfg)| >= 8 + |cfg.appName| && Header(cfg)[..8 + |cfg.appName|] == "name:\n  " + cfg.appName
    ensures Header(cfg)[0] == 'n' <==> cfg.appName != ""
    ensures cfg.appName == "" && cfg.version == "" && cfg.tagline == "" ==> Header(cfg) == "\n\n"
    ensures var n := if cfg.appName != "" then 8 + |cfg.appName| else 0;
      cfg.version != "" ==> n + 1 + |cfg.version| <= |Header(cfg)| && Header(cfg)[n..n + 1 + |cfg.version|] == " " + cfg.version
    ensures cfg.appName == "" && cfg.version == "" && cfg.tagline != "" ==> Header(cfg) == " -- " + cfg.tagline + "\n\n"
  {
  }

  /** The help listing starts with the header and holds the usage line,
      whatever the metadata and the specs. */
  lemma HelpHoldsUsageLine(cfg: Config, prog: string, specs: seq<Spec>)
    ensures var h, u := Help(cfg, prog, specs), Line(prog, specs);
      var k := |Header(cfg)| + |AuthorsSection(cfg)|;
      k + |u| <= |h| && h[..|Header(cfg)|] == Header(cfg) && h[k..k + |u|] == u
  {
    var h, u := Help(cfg, prog, specs), Line(prog, specs);
    var hd, au := Header(cfg), AuthorsSection(cfg);
    var rest := PositionalSection(Positionals(specs)) + OptionSection(Options(specs)) + CopyrightSection(cfg);
    var ps, os, cr := PositionalSection(Positionals(specs)), OptionSection(Options(specs)), CopyrightSection(cfg);
    AppendAssoc(hd + au + u, ps, os);
    AppendAssoc(hd + au + u, ps + os, cr);
    assert h == hd + au + u + rest;
    SliceOfAppend(hd + au, u, rest);
    AppendAssoc(hd, au, u);
    SliceOfAppend(hd, au + u, rest);
    AppendAssoc(hd, au + u, rest);
    AppendAssoc(hd + au, u, rest);
  }
}
