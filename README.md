# Help and usage rendering of go-arg

This project models `usage.go` of the go-arg command-line parser: the code
that turns the parser's list of argument specifications into

- a one-line usage synopsis, `usage: prog [-v] -n  FILE [X [X ...]]`, and
- a full help listing: the name header, the authors, the usage line, the
  positional arguments, the options with their help text aligned at
  column ten, and the copyright.

Both renderers first split the specifications, in one stable pass, into
positionals and options. Every option is rendered by `synopsis`: its flag
form (`-` and the short name when there is one, otherwise `-` and the long
name), followed by one space unless its destination is boolean.

Layout of the Dafny modules:

- `Specs` (`specs.dfy`): the `Spec` and `Config` values and the text helpers
  (ASCII upper-casing, runs of spaces, UTF-8 byte lengths, writing a list
  of texts in order).
- `Classifier` (`classifier.dfy`): the partition, as the functions
  `Positionals`/`Options` and the loop `Classify`.
- `Tokens` (`synopsis.dfy`): `synopsis` and the flag form.
- `UsageLine` (`usage_line.dfy`): `WriteUsage`, its per-item writes and the
  function `Line` that specifies it.
- `HelpListing` (`help_listing.dfy`): `WriteHelp`, its sections, the
  function `Help` that specifies it, and the column-alignment proofs.

The writer becomes a string the methods append to, one write at a time, in
the order the source writes. Every writing method is proved equal to a
specification function of its inputs (`WriteUsage` to `Line`, `WriteHelp`
to `Help`), and the lemmas state what those functions promise. Where a loop
of the source is long, its body is a method of its own (`WriteOptionItem`,
`WriteOptionLine`, ...); the writes and their order are those of the source.
The program name (`filepath.Base(os.Args[0])`) is a parameter `prog`, the
boolean kind of a destination is the field `Spec.isBool`, and the package
variables `AppName`, `Version`, `Usage`, `Author` and `Copyright` are the
fields of an immutable `Config` (`Usage` is called `tagline`, so that it is
not confused with the usage line).

Three behaviours of the code are worth stating outright:

- The header (usage.go:89-98) writes the version and the tagline even when
  the application name is empty, and always writes the blank line `"\n\n"`.
  So with all metadata empty the help listing starts with two line breaks.
  `HeaderShape` states this: the version right after the name section (or
  first, without a name), a tagline alone as ` -- tagline`, and the blank
  line in every case.
- The help column test (usage.go:128) is `len(left)+2 < 10`, where `left`
  already holds the two-space indent and Go's `len` counts UTF-8 bytes. The
  help text therefore stays on the option's line only when `left` is at
  most seven bytes long, with at least three spaces before it, and the
  column it is aligned to is byte ten of the line. The model counts bytes
  the same way (`Specs.ByteLen`); for ASCII flag names bytes and characters
  coincide. `HelpPlacement` states this.
- The value placeholder after a non-boolean option's flag is not written
  (usage.go:147 keeps it commented out): the token is the flag and one
  space. `Tokens.Synopsis` and `Tokens.TokenShape` state that.

## Model

| member | source | states |
|---|---|---|
| Classifier.Classify | usage.go:36-43 | the partition loop returns exactly the stable filters `Positionals(specs)` and `Options(specs)`; `WriteHelp` runs the same loop (usage.go:80-87) by calling it |
| Classifier.PartitionCounts | usage.go:36-43 | every spec appears among the positionals with its full multiplicity when it is positional and never otherwise, and dually among the options |
| Classifier.PartitionIsPermutation | usage.go:36-43 | positionals and options together are a permutation of the input, and their lengths add up to its length |
| Classifier.PartitionMembership | usage.go:80-87 | a spec is a positional of the result iff it is in the input and positional, and an option iff it is in the input and not positional |
| Classifier.PartitionOfConcat | usage.go:36-43 | partitioning a concatenation concatenates the partitions (the partition is stable) |
| Classifier.PlaceInGroup | usage.go:36-43 | spec i sits in its group at the index equal to the number of specs of its kind before it |
| Classifier.OrderPreserved | usage.go:80-87 | two specs of the same kind at input positions i < j appear in that order in their group |
| Tokens.Synopsis | usage.go:143-148 | the result is the form followed by nothing for a boolean destination and by exactly one space otherwise |
| Tokens.FlagForm | usage.go:54-58 | the flag form is a dash followed by the short name when it is non-empty, otherwise by the long name |
| Tokens.TokenShape | usage.go:121-125 | an option's token is `-` + (short, or long when short is empty) + (`""` if boolean, else `" "`), the same in the usage line and the help listing |
| Tokens.TokenNewlines | usage.go:143-148 | the token contains a line break iff the chosen flag name does |
| Specs.Upper | usage.go:68 | upper-casing keeps the length and maps every character by ASCII upper-casing |
| Specs.UpperHasNoLowerCase | usage.go:68 | the upper-cased name has no lower-case ASCII letter |
| Specs.UpperIdempotent | usage.go:68 | upper-casing an upper-cased name changes nothing |
| Specs.UpperKeepsNewlines | usage.go:68 | upper-casing neither adds nor removes line breaks |
| Specs.Spaces | usage.go:129 | `strings.Repeat(" ", n)` is n characters, all spaces |
| Specs.ByteLen | usage.go:128-129 | Go's `len` of a string, its UTF-8 byte count: at least its character count and at most four times it |
| Specs.ByteLenOfConcat | usage.go:121-125 | the byte length of `"  "` and the appended token is the sum of the parts' byte lengths |
| Specs.ByteLenOfAscii | usage.go:128 | the byte length equals the character count exactly when every character is ASCII |
| Specs.SpacesByteLen | usage.go:129-131 | the padding of n spaces is n bytes long |
| UsageLine.WriteOptionItem | usage.go:50-61 | one pass of the option loop appends exactly that option's usage item |
| UsageLine.WritePositionalItem | usage.go:67-73 | one pass of the positional loop appends exactly that positional's usage item |
| UsageLine.WriteOptionItems | usage.go:48-62 | the option loop appends the items of all options, in order |
| UsageLine.WritePositionalItems | usage.go:65-74 | the positional loop appends the items of all positionals, in order |
| UsageLine.WriteUsage | usage.go:35-76 | the written text is `Line(prog, specs)`: the prefix, all option items, all positional items, one final line break |
| UsageLine.LineOfNoSpecs | usage.go:45-75 | with no specs the usage line is exactly `usage: <prog>` and a line break |
| UsageLine.OptionItemBrackets | usage.go:50-61 | an option's item opens with `" ["` and ends with `]` iff the option is not required; a required option's item is exactly a space and the bare token, any other item exactly `" ["`, the token and `]` |
| UsageLine.PositionalItemShape | usage.go:67-73 | a single-valued positional's item is exactly a space and its upper-cased name; a repeated one's is exactly `" [UP [UP ...]]"`, the upper-cased name written twice |
| UsageLine.LineAfterNewOption | usage.go:48-62 | declaring one more option inserts its item after the earlier options' items and before all positional items |
| UsageLine.LineAfterNewPositional | usage.go:65-74 | declaring one more positional appends its item at the end of the line, before the line break |
| UsageLine.LineIgnoresOrderAcrossGroups | usage.go:47-74 | swapping an adjacent positional and option in the declarations leaves the usage line unchanged: options always come first |
| UsageLine.LineIsOneLine | usage.go:45-75 | when neither the program name nor any flag name holds a line break, the usage line's only line break is its last character |
| UsageLine.LineOfRequiredFlagAndPositional | usage.go:48-74 | a required boolean option with short name x and a single-valued positional f give `usage: prog -x F` |
| UsageLine.LineOfOptionalValuedOption | usage.go:51-61 | an optional valued option with only a long name gives `usage: prog [-long ]` |
| UsageLine.LineOfRepeatedPositional | usage.go:69-70 | a repeated positional gives `usage: prog [UP [UP ...]]` |
| HelpListing.WriteHeader | usage.go:89-98 | the header writes append exactly `Header(cfg)` |
| HelpListing.WritePositionalList | usage.go:107-112 | appends nothing when there is no positional, otherwise the heading and one `  long` line per positional, in order |
| HelpListing.WriteOptionLine | usage.go:118-136 | one pass of the option loop appends exactly that option's line: left part, padding chosen on the left part's byte length, help text, line break |
| HelpListing.WriteOptionLines | usage.go:118-136 | the option loop appends the lines of all options, in order |
| HelpListing.WriteOptionList | usage.go:115-137 | appends nothing when there is no option, otherwise the heading and all option lines |
| HelpListing.WriteHelp | usage.go:79-141 | the written text is `Help(cfg, prog, specs)`: header, authors, usage line, positional list, option list, copyright |
| HelpListing.HelpPlacement | usage.go:127-132 | with help text, it stays on the option's line iff the indented token is shorter than 8 bytes (then after at least 3 spaces that bring the line to 10 bytes), and otherwise moves to the next line after 10 spaces; the indented token is 3 + the name's byte length + 1 unless boolean |
| HelpListing.HelpPadCountsBytes | usage.go:128-131 | the padding follows byte counts: a valued `-é` gets 4 spaces, a boolean `-€€` moves its help to the next line |
| HelpListing.LineWithoutHelp | usage.go:126-135 | an option without help text is its indented token and a line break |
| HelpListing.LineIgnoresRequired | usage.go:119-126 | an option's line in the option list does not depend on `required` |
| HelpListing.HelpTextAtColumn | usage.go:117-133 | after any text that ends a line, the help text of an option starts at byte 10 of its line, on the same line or the next |
| HelpListing.OptionListHelpColumn | usage.go:115-136 | inside the option list, each option's help text follows a prefix of the list that ends at byte 10 of its line |
| HelpListing.ListSectionsPresence | usage.go:107-116 | the positional list is present iff some spec is positional, the option list iff some spec is not |
| HelpListing.AuthorsPresence | usage.go:100-102 | the authors section is present iff the author text is non-empty |
| HelpListing.CopyrightPresence | usage.go:138-140 | the copyright section is present iff the copyright text is non-empty |
| HelpListing.HeaderShape | usage.go:89-98 | the header always ends in `"\n\n"`, starts with `name:` and the name iff the name is set, the version follows the name section (or opens the header when the name is empty), a tagline alone gives ` -- tagline` and the blank line, and the header is just `"\n\n"` when name, version and tagline are all empty |
| HelpListing.HelpHoldsUsageLine | usage.go:100-104 | the help listing starts with the header and holds the full usage line right after the header and the authors section, whatever the metadata |

## Left out

- `Fail` (usage.go:28-32): it writes to standard error and exits the process; that is process control, not rendering.
- `filepath.Base(os.Args[0])` (usage.go:45): the program name is the parameter `prog`.
- `reflect` kind inspection (usage.go:144): the destination's boolean kind is the field `Spec.isBool`.
- `io.Writer` and the `fmt.Fprint*` calls: output is a string appended to; write errors are not modelled.
- Specs.Upper: models `strings.ToUpper` on ASCII letters only; Unicode case mapping of other characters is not modelled.
- The package variables (usage.go:12-25) are read through an immutable `Config`; their mutation between renders is not modelled.
- Strings are sequences of Unicode scalar values, measured in bytes by their UTF-8 encoding; Go strings holding byte sequences that are not valid UTF-8 are not modelled.
- Pointer sharing of `*spec` values: the model partitions values; since rendering never changes a spec, no behaviour depends on the sharing.
