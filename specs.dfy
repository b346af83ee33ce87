/**
 The values the help and usage renderer reads: one argument specification,
 the descriptive metadata of the program, and the small text helpers the
 renderer uses: ASCII upper-casing, runs of spaces, the UTF-8 byte length
 that Go's `len` gives, and `Join`, which writes a list of texts in order.
 */
module Specs {

  /** One declared argument of the parser. `isBool` stands for "the bound
      destination is of boolean kind", which the parser finds out by
      reflection when the argument is declared. */
  datatype Spec = Spec(
    long: string,
    short: string,
    positional: bool,
    required: bool,
    multiple: bool,
    isBool: bool,
    help: string)

  /** The descriptive metadata that the parser keeps as package-level
      variables; here an immutable value handed to the help renderer.
      `tagline` is the variable the parser calls `Usage`. */
  datatype Config = Config(
    appName: string,
    version: string,
    tagline: string,
    author: string,
    copyright: string)

  /** Upper-casing of one character, ASCII letters only. */
  function UpperChar(c: char): char
  {
    if 'a' <= c <= 'z' then (c as int - 32) as char else c
  }

  /** Upper-casing of a string, character by character. */
  function Upper(s: string): (r: string)
    ensures |r| == |s|
    ensures forall i :: 0 <= i < |s| ==> r[i] == UpperChar(s[i])
  {
    if s == [] then [] else [UpperChar(s[0])] + Upper(s[1..])
  }

  /** Upper-casing leaves no lower-case ASCII letter behind. */
  lemma UpperHasNoLowerCase(s: string)
    ensures forall i :: 0 <= i < |Upper(s)| ==> !('a' <= Upper(s)[i] <= 'z')
  {
  }

  /** Upper-casing twice is upper-casing once. */
  lemma UpperIdempotent(s: string)
    ensures Upper(Upper(s)) == Upper(s)
  {
  }

  /** Upper-casing introduces no line break and removes none. */
  lemma UpperKeepsNewlines(s: string)
    ensures '\n' in Upper(s) <==> '\n' in s
  {
  }

  /** `n` spaces, as `strings.Repeat(" ", n)` builds them. */
  function Spaces(n: nat): (r: string)
    ensures |r| == n
    ensures forall i :: 0 <= i < n ==> r[i] == ' '
  {
    if n == 0 then "" else Spaces(n - 1) + " "
  }

  /** The number of bytes UTF-8 spends on `c`. */
  function CharBytes(c: char): nat
  {
    if c as int < 0x80 then 1
    else if c as int < 0x800 then 2
    else if c as int < 0x1_0000 then 3
    else 4
  }

  /** The UTF-8 length of a string: what Go's `len` gives for it. */
  function ByteLen(s: string): (r: nat)
    ensures |s| <= r <= 4 * |s|
  {
    if s == [] then 0 else ByteLen(s[..|s| - 1]) + CharBytes(s[|s| - 1])
  }

  /** The byte length of appended texts is the sum of their byte lengths. */
  lemma {:induction false} ByteLenOfConcat(a: string, b: string)
    ensures ByteLen(a + b) == ByteLen(a) + ByteLen(b)
  {
    if b == [] {
      assert a + b == a;
    } else {
      var init := b[..|b| - 1];
      assert (a + b)[..|a + b| - 1] == a + init;
      assert (a + b)[|a + b| - 1] == b[|b| - 1];
      ByteLenOfConcat(a, init);
    }
  }

  /** Bytes and characters agree exactly on ASCII text. */
  lemma {:induction false} ByteLenOfAscii(s: string)
    ensures ByteLen(s) == |s| <==> forall i :: 0 <= i < |s| ==> s[i] as int < 0x80
  {
    if s != [] {
      var init := s[..|s| - 1];
      ByteLenOfAscii(init);
      assert forall i :: 0 <= i < |init| ==> init[i] == s[i];
    }
  }

  /** A run of `n` spaces is `n` bytes long. */
  lemma SpacesByteLen(n: nat)
    ensures ByteLen(Spaces(n)) == n
  {
    ByteLenOfAscii(Spaces(n));
  }

  /** Regrouping appended text, which the proofs use at every write. */
  lemma AppendAssoc(a: string, b: string, c: string)
    ensures a + (b + c) == (a + b) + c
  {
  }

  /** Where the middle of three appended texts sits. */
  lemma SliceOfAppend(a: string, b: string, c: string)
    ensures |a| + |b| <= |a + b + c|
    ensures (a + b + c)[..|a|] == a
    ensures (a + b + c)[|a|..|a| + |b|] == b
  {
  }

  /** The texts `f` gives the elements of `xs`, written one after the other. */
  function Join(xs: seq<Spec>, f: Spec -> string): string
  {
    if xs == [] then "" else Join(xs[..|xs| - 1], f) + f(xs[|xs| - 1])
  }

  /** Writing out one more element appends its text: the step of every
      loop that writes the elements in order. */
  lemma JoinOfLongerPrefix(xs: seq<Spec>, i: nat, f: Spec -> string)
    requires i < |xs|
    ensures Join(xs[..i + 1], f) == Join(xs[..i], f) + f(xs[i])
  {
    assert xs[..i + 1][..i] == xs[..i];
  }

  /** Writing out a concatenation is writing out its parts in turn. */
  lemma {:induction false} JoinOfConcat(a: seq<Spec>, b: seq<Spec>, f: Spec -> string)
    ensures Join(a + b, f) == Join(a, f) + Join(b, f)
  {
    if b == [] {
      assert a + b == a;
    } else {
      var init := b[..|b| - 1];
      assert (a + b)[..|a + b| - 1] == a + init;
      JoinOfConcat(a, init, f);
    }
  }

  /** Writing out a list around its element `i`. */
  lemma JoinAround(xs: seq<Spec>, i: nat, f: Spec -> string)
    requires i < |xs|
    ensures Join(xs, f) == Join(xs[..i], f) + f(xs[i]) + Join(xs[i + 1..], f)
  {
    assert xs == xs[..i + 1] + xs[i + 1..];
    JoinOfConcat(xs[..i + 1], xs[i + 1..], f);
    JoinOfLongerPrefix(xs, i, f);
  }

  /** No line break is written when no element's text holds one. */
  lemma {:induction false} JoinHasNoNewline(xs: seq<Spec>, f: Spec -> string)
    requires forall k :: 0 <= k < |xs| ==> '\n' !in f(xs[k])
    ensures '\n' !in Join(xs, f)
  {
    if xs != [] {
      JoinHasNoNewline(xs[..|xs| - 1], f);
    }
  }
}
