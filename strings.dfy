/** String vocabulary shared by the argument builders and the executor:
    the C# nullable string, `string.IsNullOrEmpty`, prefixes, suffixes,
    occurrences at an index and the first space-delimited word of a command
    line. */
module StringFacts {

  /** A C# `string?`: either null or a (possibly empty) string. */
  datatype Option<T> = None | Some(value: T)

  /** `string.IsNullOrEmpty`. */
  predicate IsNullOrEmpty(s: Option<string>)
  {
    s.None? || s.value == ""
  }

  predicate IsPrefix(p: string, s: string)
  {
    |p| <= |s| && s[..|p|] == p
  }

  predicate IsSuffix(t: string, s: string)
  {
    |t| <= |s| && s[|s| - |t|..] == t
  }

  /** `x` occurs in `s` starting at index `i`. */
  predicate OccursAt(x: string, s: string, i: int)
  {
    0 <= i && i + |x| <= |s| && s[i..i + |x|] == x
  }

  /** Everything before the first space of `s` (all of `s` when it has none):
      the word a command-line program dispatches on. */
  function FirstWord(s: string): (w: string)
    ensures IsPrefix(w, s)
    ensures ' ' !in w
    ensures |w| == |s| || s[|w|] == ' '
  {
    if s == [] || s[0] == ' ' then [] else [s[0]] + FirstWord(s[1..])
  }

  /** The first word of `w`, or of `w` followed by a space and anything at
      all, is `w` itself when `w` has no space. */
  lemma FirstWordOf(w: string, rest: string)
    requires ' ' !in w
    ensures FirstWord(w) == w
    ensures FirstWord(w + " " + rest) == w
  {
    var s := w + " " + rest;
    assert s[|w|] == ' ';
  }

  /** A string that starts with `w` and a space, `w` free of spaces, has
      `w` as its first word. */
  lemma LeadingWord(w: string, s: string)
    requires ' ' !in w
    requires IsPrefix(w + " ", s)
    ensures FirstWord(s) == w
  {
    assert s == w + " " + s[|w| + 1..];
    FirstWordOf(w, s[|w| + 1..]);
  }

  /** A command line made of `lead` (a word and a space), two values
      separated by a space and any trailing text: its first word, the places
      of the values and its length. */
  lemma TwoValues(w: string, lead: string, a: string, b: string, tail: string)
    requires ' ' !in w && lead == w + " "
    ensures var s := lead + a + " " + b + tail;
      && FirstWord(s) == w
      && IsPrefix(lead + a + " " + b, s)
      && OccursAt(a, s, |lead|) && OccursAt(b, s, |lead| + |a| + 1)
      && |s| == |lead| + |a| + 1 + |b| + |tail|
  {
    var s := lead + a + " " + b + tail;
    assert s[..|lead|] == lead;
    LeadingWord(w, s);
    assert s[|lead|..|lead| + |a|] == a;
    assert s[|lead| + |a| + 1..|lead| + |a| + 1 + |b|] == b;
    assert s[..|lead| + |a| + 1 + |b|] == lead + a + " " + b;
  }

  /** A string that starts with `p + q` starts with `p`. */
  lemma PrefixOfPrefix(p: string, q: string, s: string)
    requires IsPrefix(p + q, s)
    ensures IsPrefix(p, s)
  {
  }
}
