/** Python's `str.split(sep)` on a single-character separator: every
    occurrence splits, empty pieces are kept. */
module Text {

  function Count(s: string, c: char): nat {
    if s == [] then 0 else (if s[0] == c then 1 else 0) + Count(s[1..], c)
  }

  function Split(s: string, c: char): (parts: seq<string>)
    ensures |parts| >= 1
  {
    if s == [] then [""]
    else if s[0] == c then [""] + Split(s[1..], c)
    else
      var rest := Split(s[1..], c);
      [[s[0]] + rest[0]] + rest[1..]
  }

  /** `sep.join(parts)`. */
  function Join(parts: seq<string>, c: char): string
    requires |parts| >= 1
  {
    if |parts| == 1 then parts[0] else parts[0] + [c] + Join(parts[1..], c)
  }

  /** There is one more piece than there are separators, no piece contains
      the separator, and joining the pieces gives back the string. */
  lemma {:induction false} SplitProperties(s: string, c: char)
    ensures |Split(s, c)| == Count(s, c) + 1
    ensures forall i :: 0 <= i < |Split(s, c)| ==> c !in Split(s, c)[i]
    ensures Join(Split(s, c), c) == s
  {
    if s != [] {
      SplitProperties(s[1..], c);
      var rest := Split(s[1..], c);
      if s[0] == c {
        assert Split(s, c)[1..] == rest;
        assert s == [] + [c] + s[1..];
      } else {
        var parts := Split(s, c);
        assert parts[0] == [s[0]] + rest[0];
        forall i | 0 <= i < |parts| ensures c !in parts[i] {
          if i > 0 { assert parts[i] == rest[i]; }
        }
        if |rest| > 1 {
          assert parts[1..] == rest[1..];
          assert Join(rest, c) == rest[0] + [c] + Join(rest[1..], c);
        }
        assert s == [s[0]] + s[1..];
      }
    }
  }

  /** A string with exactly one separator splits into the text before it
      and the text after it. */
  lemma SplitAtOnlySeparator(s: string, c: char) returns (i: nat)
    requires Count(s, c) == 1
    ensures i < |s| && s[i] == c
    ensures Split(s, c) == [s[..i], s[i + 1..]]
  {
    SplitProperties(s, c);
    var parts := Split(s, c);
    assert |parts| == 2;
    assert parts[1..] == [parts[1]];
    assert s == parts[0] + [c] + parts[1];
    i := |parts[0]|;
    assert s[..i] == parts[0];
    assert s[i + 1..] == parts[1];
  }

  /** `s.endswith(suffix)`. */
  predicate EndsWith(s: string, suffix: string) {
    |suffix| <= |s| && s[|s| - |suffix|..] == suffix
  }
}
