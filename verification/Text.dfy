/** The string operations that the chunkers use, and what they do to the text. */
module Text {

  /** The characters that str.strip() and the class \s take for white space. */
  predicate IsSpace(c: char) {
    var n := c as int;
    || 9 <= n <= 13 || 28 <= n <= 32 || n == 0x85 || n == 0xa0 || n == 0x1680
    || 0x2000 <= n <= 0x200a || n == 0x2028 || n == 0x2029 || n == 0x202f || n == 0x205f || n == 0x3000
  }

  // -- what is left of a text when white space is ignored -----------------------------

  function NonSpace(s: string): string {
    if s == "" then "" else (if IsSpace(s[0]) then "" else [s[0]]) + NonSpace(s[1..])
  }

  lemma {:induction false} NonSpaceConcat(a: string, b: string)
    ensures NonSpace(a + b) == NonSpace(a) + NonSpace(b)
  {
    if a == "" {
      assert a + b == b;
    } else {
      assert (a + b)[1..] == a[1..] + b;
      NonSpaceConcat(a[1..], b);
    }
  }

  predicate AllSpace(s: string) {
    forall i :: 0 <= i < |s| ==> IsSpace(s[i])
  }

  lemma {:induction false} NonSpaceIsEmpty(s: string)
    ensures NonSpace(s) == "" <==> AllSpace(s)
  {
    if s != "" {
      NonSpaceIsEmpty(s[1..]);
      assert AllSpace(s) ==> IsSpace(s[0]) && AllSpace(s[1..]);
      if IsSpace(s[0]) && AllSpace(s[1..]) {
        forall i | 0 <= i < |s|
          ensures IsSpace(s[i])
        {
          assert i > 0 ==> s[i] == s[1..][i - 1];
        }
      }
    }
  }

  lemma NonSpaceSplit(s: string, n: nat)
    requires n <= |s|
    ensures NonSpace(s) == NonSpace(s[..n]) + NonSpace(s[n..])
  {
    assert s == s[..n] + s[n..];
    NonSpaceConcat(s[..n], s[n..]);
  }

  // -- strip -----------------------------------------------------------------------------

  function LStrip(s: string): string {
    if s != "" && IsSpace(s[0]) then LStrip(s[1..]) else s
  }

  function RStrip(s: string): string {
    if s != "" && IsSpace(s[|s| - 1]) then RStrip(s[..|s| - 1]) else s
  }

  function Strip(s: string): string {
    RStrip(LStrip(s))
  }

  predicate Stripped(s: string) {
    s == "" || (!IsSpace(s[0]) && !IsSpace(s[|s| - 1]))
  }

  lemma {:induction false} LStripCuts(s: string)
    ensures |LStrip(s)| <= |s| && LStrip(s) == s[|s| - |LStrip(s)|..]
    ensures LStrip(s) == "" || !IsSpace(LStrip(s)[0])
    ensures NonSpace(LStrip(s)) == NonSpace(s)
  {
    if s != "" && IsSpace(s[0]) {
      LStripCuts(s[1..]);
    }
  }

  lemma NonSpaceOfFront(s: string)
    requires s != "" && IsSpace(s[|s| - 1])
    ensures NonSpace(s[..|s| - 1]) == NonSpace(s)
  {
    NonSpaceSplit(s, |s| - 1);
    NonSpaceIsEmpty(s[|s| - 1..]);
  }

  lemma {:induction false} RStripCuts(s: string)
    ensures |RStrip(s)| <= |s| && RStrip(s) == s[..|RStrip(s)|]
    ensures RStrip(s) == "" || !IsSpace(RStrip(s)[|RStrip(s)| - 1])
    ensures NonSpace(RStrip(s)) == NonSpace(s)
  {
    if s != "" && IsSpace(s[|s| - 1]) {
      var front := s[..|s| - 1];
      RStripCuts(front);
      NonSpaceOfFront(s);
      assert front[..|RStrip(front)|] == s[..|RStrip(front)|];
    }
  }

  /** strip() leaves a stripped text of at most the length, with the same text in it. */
  lemma StripCuts(s: string)
    ensures |Strip(s)| <= |s| && Stripped(Strip(s)) && NonSpace(Strip(s)) == NonSpace(s)
  {
    LStripCuts(s);
    RStripCuts(LStrip(s));
  }

  lemma StripOfStripped(s: string)
    requires Stripped(s)
    ensures Strip(s) == s
  {
  }

  /** A text that starts with a character to keep is still there after strip(). */
  lemma StripKeepsStart(s: string)
    requires s != "" && !IsSpace(s[0])
    ensures Strip(s) != "" && Strip(s)[0] == s[0]
  {
    RStripCuts(s);
    NonSpaceIsEmpty(s);
  }

  lemma StripKeepsEnd(s: string)
    requires s != "" && !IsSpace(s[|s| - 1])
    ensures Strip(s) != "" && Strip(s)[|Strip(s)| - 1] == s[|s| - 1]
  {
    LStripCuts(s);
    NonSpaceIsEmpty(s);
    NonSpaceIsEmpty(LStrip(s));
    assert !AllSpace(s);
  }

  // -- sequences of texts -------------------------------------------------------------------

  function Concat(parts: seq<string>): string {
    if parts == [] then "" else parts[0] + Concat(parts[1..])
  }

  lemma {:induction false} ConcatAppend(a: seq<string>, b: seq<string>)
    ensures Concat(a + b) == Concat(a) + Concat(b)
  {
    if a == [] {
      assert a + b == b;
    } else {
      assert (a + b)[1..] == a[1..] + b;
      ConcatAppend(a[1..], b);
    }
  }

  /** The text of the parts, white space ignored. */
  function TextOf(parts: seq<string>): string {
    NonSpace(Concat(parts))
  }

  lemma TextOfCons(p: string, parts: seq<string>)
    ensures TextOf([p] + parts) == NonSpace(p) + TextOf(parts)
  {
    assert ([p] + parts)[1..] == parts;
    NonSpaceConcat(p, Concat(parts));
  }

  lemma TextOfAppend(a: seq<string>, b: seq<string>)
    ensures TextOf(a + b) == TextOf(a) + TextOf(b)
  {
    ConcatAppend(a, b);
    NonSpaceConcat(Concat(a), Concat(b));
  }

  function Total(parts: seq<string>): nat {
    if parts == [] then 0 else |parts[0]| + Total(parts[1..])
  }

  predicate AllWithin(parts: seq<string>, max: nat) {
    forall i :: 0 <= i < |parts| ==> |parts[i]| <= max
  }

  /** Every part is stripped and has something in it. */
  predicate AllTidy(parts: seq<string>) {
    forall i :: 0 <= i < |parts| ==> parts[i] != "" && Stripped(parts[i])
  }
}
