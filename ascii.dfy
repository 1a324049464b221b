/** The filter `''.join(c for c in msg if ord(c) < 128)` that the
    transcription handler applies to exception text before reporting it. */
module Ascii {

  predicate IsAscii(c: char) {
    c as int < 128
  }

  predicate AllAscii(s: string) {
    forall i :: 0 <= i < |s| ==> IsAscii(s[i])
  }

  /** Keeps the characters of `s` whose code is below 128, in order. */
  function AsciiOnly(s: string): (r: string)
    ensures |r| <= |s|
    ensures AllAscii(r)
  {
    if s == [] then []
    else (if IsAscii(s[0]) then [s[0]] else []) + AsciiOnly(s[1..])
  }

  /** The filter distributes over concatenation, so it keeps the relative
      order of the characters it retains. */
  lemma {:induction false} AsciiOnlyAppend(a: string, b: string)
    ensures AsciiOnly(a + b) == AsciiOnly(a) + AsciiOnly(b)
  {
    if a == [] {
      assert a + b == b;
    } else {
      var head := if IsAscii(a[0]) then [a[0]] else [];
      assert (a + b)[0] == a[0] && (a + b)[1..] == a[1..] + b;
      assert AsciiOnly(a + b) == head + AsciiOnly(a[1..] + b);
      AsciiOnlyAppend(a[1..], b);
      assert AsciiOnly(a) == head + AsciiOnly(a[1..]);
    }
  }

  /** Every ASCII character keeps its number of occurrences and every other
      character disappears. */
  lemma {:induction false} AsciiOnlyCounts(s: string, c: char)
    ensures multiset(AsciiOnly(s))[c] == if IsAscii(c) then multiset(s)[c] else 0
  {
    if s != [] {
      AsciiOnlyCounts(s[1..], c);
      assert s == [s[0]] + s[1..];
      assert multiset(s) == multiset{s[0]} + multiset(s[1..]);
    }
  }

  /** The filter leaves a string unchanged exactly when it is all ASCII. */
  lemma {:induction false} AsciiOnlyIdentity(s: string)
    ensures AsciiOnly(s) == s <==> AllAscii(s)
  {
    if s != [] {
      AsciiOnlyIdentity(s[1..]);
      if AllAscii(s) {
        assert AllAscii(s[1..]) by {
          forall i | 0 <= i < |s[1..]| ensures IsAscii(s[1..][i]) {
            assert s[1..][i] == s[i + 1];
          }
        }
        assert [s[0]] + s[1..] == s;
      } else if AsciiOnly(s) == s {
        assert false;
      }
    }
  }

  /** Filtering twice is the same as filtering once. */
  lemma AsciiOnlyIdempotent(s: string)
    ensures AsciiOnly(AsciiOnly(s)) == AsciiOnly(s)
  {
    AsciiOnlyIdentity(AsciiOnly(s));
  }
}
