/** The ASCII part of the string operations the source applies to provider text. */
module Text {

  function LowerChar(c: char): char {
    if 'A' <= c <= 'Z' then (c as int + 32) as char else c
  }

  function UpperChar(c: char): char {
    if 'a' <= c <= 'z' then (c as int - 32) as char else c
  }

  /** The ASCII characters that stripping removes. */
  predicate IsSpace(c: char) {
    9 <= c as int <= 13 || 28 <= c as int <= 32
  }

  function Lower(s: string): (r: string)
    ensures |r| == |s|
  {
    seq(|s|, i requires 0 <= i < |s| => LowerChar(s[i]))
  }

  function Upper(s: string): (r: string)
    ensures |r| == |s|
  {
    seq(|s|, i requires 0 <= i < |s| => UpperChar(s[i]))
  }

  function StripLeft(s: string): string {
    if s != "" && IsSpace(s[0]) then StripLeft(s[1..]) else s
  }

  function StripRight(s: string): string {
    if s != "" && IsSpace(s[|s| - 1]) then StripRight(s[..|s| - 1]) else s
  }

  function Strip(s: string): string {
    StripRight(StripLeft(s))
  }

  // ------------------------------------------------------------ when upper-casing and stripping change nothing

  predicate HasLower(s: string) {
    exists i :: 0 <= i < |s| && 'a' <= s[i] <= 'z'
  }

  predicate SpaceAtEnds(s: string) {
    s != "" && (IsSpace(s[0]) || IsSpace(s[|s| - 1]))
  }

  lemma {:induction false} StripLeftShortens(s: string)
    ensures |StripLeft(s)| <= |s|
    ensures StripLeft(s) == s <==> s == "" || !IsSpace(s[0])
  {
    if s != "" && IsSpace(s[0]) {
      StripLeftShortens(s[1..]);
    }
  }

  lemma {:induction false} StripRightShortens(s: string)
    ensures |StripRight(s)| <= |s|
    ensures StripRight(s) == s <==> s == "" || !IsSpace(s[|s| - 1])
  {
    if s != "" && IsSpace(s[|s| - 1]) {
      StripRightShortens(s[..|s| - 1]);
    }
  }

  lemma StripKeeps(s: string)
    ensures |Strip(s)| <= |s|
    ensures |Strip(s)| == |s| ==> Strip(s) == s
    ensures Strip(s) == s <==> !SpaceAtEnds(s)
  {
    StripLeftShortens(s);
    StripRightShortens(StripLeft(s));
    if StripLeft(s) != s {
      assert |StripLeft(s)| < |s| by {
        StripLeftShortens(s[1..]);
      }
    }
    if StripRight(StripLeft(s)) != StripLeft(s) {
      var t := StripLeft(s);
      assert |StripRight(t)| < |t| by {
        StripRightShortens(t[..|t| - 1]);
      }
    }
  }

  lemma UpperKeeps(s: string)
    ensures Upper(s) == s <==> !HasLower(s)
  {
    if Upper(s) == s {
      forall i | 0 <= i < |s|
        ensures !('a' <= s[i] <= 'z')
      {
        assert Upper(s)[i] == UpperChar(s[i]);
      }
    }
  }

  /** Upper-casing the stripped text gives the text back iff it has no lower-case letter and no space at either end. */
  lemma NormalizedKeeps(s: string)
    ensures Upper(Strip(s)) == s <==> !HasLower(s) && !SpaceAtEnds(s)
  {
    StripKeeps(s);
    UpperKeeps(s);
  }

  // ------------------------------------------------------------ what stripping leaves

  predicate AllSpace(s: string) {
    forall i :: 0 <= i < |s| ==> IsSpace(s[i])
  }

  lemma {:induction false} StripLeftCore(s: string) returns (i: nat)
    ensures i <= |s| && StripLeft(s) == s[i..] && AllSpace(s[..i])
    ensures StripLeft(s) != "" ==> !IsSpace(StripLeft(s)[0])
  {
    if s != "" && IsSpace(s[0]) {
      var t := s[1..];
      i := StripLeftCore(t);
      assert t[i..] == s[i + 1..];
      assert s[..i + 1] == [s[0]] + t[..i];
      i := i + 1;
    } else {
      i := 0;
    }
  }

  lemma {:induction false} StripRightCore(s: string) returns (j: nat)
    ensures j <= |s| && StripRight(s) == s[..j] && AllSpace(s[j..])
    ensures StripRight(s) != "" ==> !IsSpace(StripRight(s)[j - 1])
  {
    if s != "" && IsSpace(s[|s| - 1]) {
      j := StripRightCore(s[..|s| - 1]);
      assert s[..|s| - 1][..j] == s[..j];
      forall k | 0 <= k < |s[j..]|
        ensures IsSpace(s[j..][k])
      {
        assert k < |s| - 1 - j ==> s[j..][k] == s[..|s| - 1][j..][k];
      }
    } else {
      j := |s|;
    }
  }

  /** Stripping cuts off exactly the space at both ends. */
  lemma StripIsCore(s: string) returns (i: nat, j: nat)
    ensures i <= j <= |s| && Strip(s) == s[i..j] && AllSpace(s[..i]) && AllSpace(s[j..])
    ensures i < j ==> !IsSpace(s[i]) && !IsSpace(s[j - 1])
  {
    i := StripLeftCore(s);
    var core := StripLeft(s);
    var k := StripRightCore(core);
    j := i + k;
    assert core[..k] == s[i..j] && core[k..] == s[j..];
    assert i < j ==> s[i] == core[0] && s[j - 1] == core[k - 1];
  }

  /** Nothing is left of a text exactly when it is all space. */
  lemma BlankExactly(s: string)
    ensures Strip(s) == "" <==> AllSpace(s)
    ensures Strip(Strip(s)) == "" <==> AllSpace(s)
  {
    var i, j := StripIsCore(s);
    if i < j {
      assert !IsSpace(s[i]);
      StripKeeps(Strip(s));
    } else {
      assert s == s[..i] + s[j..];
    }
  }
}
