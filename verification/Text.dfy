/** The string operations that decide which language a component is written in. */
module Text {
  import opened Names

  /** `str.strip()` */
  function Strip(s: string): string {
    DropRight(DropLeft(s))
  }

  function DropLeft(s: string): string {
    if s != [] && Space(s[0]) then DropLeft(s[1..]) else s
  }

  function DropRight(s: string): string {
    if s != [] && Space(s[|s| - 1]) then DropRight(s[..|s| - 1]) else s
  }

  function LowerChar(c: char): char {
    if 'A' <= c <= 'Z' then (c - 'A') + 'a' else c
  }

  /** `str.lower()`, for letters of the ASCII range. */
  function Lower(s: string): string {
    if s == [] then [] else [LowerChar(s[0])] + Lower(s[1..])
  }

  /** How the registry and the collection name a language. */
  function Normalized(language: string): string {
    Lower(Strip(language))
  }

  lemma {:induction false} LowerLength(s: string)
    ensures |Lower(s)| == |s|
  {
    if s != [] {
      LowerLength(s[1..]);
    }
  }

  /** Lower case moves exactly the letters from A to Z, by the distance of the two alphabets. */
  lemma {:induction false} LowerMoves(s: string, i: nat)
    requires i < |s|
    ensures |Lower(s)| == |s|
    ensures Lower(s)[i] as int == s[i] as int + (if 65 <= s[i] as int <= 90 then 32 else 0)
  {
    LowerLength(s);
    if i > 0 {
      LowerMoves(s[1..], i - 1);
    }
  }

  /** Stripping takes white space off both ends and nothing else: what is left is the longest part without any there. */
  lemma {:induction false} StripTakes(s: string) returns (left: string, right: string)
    ensures s == left + Strip(s) + right
    ensures forall i | 0 <= i < |left| :: Space(left[i])
    ensures forall i | 0 <= i < |right| :: Space(right[i])
    ensures Strip(s) != [] ==> !Space(Strip(s)[0]) && !Space(Strip(s)[|Strip(s)| - 1])
  {
    left := LeftTakes(s);
    right := RightTakes(DropLeft(s));
    assert s == left + (Strip(s) + right);
  }

  lemma {:induction false} LeftTakes(s: string) returns (left: string)
    ensures s == left + DropLeft(s) && forall i | 0 <= i < |left| :: Space(left[i])
    ensures DropLeft(s) != [] ==> !Space(DropLeft(s)[0])
  {
    if s != [] && Space(s[0]) {
      var rest := LeftTakes(s[1..]);
      left := [s[0]] + rest;
      assert s == [s[0]] + s[1..];
    } else {
      left := [];
    }
  }

  lemma {:induction false} RightTakes(s: string) returns (right: string)
    ensures s == DropRight(s) + right && forall i | 0 <= i < |right| :: Space(right[i])
    ensures DropRight(s) != [] ==> DropRight(s)[0] == s[0] && !Space(DropRight(s)[|DropRight(s)| - 1])
    decreases |s|
  {
    if s != [] && Space(s[|s| - 1]) {
      var rest := RightTakes(s[..|s| - 1]);
      right := rest + [s[|s| - 1]];
      assert s == s[..|s| - 1] + [s[|s| - 1]];
    } else {
      right := [];
    }
  }

  lemma {:induction false} DropsAtMost(s: string)
    ensures |DropLeft(s)| <= |s| && (|DropLeft(s)| == |s| ==> DropLeft(s) == s)
    ensures |DropRight(s)| <= |s| && (|DropRight(s)| == |s| ==> DropRight(s) == s)
    decreases |s|
  {
    if s != [] {
      DropsAtMost(s[1..]);
      DropsAtMost(s[..|s| - 1]);
    }
  }

  /** Stripping keeps a name iff it has no surrounding white space. */
  lemma StripKeepsIff(s: string)
    ensures Strip(s) == s <==> s == [] || (!Space(s[0]) && !Space(s[|s| - 1]))
  {
    DropsAtMost(s);
    DropsAtMost(DropLeft(s));
    if s != [] && Space(s[0]) {
      DropsAtMost(s[1..]);
    } else if s != [] && Space(s[|s| - 1]) {
      DropsAtMost(s[..|s| - 1]);
    }
  }
}
