// String normalisation used by the shadow ledger: Go's strings.TrimSpace and
// strings.ToUpper.  White space is the full Unicode White_Space set; upper casing
// (and lower casing) covers every letter that becomes an ASCII letter, and leaves others.
module Text {

  predicate IsSpace(c: char) {
    || '\U{9}' <= c <= '\U{D}'
    || c in {' ', '\U{85}', '\U{A0}', '\U{1680}', '\U{2028}', '\U{2029}', '\U{202F}', '\U{205F}', '\U{3000}'}
    || '\U{2000}' <= c <= '\U{200A}'
  }

  function UpperChar(c: char): char {
    if 'a' <= c <= 'z' then c - 'a' + 'A'
    else if c == '\U{131}' then 'I'
    else if c == '\U{17F}' then 'S'
    else c
  }

  function Upper(s: string): string {
    seq(|s|, i requires 0 <= i < |s| => UpperChar(s[i]))
  }

  function TrimLeft(s: string): string {
    if s != [] && IsSpace(s[0]) then TrimLeft(s[1..]) else s
  }

  function TrimRight(s: string): string {
    if s != [] && IsSpace(s[|s| - 1]) then TrimRight(s[..|s| - 1]) else s
  }

  function Trim(s: string): string {
    TrimRight(TrimLeft(s))
  }

  function Norm(s: string): string {
    Upper(Trim(s))
  }

  // A string trimming leaves alone.
  predicate Trimmed(s: string) {
    s == [] || (!IsSpace(s[0]) && !IsSpace(s[|s| - 1]))
  }

  lemma {:induction false} TrimRightKeepsHead(s: string)
    requires s == [] || !IsSpace(s[0])
    ensures Trimmed(TrimRight(s))
    decreases |s|
  {
    if s != [] && IsSpace(s[|s| - 1]) {
      TrimRightKeepsHead(s[..|s| - 1]);
    }
  }

  lemma {:induction false} TrimLeftHead(s: string)
    ensures TrimLeft(s) == [] || !IsSpace(TrimLeft(s)[0])
    decreases |s|
  {
    if s != [] && IsSpace(s[0]) {
      TrimLeftHead(s[1..]);
    }
  }

  // Trimming reaches a fixed point, and its fixed points are the trimmed strings.
  lemma TrimFixed(s: string)
    ensures Trimmed(Trim(s))
    ensures Trimmed(s) <==> Trim(s) == s
    ensures Trim(Trim(s)) == Trim(s)
  {
    TrimLeftHead(s);
    TrimRightKeepsHead(TrimLeft(s));
  }

  lemma UpperFixed(s: string)
    ensures Upper(Upper(s)) == Upper(s)
    ensures Trimmed(s) ==> Trimmed(Upper(s))
  {
    assert forall i | 0 <= i < |s| :: Upper(s)[i] == UpperChar(s[i]);
  }

  // Normalised sides and symbols survive a second normalisation unchanged.
  lemma NormFixed(s: string)
    ensures Norm(Norm(s)) == Norm(s)
  {
    TrimFixed(s);
    UpperFixed(Trim(s));
    TrimFixed(Norm(s));
  }

  // The code points of Unicode's White_Space property.
  lemma SpaceExactly(c: char)
    ensures IsSpace(c) <==>
              c as int in {9, 10, 11, 12, 13, 32, 133, 160, 5760, 8192, 8193, 8194, 8195, 8196, 8197, 8198, 8199, 8200,
                           8201, 8202, 8232, 8233, 8239, 8287, 12288}
  {
  }

  ghost predicate AllSpace(s: string) {
    forall c | c in s :: IsSpace(c)
  }

  // White space around a trimmed core goes, and nothing else does.
  lemma {:induction false} TrimExactly(left: string, core: string, right: string)
    requires AllSpace(left) && Trimmed(core) && AllSpace(right)
    ensures Trim(left + core + right) == core
    decreases |left| + 2 * |right|
  {
    var s := left + core + right;
    if left != [] {
      assert s[0] == left[0] && s[1..] == left[1..] + core + right;
      TrimExactly(left[1..], core, right);
    } else if core == [] && right != [] {
      assert s == right + [] + [];
      TrimExactly(right, [], []);
    } else if right != [] {
      RightGoes(core, right);
      assert s == core + right;
    } else {
      assert s == core;
    }
  }

  lemma {:induction false} RightGoes(core: string, right: string)
    requires Trimmed(core) && AllSpace(right)
    ensures TrimRight(core + right) == core
    decreases |right|
  {
    var s := core + right;
    if right != [] {
      var n := |right| - 1;
      assert s[|s| - 1] == right[n] && s[..|s| - 1] == core + right[..n];
      RightGoes(core, right[..n]);
    } else {
      assert s == core;
    }
  }

  // The ways to write a capital ASCII letter: itself, the small one, and the dotless i
  // and the long s, whose capitals are I and S.
  predicate Writes(c: char, capital: char) {
    || c == capital || c as int == capital as int + 32
    || (c == '\U{131}' && capital == 'I') || (c == '\U{17F}' && capital == 'S')
  }

  // The word, each letter in either case, with white space around it or none.
  predicate Spells(s: string, word: string) {
    |Trim(s)| == |word| && forall i | 0 <= i < |word| :: Writes(Trim(s)[i], word[i])
  }

  // Normalising gives a word of capitals exactly for its spellings.
  lemma NormSpells(s: string, word: string)
    requires forall c | c in word :: 'A' <= c <= 'Z'
    ensures Norm(s) == word <==> Spells(s, word)
  {
    var t := Trim(s);
    assert |Norm(s)| == |t| && forall i | 0 <= i < |t| :: Norm(s)[i] == UpperChar(t[i]);
    hide Trim;
    forall i | 0 <= i < |t| == |word| ensures Norm(s)[i] == word[i] <==> Writes(t[i], word[i]) {
      assert word[i] in word;
    }
  }

  lemma SideExactly(s: string)
    ensures Norm(s) == "BUY" <==> Spells(s, "BUY")
    ensures Norm(s) == "SELL" <==> Spells(s, "SELL")
  {
    NormSpells(s, "BUY");
    NormSpells(s, "SELL");
  }

  // Nothing is left exactly of white space.
  lemma {:induction false} TrimEmpty(s: string)
    ensures Trim(s) == "" <==> AllSpace(s)
  {
    TrimParts(s);
    if AllSpace(s) {
      assert s + [] + [] == s;
      TrimExactly(s, [], []);
    }
  }

  lemma {:induction false} TrimParts(s: string)
    ensures exists left, right :: AllSpace(left) && AllSpace(right) && s == left + Trim(s) + right
  {
    var left := LeftPart(s);
    var right := RightPart(TrimLeft(s));
    assert s == left + Trim(s) + right;
  }

  lemma {:induction false} LeftPart(s: string) returns (left: string)
    ensures AllSpace(left) && s == left + TrimLeft(s)
    decreases |s|
  {
    left := [];
    if s != [] && IsSpace(s[0]) {
      var rest := LeftPart(s[1..]);
      left := [s[0]] + rest;
    }
  }

  lemma {:induction false} RightPart(s: string) returns (right: string)
    ensures AllSpace(right) && s == TrimRight(s) + right
    decreases |s|
  {
    right := [];
    if s != [] && IsSpace(s[|s| - 1]) {
      var rest := RightPart(s[..|s| - 1]);
      right := rest + [s[|s| - 1]];
    }
  }

  // strings.ToLower, for the letters whose lower case is an ASCII letter.
  function LowerChar(c: char): char {
    if 'A' <= c <= 'Z' then c - 'A' + 'a'
    else if c == '\U{130}' then 'i'
    else if c == '\U{212A}' then 'k'
    else c
  }

  function Lower(s: string): string {
    seq(|s|, i requires 0 <= i < |s| => LowerChar(s[i]))
  }

  // The ways to write a small ASCII letter: itself, the capital, and the dotted I and the
  // Kelvin sign, whose small letters are i and k.
  predicate WritesSmall(c: char, small: char) {
    || c == small || c as int == small as int - 32
    || (c == '\U{130}' && small == 'i') || (c == '\U{212A}' && small == 'k')
  }

  predicate SpellsSmall(s: string, word: string) {
    |Trim(s)| == |word| && forall i | 0 <= i < |word| :: WritesSmall(Trim(s)[i], word[i])
  }

  lemma LowerSpells(s: string, word: string)
    requires forall c | c in word :: 'a' <= c <= 'z'
    ensures Lower(Trim(s)) == word <==> SpellsSmall(s, word)
  {
    var t := Trim(s);
    assert |Lower(t)| == |t| && forall i | 0 <= i < |t| :: Lower(t)[i] == LowerChar(t[i]);
    hide Trim;
    forall i | 0 <= i < |t| == |word| ensures Lower(t)[i] == word[i] <==> WritesSmall(t[i], word[i]) {
      assert word[i] in word;
    }
  }
}
