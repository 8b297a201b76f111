/**
 * The e-mail pattern of the survey form, /^[^\s@]+@[^\s@]+\.[^\s@]+$/,
 * as a predicate on strings, and the plain description of the strings it
 * accepts.
 */
module EmailPattern {
  import opened JsText

  /** One character of the class `[^\s@]`. */
  predicate IsAtom(c: char) {
    !IsSpace(c) && c != '@'
  }

  predicate AllAtoms(s: string) {
    forall k :: 0 <= k < |s| ==> IsAtom(s[k])
  }

  /** Splitting points of a match, as the pattern's three runs of atoms. */
  predicate IsMatchSplit(s: string, i: int, j: int) {
    && 0 < i && i + 1 < j < |s| - 1
    && s[i] == '@' && s[j] == '.'
    && AllAtoms(s[..i]) && AllAtoms(s[i + 1..j]) && AllAtoms(s[j + 1..])
  }

  /**
   * The strings the anchored pattern accepts: a non-empty run of atoms, '@',
   * a non-empty run of atoms, '.', a non-empty run of atoms. The second run
   * may itself hold dots; `i` and `j` are the positions of the '@' and of
   * the '.' the pattern matched literally.
   */
  predicate MatchesEmailPattern(s: string): (m: bool)
    ensures m ==> |s| >= 5 && '@' in s && '.' in s
  {
    exists i, j | 0 < i < j < |s| :: IsMatchSplit(s, i, j)
  }

  /** Position of the first '@' of `s`. */
  function FirstAt(s: string): (i: nat)
    requires '@' in s
    ensures i < |s| && s[i] == '@'
    ensures forall k :: 0 <= k < i ==> s[k] != '@'
  {
    if s[0] == '@' then 0 else FirstAt(s[1..]) + 1
  }

  /**
   * The shape the pattern stands for: no white space, exactly one '@', a
   * non-empty part before it, and a '.' in the part after it that is
   * neither that part's first nor its last character.
   */
  predicate WellFormedEmail(s: string): (w: bool)
    ensures w ==> |s| >= 5 && '@' in s && '.' in s
  {
    && (forall k :: 0 <= k < |s| ==> !IsSpace(s[k]))
    && multiset(s)['@'] == 1
    && var at := FirstAt(s);
       var domain := s[at + 1..];
       && at > 0
       && exists k :: 0 < k < |domain| - 1 && domain[k] == '.'
  }

  lemma AtFreeCount(a: string)
    requires forall k :: 0 <= k < |a| ==> a[k] != '@'
    ensures multiset(a)['@'] == 0
  {
    assert '@' !in a;
  }

  /** Under a single '@', nothing after the first '@' is another '@'. */
  lemma {:induction false} NoSecondAt(s: string)
    requires multiset(s)['@'] == 1
    ensures '@' in s
    ensures forall k :: FirstAt(s) < k < |s| ==> s[k] != '@'
  {
    assert '@' in multiset(s);
    var i := FirstAt(s);
    assert s == s[..i + 1] + s[i + 1..];
    assert multiset(s) == multiset(s[..i + 1]) + multiset(s[i + 1..]);
    assert s[..i + 1][i] == '@';
    assert multiset(s[..i + 1])['@'] >= 1;
    assert multiset(s[i + 1..])['@'] == 0;
    forall k | i < k < |s| ensures s[k] != '@' {
      assert s[i + 1..][k - i - 1] == s[k];
    }
  }

  lemma MatchSplitNoSpace(s: string, i: int, j: int)
    requires IsMatchSplit(s, i, j)
    ensures forall k :: 0 <= k < |s| ==> !IsSpace(s[k])
  {
    forall k | 0 <= k < |s| ensures !IsSpace(s[k]) {
      if k < i {
        assert s[..i][k] == s[k];
      } else if i < k < j {
        assert s[i + 1..j][k - i - 1] == s[k];
      } else if j < k {
        assert s[j + 1..][k - j - 1] == s[k];
      }
    }
  }

  lemma MatchSplitOneAt(s: string, i: int, j: int)
    requires IsMatchSplit(s, i, j)
    ensures multiset(s)['@'] == 1
  {
    var a, b, c := s[..i], s[i + 1..j], s[j + 1..];
    assert s == a + [s[i]] + b + [s[j]] + c;
    AtFreeCount(a);
    AtFreeCount(b);
    AtFreeCount(c);
    assert multiset(s) == multiset(a) + multiset([s[i]]) + multiset(b) + multiset([s[j]]) + multiset(c);
  }

  lemma FirstAtIs(s: string, i: nat)
    requires i < |s| && s[i] == '@'
    requires forall k :: 0 <= k < i ==> s[k] != '@'
    ensures FirstAt(s) == i
  {
  }

  lemma MatchImpliesWellFormed(s: string)
    requires MatchesEmailPattern(s)
    ensures WellFormedEmail(s)
  {
    var i, j :| IsMatchSplit(s, i, j);
    MatchSplitNoSpace(s, i, j);
    MatchSplitOneAt(s, i, j);
    forall k | 0 <= k < i ensures s[k] != '@' {
      assert s[..i][k] == s[k];
    }
    FirstAtIs(s, i);
    var domain := s[i + 1..];
    assert domain[j - i - 1] == '.';
    assert exists k :: 0 < k < |domain| - 1 && domain[k] == '.';
  }

  lemma WellFormedImpliesMatch(s: string)
    requires WellFormedEmail(s)
    ensures MatchesEmailPattern(s)
  {
    NoSecondAt(s);
    var i := FirstAt(s);
    var domain := s[i + 1..];
    var k :| 0 < k < |domain| - 1 && domain[k] == '.';
    var j := i + 1 + k;
    assert s[j] == '.';
    assert AllAtoms(s[..i]);
    assert AllAtoms(s[i + 1..j]);
    assert AllAtoms(s[j + 1..]);
    assert IsMatchSplit(s, i, j);
  }

  /** The pattern accepts a string exactly when it has the shape `WellFormedEmail` describes. */
  lemma EmailPatternCharacterization(s: string)
    ensures MatchesEmailPattern(s) <==> WellFormedEmail(s)
  {
    if MatchesEmailPattern(s) {
      MatchImpliesWellFormed(s);
    }
    if WellFormedEmail(s) {
      WellFormedImpliesMatch(s);
    }
  }

  /** Examples: "a@b.co" is accepted; "a@b" (no dot after the '@') and "not-an-email" (no '@') are not. */
  lemma EmailPatternExamples()
    ensures MatchesEmailPattern("a@b.co")
    ensures !MatchesEmailPattern("a@b")
    ensures !MatchesEmailPattern("not-an-email")
  {
    var s := "a@b.co";
    assert s[..1] == "a" && s[2..3] == "b" && s[4..] == "co";
    assert AllAtoms(s[..1]) && AllAtoms(s[2..3]) && AllAtoms(s[4..]);
    assert IsMatchSplit(s, 1, 3);
    assert !('@' in "not-an-email");
  }
}
