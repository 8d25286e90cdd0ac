/**
  The strength indicator: a classification of (number of enabled character
  classes, password length) into a label and a level, the upper-cased label
  shown as text, and the row of bars of which exactly `level` get a colour.
 */
module Strength {
  import Text

  datatype Rating = Rating(strength: string, level: int)

  const MaxLevel: int := 4

  /** The label belonging to each level; level 0 is the "no branch matched" case. */
  function LabelOf(level: int): string
  {
    if level == 4 then "Strong"
    else if level == 3 then "Medium"
    else if level == 2 then "Weak"
    else if level == 1 then "Too Weak!"
    else ""
  }

  /**
    The ordered guards of the strength update. The first guard that holds wins;
    a class count above four matches none and leaves the empty label at level 0.
   */
  function Classify(charTypes: int, passwordLength: int): (r: Rating)
    ensures r.strength == LabelOf(r.level)
    ensures 0 <= r.level <= MaxLevel
    ensures r.level == 0 <==> charTypes > 4
    ensures 1 <= charTypes <= 4 ==> 1 <= r.level <= 4
  {
    if charTypes == 4 || (charTypes == 3 && passwordLength >= 12) then Rating("Strong", 4)
    else if (charTypes == 3 && passwordLength >= 8) || (charTypes == 2 && passwordLength >= 10) then Rating("Medium", 3)
    else if (charTypes == 2 && passwordLength < 10) || (charTypes == 3 && passwordLength < 8) then Rating("Weak", 2)
    else if charTypes < 2 then Rating("Too Weak!", 1)
    else Rating("", 0)
  }

  /** All four classes are always strong, whatever the length. */
  lemma FourClassesStrong(passwordLength: int)
    ensures Classify(4, passwordLength) == Rating("Strong", 4)
  {
  }

  /** Three classes: strong from 12 characters, medium from 8, weak below. */
  lemma ThreeClassesTable(passwordLength: int)
    ensures passwordLength >= 12 ==> Classify(3, passwordLength) == Rating("Strong", 4)
    ensures 8 <= passwordLength < 12 ==> Classify(3, passwordLength) == Rating("Medium", 3)
    ensures passwordLength < 8 ==> Classify(3, passwordLength) == Rating("Weak", 2)
  {
  }

  /** Two classes: medium from 10 characters, weak below; never strong. */
  lemma TwoClassesTable(passwordLength: int)
    ensures passwordLength >= 10 ==> Classify(2, passwordLength) == Rating("Medium", 3)
    ensures passwordLength < 10 ==> Classify(2, passwordLength) == Rating("Weak", 2)
  {
  }

  /** Fewer than two classes is "Too Weak!" at level 1, independently of the length. */
  lemma FewerThanTwoClassesTooWeak(charTypes: int, passwordLength: int)
    requires charTypes < 2
    ensures Classify(charTypes, passwordLength) == Rating("Too Weak!", 1)
  {
  }

  /** A longer password never rates lower with the same classes. */
  lemma MonotoneInLength(charTypes: int, shorter: int, longer: int)
    requires shorter <= longer
    ensures Classify(charTypes, shorter).level <= Classify(charTypes, longer).level
  {
  }

  /** Within the four classes, enabling more classes never rates lower. */
  lemma MonotoneInClasses(fewer: int, more: int, passwordLength: int)
    requires fewer <= more <= 4
    ensures Classify(fewer, passwordLength).level <= Classify(more, passwordLength).level
  {
  }

  /** The text shown in the indicator: the label in upper case. */
  function StrengthText(r: Rating): (t: string)
    ensures |t| == |r.strength|
  {
    Text.ToUpper(r.strength)
  }

  /** The shown text for every level the classifier can produce. */
  lemma StrengthTexts(charTypes: int, passwordLength: int)
    ensures var r := Classify(charTypes, passwordLength);
            StrengthText(r) == (if r.level == 4 then "STRONG"
                                else if r.level == 3 then "MEDIUM"
                                else if r.level == 2 then "WEAK"
                                else if r.level == 1 then "TOO WEAK!"
                                else "")
  {
    var r := Classify(charTypes, passwordLength);
    var t := StrengthText(r);
    if r.level == 4 {
      assert t == "STRONG";
    } else if r.level == 3 {
      assert t == "MEDIUM";
    } else if r.level == 2 {
      assert t == "WEAK";
    } else if r.level == 1 {
      assert t == "TOO WEAK!";
    }
  }

  // ---------------------------------------------------------------- bars

  /** The colour classes, by bar position. */
  const Colours: seq<string> := ["bar-filled-red", "bar-filled-orange", "bar-filled-yellow", "bar-filled-green"]

  const ColourSet: set<string> := set c | c in Colours

  /** A bar (its class list) is filled when it carries a colour class. */
  predicate Filled(bar: set<string>)
  {
    bar * ColourSet != {}
  }

  function FilledCount(bars: seq<set<string>>): (n: nat)
    ensures n <= |bars|
  {
    if bars == [] then 0
    else FilledCount(bars[..|bars| - 1]) + (if Filled(bars[|bars| - 1]) then 1 else 0)
  }

  /**
    The bars after an update to `level`: every colour class is removed, then bar
    `i` for `i < level` gets colour `i` (cycled through the four colours); the
    other classes of every bar are kept.
   */
  function Meter(bars: seq<set<string>>, level: nat): (r: seq<set<string>>)
    requires level <= |bars|
    ensures |r| == |bars|
    ensures forall i :: 0 <= i < |r| ==> r[i] - ColourSet == bars[i] - ColourSet
    ensures forall i :: 0 <= i < level ==> r[i] * ColourSet == {Colours[i % |Colours|]}
    ensures forall i :: level <= i < |r| ==> !Filled(r[i])
  {
    seq(|bars|, i requires 0 <= i < |bars| =>
      (bars[i] - ColourSet) + (if i < level then {Colours[i % |Colours|]} else {}))
  }

  /** A row whose filled bars are exactly its first `k` has `min(k, |bars|)` filled bars. */
  lemma {:induction false} FilledPrefixCount(bars: seq<set<string>>, k: nat)
    requires forall i :: 0 <= i < |bars| ==> (Filled(bars[i]) <==> i < k)
    ensures FilledCount(bars) == if k < |bars| then k else |bars|
  {
    if bars != [] {
      var p := bars[..|bars| - 1];
      forall i | 0 <= i < |p| ensures Filled(p[i]) <==> i < k {
        assert p[i] == bars[i];
      }
      FilledPrefixCount(p, k);
    }
  }

  /** After an update exactly `level` bars are filled. */
  lemma MeterFillsLevelBars(bars: seq<set<string>>, level: nat)
    requires level <= |bars|
    ensures FilledCount(Meter(bars, level)) == level
  {
    var r := Meter(bars, level);
    forall i | 0 <= i < |r| ensures Filled(r[i]) <==> i < level {
      if i < level {
        assert Colours[i % |Colours|] in r[i] * ColourSet;
      }
    }
    FilledPrefixCount(r, level);
  }

  /** The two loops of the update, on the bar row: clear every colour, then fill the first `level`. */
  method UpdateBars(bars: seq<set<string>>, level: nat) returns (r: seq<set<string>>)
    requires level <= |bars|
    ensures r == Meter(bars, level)
  {
    r := bars;
    var i := 0;
    while i < |r|
      invariant 0 <= i <= |r| == |bars|
      invariant forall j :: 0 <= j < i ==> r[j] == bars[j] - ColourSet
      invariant forall j :: i <= j < |r| ==> r[j] == bars[j]
    {
      r := r[i := r[i] - ColourSet];
      i := i + 1;
    }
    i := 0;
    while i < level
      invariant 0 <= i <= level
      invariant |r| == |bars|
      invariant forall j :: 0 <= j < i ==> r[j] == (bars[j] - ColourSet) + {Colours[j % |Colours|]}
      invariant forall j :: i <= j < |r| ==> r[j] == bars[j] - ColourSet
    {
      r := r[i := r[i] + {Colours[i % |Colours|]}];
      i := i + 1;
    }
    var m := Meter(bars, level);
    assert forall j :: 0 <= j < |r| ==> r[j] == m[j];
  }
}
