/**
  Password generation. The random source is an oracle: the caller supplies the
  sequence of draws, each being `floor(random * n)` for a charset of `n`
  characters, so a draw lies in `[0, n)` when `n > 0` and is `0` when `n == 0`.
 */
module Generator {
  import opened Charset

  /** Draws the random source can produce for a charset of `n` characters. */
  predicate ValidDraws(draws: seq<nat>, n: nat)
  {
    forall i :: 0 <= i < |draws| ==> if n == 0 then draws[i] == 0 else draws[i] < n
  }

  /** The text `charset[k]` contributes to a string concatenation: past the end it is `undefined`. */
  function CharAt(charset: string, k: nat): string
  {
    if k < |charset| then [charset[k]] else "undefined"
  }

  /** The password the loop builds: one piece per draw, appended in draw order. */
  function Picked(charset: string, draws: seq<nat>): string
  {
    if draws == [] then ""
    else Picked(charset, draws[..|draws| - 1]) + CharAt(charset, draws[|draws| - 1])
  }

  function Repeat(s: string, n: nat): (r: string)
    ensures |r| == n * |s|
  {
    if n == 0 then "" else Repeat(s, n - 1) + s
  }

  /** With a non-empty charset every draw picks one character of it, at the drawn index. */
  lemma {:induction false} PickedFromCharset(charset: string, draws: seq<nat>)
    requires |charset| > 0 && ValidDraws(draws, |charset|)
    ensures |Picked(charset, draws)| == |draws|
    ensures forall i :: 0 <= i < |draws| ==> Picked(charset, draws)[i] == charset[draws[i]]
  {
    if draws != [] {
      var front := draws[..|draws| - 1];
      assert ValidDraws(front, |charset|) by {
        forall i | 0 <= i < |front| ensures front[i] < |charset| {
          assert front[i] == draws[i];
        }
      }
      PickedFromCharset(charset, front);
      var prev := Picked(charset, front);
      var last := draws[|draws| - 1];
      assert Picked(charset, draws) == prev + [charset[last]];
      forall i | 0 <= i < |draws| ensures Picked(charset, draws)[i] == charset[draws[i]] {
        if i < |front| {
          assert Picked(charset, draws)[i] == prev[i];
          assert front[i] == draws[i];
        }
      }
    }
  }

  /** With an empty charset every draw appends the text "undefined". */
  lemma {:induction false} PickedFromEmpty(draws: seq<nat>)
    ensures Picked("", draws) == Repeat("undefined", |draws|)
  {
    if draws != [] {
      PickedFromEmpty(draws[..|draws| - 1]);
    }
  }

  /** What one generation returns. */
  datatype Generated = Generated(password: string, charTypes: nat, passwordLength: nat)

  /** Generation from the boxes, the slider length and the random draws. */
  function Generate(b: Boxes, length: nat, draws: seq<nat>): (g: Generated)
    requires |draws| == length && ValidDraws(draws, |CharsetOf(b)|)
    ensures g.charTypes == CountEnabled(b)
    ensures g.passwordLength == length
    ensures CountEnabled(b) > 0 ==>
              |g.password| == length
              && forall i :: 0 <= i < length ==> g.password[i] == CharsetOf(b)[draws[i]]
    ensures CountEnabled(b) == 0 ==> g.password == Repeat("undefined", length)
    ensures length > 0 ==> g.password != []
  {
    var charset := CharsetOf(b);
    if charset != [] then
      PickedFromCharset(charset, draws);
      Generated(Picked(charset, draws), CountEnabled(b), length)
    else
      PickedFromEmpty(draws);
      Generated(Picked(charset, draws), CountEnabled(b), length)
  }

  /** Every character of a generated password belongs to an enabled class. */
  lemma GeneratedFromEnabledClasses(b: Boxes, length: nat, draws: seq<nat>)
    requires |draws| == length && ValidDraws(draws, |CharsetOf(b)|)
    requires CountEnabled(b) > 0
    ensures var p := Generate(b, length, draws).password;
            forall i :: 0 <= i < |p| ==> exists k :: b.Checked(k) && InClass(k, p[i])
  {
    var p := Generate(b, length, draws).password;
    forall i | 0 <= i < |p| ensures exists k :: b.Checked(k) && InClass(k, p[i]) {
      CharsetMembership(b, p[i]);
    }
  }

  /** The generation loop: builds the charset, then appends one piece per draw. */
  method GeneratePassword(b: Boxes, length: nat, draws: seq<nat>) returns (g: Generated)
    requires |draws| == length && ValidDraws(draws, |CharsetOf(b)|)
    ensures g == Generate(b, length, draws)
  {
    var charset, charTypes := BuildCharset(b);
    var finalPassword := "";
    var i := 0;
    while i < length
      invariant 0 <= i <= length
      invariant finalPassword == Picked(charset, draws[..i])
    {
      assert draws[..i + 1][..i] == draws[..i];
      finalPassword := finalPassword + CharAt(charset, draws[i]);
      i := i + 1;
    }
    assert draws[..i] == draws;
    g := Generated(finalPassword, charTypes, length);
  }
}
