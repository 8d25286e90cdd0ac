/**
  The four character classes, the check boxes that enable them, and the
  charset the generator draws from: the alphabets of the enabled classes
  concatenated in the fixed order upper case, lower case, digits, symbols.
 */
module Charset {

  datatype Class = Upper | Lower | Digits | Symbols

  /** The fixed order of the character-set table. */
  const Order: seq<Class> := [Upper, Lower, Digits, Symbols]

  const UpperCaseLetters: string := "ABCDEFGHIJKLMNOPQRSTUVWXYZ"
  const LowerCaseLetters: string := "abcdefghijklmnopqrstuvwxyz"
  const Numbers: string := "0123456789"
  const SymbolChars: string := "!@#$%^&*()_+[]{}|;:,.<>?"

  function Alphabet(k: Class): string
  {
    match k
    case Upper => UpperCaseLetters
    case Lower => LowerCaseLetters
    case Digits => Numbers
    case Symbols => SymbolChars
  }

  /** Class membership stated by character ranges, independently of the alphabet strings. */
  predicate InClass(k: Class, c: char)
  {
    match k
    case Upper => 'A' <= c <= 'Z'
    case Lower => 'a' <= c <= 'z'
    case Digits => '0' <= c <= '9'
    case Symbols => c in {'!', '@', '#', '$', '%', '^', '&', '*', '(', ')', '_', '+',
                          '[', ']', '{', '}', '|', ';', ':', ',', '.', '<', '>', '?'}
  }

  /** `n` consecutive code points from `first`. */
  function Run(first: char, n: nat): (s: string)
    requires first as int + n <= 0xD800
    ensures |s| == n
    ensures forall i :: 0 <= i < n ==> s[i] as int == first as int + i
  {
    seq(n, i requires 0 <= i < n => (first as int + i) as char)
  }

  lemma RunMembership(first: char, n: nat, c: char)
    requires first as int + n <= 0xD800
    ensures c in Run(first, n) <==> first as int <= c as int < first as int + n
  {
    if first as int <= c as int < first as int + n {
      assert Run(first, n)[c as int - first as int] == c;
    }
  }

  /** The state of the four check boxes. */
  datatype Boxes = Boxes(upper: bool, lower: bool, numbers: bool, symbols: bool)
  {
    predicate Checked(k: Class)
    {
      match k
      case Upper => upper
      case Lower => lower
      case Digits => numbers
      case Symbols => symbols
    }

    /** The boxes with box `k` set to `v` and the others unchanged. */
    function With(k: Class, v: bool): (b: Boxes)
      ensures b.Checked(k) == v
      ensures forall j :: j != k ==> b.Checked(j) == Checked(j)
    {
      match k
      case Upper => this.(upper := v)
      case Lower => this.(lower := v)
      case Digits => this.(numbers := v)
      case Symbols => this.(symbols := v)
    }
  }

  function B2N(b: bool): nat { if b then 1 else 0 }

  /** `charTypes`: how many boxes are checked. */
  function CountEnabled(b: Boxes): (n: nat)
    ensures n <= 4
    ensures n == 0 <==> forall k :: !b.Checked(k)
    ensures n == 4 <==> forall k :: b.Checked(k)
  {
    assert b.Checked(Upper) == b.upper && b.Checked(Lower) == b.lower;
    assert b.Checked(Digits) == b.numbers && b.Checked(Symbols) == b.symbols;
    B2N(b.upper) + B2N(b.lower) + B2N(b.numbers) + B2N(b.symbols)
  }

  /** The charset of the enabled classes, in table order. */
  function CharsetOf(b: Boxes): (r: string)
    ensures r == [] <==> CountEnabled(b) == 0
    ensures |r| == B2N(b.upper) * 26 + B2N(b.lower) * 26 + B2N(b.numbers) * 10 + B2N(b.symbols) * 24
  {
    (if b.upper then UpperCaseLetters else "")
    + (if b.lower then LowerCaseLetters else "")
    + (if b.numbers then Numbers else "")
    + (if b.symbols then SymbolChars else "")
  }

  /** Each alphabet string holds exactly the characters of its class's range. */
  lemma AlphabetMatchesClass(k: Class, c: char)
    ensures c in Alphabet(k) <==> InClass(k, c)
  {
    match k
    case Upper =>
      assert UpperCaseLetters == Run('A', 26);
      RunMembership('A', 26, c);
    case Lower =>
      assert LowerCaseLetters == Run('a', 26);
      RunMembership('a', 26, c);
    case Digits =>
      assert Numbers == Run('0', 10);
      RunMembership('0', 10, c);
    case Symbols =>
  }

  /** A character is in the charset exactly when its class is enabled. */
  lemma CharsetMembership(b: Boxes, c: char)
    ensures c in CharsetOf(b) <==> exists k :: b.Checked(k) && InClass(k, c)
  {
    AlphabetMatchesClass(Upper, c);
    AlphabetMatchesClass(Lower, c);
    AlphabetMatchesClass(Digits, c);
    AlphabetMatchesClass(Symbols, c);
    if c in CharsetOf(b) {
      if b.upper && c in UpperCaseLetters {
        assert b.Checked(Upper) && InClass(Upper, c);
      } else if b.lower && c in LowerCaseLetters {
        assert b.Checked(Lower) && InClass(Lower, c);
      } else if b.numbers && c in Numbers {
        assert b.Checked(Digits) && InClass(Digits, c);
      } else {
        assert b.Checked(Symbols) && InClass(Symbols, c);
      }
    }
  }

  // ------------------------------------------------- the forEach over the table

  /** One row of the table: a check box and its characters. */
  datatype CharacterSet = CharacterSet(checked: bool, characters: string)

  function CharacterSets(b: Boxes): (t: seq<CharacterSet>)
    ensures |t| == |Order|
    ensures forall i :: 0 <= i < |t| ==> t[i] == CharacterSet(b.Checked(Order[i]), Alphabet(Order[i]))
  {
    seq(|Order|, i requires 0 <= i < |Order| => CharacterSet(b.Checked(Order[i]), Alphabet(Order[i])))
  }

  /** The characters of the checked rows, concatenated in row order. */
  function Concat(rows: seq<CharacterSet>): string
  {
    if rows == [] then ""
    else Concat(rows[..|rows| - 1]) + (if rows[|rows| - 1].checked then rows[|rows| - 1].characters else "")
  }

  function CountChecked(rows: seq<CharacterSet>): nat
  {
    if rows == [] then 0 else CountChecked(rows[..|rows| - 1]) + B2N(rows[|rows| - 1].checked)
  }

  /** The table fold agrees with the closed forms. */
  lemma {:induction false} TableFold(b: Boxes)
    ensures Concat(CharacterSets(b)) == CharsetOf(b)
    ensures CountChecked(CharacterSets(b)) == CountEnabled(b)
  {
    var t := CharacterSets(b);
    assert t[..1][..0] == [];
    assert t[..2][..1] == t[..1];
    assert t[..3][..2] == t[..2];
    assert t[..3] == t[..|t| - 1];
    assert Concat(t[..1]) == (if b.upper then UpperCaseLetters else "");
    assert Concat(t[..2]) == Concat(t[..1]) + (if b.lower then LowerCaseLetters else "");
    assert Concat(t[..3]) == Concat(t[..2]) + (if b.numbers then Numbers else "");
    assert Concat(t) == Concat(t[..3]) + (if b.symbols then SymbolChars else "");
    assert CountChecked(t[..1]) == B2N(b.upper);
    assert CountChecked(t[..2]) == CountChecked(t[..1]) + B2N(b.lower);
    assert CountChecked(t[..3]) == CountChecked(t[..2]) + B2N(b.numbers);
    assert CountChecked(t) == CountChecked(t[..3]) + B2N(b.symbols);
  }

  /** The forEach of the generator: builds the charset and counts the enabled classes. */
  method BuildCharset(b: Boxes) returns (charset: string, charTypes: nat)
    ensures charset == CharsetOf(b)
    ensures charTypes == CountEnabled(b)
  {
    var rows := CharacterSets(b);
    charset := "";
    charTypes := 0;
    var i := 0;
    while i < |rows|
      invariant 0 <= i <= |rows|
      invariant charset == Concat(rows[..i])
      invariant charTypes == CountChecked(rows[..i])
    {
      assert rows[..i + 1][..i] == rows[..i];
      if rows[i].checked {
        charset := charset + rows[i].characters;
        charTypes := charTypes + 1;
      }
      i := i + 1;
    }
    assert rows[..i] == rows;
    TableFold(b);
  }
}
