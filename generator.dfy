/**
 A model of a simple password generator: the choice of character classes
 from four flags, and the generation loop that draws a class and then a
 character of that class once per position. The secure random source is
 replaced by an injected sequence of draws.
 */
module PasswordGenerator {

  // ---------------------------------------------------------------------
  // The four character classes (the ASCII constants of Python's `string`)
  // ---------------------------------------------------------------------

  const AsciiUppercase: string := "ABCDEFGHIJKLMNOPQRSTUVWXYZ"
  const AsciiLowercase: string := "abcdefghijklmnopqrstuvwxyz"
  const Digits: string := "0123456789"
  const Punctuation: string := "!\"#$%&'()*+,-./:;<=>?@[\\]^_`{|}~"

  /** The classes in the order in which requested classes are listed. */
  const CanonicalOrder: seq<string> := [AsciiUppercase, AsciiLowercase, Digits, Punctuation]

  predicate IsAsciiUpper(c: char) { 'A' <= c <= 'Z' }
  predicate IsAsciiLower(c: char) { 'a' <= c <= 'z' }
  predicate IsAsciiDigit(c: char) { '0' <= c <= '9' }

  /** Printable, non-blank ASCII (codes 33 to 126) that is neither a letter nor a digit. */
  predicate IsAsciiPunct(c: char) {
    '!' <= c <= '~' && !IsAsciiUpper(c) && !IsAsciiLower(c) && !IsAsciiDigit(c)
  }

  /** Reference description, by character code, of the class at position k of CanonicalOrder. */
  predicate InCanonicalClass(k: int, c: char)
    requires 0 <= k < 4
  {
    if k == 0 then IsAsciiUpper(c)
    else if k == 1 then IsAsciiLower(c)
    else if k == 2 then IsAsciiDigit(c)
    else IsAsciiPunct(c)
  }

  lemma UppercaseContents(c: char)
    ensures c in AsciiUppercase <==> IsAsciiUpper(c)
  {
  }

  lemma LowercaseContents(c: char)
    ensures c in AsciiLowercase <==> IsAsciiLower(c)
  {
  }

  lemma DigitsContents(c: char)
    ensures c in Digits <==> IsAsciiDigit(c)
  {
  }

  /** The punctuation string holds the ASCII runs 33-47, 58-64, 91-96 and 123-126. */
  lemma PunctuationContents(c: char)
    ensures c in Punctuation <==> IsAsciiPunct(c)
  {
  }

  /** Each class string holds exactly the characters its reference description names. */
  lemma CanonicalClassContents(k: int, c: char)
    requires 0 <= k < 4
    ensures c in CanonicalOrder[k] <==> InCanonicalClass(k, c)
    ensures |CanonicalOrder[k]| == [26, 26, 10, 32][k]
  {
    if k == 0 {
      UppercaseContents(c);
    } else if k == 1 {
      LowercaseContents(c);
    } else if k == 2 {
      DigitsContents(c);
    } else {
      PunctuationContents(c);
    }
  }

  /** Position of a class string in CanonicalOrder; 4 for any other string. */
  function Rank(s: string): nat {
    if s == AsciiUppercase then 0
    else if s == AsciiLowercase then 1
    else if s == Digits then 2
    else if s == Punctuation then 3
    else 4
  }

  /** The elements of ss appear in strictly increasing canonical position. */
  predicate Ranked(ss: seq<string>) {
    forall i, j :: 0 <= i < j < |ss| ==> Rank(ss[i]) < Rank(ss[j])
  }

  predicate Distinct(ss: seq<string>) {
    forall i, j :: 0 <= i < j < |ss| ==> ss[i] != ss[j]
  }

  lemma CanonicalOrderRanked()
    ensures Ranked(CanonicalOrder)
    ensures forall k :: 0 <= k < 4 ==> Rank(CanonicalOrder[k]) == k && |CanonicalOrder[k]| > 0
  {
    assert AsciiLowercase[0] != AsciiUppercase[0];
    assert Digits[0] != AsciiUppercase[0] && Digits[0] != AsciiLowercase[0];
    assert Punctuation[0] != AsciiUppercase[0] && Punctuation[0] != AsciiLowercase[0];
    assert Punctuation[0] != Digits[0];
  }

  // ---------------------------------------------------------------------
  // Class selection (get_allowed_chars)
  // ---------------------------------------------------------------------

  /** The elements of xs whose flag in keep is set, in their original order. */
  function Filter(xs: seq<string>, keep: seq<bool>): (r: seq<string>)
    requires |xs| == |keep|
    ensures |r| <= |xs|
    ensures forall x :: x in r ==> x in xs
  {
    if xs == [] then []
    else (if keep[0] then [xs[0]] else []) + Filter(xs[1..], keep[1..])
  }

  function CountTrue(bs: seq<bool>): nat {
    if bs == [] then 0 else (if bs[0] then 1 else 0) + CountTrue(bs[1..])
  }

  predicate NoneRequested(upperCase: bool, lowerCase: bool, digits: bool, punctuation: bool) {
    !upperCase && !lowerCase && !digits && !punctuation
  }

  /**
   Specification of the selection: the lowercase-then-uppercase fallback when
   no class is requested, otherwise the requested classes in canonical order.
   */
  function SelectedClasses(upperCase: bool, lowerCase: bool, digits: bool, punctuation: bool): seq<string> {
    if NoneRequested(upperCase, lowerCase, digits, punctuation) then [AsciiLowercase, AsciiUppercase]
    else Filter(CanonicalOrder, [upperCase, lowerCase, digits, punctuation])
  }

  lemma {:induction false} FilterLength(xs: seq<string>, keep: seq<bool>)
    requires |xs| == |keep|
    ensures |Filter(xs, keep)| == CountTrue(keep)
  {
    if xs != [] {
      FilterLength(xs[1..], keep[1..]);
    }
  }

  lemma {:induction false} FilterMember(xs: seq<string>, keep: seq<bool>, x: string)
    requires |xs| == |keep|
    ensures x in Filter(xs, keep) <==> exists i :: 0 <= i < |xs| && keep[i] && xs[i] == x
  {
    if xs != [] {
      FilterMember(xs[1..], keep[1..], x);
      if x in Filter(xs[1..], keep[1..]) {
        var i :| 0 <= i < |xs| - 1 && keep[1..][i] && xs[1..][i] == x;
        assert keep[i + 1] && xs[i + 1] == x;
      }
      if exists i :: 0 <= i < |xs| && keep[i] && xs[i] == x {
        var i :| 0 <= i < |xs| && keep[i] && xs[i] == x;
        if i > 0 {
          assert keep[1..][i - 1] && xs[1..][i - 1] == x;
        }
      }
    }
  }

  lemma {:induction false} FilterRanked(xs: seq<string>, keep: seq<bool>)
    requires |xs| == |keep| && Ranked(xs)
    ensures Ranked(Filter(xs, keep))
  {
    if xs != [] {
      var tail := Filter(xs[1..], keep[1..]);
      FilterRanked(xs[1..], keep[1..]);
      forall y | y in tail
        ensures Rank(xs[0]) < Rank(y)
      {
        var i :| 0 <= i < |xs[1..]| && xs[1..][i] == y;
        assert xs[i + 1] == y;
      }
      var r := Filter(xs, keep);
      if keep[0] {
        assert r == [xs[0]] + tail;
        forall i, j | 0 <= i < j < |r|
          ensures Rank(r[i]) < Rank(r[j])
        {
          assert r[j] == tail[j - 1];
          if i > 0 { assert r[i] == tail[i - 1]; }
        }
      }
    }
  }

  lemma RankedDistinct(ss: seq<string>)
    requires Ranked(ss)
    ensures Distinct(ss)
  {
  }

  /**
   When at least one class is requested: one entry per requested class, no
   entry for any other, in canonical order (upper, lower, digits, punctuation).
   */
  lemma SelectedClassesRequested(upperCase: bool, lowerCase: bool, digits: bool, punctuation: bool)
    requires !NoneRequested(upperCase, lowerCase, digits, punctuation)
    ensures var flags := [upperCase, lowerCase, digits, punctuation];
            var r := SelectedClasses(upperCase, lowerCase, digits, punctuation);
            |r| == CountTrue(flags) &&
            (forall k :: 0 <= k < 4 ==> (CanonicalOrder[k] in r <==> flags[k])) &&
            Ranked(r)
  {
    var flags := [upperCase, lowerCase, digits, punctuation];
    var r := SelectedClasses(upperCase, lowerCase, digits, punctuation);
    FilterLength(CanonicalOrder, flags);
    CanonicalOrderRanked();
    FilterRanked(CanonicalOrder, flags);
    forall k | 0 <= k < 4
      ensures CanonicalOrder[k] in r <==> flags[k]
    {
      FilterMember(CanonicalOrder, flags, CanonicalOrder[k]);
      if CanonicalOrder[k] in r {
        var i :| 0 <= i < 4 && flags[i] && CanonicalOrder[i] == CanonicalOrder[k];
        assert Rank(CanonicalOrder[i]) == i;
      }
    }
  }

  /** The class list always holds one to four distinct, non-empty classes. */
  lemma SelectedClassesBounds(upperCase: bool, lowerCase: bool, digits: bool, punctuation: bool)
    ensures var r := SelectedClasses(upperCase, lowerCase, digits, punctuation);
            1 <= |r| <= 4 && Distinct(r) &&
            forall k :: 0 <= k < |r| ==> r[k] in CanonicalOrder && |r[k]| > 0
  {
    var r := SelectedClasses(upperCase, lowerCase, digits, punctuation);
    CanonicalOrderRanked();
    if NoneRequested(upperCase, lowerCase, digits, punctuation) {
      assert AsciiLowercase[0] != AsciiUppercase[0];
    } else {
      SelectedClassesRequested(upperCase, lowerCase, digits, punctuation);
      RankedDistinct(r);
      var flags := [upperCase, lowerCase, digits, punctuation];
      var k := if upperCase then 0 else if lowerCase then 1 else if digits then 2 else 3;
      assert flags[k] && CanonicalOrder[k] in r;
      forall i | 0 <= i < |r|
        ensures r[i] in CanonicalOrder && |r[i]| > 0
      {
        assert r[i] in CanonicalOrder;
        var m :| 0 <= m < 4 && CanonicalOrder[m] == r[i];
      }
    }
  }

  /**
   A character may be emitted for the given flags: an ASCII letter when no
   class is requested, otherwise a character of a requested class.
   */
  predicate Admissible(c: char, upperCase: bool, lowerCase: bool, digits: bool, punctuation: bool) {
    if NoneRequested(upperCase, lowerCase, digits, punctuation) then IsAsciiLower(c) || IsAsciiUpper(c)
    else (upperCase && IsAsciiUpper(c)) || (lowerCase && IsAsciiLower(c)) ||
         (digits && IsAsciiDigit(c)) || (punctuation && IsAsciiPunct(c))
  }

  /**
   Every character of every selected class is admissible, and (when some class
   is requested) belongs to no class whose flag is false.
   */
  lemma SelectedCharAdmissible(upperCase: bool, lowerCase: bool, digits: bool, punctuation: bool, k: int, j: int)
    requires var r := SelectedClasses(upperCase, lowerCase, digits, punctuation);
             0 <= k < |r| && 0 <= j < |r[k]|
    ensures var c := SelectedClasses(upperCase, lowerCase, digits, punctuation)[k][j];
            Admissible(c, upperCase, lowerCase, digits, punctuation) &&
            (!NoneRequested(upperCase, lowerCase, digits, punctuation) ==>
               forall m :: 0 <= m < 4 && ![upperCase, lowerCase, digits, punctuation][m] ==> c !in CanonicalOrder[m])
  {
    var flags := [upperCase, lowerCase, digits, punctuation];
    var r := SelectedClasses(upperCase, lowerCase, digits, punctuation);
    var c := r[k][j];
    assert c in r[k];
    if NoneRequested(upperCase, lowerCase, digits, punctuation) {
      if k == 0 { CanonicalClassContents(1, c); } else { CanonicalClassContents(0, c); }
    } else {
      FilterMember(CanonicalOrder, flags, r[k]);
      var i :| 0 <= i < 4 && flags[i] && CanonicalOrder[i] == r[k];
      CanonicalClassContents(i, c);
      forall m | 0 <= m < 4 && !flags[m]
        ensures c !in CanonicalOrder[m]
      {
        CanonicalClassContents(m, c);
      }
    }
  }

  /** Conversely, every admissible character occurs in some selected class. */
  lemma AdmissibleSelectable(c: char, upperCase: bool, lowerCase: bool, digits: bool, punctuation: bool)
    requires Admissible(c, upperCase, lowerCase, digits, punctuation)
    ensures var r := SelectedClasses(upperCase, lowerCase, digits, punctuation);
            exists k, j :: 0 <= k < |r| && 0 <= j < |r[k]| && r[k][j] == c
  {
    var flags := [upperCase, lowerCase, digits, punctuation];
    var r := SelectedClasses(upperCase, lowerCase, digits, punctuation);
    var m: int;
    if NoneRequested(upperCase, lowerCase, digits, punctuation) {
      m := if IsAsciiLower(c) then 1 else 0;
      CanonicalClassContents(m, c);
      assert CanonicalOrder[m] == r[1 - m];
    } else {
      m := if upperCase && IsAsciiUpper(c) then 0
           else if lowerCase && IsAsciiLower(c) then 1
           else if digits && IsAsciiDigit(c) then 2
           else 3;
      CanonicalClassContents(m, c);
      SelectedClassesRequested(upperCase, lowerCase, digits, punctuation);
      assert CanonicalOrder[m] in r;
    }
    var s := CanonicalOrder[m];
    var k :| 0 <= k < |r| && r[k] == s;
    var j :| 0 <= j < |s| && s[j] == c;
    assert r[k][j] == c;
  }

  /** The selection spelled out as one conditional entry per class, in canonical order. */
  lemma SelectedClassesUnfolded(upperCase: bool, lowerCase: bool, digits: bool, punctuation: bool)
    requires !NoneRequested(upperCase, lowerCase, digits, punctuation)
    ensures SelectedClasses(upperCase, lowerCase, digits, punctuation)
         == (if upperCase then [AsciiUppercase] else []) + (if lowerCase then [AsciiLowercase] else [])
          + (if digits then [Digits] else []) + (if punctuation then [Punctuation] else [])
  {
    var flags := [upperCase, lowerCase, digits, punctuation];
    assert Filter(CanonicalOrder[4..], flags[4..]) == [];
    assert Filter(CanonicalOrder[3..], flags[3..]) == (if punctuation then [Punctuation] else []);
    assert Filter(CanonicalOrder[2..], flags[2..])
        == (if digits then [Digits] else []) + Filter(CanonicalOrder[3..], flags[3..]);
    assert Filter(CanonicalOrder[1..], flags[1..])
        == (if lowerCase then [AsciiLowercase] else []) + Filter(CanonicalOrder[2..], flags[2..]);
  }

  /** Upper case and digits requested: exactly those two classes, upper case first. */
  lemma SelectedClassesExample()
    ensures SelectedClasses(true, false, true, false) == [AsciiUppercase, Digits]
  {
    SelectedClassesUnfolded(true, false, true, false);
  }

  /** get_allowed_chars: builds the class list by successive appends. */
  method GetAllowedChars(upperCase: bool, lowerCase: bool, digits: bool, punctuation: bool)
    returns (characters: seq<string>)
    ensures characters == SelectedClasses(upperCase, lowerCase, digits, punctuation)
    ensures NoneRequested(upperCase, lowerCase, digits, punctuation) ==>
              characters == [AsciiLowercase, AsciiUppercase]
  {
    characters := [];
    if NoneRequested(upperCase, lowerCase, digits, punctuation) {
      characters := characters + [AsciiLowercase];
      characters := characters + [AsciiUppercase];
      return;
    }
    if upperCase {
      characters := characters + [AsciiUppercase];
    }
    if lowerCase {
      characters := characters + [AsciiLowercase];
    }
    if digits {
      characters := characters + [Digits];
    }
    if punctuation {
      characters := characters + [Punctuation];
    }
    SelectedClassesUnfolded(upperCase, lowerCase, digits, punctuation);
  }

  // ---------------------------------------------------------------------
  // Password generation (generate_password)
  // ---------------------------------------------------------------------

  /** A Python argument as far as the source's `type(x) is ...` checks see it. */
  datatype PyValue = PyBool(b: bool) | PyInt(i: int) | PyOther

  /** TypeError, and the bare exception raised for a non-positive length. */
  datatype ErrorKind = TypeError | LengthError

  datatype Result<T> = Ok(value: T) | Err(error: ErrorKind)

  /**
   The secure random source, fed with the answers the operating system gives;
   `pos` counts the answers consumed so far.
   */
  class SecureRandom {
    const answers: seq<int>
    var pos: nat

    constructor (answers: seq<int>)
      ensures this.answers == answers && pos == 0
    {
      this.answers := answers;
      pos := 0;
    }

    /** randint(lo, hi): the next answer, which the source guarantees lies in [lo, hi]. */
    method RandInt(lo: int, hi: int) returns (r: int)
      requires pos < |answers| && lo <= answers[pos] <= hi
      modifies this
      ensures pos == old(pos) + 1 && r == answers[old(pos)]
    {
      r := answers[pos];
      pos := pos + 1;
    }

    /** choice(s): the element of s at the position given by the next answer. */
    method Choice(s: string) returns (c: char)
      requires pos < |answers| && 0 <= answers[pos] < |s|
      modifies this
      ensures pos == old(pos) + 1 && c == s[answers[old(pos)]]
    {
      c := s[answers[pos]];
      pos := pos + 1;
    }
  }

  predicate FlagsAreBools(upperCase: PyValue, lowerCase: PyValue, digits: PyValue, punctuation: PyValue) {
    upperCase.PyBool? && lowerCase.PyBool? && digits.PyBool? && punctuation.PyBool?
  }

  predicate ArgumentsValid(length: PyValue, upperCase: PyValue, lowerCase: PyValue, digits: PyValue, punctuation: PyValue) {
    FlagsAreBools(upperCase, lowerCase, digits, punctuation) && length.PyInt? && length.i > 0
  }

  /** The class index drawn for password position k, when drawing starts at answer `start`. */
  function ClassDraw(answers: seq<int>, start: nat, k: nat): int
    requires start + 2 * k < |answers|
  {
    answers[start + 2 * k]
  }

  /** The character index drawn for password position k, right after its class index. */
  function CharDraw(answers: seq<int>, start: nat, k: nat): int
    requires start + 2 * k + 1 < |answers|
  {
    answers[start + 2 * k + 1]
  }

  /**
   From `start` on, the answers hold n pairs: a class index of `classes`
   (inclusive `randint(0, len - 1)`), then a position in that class.
   */
  predicate AnswersFit(answers: seq<int>, start: nat, n: int, classes: seq<string>) {
    start + 2 * n <= |answers| &&
    forall k: nat :: k < n ==>
      0 <= ClassDraw(answers, start, k) < |classes| &&
      0 <= CharDraw(answers, start, k) < |classes[ClassDraw(answers, start, k)]|
  }

  /**
   generate_password: validates its arguments (flags first, then the type of
   the length, then its sign), then appends one character per position: a
   class drawn with `randint`, then a character of it drawn with `choice`.
   Nothing is drawn from `rng` unless every check passes.
   */
  method GeneratePassword(length: PyValue,
                          upperCase: PyValue := PyBool(true), lowerCase: PyValue := PyBool(true),
                          digits: PyValue := PyBool(true), punctuation: PyValue := PyBool(true),
                          nameonly rng: SecureRandom)
    returns (result: Result<string>)
    requires ArgumentsValid(length, upperCase, lowerCase, digits, punctuation) ==>
               AnswersFit(rng.answers, rng.pos, length.i,
                          SelectedClasses(upperCase.b, lowerCase.b, digits.b, punctuation.b))
    modifies rng
    ensures !FlagsAreBools(upperCase, lowerCase, digits, punctuation) ==>
              result == Err(TypeError)
    ensures FlagsAreBools(upperCase, lowerCase, digits, punctuation) && !length.PyInt? ==>
              result == Err(TypeError)
    ensures FlagsAreBools(upperCase, lowerCase, digits, punctuation) && length.PyInt? && length.i <= 0 ==>
              result == Err(LengthError)
    ensures !ArgumentsValid(length, upperCase, lowerCase, digits, punctuation) ==>
              rng.pos == old(rng.pos)
    ensures ArgumentsValid(length, upperCase, lowerCase, digits, punctuation) ==>
              result.Ok? && |result.value| == length.i && rng.pos == old(rng.pos) + 2 * length.i
    ensures ArgumentsValid(length, upperCase, lowerCase, digits, punctuation) ==>
              var classes := SelectedClasses(upperCase.b, lowerCase.b, digits.b, punctuation.b);
              forall k: nat :: k < |result.value| ==>
                result.value[k] == classes[ClassDraw(rng.answers, old(rng.pos), k)][CharDraw(rng.answers, old(rng.pos), k)]
    ensures ArgumentsValid(length, upperCase, lowerCase, digits, punctuation) ==>
              forall k :: 0 <= k < |result.value| ==>
                Admissible(result.value[k], upperCase.b, lowerCase.b, digits.b, punctuation.b)
  {
    if !FlagsAreBools(upperCase, lowerCase, digits, punctuation) {
      return Err(TypeError);
    }
    if !length.PyInt? {
      return Err(TypeError);
    }
    if length.i <= 0 {
      return Err(LengthError);
    }
    var li := GetAllowedChars(upperCase.b, lowerCase.b, digits.b, punctuation.b);
    ghost var start := rng.pos;
    var password := "";
    for i := 0 to length.i
      invariant rng.pos == start + 2 * i
      invariant |password| == i
      invariant forall k: nat :: k < i ==>
                  password[k] == li[ClassDraw(rng.answers, start, k)][CharDraw(rng.answers, start, k)]
      invariant forall k :: 0 <= k < i ==> Admissible(password[k], upperCase.b, lowerCase.b, digits.b, punctuation.b)
    {
      assert ClassDraw(rng.answers, start, i) == rng.answers[rng.pos];
      assert CharDraw(rng.answers, start, i) == rng.answers[rng.pos + 1];
      var ci := rng.RandInt(0, |li| - 1);
      var c := rng.Choice(li[ci]);
      SelectedCharAdmissible(upperCase.b, lowerCase.b, digits.b, punctuation.b, ci, CharDraw(rng.answers, start, i));
      password := password + [c];
    }
    return Ok(password);
  }
}
