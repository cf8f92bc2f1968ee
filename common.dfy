/** Helpers shared by the page models: an Option type, the "evaluate rules in
    order and push every hit" idiom, JavaScript's Math.round, and the
    conversions a template literal performs on numbers and strings. */
module Common {

  datatype Option<+T> = None | Some(value: T)

  /** The outputs of the rules that fired, in rule order. A rule that fires is
      `Some(output)`, one that does not is `None`: this is what a sequence of
      independent `if (cond) list.push(output)` statements builds. */
  function Somes<T>(rules: seq<Option<T>>): (r: seq<T>)
    ensures |r| <= |rules|
    ensures |r| == |rules| ==> forall k :: 0 <= k < |rules| ==> rules[k].Some?
  {
    if rules == [] then []
    else (if rules[0].Some? then [rules[0].value] else []) + Somes(rules[1..])
  }

  /** Every rule that fires contributes its output. */
  lemma {:induction false} SomesComplete<T>(rules: seq<Option<T>>, k: nat)
    requires k < |rules| && rules[k].Some?
    ensures rules[k].value in Somes(rules)
  {
    if k > 0 {
      SomesComplete(rules[1..], k - 1);
    }
  }

  /** Nothing but the outputs of rules that fire is ever produced. */
  lemma {:induction false} SomesSound<T>(rules: seq<Option<T>>, x: T)
    requires x in Somes(rules)
    ensures exists k :: 0 <= k < |rules| && rules[k] == Some(x)
  {
    if rules[0] == Some(x) {
    } else {
      SomesSound(rules[1..], x);
      var k :| 0 <= k < |rules[1..]| && rules[1..][k] == Some(x);
      assert rules[k + 1] == Some(x);
    }
  }

  /** The result is empty exactly when no rule fires. */
  lemma {:induction false} SomesEmpty<T>(rules: seq<Option<T>>)
    ensures Somes(rules) == [] <==> forall k :: 0 <= k < |rules| ==> rules[k].None?
  {
    if Somes(rules) == [] {
      forall k | 0 <= k < |rules| ensures rules[k].None? {
        if rules[k].Some? {
          SomesComplete(rules, k);
        }
      }
    } else {
      var x := Somes(rules)[0];
      SomesSound(rules, x);
    }
  }

  /** When each rule's output carries its own rule position as its rank, the
      outputs come out in strictly increasing rank: the list keeps rule order
      and is never re-sorted. */
  lemma {:induction false} SomesOrdered<T>(rules: seq<Option<T>>, rank: T -> int)
    requires forall k :: 0 <= k < |rules| && rules[k].Some? ==> rank(rules[k].value) == k
    ensures forall i, j :: 0 <= i < j < |Somes(rules)| ==> rank(Somes(rules)[i]) < rank(Somes(rules)[j])
    ensures forall i :: 0 <= i < |Somes(rules)| ==> 0 <= rank(Somes(rules)[i]) < |rules|
  {
    SomesOrderedFrom(rules, rank, 0);
  }

  lemma {:induction false} SomesOrderedFrom<T>(rules: seq<Option<T>>, rank: T -> int, offset: int)
    requires forall k :: 0 <= k < |rules| && rules[k].Some? ==> rank(rules[k].value) == k + offset
    ensures forall i, j :: 0 <= i < j < |Somes(rules)| ==> rank(Somes(rules)[i]) < rank(Somes(rules)[j])
    ensures forall i :: 0 <= i < |Somes(rules)| ==> offset <= rank(Somes(rules)[i]) < |rules| + offset
  {
    if rules != [] {
      var tail := rules[1..];
      forall k | 0 <= k < |tail| && tail[k].Some?
        ensures rank(tail[k].value) == k + (offset + 1)
      {
        assert tail[k] == rules[k + 1];
      }
      SomesOrderedFrom(tail, rank, offset + 1);
    }
  }

  /** JavaScript's Math.round: the nearest integer, halves rounded up. */
  function JsRound(x: real): (n: int)
    ensures x - 0.5 < n as real <= x + 0.5
  {
    (x + 0.5).Floor
  }

  /** The decimal digit character for d. */
  function Digit(d: nat): (c: char)
    requires d < 10
    ensures '0' <= c <= '9'
    ensures c as int - '0' as int == d
  {
    ('0' as int + d) as char
  }

  /** Decimal digits of a natural number, as `${n}` prints it. */
  function NatToString(n: nat): (s: string)
    ensures |s| >= 1
    ensures forall i :: 0 <= i < |s| ==> '0' <= s[i] <= '9'
    ensures |s| > 1 ==> s[0] != '0'
    decreases n
  {
    if n < 10 then [Digit(n)] else NatToString(n / 10) + [Digit(n % 10)]
  }

  /** The value a string of decimal digits denotes (reference reading). */
  function DigitsValue(s: string): int
  {
    if s == [] then 0 else DigitsValue(s[..|s| - 1]) * 10 + (s[|s| - 1] as int - '0' as int)
  }

  /** Printing a natural number and reading its digits back gives the number. */
  lemma {:induction false} NatToStringRoundTrip(n: nat)
    ensures DigitsValue(NatToString(n)) == n
    decreases n
  {
    if n >= 10 {
      var s := NatToString(n);
      NatToStringRoundTrip(n / 10);
      assert s[..|s| - 1] == NatToString(n / 10);
      assert s[|s| - 1] == Digit(n % 10);
    }
  }

  /** `${n}` for an integer: a minus sign exactly for a negative one, and
      digits that read back as its magnitude. */
  function IntToString(n: int): (s: string)
    ensures |s| >= 1
    ensures s[0] == '-' <==> n < 0
    ensures n >= 0 ==> DigitsValue(s) == n
    ensures n < 0 ==> DigitsValue(s[1..]) == -n
    ensures forall i :: (if n < 0 then 1 else 0) <= i < |s| ==> '0' <= s[i] <= '9'
    ensures n >= 0 && |s| > 1 ==> s[0] != '0'
    ensures n < 0 ==> |s| >= 2 && s[1] != '0'
  {
    if n >= 0 then
      NatToStringRoundTrip(n);
      NatToString(n)
    else
      var digits := NatToString(-n);
      NatToStringRoundTrip(-n);
      assert ("-" + digits)[1..] == digits;
      "-" + digits
  }

  /** `${x}` for a non-negative number with at most one decimal place, given as
      ten times its value. There is a '.' exactly when the tenths digit is not
      0; the digits before it read back as the integer part and the one digit
      after it as the tenths. */
  function TenthsToString(tenths: nat): (s: string)
    ensures '.' in s <==> tenths % 10 != 0
    ensures tenths % 10 == 0 ==> DigitsValue(s) == tenths / 10
    ensures tenths % 10 != 0 ==>
      && |s| >= 3 && s[|s| - 2] == '.'
      && DigitsValue(s[..|s| - 2]) == tenths / 10
      && s[|s| - 1] as int - '0' as int == tenths % 10
    ensures forall i :: 0 <= i < |s| && s[i] != '.' ==> '0' <= s[i] <= '9'
    ensures forall i :: 0 <= i < |s| && s[i] == '.' ==> i == |s| - 2
    ensures |s| >= 1 && (s[0] != '0' || |s| == 1 || s[1] == '.')
  {
    var whole := NatToString(tenths / 10);
    NatToStringRoundTrip(tenths / 10);
    if tenths % 10 == 0 then whole
    else
      var s := whole + "." + [Digit(tenths % 10)];
      assert s[..|s| - 2] == whole;
      s
  }

  function LowerChar(c: char): (d: char)
    ensures 'A' <= c <= 'Z' ==> d as int == c as int + 32
    ensures !('A' <= c <= 'Z') ==> d == c
  {
    if 'A' <= c <= 'Z' then (c as int + 32) as char else c
  }

  /** String.prototype.toLowerCase restricted to ASCII letters. */
  function Lower(s: string): (t: string)
    ensures |t| == |s|
    ensures forall i :: 0 <= i < |s| ==> t[i] == LowerChar(s[i])
  {
    if s == [] then [] else [LowerChar(s[0])] + Lower(s[1..])
  }
}
