/** JavaScript values as the orchestrator sees them in configuration files,
    webhook payloads and the persisted registry, with the truthiness rule
    that every `a || b` and `if (x)` of the source relies on. */
module Values {

  datatype Option<+T> = None | Some(value: T)

  datatype Result<+T, +E> = Ok(value: T) | Err(error: E)

  /** A parsed JSON value, plus `undefined` and `NaN`, which the source can
      meet in lookups and in `opts` but which JSON cannot hold. A number is
      kept as an integer. */
  datatype Value =
    | Undefined
    | Null
    | Bool(b: bool)
    | Num(n: int)
    | NaN
    | Str(s: string)
    | Obj(fields: map<string, Value>)

  /** JavaScript truthiness: `undefined`, `null`, `false`, `0`, `NaN` and the
      empty string are falsy; every object is truthy. */
  predicate Truthy(v: Value) {
    match v
    case Undefined => false
    case Null => false
    case Bool(b) => b
    case Num(n) => n != 0
    case NaN => false
    case Str(s) => s != ""
    case Obj(_) => true
  }

  /** `v == true` with JavaScript's loose equality: a boolean `true`, the
      number 1, or a string that reads as the number 1. */
  predicate LooselyTrue(v: Value) {
    match v
    case Bool(b) => b
    case Num(n) => n == 1
    case Str(s) => s == "1"
    case _ => false
  }

  /** `a || b || ... || z`: the first truthy operand, or the last operand
      when none is truthy. */
  function OrChain(vs: seq<Value>): (r: Value)
    requires |vs| > 0
    ensures r in vs
  {
    if |vs| == 1 || Truthy(vs[0]) then vs[0] else OrChain(vs[1..])
  }

  /** The `||` chain picks the first truthy operand, and the last one only
      when every operand is falsy. */
  lemma {:induction false} OrChainFirstTruthy(vs: seq<Value>)
    requires |vs| > 0
    ensures (exists i :: 0 <= i < |vs| && Truthy(vs[i])) ==>
              exists i :: 0 <= i < |vs| && Truthy(vs[i]) && OrChain(vs) == vs[i]
                && forall j :: 0 <= j < i ==> !Truthy(vs[j])
    ensures (forall i :: 0 <= i < |vs| ==> !Truthy(vs[i])) ==> OrChain(vs) == vs[|vs| - 1]
  {
    if |vs| > 1 && !Truthy(vs[0]) {
      OrChainFirstTruthy(vs[1..]);
      if exists i :: 0 <= i < |vs| && Truthy(vs[i]) {
        var i :| 0 <= i < |vs| && Truthy(vs[i]);
        assert Truthy(vs[1..][i - 1]);
        var k :| 0 <= k < |vs[1..]| && Truthy(vs[1..][k]) && OrChain(vs[1..]) == vs[1..][k]
          && forall j :: 0 <= j < k ==> !Truthy(vs[1..][j]);
        assert OrChain(vs) == vs[k + 1];
        forall j | 0 <= j < k + 1 ensures !Truthy(vs[j]) {
          if j > 0 { assert vs[j] == vs[1..][j - 1]; }
        }
      }
      if forall i :: 0 <= i < |vs| ==> !Truthy(vs[i]) {
        forall i | 0 <= i < |vs[1..]| ensures !Truthy(vs[1..][i]) {
          assert vs[1..][i] == vs[i + 1];
        }
      }
    }
  }

  /** `x.toLowerCase()` restricted to ASCII letters. */
  function LowerChar(c: char): (r: char)
    ensures 'A' <= c <= 'Z' ==> r as int == c as int + 32
    ensures !('A' <= c <= 'Z') ==> r == c
  {
    if 'A' <= c <= 'Z' then (c as int + 32) as char else c
  }

  function Lower(s: string): (r: string)
    ensures |r| == |s|
    ensures forall i :: 0 <= i < |s| ==> r[i] == LowerChar(s[i])
  {
    if s == [] then [] else [LowerChar(s[0])] + Lower(s[1..])
  }

  /** The decimal text of a natural number, as `String(n)` writes it. */
  function Digits(n: nat): (r: string)
    ensures |r| > 0
    ensures forall i :: 0 <= i < |r| ==> '0' <= r[i] <= '9'
    decreases n
  {
    if n < 10 then [('0' as int + n) as char] else Digits(n / 10) + Digits(n % 10)
  }

  /** Reads back a string of decimal digits. */
  function ParseDigits(s: string): int
    decreases |s|
  {
    if s == [] then 0 else 10 * ParseDigits(s[..|s| - 1]) + (s[|s| - 1] as int - '0' as int)
  }

  /** The decimal text of a number is read back as that number. */
  lemma {:induction false} DigitsRoundTrip(n: nat)
    ensures ParseDigits(Digits(n)) == n
    decreases n
  {
    if n >= 10 {
      var hi, lo := Digits(n / 10), Digits(n % 10);
      assert |lo| == 1;
      assert (hi + lo)[..|hi + lo| - 1] == hi;
      DigitsRoundTrip(n / 10);
    }
  }

  /** `String(n)` for an integer, with a leading minus sign when negative. */
  function IntText(n: int): (r: string)
    ensures |r| > 0
    ensures n >= 0 ==> r == Digits(n)
    ensures n < 0 ==> r == "-" + Digits(-n)
  {
    if n >= 0 then Digits(n) else "-" + Digits(-n)
  }
}
