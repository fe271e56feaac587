/** The mapping from a class index to the symbol shown for it. JavaScript
    strings are sequences of UTF-16 code units, and `String.fromCharCode`
    accepts any number (it keeps the low 16 bits), so labels are modelled as
    code-unit sequences: the mapping is then defined for every index, also
    for one past 27 that a model with more than 28 outputs could produce. */
module Labels {

  type CodeUnit = c: int | 0 <= c < 0x1_0000

  type JsString = seq<CodeUnit>

  /** The code units of a Dafny string whose characters all fit one unit. */
  function Units(s: string): (u: JsString)
    requires forall i :: 0 <= i < |s| ==> s[i] as int < 0x1_0000
    ensures |u| == |s|
  {
    seq(|s|, i requires 0 <= i < |s| => s[i] as int)
  }

  /** `String.fromCharCode(n)` for a non-negative integer n: the one-unit
      string of n modulo 2^16. */
  function FromCharCode(n: nat): (s: JsString)
    ensures |s| == 1
  {
    [n % 0x1_0000]
  }

  /** 26 is "DEL", 27 is "SPACE", any other index k is the character with
      code 65 + k, so 0 is "A" and 25 is "Z". */
  function Label(classIdx: nat): (symbol: JsString)
    ensures classIdx == 26 ==> symbol == Units("DEL")
    ensures classIdx == 27 ==> symbol == Units("SPACE")
    ensures classIdx != 26 && classIdx != 27 ==>
              |symbol| == 1 && symbol[0] == (classIdx + 'A' as int) % 0x1_0000
    ensures classIdx < 26 ==> 'A' as int <= symbol[0] <= 'Z' as int
  {
    if classIdx == 26 then Units("DEL")
    else if classIdx == 27 then Units("SPACE")
    else FromCharCode(classIdx + 65)
  }

  /** The indices 0 to 25 name the letters A to Z, in order. */
  lemma LabelLetters(classIdx: nat)
    requires classIdx < 26
    ensures Label(classIdx) == Units([('A' as int + classIdx) as char])
    ensures 'A' as int <= Label(classIdx)[0] <= 'Z' as int
  {
  }

  /** The four fixed points of the mapping. */
  lemma LabelExamples()
    ensures Label(0) == Units("A") && Label(4) == Units("E") && Label(25) == Units("Z")
    ensures Label(26) == Units("DEL") && Label(27) == Units("SPACE")
  {
  }

  /** No two of the 28 classes share a label. */
  lemma LabelInjective(i: nat, j: nat)
    requires i < 28 && j < 28 && i != j
    ensures Label(i) != Label(j)
  {
    if i < 26 && j < 26 {
      assert Label(i)[0] != Label(j)[0];
    } else if i < 26 || j < 26 {
      assert |Label(i)| != |Label(j)|;
    } else {
      assert |Label(i)| != |Label(j)|;
    }
  }
}
