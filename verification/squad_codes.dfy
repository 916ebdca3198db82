/**
 * generateSquadCode: "SQ-" followed by six characters drawn from A-Z0-9.
 * Math.random() is not available to a proof, so its six results are
 * supplied as `draws`, each in [0, 1) as Math.random promises.
 */
module SquadCodes {

  const CHARS := "ABCDEFGHIJKLMNOPQRSTUVWXYZ0123456789"
  const PREFIX := "SQ-"
  const CODE_LENGTH := 6

  /** A value Math.random() can return. */
  predicate IsRandom(x: real)
  {
    0.0 <= x < 1.0
  }

  predicate ValidDraws(draws: seq<real>)
  {
    |draws| == CODE_LENGTH && forall i :: 0 <= i < |draws| ==> IsRandom(draws[i])
  }

  /** Math.floor(x * chars.length) */
  function Pick(x: real): (k: nat)
    requires IsRandom(x)
    ensures k < |CHARS|
  {
    (x * 36.0).Floor
  }

  /** The code generated from the given random draws. */
  function CodeFor(draws: seq<real>): string
    requires ValidDraws(draws)
  {
    PREFIX + seq(CODE_LENGTH, i requires 0 <= i < CODE_LENGTH => CHARS[Pick(draws[i])])
  }

  /** Characters of the pattern [A-Z0-9]. */
  predicate IsCodeChar(c: char)
  {
    'A' <= c <= 'Z' || '0' <= c <= '9'
  }

  /** The pattern ^SQ-[A-Z0-9]{6}$ */
  predicate IsSquadCode(s: string)
  {
    |s| == 9 && s[..3] == "SQ-" && forall i :: 3 <= i < 9 ==> IsCodeChar(s[i])
  }

  /** Position of a pattern character in CHARS. */
  function IndexOf(c: char): (k: nat)
    requires IsCodeChar(c)
    ensures k < |CHARS| && CHARS[k] == c
  {
    CharsSpelledOut();
    if 'A' <= c <= 'Z' then c as int - 'A' as int else 26 + (c as int - '0' as int)
  }

  /** CHARS lists the letters A to Z and then the digits 0 to 9. */
  lemma CharsSpelledOut()
    ensures |CHARS| == 36
    ensures forall k :: 0 <= k < 26 ==> CHARS[k] == ('A' as int + k) as char
    ensures forall k :: 26 <= k < 36 ==> CHARS[k] == ('0' as int + k - 26) as char
  {
  }

  /** Every character of CHARS matches [A-Z0-9]. */
  lemma CharsAreCodeChars(k: nat)
    requires k < |CHARS|
    ensures IsCodeChar(CHARS[k])
  {
    CharsSpelledOut();
  }

  /** Every generated code matches ^SQ-[A-Z0-9]{6}$ and has length 9. */
  lemma CodeForIsSquadCode(draws: seq<real>)
    requires ValidDraws(draws)
    ensures |CodeFor(draws)| == 9
    ensures IsSquadCode(CodeFor(draws))
  {
    var code := CodeFor(draws);
    assert code[..3] == PREFIX;
    forall i | 3 <= i < 9
      ensures IsCodeChar(code[i])
    {
      assert code[i] == CHARS[Pick(draws[i - 3])];
      CharsAreCodeChars(Pick(draws[i - 3]));
    }
  }

  /** Conversely, every code matching the pattern is produced by some draws. */
  lemma EverySquadCodeIsGenerated(code: string)
    requires IsSquadCode(code)
    ensures exists draws :: ValidDraws(draws) && CodeFor(draws) == code
  {
    var draws := seq(CODE_LENGTH, i requires 0 <= i < CODE_LENGTH => IndexOf(code[3 + i]) as real / 36.0);
    forall i | 0 <= i < CODE_LENGTH
      ensures IsRandom(draws[i]) && Pick(draws[i]) == IndexOf(code[3 + i])
    {
      var k := IndexOf(code[3 + i]);
      assert draws[i] * 36.0 == k as real;
    }
    assert CodeFor(draws) == code;
  }

  /** generateSquadCode, with the draws Math.random() returned. */
  method GenerateSquadCode(draws: seq<real>) returns (code: string)
    requires ValidDraws(draws)
    ensures code == CodeFor(draws)
    ensures IsSquadCode(code)
  {
    code := PREFIX;
    for i := 0 to CODE_LENGTH
      invariant code == PREFIX + CodeFor(draws)[3..3 + i]
    {
      code := code + [CHARS[Pick(draws[i])]];
    }
    CodeForIsSquadCode(draws);
  }
}
