// AIStrategy.fromString: case-insensitive parsing of a strategy name.

module StrategyParsing {
  import opened Types

  /** One character lower-cased; only the ASCII letters A-Z change. */
  function LowerChar(c: char): (r: char)
    ensures 'A' <= c <= 'Z' ==> 'a' <= r <= 'z'
    ensures !('A' <= c <= 'Z') ==> r == c
  {
    if 'A' <= c <= 'Z' then (c as int + 32) as char else c
  }

  /** `String.toLowerCase()`, restricted to ASCII case mapping. */
  function ToLower(s: string): (r: string)
    ensures |r| == |s|
    ensures forall i :: 0 <= i < |s| ==> r[i] == LowerChar(s[i])
  {
    if s == [] then [] else [LowerChar(s[0])] + ToLower(s[1..])
  }

  /** `AIStrategy.fromString`: "guard", "sentries" and "patrol" in any letter
      case select their strategy; every other string selects NONE. */
  function FromString(s: string): (r: AIStrategy)
    ensures r != NONE <==> ToLower(s) in {"guard", "sentries", "patrol"}
    ensures r != NONE ==> ToLower(s) == ToLower(StrategyName(r))
  {
    var lower := ToLower(s);
    if lower == "guard" then LowerName(GUARD); GUARD
    else if lower == "sentries" then LowerName(SENTRIES); SENTRIES
    else if lower == "patrol" then LowerName(PATROL); PATROL
    else NONE
  }

  /** The three strategy names are recognised in every letter case, and only
      they are: all other strings, "none" and "" included, give NONE. */
  lemma FromStringCases(s: string)
    ensures FromString(s) == GUARD <==> ToLower(s) == "guard"
    ensures FromString(s) == SENTRIES <==> ToLower(s) == "sentries"
    ensures FromString(s) == PATROL <==> ToLower(s) == "patrol"
    ensures FromString(s) == NONE <==> ToLower(s) !in {"guard", "sentries", "patrol"}
  {
  }

  /** Lower-casing is idempotent. */
  lemma {:induction false} ToLowerIdempotent(s: string)
    ensures ToLower(ToLower(s)) == ToLower(s)
  {
    if s != [] {
      ToLowerIdempotent(s[1..]);
      assert ToLower(s)[1..] == ToLower(s[1..]);
    }
  }

  /** Two strings that differ only in letter case parse alike. */
  lemma CaseInsensitive(s: string, t: string)
    requires ToLower(s) == ToLower(t)
    ensures FromString(s) == FromString(t)
  {
  }

  /** The lower-cased declared name of each strategy parses back to it. */
  lemma NameRoundTrip(st: AIStrategy)
    ensures FromString(ToLower(StrategyName(st))) == st
  {
    var n := StrategyName(st);
    ToLowerIdempotent(n);
    LowerName(st);
  }

  /** The lower-case form of each declared name. */
  lemma LowerName(st: AIStrategy)
    ensures ToLower(StrategyName(st)) == match st
      case NONE => "none"
      case GUARD => "guard"
      case SENTRIES => "sentries"
      case PATROL => "patrol"
  {
    var n, l := StrategyName(st), ToLower(StrategyName(st));
    match st
    case NONE =>
      assert l == [l[0], l[1], l[2], l[3]];
    case GUARD =>
      assert l == [l[0], l[1], l[2], l[3], l[4]];
    case SENTRIES =>
      assert l == [l[0], l[1], l[2], l[3], l[4], l[5], l[6], l[7]];
    case PATROL =>
      assert l == [l[0], l[1], l[2], l[3], l[4], l[5]];
  }
}
