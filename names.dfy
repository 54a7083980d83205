/**
 * Service-name derivation and the case-insensitive comparison used to pick
 * ingress ports. Case folding is ASCII-only: `ToLowerInvariant` and
 * `InvariantCultureIgnoreCase` are modelled on the letters 'A'..'Z'.
 */
module Names {

  predicate IsUpperAscii(c: char) {
    'A' <= c <= 'Z'
  }

  /** Invariant-culture lower-casing of one character, restricted to ASCII. */
  function LowerChar(c: char): (r: char)
    ensures !IsUpperAscii(r)
    ensures r == c || (IsUpperAscii(c) && r as int == c as int + 32)
  {
    if IsUpperAscii(c) then (c as int + 32) as char else c
  }

  /** `string.ToLowerInvariant`, ASCII letters only. */
  function ToLowerInvariant(s: string): (r: string)
    ensures |r| == |s|
    ensures forall i :: 0 <= i < |s| ==> r[i] == LowerChar(s[i])
  {
    if s == [] then [] else [LowerChar(s[0])] + ToLowerInvariant(s[1..])
  }

  /** `string.Replace(char, char)`: every occurrence of `from` becomes `to`. */
  function Replace(s: string, from: char, to: char): (r: string)
    ensures |r| == |s|
    ensures forall i :: 0 <= i < |s| ==> r[i] == (if s[i] == from then to else s[i])
  {
    if s == [] then [] else [if s[0] == from then to else s[0]] + Replace(s[1..], from, to)
  }

  /**
   * The chart name of a service project: its directory name with every '.'
   * turned into '-', then lower-cased.
   */
  function ServiceName(directoryName: string): (r: string)
    ensures |r| == |directoryName|
    ensures forall i :: 0 <= i < |r| ==> r[i] != '.' && !IsUpperAscii(r[i])
    ensures forall i :: 0 <= i < |r| ==>
      r[i] == (if directoryName[i] == '.' then '-' else LowerChar(directoryName[i]))
  {
    ToLowerInvariant(Replace(directoryName, '.', '-'))
  }

  /** Deriving the service name of a service name changes nothing. */
  lemma ServiceNameIdempotent(directoryName: string)
    ensures ServiceName(ServiceName(directoryName)) == ServiceName(directoryName)
  {
    var once := ServiceName(directoryName);
    var twice := ServiceName(once);
    forall i | 0 <= i < |once| ensures twice[i] == once[i] {
      assert !IsUpperAscii(once[i]);
    }
  }

  /** `string.Equals(a, b, StringComparison.InvariantCultureIgnoreCase)`, ASCII letters only. */
  predicate EqualsIgnoreCase(a: string, b: string) {
    ToLowerInvariant(a) == ToLowerInvariant(b)
  }

  /**
   * The port names that ask for an ingress rule: "http" or "https", in any
   * letter case. Both are already lower case, so only `name` is folded.
   */
  predicate IsHttpName(name: string)
    ensures IsHttpName(name) ==> |name| == 4 || |name| == 5
  {
    var low := ToLowerInvariant(name);
    low == "http" || low == "https"
  }

  /** `IsHttpName` is the case-insensitive comparison with "http" and with "https". */
  lemma HttpNameIgnoresCase(name: string)
    ensures IsHttpName(name) <==> EqualsIgnoreCase(name, "http") || EqualsIgnoreCase(name, "https")
  {
    assert ToLowerInvariant("http") == "http";
    assert ToLowerInvariant("https") == "https";
  }

  /** `c` is the lower-case letter `lower` or its upper-case form. */
  predicate LetterIs(c: char, lower: char) {
    c == lower || c as int == lower as int - 32
  }

  lemma LowerCharIs(c: char, lower: char)
    requires 'a' <= lower <= 'z'
    ensures LowerChar(c) == lower <==> LetterIs(c, lower)
  {
  }

  /** The http/https names spelled out letter by letter, independently of the case folding. */
  lemma HttpNameSpelled(name: string)
    ensures IsHttpName(name) <==>
      && (|name| == 4 || |name| == 5)
      && LetterIs(name[0], 'h') && LetterIs(name[1], 't') && LetterIs(name[2], 't') && LetterIs(name[3], 'p')
      && (|name| == 5 ==> LetterIs(name[4], 's'))
  {
    var low := ToLowerInvariant(name);
    var http, https := "http", "https";
    if |name| == 4 || |name| == 5 {
      LowerCharIs(name[0], 'h');
      LowerCharIs(name[1], 't');
      LowerCharIs(name[2], 't');
      LowerCharIs(name[3], 'p');
      if |name| == 5 {
        LowerCharIs(name[4], 's');
        assert low == https <==> low[0] == 'h' && low[1] == 't' && low[2] == 't' && low[3] == 'p' && low[4] == 's';
      } else {
        assert low == http <==> low[0] == 'h' && low[1] == 't' && low[2] == 't' && low[3] == 'p';
      }
    }
  }

  /** An http/https name is never "host", so the rule mapping can take a "host" key beside it. */
  lemma HttpNameIsNotHost(name: string)
    requires IsHttpName(name)
    ensures name != "host"
  {
    HttpNameSpelled(name);
  }
}
