/** The node affinity rules read from one environment value. */
module NodeAffinity {
  import opened Basics
  import opened Strings

  datatype Operator = Exists | In

  datatype Requirement = Requirement(key: string, operator: Operator, values: seq<string>)

  /** `:[` occurs in s with no newline before it: what `.*:\[` matches at the start of s. */
  predicate BracketOnLine(s: string) {
    |s| >= 2 && ((s[0] == ':' && s[1] == '[') || (s[0] != '\n' && BracketOnLine(s[1..])))
  }

  /** The pattern `,.*:\[.*` matches s from position i. */
  predicate MatchAt(s: string, i: int) {
    0 <= i < |s| && s[i] == ',' && BracketOnLine(s[i + 1..])
  }

  /** regexp.FindStringIndex for that pattern: the leftmost position it matches from. */
  function FindStart(s: string): (r: Option<nat>)
    ensures r.Some? ==> MatchAt(s, r.value) && forall i | 0 <= i < r.value :: !MatchAt(s, i)
    ensures r.None? ==> forall i :: !MatchAt(s, i)
  {
    FindStartFrom(s, 0)
  }

  function FindStartFrom(s: string, lo: nat): (r: Option<nat>)
    requires lo <= |s|
    ensures r.Some? ==> lo <= r.value && MatchAt(s, r.value) && forall i | lo <= i < r.value :: !MatchAt(s, i)
    ensures r.None? ==> forall i | lo <= i :: !MatchAt(s, i)
    decreases |s| - lo
  {
    if lo == |s| then None else if MatchAt(s, lo) then Some(lo) else FindStartFrom(s, lo + 1)
  }

  predicate CommaRun(s: string, i: int, j: int) {
    0 <= i < j <= |s| && forall m | i <= m < j :: s[m] == ','
  }

  /** The pattern `.*,+.*:\[.*` matches somewhere in s: a run of commas, then `:[` on the same line. */
  ghost predicate ComplexPattern(s: string) {
    exists i, j :: CommaRun(s, i, j) && BracketOnLine(s[j..])
  }

  /** Both patterns match the same texts. */
  lemma ComplexIffMatch(s: string)
    ensures ComplexPattern(s) <==> FindStart(s).Some?
  {
    if ComplexPattern(s) {
      var i, j :| CommaRun(s, i, j) && BracketOnLine(s[j..]);
      RunMatches(s, i, j);
    }
    if FindStart(s).Some? {
      var i := FindStart(s).value;
      assert CommaRun(s, i, i + 1);
    }
  }

  lemma RunMatches(s: string, i: int, j: int)
    requires CommaRun(s, i, j) && BracketOnLine(s[j..])
    ensures MatchAt(s, j - 1)
  {
    assert s[j - 1] == ',';
  }

  /** getRightMostMatchingString for the pattern `,.*:\[.*`. */
  function GetRightMostMatchingString(value: string): string
    decreases |value|
  {
    var loc := FindStart(value);
    if loc.None? then "" else
    var v := value[loc.value..];
    var w := if v[0] == ',' && |v| > 1 then v[1..] else v;
    assert |w| < |value|;
    var rightMost := GetRightMostMatchingString(w);
    if rightMost != "" then rightMost else w
  }

  function GetNodeSelectorRequirement(reqAsValue: string): Requirement {
    var keyValues := Split(reqAsValue, ":");
    var key := TrimSpace(keyValues[0]);
    if |keyValues| > 1 then
      var valueList := Split(TrimSpace(TrimLeft(TrimRight(keyValues[1], ']'), '[')), ",");
      if |valueList| > 1 || TrimSpace(valueList[0]) != "" then Requirement(key, In, valueList)
      else Requirement(key, Exists, [])
    else Requirement(key, Exists, [])
  }

  /** The rules in a comma-separated list of bare keys; blank ones are skipped. */
  function Keys(parts: seq<string>): seq<Requirement> {
    if parts == [] then [] else
    (if TrimSpace(parts[0]) != "" then [GetNodeSelectorRequirement(parts[0])] else []) + Keys(parts[1..])
  }

  /** Position i is the last comma with `:[` after it on its line. */
  ghost predicate LastMatch(s: string, i: int) {
    MatchAt(s, i) && forall j | i < j :: !MatchAt(s, j)
  }

  /** What one piece of the environment value stands for: `last` is its last valued rule after a comma, or nothing,
      and `head` what comes before it. */
  function PieceRules(head: string, last: string): seq<Requirement> {
    if '[' in head then [GetNodeSelectorRequirement(head)]
    else Keys(Split(head, ",")) + if last != "" then [GetNodeSelectorRequirement(last)] else []
  }

  function Rules(s: string): seq<Requirement> {
    PieceRules(s[..|s| - SuffixLength(s)], GetRightMostMatchingString(s))
  }

  function SuffixLength(s: string): (n: nat)
    ensures n <= |s|
  {
    RightMostIsSuffix(s);
    |GetRightMostMatchingString(s)|
  }

  lemma {:induction false} RightMostIsSuffix(s: string)
    ensures var r := GetRightMostMatchingString(s); |r| <= |s| && s[|s| - |r|..] == r
    decreases |s|
  {
    var loc := FindStart(s);
    if loc.Some? {
      var w := s[loc.value..][1..];
      RightMostIsSuffix(w);
      var r := GetRightMostMatchingString(w);
      assert w == s[loc.value + 1..];
      if r != "" { assert s[|s| - |r|..] == w[|w| - |r|..]; }
    }
  }

  lemma MatchInSuffix(s: string, p: nat, i: int)
    requires p <= |s|
    ensures MatchAt(s[p..], i) <==> i >= 0 && MatchAt(s, p + i)
  {
    if 0 <= i < |s| - p { assert s[p..][i + 1..] == s[p + i + 1..]; }
  }

  /** getRightMostMatchingString terminates on every string and returns the text after the last comma that
      has `:[` after it on its line, or nothing when there is no such comma. */
  lemma {:induction false} RightMost(s: string)
    ensures IsRightMost(s, GetRightMostMatchingString(s))
    decreases |s|
  {
    var loc := FindStart(s);
    if loc.Some? {
      var p := loc.value + 1;
      var w := s[p..];
      assert s[loc.value..][1..] == w && w != "";
      RightMost(w);
      RightMostExtends(s, p, GetRightMostMatchingString(w));
    }
  }

  ghost predicate IsRightMost(s: string, r: string) {
    if FindStart(s).None? then r == "" else
    r != "" && |r| < |s| && s[|s| - |r|..] == r && LastMatch(s, |s| - |r| - 1)
  }

  lemma RightMostExtends(s: string, p: nat, r: string)
    requires 1 <= p < |s| && MatchAt(s, p - 1) && IsRightMost(s[p..], r)
    ensures IsRightMost(s, if r != "" then r else s[p..])
  {
    var w := s[p..];
    if r != "" {
      LastMatchOfSuffix(s, p, |w| - |r| - 1);
      assert s[|s| - |r|..] == w[|w| - |r|..];
    } else {
      LastMatchIsFirst(s, p);
    }
  }

  lemma LastMatchOfSuffix(s: string, p: nat, i: nat)
    requires p <= |s| && LastMatch(s[p..], i)
    ensures LastMatch(s, p + i)
  {
    MatchInSuffix(s, p, i);
    forall j | p + i < j ensures !MatchAt(s, j) {
      MatchInSuffix(s, p, j - p);
    }
  }

  lemma LastMatchIsFirst(s: string, p: nat)
    requires 1 <= p <= |s| && MatchAt(s, p - 1) && FindStart(s[p..]).None?
    ensures LastMatch(s, p - 1)
  {
    forall j | p - 1 < j ensures !MatchAt(s, j) {
      MatchInSuffix(s, p, j - p);
    }
  }

  /** Cutting a text at the last index of its rightmost match rebuilds it. */
  lemma RightMostSplits(s: string)
    requires GetRightMostMatchingString(s) != ""
    ensures var r := GetRightMostMatchingString(s);
      |r| <= |s| && LastIndex(s, r) == |s| - |r| && s[..LastIndex(s, r)] + r == s
  {
    RightMostIsSuffix(s);
    var r := GetRightMostMatchingString(s);
    assert s == s[..|s| - |r|] + r;
    LastIndexOfSuffix(s[..|s| - |r|], r);
  }

  /** The bare keys of a comma-separated list, blank ones skipped. */
  method GetKeyRequirements(value: string) returns (reqs: seq<Requirement>)
    ensures reqs == Keys(Split(value, ","))
  {
    reqs := [];
    var parts := Split(value, ",");
    for i := 0 to |parts|
      invariant reqs == Keys(parts[..i])
    {
      KeysMore(parts, i);
      if TrimSpace(parts[i]) != "" {
        reqs := reqs + [GetNodeSelectorRequirement(parts[i])];
      }
    }
    assert parts[..|parts|] == parts;
  }

  lemma {:induction false} KeysOfBoth(a: seq<string>, b: seq<string>)
    ensures Keys(a + b) == Keys(a) + Keys(b)
  {
    if a == [] {
      assert a + b == b;
    } else {
      assert (a + b)[1..] == a[1..] + b;
      KeysOfBoth(a[1..], b);
    }
  }

  lemma KeysMore(parts: seq<string>, i: nat)
    requires i < |parts|
    ensures Keys(parts[..i + 1])
         == Keys(parts[..i]) + if TrimSpace(parts[i]) != "" then [GetNodeSelectorRequirement(parts[i])] else []
  {
    assert parts[..i + 1] == parts[..i] + [parts[i]];
    KeysOfBoth(parts[..i], [parts[i]]);
    assert Keys([]) == [];
  }

  method GetOneOrMoreNodeSelectorRequirements(requirementsAsValue: string) returns (reqs: seq<Requirement>)
    ensures reqs == Rules(requirementsAsValue)
  {
    var value := requirementsAsValue;
    var complexReq := Requirement("", Exists, []);
    RightMost(value);
    var isComplex := FindStart(value).Some?;
    if isComplex {
      RightMostSplits(value);
      var matching := GetRightMostMatchingString(value);
      if matching != "" {
        var index := LastIndex(value, matching);
        assert value[index..] == matching;
        complexReq := GetNodeSelectorRequirement(value[index..]);
        value := value[..index];
      }
    }
    assert value == requirementsAsValue[..|requirementsAsValue| - SuffixLength(requirementsAsValue)];
    if '[' in value {
      reqs := [GetNodeSelectorRequirement(value)];
    } else {
      reqs := GetKeyRequirements(value);
      if isComplex {
        reqs := reqs + [complexReq];
      }
    }
  }

  /** The rules of all pieces, in order. */
  function AllRules(pieces: seq<string>): seq<Requirement> {
    if pieces == [] then [] else Rules(pieces[0]) + AllRules(pieces[1..])
  }

  function Parse(affinityValue: string): seq<Requirement> {
    AllRules(Split(affinityValue, "],"))
  }

  lemma EmptyPiece()
    ensures Rules("") == [] && Parse("") == []
  {
    assert FindStart("").None?;
    assert GetRightMostMatchingString("") == "";
    assert Keys([""]) == [];
  }

  method GetNodeAffinityRules(affinityValue: string) returns (matchExpressions: seq<Requirement>)
    ensures matchExpressions == Parse(affinityValue)
  {
    matchExpressions := [];
    if affinityValue == "" {
      EmptyPiece();
      return;
    }
    var rules := Split(affinityValue, "],");
    for i := 0 to |rules|
      invariant matchExpressions == AllRules(rules[..i])
    {
      var reqs := GetOneOrMoreNodeSelectorRequirements(rules[i]);
      matchExpressions := matchExpressions + reqs;
      AllRulesMore(rules, i);
    }
    assert rules[..|rules|] == rules;
  }

  lemma AllRulesMore(pieces: seq<string>, i: nat)
    requires i < |pieces|
    ensures AllRules(pieces[..i + 1]) == AllRules(pieces[..i]) + Rules(pieces[i])
  {
    assert pieces[..i + 1] == pieces[..i] + [pieces[i]];
    AllRulesOfBoth(pieces[..i], [pieces[i]]);
    OneRules(pieces[i]);
  }

  lemma OneRules(piece: string)
    ensures AllRules([piece]) == Rules(piece)
  {
    assert AllRules([piece]) == Rules(piece) + AllRules([]);
  }

  lemma {:induction false} AllRulesOfBoth(a: seq<string>, b: seq<string>)
    ensures AllRules(a + b) == AllRules(a) + AllRules(b)
  {
    if a == [] {
      assert a + b == b;
    } else {
      assert (a + b)[1..] == a[1..] + b;
      AllRulesOfBoth(a[1..], b);
    }
  }

  /** For all texts, well formed or not: parsing s, `],` and t is parsing s and then t. */
  lemma ParseHomomorphism(s: string, t: string)
    ensures Parse(s + "]," + t) == Parse(s) + Parse(t)
  {
    SplitAround(s, "],", t);
    AllRulesOfBoth(Split(s, "],"), Split(t, "],"));
  }
}
