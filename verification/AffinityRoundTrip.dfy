/** The documented grammar of the node affinity value, its printer, and the round trip through the parser. */
module AffinityRoundTrip {
  import opened NodeAffinity
  import opened Strings
  import opened Text

  /** One rule as a user writes it, with white space around its parts: `key`, or `key:[v1,v2]` with a possibly empty
      list. A blank entry stands between two commas, or before or after one. */
  datatype Rule =
    | Nothing(blank: string)
    | Bare(before: string, key: string, after: string)
    | Valued(before: string, key: string, after: string, open: string, values: seq<string>, close: string)

  predicate Clean(s: string) {
    NoSpace(s) && ',' !in s && ':' !in s && '[' !in s && ']' !in s
  }

  /** Keys are not empty. Values may be, except that a list of one empty value is the empty list. */
  predicate WellFormed(r: Rule) {
    match r
    case Nothing(b) => Blank(b)
    case Bare(b, k, a) => Blank(b) && Clean(k) && k != "" && Blank(a)
    case Valued(b, k, a, open, vs, close) =>
      && Blank(b) && Clean(k) && k != "" && Blank(a) && Blank(open) && Blank(close)
      && vs != [""] && forall i | 0 <= i < |vs| :: Clean(vs[i])
  }

  /** What stands before the colon, or the whole entry. */
  function Name(r: Rule): string {
    match r
    case Nothing(b) => b
    case Bare(b, k, a) => b + k + a
    case Valued(b, k, a, _, _, _) => b + k + a
  }

  /** What stands between the brackets. */
  function Body(r: Rule): string
    requires r.Valued?
  {
    r.open + Join(r.values, ",") + r.close
  }

  function Print(r: Rule): string {
    if r.Valued? then Name(r) + ":[" + Body(r) + "]" else Name(r)
  }

  function PrintAll(rules: seq<Rule>): string {
    if rules == [] then "" else if |rules| == 1 then Print(rules[0]) else Print(rules[0]) + "," + PrintAll(rules[1..])
  }

  function Meaning(r: Rule): seq<Requirement> {
    match r
    case Nothing(_) => []
    case Bare(_, k, _) => [Requirement(k, Exists, [])]
    case Valued(_, k, _, _, vs, _) => [if vs == [] then Requirement(k, Exists, []) else Requirement(k, In, vs)]
  }

  function Meanings(rules: seq<Rule>): seq<Requirement> {
    if rules == [] then [] else Meaning(rules[0]) + Meanings(rules[1..])
  }

  /** The parser looks for `:[` on the line of a comma. So no newline may stand before a bracket, unless no entry
      without bracket stands before it in its piece; `pending` says that there is one. */
  predicate Readable(pending: bool, rules: seq<Rule>)
    decreases |rules|
  {
    rules == [] ||
    if rules[0].Valued? then (pending ==> '\n' !in Name(rules[0])) && Readable(false, rules[1..])
    else Readable(true, rules[1..])
  }

  /** An entry without bracket. */
  predicate Plain(s: string) {
    ',' !in s && ':' !in s && '[' !in s && ']' !in s
  }

  predicate AllPlain(entries: seq<string>) {
    forall i | 0 <= i < |entries| :: Plain(entries[i])
  }

  /** What entries without bracket stand for: the blank ones for nothing. */
  function BareMeanings(entries: seq<string>): seq<Requirement> {
    if entries == [] then [] else
    (if TrimSpace(entries[0]) != "" then [Requirement(TrimSpace(entries[0]), Exists, [])] else [])
    + BareMeanings(entries[1..])
  }

  /** Printing, with `entries` already read and to be printed first. */
  function PrintWith(entries: seq<string>, rules: seq<Rule>): string {
    if entries == [] then PrintAll(rules)
    else if |entries| == 1 && rules == [] then entries[0]
    else entries[0] + "," + PrintWith(entries[1..], rules)
  }

  lemma {:induction false} JoinClean(vs: seq<string>, c: char)
    requires c != ',' && forall i | 0 <= i < |vs| :: c !in vs[i]
    ensures c !in Join(vs, ",")
  {
    if |vs| > 1 { JoinClean(vs[1..], c); }
  }

  lemma {:induction false} JoinNoSpace(vs: seq<string>)
    requires forall i | 0 <= i < |vs| :: NoSpace(vs[i])
    ensures NoSpace(Join(vs, ","))
  {
    if |vs| > 1 {
      JoinNoSpace(vs[1..]);
      var a, b := vs[0], Join(vs[1..], ",");
      var j := a + "," + b;
      forall i | 0 <= i < |j| ensures !IsSpace(j[i]) {
        if i < |a| { assert j[i] == a[i]; } else if i > |a| { assert j[i] == b[i - |a| - 1]; }
      }
    }
  }

  lemma {:induction false} BlankIsPlain(b: string)
    requires Blank(b)
    ensures Plain(b)
  {
  }

  lemma {:induction false} NameIsPlain(r: Rule)
    requires WellFormed(r)
    ensures Plain(Name(r))
    ensures TrimSpace(Name(r)) == if r.Nothing? then "" else r.key
  {
    if r.Nothing? {
      BlankIsPlain(r.blank);
      assert "" + "" + r.blank == r.blank;
      TrimSpaceExact("", "", r.blank);
    } else {
      BlankIsPlain(r.before);
      BlankIsPlain(r.after);
      TrimSpaceExact(r.before, r.key, r.after);
    }
  }

  lemma {:induction false} BodyIsPlain(r: Rule)
    requires r.Valued? && WellFormed(r)
    ensures ':' !in Body(r) && '[' !in Body(r) && ']' !in Body(r)
    ensures TrimSpace(Body(r)) == Join(r.values, ",")
  {
    JoinClean(r.values, ':');
    JoinClean(r.values, '[');
    JoinClean(r.values, ']');
    JoinNoSpace(r.values);
    BlankIsPlain(r.open);
    BlankIsPlain(r.close);
    TrimSpaceExact(r.open, Join(r.values, ","), r.close);
  }

  /** The rule with a key and a split list of values: a blank list has none. */
  function WithValues(key: string, values: seq<string>): Requirement
    requires values != []
  {
    if |values| > 1 || TrimSpace(values[0]) != "" then Requirement(key, In, values) else Requirement(key, Exists, [])
  }

  /** The rule of a text with one colon. */
  lemma {:induction false} ReadPair(key: string, right: string, list: string)
    requires ':' !in key && ':' !in right && TrimSpace(TrimLeft(TrimRight(right, ']'), '[')) == list
    ensures GetNodeSelectorRequirement(key + ":" + right) == WithValues(TrimSpace(key), Split(list, ","))
  {
    SplitAround(key, ":", right);
    SplitNone(key, ":");
    SplitNone(right, ":");
    assert Split(key + ":" + right, ":") == [key, right];
  }

  lemma {:induction false} ValuesBack(key: string, vs: seq<string>)
    requires vs != [""] && forall i | 0 <= i < |vs| :: Clean(vs[i])
    ensures WithValues(key, Split(Join(vs, ","), ","))
         == if vs == [] then Requirement(key, Exists, []) else Requirement(key, In, vs)
  {
    if vs == [] {
      assert Split("", ",") == [""];
    } else {
      SplitJoin(vs, ",");
      if |vs| == 1 { TrimNothing(vs[0]); }
    }
  }

  lemma {:induction false} ReadText(name: string, body: string, vs: seq<string>, tail: string)
    requires ':' !in name && ':' !in body && '[' !in body && ']' !in body && tail in {"", "]"}
    requires TrimSpace(body) == Join(vs, ",") && vs != [""] && forall i | 0 <= i < |vs| :: Clean(vs[i])
    ensures GetNodeSelectorRequirement(name + ":" + ("[" + body + tail))
         == if vs == [] then Requirement(TrimSpace(name), Exists, []) else Requirement(TrimSpace(name), In, vs)
  {
    TrimBrackets(body, tail);
    ReadPair(name, "[" + body + tail, Join(vs, ","));
    ValuesBack(TrimSpace(name), vs);
  }

  lemma {:induction false} ColonThenBracket(name: string, body: string, tail: string)
    ensures name + ":[" + body + tail == name + ":" + ("[" + body + tail)
  {
    assert ":[" == ":" + "[";
  }

  /** One valued rule, with or without its closing bracket, is read back, its white space trimmed. */
  lemma {:induction false} ReadValued(r: Rule, tail: string)
    requires r.Valued? && WellFormed(r) && tail in {"", "]"}
    ensures [GetNodeSelectorRequirement(Name(r) + ":[" + Body(r) + tail)] == Meaning(r)
  {
    NameIsPlain(r);
    BodyIsPlain(r);
    ReadText(Name(r), Body(r), r.values, tail);
    ColonThenBracket(Name(r), Body(r), tail);
  }

  lemma {:induction false} TrimBrackets(v: string, tail: string)
    requires '[' !in v && ']' !in v && tail in {"", "]"}
    ensures TrimLeft(TrimRight("[" + v + tail, ']'), '[') == v
  {
    var open := "[" + v;
    assert TrimRight(open, ']') == open;
    if tail == "]" {
      assert (open + tail)[..|open|] == open;
    } else {
      assert open + tail == open;
    }
    assert open[1..] == v;
  }

  /** The rule of a text without colon. */
  lemma {:induction false} ReadBare(entry: string)
    requires ':' !in entry
    ensures GetNodeSelectorRequirement(entry) == Requirement(TrimSpace(entry), Exists, [])
  {
    SplitNone(entry, ":");
  }

  lemma {:induction false} ReadEntries(entries: seq<string>, last: seq<string>)
    requires AllPlain(entries) && last in {[], [""]}
    ensures Keys(entries + last) == BareMeanings(entries)
  {
    if entries == [] {
      assert entries + last == last;
      assert Keys([""]) == Keys([]);
    } else {
      ReadBare(entries[0]);
      assert (entries + last)[1..] == entries[1..] + last;
      ReadEntries(entries[1..], last);
    }
  }

  /** The text of `entries` with a comma after each. */
  function Led(entries: seq<string>): string {
    if entries == [] then "" else entries[0] + "," + Led(entries[1..])
  }

  lemma {:induction false} SplitLed(entries: seq<string>)
    requires AllPlain(entries)
    ensures Split(Led(entries), ",") == entries + [""]
    ensures '[' !in Led(entries) && ']' !in Led(entries) && ':' !in Led(entries)
    ensures entries != [] ==> Led(entries) != "" && Led(entries)[|Led(entries)| - 1] == ','
  {
    if entries != [] {
      SplitLed(entries[1..]);
      SplitAround(entries[0], ",", Led(entries[1..]));
      SplitNone(entries[0], ",");
      assert [entries[0]] + (entries[1..] + [""]) == entries + [""];
    }
  }

  /** A text without a colon has no `:[`. */
  lemma {:induction false} NoBracket(s: string)
    requires ':' !in s
    ensures !BracketOnLine(s)
  {
    if |s| >= 2 { NoBracket(s[1..]); }
  }

  lemma {:induction false} BracketAfterName(name: string, rest: string)
    requires '\n' !in name
    ensures BracketOnLine(name + ":[" + rest)
  {
    var s := name + ":[" + rest;
    if name != "" {
      assert s[0] == name[0];
      assert s[1..] == name[1..] + ":[" + rest;
      BracketAfterName(name[1..], rest);
    }
  }

  /** A newline hides the bracket behind it. */
  lemma {:induction false} NewlineHides(name: string, rest: string)
    requires ':' !in name && '\n' in name
    ensures !BracketOnLine(name + rest)
  {
    var s := name + rest;
    assert s[0] == name[0] && name[0] != ':';
    if name[0] != '\n' {
      assert name == [name[0]] + name[1..];
      assert s[1..] == name[1..] + rest;
      NewlineHides(name[1..], rest);
    }
  }

  /** No comma matches once the only `:[` is behind. */
  lemma {:induction false} NoMatchInside(head: string, name: string, body: string, j: int)
    requires Plain(name) && ':' !in body && '[' !in body && |head| <= j
    ensures !MatchAt(head + (name + ":[" + body), j)
  {
    var rest := name + ":[" + body;
    var s := head + rest;
    var open := |head| + |name| + 2;
    assert forall i | |head| <= i < |s| :: s[i] == rest[i - |head|];
    if j < |head| + |name| {
      assert s[j] == name[j - |head|];
    } else if j < |s| && s[j] == ',' {
      assert j >= open;
      assert s[j + 1..] == body[j + 1 - open..];
      NoBracket(body[j + 1 - open..]);
    }
  }

  /** After entries, the rightmost match is the valued rule. */
  lemma {:induction false} FindsAfterEntries(entries: seq<string>, name: string, body: string)
    requires entries != [] && AllPlain(entries) && Plain(name) && '\n' !in name && ':' !in body && '[' !in body
    ensures GetRightMostMatchingString(Led(entries) + (name + ":[" + body)) == name + ":[" + body
  {
    var head, rest := Led(entries), name + ":[" + body;
    var s := head + rest;
    SplitLed(entries);
    RightMost(s);
    forall j | |head| <= j ensures !MatchAt(s, j) {
      NoMatchInside(head, name, body, j);
    }
    assert MatchAt(s, |head| - 1) by {
      assert s[|head|..] == rest;
      BracketAfterName(name, body);
    }
    var m := GetRightMostMatchingString(s);
    assert |s| - |m| - 1 == |head| - 1;
  }

  /** With no entry before it nothing matches. */
  lemma {:induction false} FindsNothing(name: string, body: string)
    requires Plain(name) && ':' !in body && '[' !in body
    ensures GetRightMostMatchingString(name + ":[" + body) == ""
  {
    var s := name + ":[" + body;
    assert "" + s == s;
    RightMost(s);
    forall j | 0 <= j ensures !MatchAt(s, j) {
      NoMatchInside("", name, body, j);
    }
  }

  /** No comma before a newline matches a bracket behind it. */
  lemma {:induction false} NoMatchAcross(head: string, name: string, body: string, j: int)
    requires ':' !in head && Plain(name) && '\n' in name && 0 <= j < |head|
    ensures !MatchAt(head + (name + ":[" + body), j)
  {
    var before := head[j + 1..] + name;
    assert (head + (name + ":[" + body))[j + 1..] == before + (":[" + body);
    NewlineHides(before, ":[" + body);
  }

  /** Nothing is found with a newline between the last entry and the bracket. */
  lemma {:induction false} FindsNothingAcross(entries: seq<string>, name: string, body: string)
    requires AllPlain(entries) && Plain(name) && '\n' in name && ':' !in body && '[' !in body
    ensures GetRightMostMatchingString(Led(entries) + (name + ":[" + body)) == ""
  {
    var head := Led(entries);
    SplitLed(entries);
    RightMost(head + (name + ":[" + body));
    forall j ensures !MatchAt(head + (name + ":[" + body), j) {
      if j >= |head| {
        NoMatchInside(head, name, body, j);
      } else if 0 <= j {
        NoMatchAcross(head, name, body, j);
      }
    }
  }

  /** The rules of a text with a match: what is left before it is one rule if there is a bracket in it, and the match
      is then dropped; else it is a list of bare keys, to which the match's rule is added. */
  lemma {:induction false} RulesCut(head: string, rest: string)
    requires GetRightMostMatchingString(head + rest) == rest && rest != ""
    ensures Rules(head + rest) == if '[' in head then [GetNodeSelectorRequirement(head)]
                                  else Keys(Split(head, ",")) + [GetNodeSelectorRequirement(rest)]
  {
    RulesAre(head, rest);
  }

  lemma {:induction false} RulesAre(head: string, rest: string)
    requires GetRightMostMatchingString(head + rest) == rest
    ensures Rules(head + rest) == PieceRules(head, rest)
  {
    var s := head + rest;
    assert s[..|s| - SuffixLength(s)] == head;
  }

  /** The rules of a text without a match. */
  lemma {:induction false} RulesWhole(s: string)
    requires GetRightMostMatchingString(s) == ""
    ensures Rules(s) == if '[' in s then [GetNodeSelectorRequirement(s)] else Keys(Split(s, ","))
  {
    assert s + "" == s;
    RulesAre(s, "");
    assert Keys(Split(s, ",")) + [] == Keys(Split(s, ","));
  }

  /** A piece that ends in a valued rule: the entries before it, then the rule. */
  lemma {:induction false} ReadPiece(entries: seq<string>, r: Rule, tail: string)
    requires AllPlain(entries) && r.Valued? && WellFormed(r) && tail in {"", "]"}
    requires entries != [] ==> '\n' !in Name(r)
    ensures Rules(Led(entries) + (Name(r) + ":[" + Body(r) + tail)) == BareMeanings(entries) + Meaning(r)
  {
    var body := Body(r) + tail;
    var rest := Name(r) + ":[" + Body(r) + tail;
    NameIsPlain(r);
    BodyIsPlain(r);
    assert rest == Name(r) + ":[" + body;
    ReadValued(r, tail);
    if entries == [] {
      assert Led([]) + rest == rest && BareMeanings([]) + Meaning(r) == Meaning(r);
      CutAtStart(Name(r), body);
    } else {
      CutAfterEntries(entries, Name(r), body);
      ReadEntries(entries, [""]);
    }
  }

  lemma {:induction false} CutAfterEntries(entries: seq<string>, name: string, body: string)
    requires entries != [] && AllPlain(entries) && Plain(name) && '\n' !in name && ':' !in body && '[' !in body
    ensures var rest := name + ":[" + body;
      Rules(Led(entries) + rest) == Keys(entries + [""]) + [GetNodeSelectorRequirement(rest)]
  {
    var rest := name + ":[" + body;
    FindsAfterEntries(entries, name, body);
    SplitLed(entries);
    RulesCut(Led(entries), rest);
  }

  lemma {:induction false} CutAtStart(name: string, body: string)
    requires Plain(name) && ':' !in body && '[' !in body
    ensures var rest := name + ":[" + body; Rules(rest) == [GetNodeSelectorRequirement(rest)]
  {
    var rest := name + ":[" + body;
    FindsNothing(name, body);
    assert rest[|name| + 1] == '[';
    RulesWhole(rest);
  }

  lemma {:induction false} NoColonNoMatch(s: string)
    requires ':' !in s
    ensures GetRightMostMatchingString(s) == ""
  {
    forall j ensures !MatchAt(s, j) {
      if 0 <= j < |s| { NoBracket(s[j + 1..]); }
    }
    RightMost(s);
  }

  /** A piece of entries without bracket. */
  lemma {:induction false} ReadEntriesOnly(entries: seq<string>)
    requires AllPlain(entries)
    ensures Parse(Join(entries, ",")) == BareMeanings(entries)
  {
    var s := Join(entries, ",");
    if entries == [] {
      EmptyPiece();
    } else {
      JoinClean(entries, ':');
      JoinClean(entries, ']');
      JoinClean(entries, '[');
      SplitNone(s, "],");
      NoColonNoMatch(s);
      RulesWhole(s);
      SplitJoin(entries, ",");
      ReadEntries(entries, []);
      assert entries + [] == entries;
      OnePiece(s);
    }
  }

  lemma {:induction false} OnePiece(s: string)
    requires Split(s, "],") == [s]
    ensures Parse(s) == Rules(s)
  {
    OneRules(s);
  }

  /** The text of a piece closed by its bracket has no further piece in it. */
  lemma {:induction false} LastPiece(a: string)
    requires ']' !in a
    ensures Split(a + "]", "],") == [a + "]"]
    decreases |a|
  {
    if a == "" {
      assert a + "]" == "]" && "]"[1..] == "";
      assert !("]," <= "]");
      assert Split("", "],") == [""] && [']'] + "" == "]";
    } else {
      assert (a + "]")[0] == a[0] && a[0] != ']';
      assert (a + "]")[1..] == a[1..] + "]";
      LastPiece(a[1..]);
      SplitPast(a + "]", "],");
      assert [a[0]] + (a[1..] + "]") == a + "]";
    }
  }

  lemma {:induction false} PrintWithIsLed(entries: seq<string>, rules: seq<Rule>)
    requires rules != []
    ensures PrintWith(entries, rules) == Led(entries) + PrintAll(rules)
  {
    if entries != [] {
      PrintWithIsLed(entries[1..], rules);
    }
  }

  lemma {:induction false} PrintWithIsJoin(entries: seq<string>)
    ensures PrintWith(entries, []) == Join(entries, ",")
  {
    if |entries| > 1 { PrintWithIsJoin(entries[1..]); }
  }

  lemma {:induction false} PrintWithMore(entries: seq<string>, r: Rule, rules: seq<Rule>)
    requires !r.Valued?
    ensures PrintWith(entries, [r] + rules) == PrintWith(entries + [Name(r)], rules)
  {
    var all := [r] + rules;
    assert all[1..] == rules;
    if entries != [] {
      assert (entries + [Name(r)])[1..] == entries[1..] + [Name(r)];
      PrintWithMore(entries[1..], r, rules);
    } else {
      assert [] + [Name(r)] == [Name(r)] && [Name(r)][1..] == [];
    }
  }

  lemma {:induction false} BareMeaningsMore(entries: seq<string>, r: Rule)
    requires !r.Valued? && WellFormed(r)
    ensures BareMeanings(entries + [Name(r)]) == BareMeanings(entries) + Meaning(r)
  {
    if entries == [] {
      NameIsPlain(r);
      assert [] + [Name(r)] == [Name(r)] && [Name(r)][1..] == [];
    } else {
      assert (entries + [Name(r)])[1..] == entries[1..] + [Name(r)];
      BareMeaningsMore(entries[1..], r);
    }
  }

  function Opened(entries: seq<string>, r: Rule): string
    requires r.Valued?
  {
    Led(entries) + (Name(r) + ":[" + Body(r) + "")
  }

  lemma {:induction false} OpenedIsClean(entries: seq<string>, r: Rule)
    requires AllPlain(entries) && r.Valued? && WellFormed(r)
    ensures ']' !in Opened(entries, r)
  {
    SplitLed(entries);
    NameIsPlain(r);
    BodyIsPlain(r);
  }

  /** The pieces of a text that begins with entries and a valued rule. */
  lemma {:induction false} LastValued(entries: seq<string>, r: Rule)
    requires AllPlain(entries) && r.Valued? && WellFormed(r)
    ensures Parse(Led(entries) + Print(r)) == Rules(Led(entries) + (Name(r) + ":[" + Body(r) + "]"))
  {
    OpenedIsClean(entries, r);
    LastPiece(Opened(entries, r));
    assert Led(entries) + Print(r) == Opened(entries, r) + "]";
    OnePiece(Led(entries) + Print(r));
  }

  lemma {:induction false} Regroup(a: string, name: string, body: string, rest: string)
    ensures a + (name + ":[" + body + "]") + "," + rest == a + (name + ":[" + body + "") + "]," + rest
  {
    assert name + ":[" + body + "" == name + ":[" + body;
    assert "]," == "]" + ",";
  }

  lemma {:induction false} ValuedThen(entries: seq<string>, r: Rule, rest: string)
    requires AllPlain(entries) && r.Valued? && WellFormed(r)
    ensures Parse(Led(entries) + Print(r) + "," + rest) == Rules(Opened(entries, r)) + Parse(rest)
  {
    var open := Opened(entries, r);
    OpenedIsClean(entries, r);
    Regroup(Led(entries), Name(r), Body(r), rest);
    assert Led(entries) + Print(r) + "," + rest == open + "]," + rest;
    ParseHomomorphism(open, rest);
    SplitNone(open, "],");
    OnePiece(open);
  }

  /** The entries read so far, then a valued rule, then the rest: the rules of the first piece and those of the
      rest. */
  lemma {:induction false} FirstPiece(entries: seq<string>, r: Rule, rest: seq<Rule>) returns (tail: string)
    requires AllPlain(entries) && r.Valued? && WellFormed(r)
    ensures tail in {"", "]"}
    ensures Parse(PrintWith(entries, [r] + rest))
         == Rules(Led(entries) + (Name(r) + ":[" + Body(r) + tail)) + Parse(PrintAll(rest))
  {
    PrintWithIsLed(entries, [r] + rest);
    Cons(r, rest);
    if rest == [] {
      LastValued(entries, r);
      EmptyPiece();
      tail := "]";
    } else {
      SeqAssoc(Led(entries), Print(r), ",", PrintAll(rest));
      ValuedThen(entries, r, PrintAll(rest));
      tail := "";
    }
  }

  lemma {:induction false} Cons(r: Rule, rest: seq<Rule>)
    ensures Meanings([r] + rest) == Meaning(r) + Meanings(rest)
    ensures PrintAll([r] + rest) == if rest == [] then Print(r) else Print(r) + "," + PrintAll(rest)
  {
    assert ([r] + rest)[1..] == rest;
  }

  lemma {:induction false} SeqAssoc<T>(a: seq<T>, b: seq<T>, c: seq<T>, d: seq<T>)
    ensures a + (b + c + d) == a + b + c + d && a + (b + c) == a + b + c
  {
  }

  /** An entry without bracket joins those read so far. */
  lemma {:induction false} ReadThroughEntry(entries: seq<string>, r: Rule, rest: seq<Rule>)
    requires !r.Valued? && WellFormed(r)
    requires Parse(PrintWith(entries + [Name(r)], rest)) == BareMeanings(entries + [Name(r)]) + Meanings(rest)
    ensures Parse(PrintWith(entries, [r] + rest)) == BareMeanings(entries) + Meanings([r] + rest)
  {
    PrintWithMore(entries, r, rest);
    BareMeaningsMore(entries, r);
    Cons(r, rest);
    SeqAssoc(BareMeanings(entries), Meaning(r), Meanings(rest), []);
  }

  lemma {:induction false} ReadThroughValued(entries: seq<string>, r: Rule, rest: seq<Rule>)
    requires AllPlain(entries) && r.Valued? && WellFormed(r) && (entries != [] ==> '\n' !in Name(r))
    requires Parse(PrintAll(rest)) == Meanings(rest)
    ensures Parse(PrintWith(entries, [r] + rest)) == BareMeanings(entries) + Meanings([r] + rest)
  {
    var tail := FirstPiece(entries, r, rest);
    ReadPiece(entries, r, tail);
    Cons(r, rest);
    SeqAssoc(BareMeanings(entries), Meaning(r), Meanings(rest), []);
  }

  lemma {:induction false} AllPlainMore(entries: seq<string>, r: Rule)
    requires AllPlain(entries) && WellFormed(r)
    ensures AllPlain(entries + [Name(r)])
  {
    NameIsPlain(r);
  }

  lemma {:induction false} ReadBack(entries: seq<string>, rules: seq<Rule>)
    requires AllPlain(entries) && (forall i | 0 <= i < |rules| :: WellFormed(rules[i]))
    requires Readable(entries != [], rules)
    ensures Parse(PrintWith(entries, rules)) == BareMeanings(entries) + Meanings(rules)
    decreases |rules|
  {
    if rules == [] {
      PrintWithIsJoin(entries);
      ReadEntriesOnly(entries);
    } else {
      var r, rest := rules[0], rules[1..];
      assert rules == [r] + rest;
      if r.Valued? {
        ReadBack([], rest);
        assert PrintWith([], rest) == PrintAll(rest) && BareMeanings([]) + Meanings(rest) == Meanings(rest);
        ReadThroughValued(entries, r, rest);
      } else {
        AllPlainMore(entries, r);
        ReadBack(entries + [Name(r)], rest);
        ReadThroughEntry(entries, r, rest);
      }
    }
  }

  /** Some requirement has a comma in its key. */
  predicate Garbled(reqs: seq<Requirement>) {
    exists i | 0 <= i < |reqs| :: ',' in reqs[i].key
  }

  lemma {:induction false} GarbledBoth(a: seq<Requirement>, b: seq<Requirement>)
    ensures Garbled(a + b) <==> Garbled(a) || Garbled(b)
  {
    if i :| 0 <= i < |a| && ',' in a[i].key { assert (a + b)[i] == a[i]; }
    if i :| 0 <= i < |b| && ',' in b[i].key { assert (a + b)[|a| + i] == b[i]; }
  }

  lemma {:induction false} MeaningsAreNotGarbled(rules: seq<Rule>)
    requires forall i | 0 <= i < |rules| :: WellFormed(rules[i])
    ensures !Garbled(Meanings(rules))
  {
    if rules != [] {
      MeaningsAreNotGarbled(rules[1..]);
      GarbledBoth(Meaning(rules[0]), Meanings(rules[1..]));
    }
  }

  /** Nothing is cut off before a bracket with a newline before it. */
  lemma {:induction false} WholeAcross(entries: seq<string>, name: string, body: string)
    requires AllPlain(entries) && Plain(name) && '\n' in name && ':' !in body && '[' !in body
    ensures var s := Led(entries) + (name + ":[" + body); Rules(s) == [GetNodeSelectorRequirement(s)]
  {
    var s := Led(entries) + (name + ":[" + body);
    FindsNothingAcross(entries, name, body);
    assert s[|Led(entries)| + |name| + 1] == '[';
    RulesWhole(s);
  }

  /** Its key holds the commas of the entries before it. */
  lemma {:induction false} KeyAcross(entries: seq<string>, name: string, body: string)
    requires AllPlain(entries) && entries != [] && Plain(name)
    ensures ',' in GetNodeSelectorRequirement(Led(entries) + (name + ":[" + body)).key
  {
    var left := Led(entries) + name;
    SplitLed(entries);
    assert left[|Led(entries)| - 1] == ',';
    assert Led(entries) + (name + ":[" + body) == left + ":" + ("[" + body);
    KeyOf(left, "[" + body);
    TrimKeeps(left, ',');
  }

  /** With a newline before the bracket the entries before it end up in the rule's key. */
  lemma {:induction false} NewlineGarbles(entries: seq<string>, r: Rule, tail: string)
    requires AllPlain(entries) && entries != [] && r.Valued? && WellFormed(r) && tail in {"", "]"} && '\n' in Name(r)
    ensures Garbled(Rules(Led(entries) + (Name(r) + ":[" + Body(r) + tail)))
  {
    var body := Body(r) + tail;
    assert Name(r) + ":[" + Body(r) + tail == Name(r) + ":[" + body;
    NameIsPlain(r);
    BodyIsPlain(r);
    WholeAcross(entries, Name(r), body);
    KeyAcross(entries, Name(r), body);
    OneGarbled(GetNodeSelectorRequirement(Led(entries) + (Name(r) + ":[" + body)));
  }

  lemma {:induction false} OneGarbled(req: Requirement)
    requires ',' in req.key
    ensures Garbled([req])
  {
    assert [req][0] == req;
  }

  /** The key of a rule is what stands before its first colon, trimmed. */
  lemma {:induction false} KeyOf(left: string, right: string)
    requires ':' !in left
    ensures GetNodeSelectorRequirement(left + ":" + right).key == TrimSpace(left)
  {
    SplitAround(left, ":", right);
    SplitNone(left, ":");
    assert Split(left + ":" + right, ":")[0] == left;
  }

  lemma {:induction false} UnreadableIsGarbled(entries: seq<string>, rules: seq<Rule>)
    requires AllPlain(entries) && (forall i | 0 <= i < |rules| :: WellFormed(rules[i]))
    requires !Readable(entries != [], rules)
    ensures Garbled(Parse(PrintWith(entries, rules)))
    decreases |rules|
  {
    var r, rest := rules[0], rules[1..];
    assert rules == [r] + rest;
    if !r.Valued? {
      AllPlainMore(entries, r);
      PrintWithMore(entries, r, rest);
      UnreadableIsGarbled(entries + [Name(r)], rest);
    } else {
      var tail := FirstPiece(entries, r, rest);
      GarbledBoth(Rules(Led(entries) + (Name(r) + ":[" + Body(r) + tail)), Parse(PrintAll(rest)));
      if entries != [] && '\n' in Name(r) {
        NewlineGarbles(entries, r, tail);
      } else {
        UnreadableIsGarbled([], rest);
        assert PrintWith([], rest) == PrintAll(rest);
      }
    }
  }

  /** Affinity round trip, exactly: for every list of well-formed rules, value-less ones spelled either way, with any
      white space around keys and lists and any blank entries, the parser returns exactly that list, in order, with
      the operators and values it says, if and only if no newline stands between an entry without bracket and the
      bracket of the rule after it. */
  lemma {:induction false} AffinityRoundTrip(rules: seq<Rule>)
    requires forall i | 0 <= i < |rules| :: WellFormed(rules[i])
    ensures Parse(PrintAll(rules)) == Meanings(rules) <==> Readable(false, rules)
  {
    assert PrintWith([], rules) == PrintAll(rules);
    if Readable(false, rules) {
      ReadBack([], rules);
      assert BareMeanings([]) + Meanings(rules) == Meanings(rules);
    } else {
      UnreadableIsGarbled([], rules);
      MeaningsAreNotGarbled(rules);
    }
  }

  /** Without newlines the round trip holds. */
  lemma {:induction false} OneLineIsReadable(rules: seq<Rule>, pending: bool)
    requires forall i | 0 <= i < |rules| :: '\n' !in Name(rules[i])
    ensures Readable(pending, rules)
  {
    if rules != [] { OneLineIsReadable(rules[1..], !rules[0].Valued?); }
  }

  /** What a list of rules means is what each rule means, in order: one requirement for each that is not blank. */
  lemma {:induction false} MeaningsAreMeaning(rules: seq<Rule>)
    requires forall i | 0 <= i < |rules| :: !rules[i].Nothing?
    ensures |Meanings(rules)| == |rules| && forall i | 0 <= i < |rules| :: [Meanings(rules)[i]] == Meaning(rules[i])
  {
    if rules != [] {
      MeaningsAreMeaning(rules[1..]);
    }
  }

  lemma {:induction false} MeaningsOfBoth(a: seq<Rule>, b: seq<Rule>)
    ensures Meanings(a + b) == Meanings(a) + Meanings(b)
  {
    if a == [] {
      assert a + b == b;
    } else {
      assert (a + b)[1..] == a[1..] + b;
      MeaningsOfBoth(a[1..], b);
      SeqAssoc(Meaning(a[0]), Meanings(a[1..]), Meanings(b), []);
    }
  }

  /** What stands after a second colon is ignored. */
  lemma {:induction false} SecondColonIgnored(key: string, value: string, more: string)
    requires ':' !in key && ':' !in value
    ensures GetNodeSelectorRequirement(key + ":" + value + ":" + more) == GetNodeSelectorRequirement(key + ":" + value)
  {
    SplitAround(key + ":" + value, ":", more);
    SplitAround(key, ":", value);
    SplitNone(key, ":");
    SplitNone(value, ":");
  }

  /** The values of a rule: the list between any number of brackets, as it is split at its commas, or none if it is
      blank. */
  lemma {:induction false} ValuesOf(
    key: string, opens: string, open: string, list: string, close: string, closes: string)
    requires ':' !in key && ':' !in list && Blank(open) && Blank(close) && Tight(list)
    requires (forall i | 0 <= i < |opens| :: opens[i] == '[') && (forall i | 0 <= i < |closes| :: closes[i] == ']')
    requires open + list + close != "" ==>
      (open + list + close)[0] != '[' && (open + list + close)[|open + list + close| - 1] != ']'
    ensures GetNodeSelectorRequirement(key + ":" + (opens + (open + list + close) + closes))
         == if list == "" then Requirement(TrimSpace(key), Exists, [])
            else Requirement(TrimSpace(key), In, Split(list, ","))
  {
    var inner := open + list + close;
    BlankIsPlain(open);
    BlankIsPlain(close);
    TrimmedList(opens, open, list, close, closes);
    ReadPair(key, opens + inner + closes, list);
    if list != "" {
      ListIsNotBlank(list);
    }
  }

  lemma {:induction false} TrimmedList(opens: string, open: string, list: string, close: string, closes: string)
    requires Blank(open) && Blank(close) && Tight(list)
    requires (forall i | 0 <= i < |opens| :: opens[i] == '[') && (forall i | 0 <= i < |closes| :: closes[i] == ']')
    requires var inner := open + list + close;
      inner != "" ==> inner[0] != '[' && inner[|inner| - 1] != ']'
    ensures TrimSpace(TrimLeft(TrimRight(opens + (open + list + close) + closes, ']'), '[')) == list
  {
    var inner := open + list + close;
    TrimExact(opens + inner, ']', closes);
    TrimExact(inner, '[', opens);
    TrimSpaceExact(open, list, close);
  }

  lemma {:induction false} ListIsNotBlank(list: string)
    requires list != "" && Tight(list)
    ensures |Split(list, ",")| > 1 || TrimSpace(Split(list, ",")[0]) != ""
  {
    if |Split(list, ",")| == 1 {
      JoinSplit(list, ",");
      assert Split(list, ",")[0] == list;
      TrimKeeps(list, list[0]);
    }
  }
}
