/** The functions of Go's strings package the parser and the hook templates use, and what they satisfy. */
module Strings {
  import opened Text

  /** strings.Split for a separator that is not empty. */
  function Split(s: string, sep: string): (r: seq<string>)
    requires sep != ""
    ensures r != []
    decreases |s|
  {
    if s == "" then [""]
    else if sep <= s then [""] + Split(s[|sep|..], sep)
    else var rest := Split(s[1..], sep); [[s[0]] + rest[0]] + rest[1..]
  }

  function Join(parts: seq<string>, sep: string): string {
    if parts == [] then "" else if |parts| == 1 then parts[0] else parts[0] + sep + Join(parts[1..], sep)
  }

  function TrimLeft(s: string, c: char): string {
    if s != "" && s[0] == c then TrimLeft(s[1..], c) else s
  }

  function TrimRight(s: string, c: char): string {
    if s != "" && s[|s| - 1] == c then TrimRight(s[..|s| - 1], c) else s
  }

  function TrimSpaceLeft(s: string): string {
    if s != "" && IsSpace(s[0]) then TrimSpaceLeft(s[1..]) else s
  }

  function TrimSpaceRight(s: string): string {
    if s != "" && IsSpace(s[|s| - 1]) then TrimSpaceRight(s[..|s| - 1]) else s
  }

  function TrimSpace(s: string): string {
    TrimSpaceRight(TrimSpaceLeft(s))
  }

  predicate OccursAt(s: string, sub: string, i: int) {
    0 <= i <= |s| - |sub| && s[i..i + |sub|] == sub
  }

  /** strings.LastIndex: the last position at which sub occurs, or -1. */
  function LastIndex(s: string, sub: string): (r: int)
    ensures r == -1 || OccursAt(s, sub, r)
    ensures forall i | r < i :: !OccursAt(s, sub, i)
  {
    if |sub| > |s| then -1 else LastIndexUpTo(s, sub, |s| - |sub|)
  }

  function LastIndexUpTo(s: string, sub: string, hi: int): (r: int)
    requires -1 <= hi <= |s| - |sub|
    ensures r == -1 || (r <= hi && OccursAt(s, sub, r))
    ensures forall i | r < i <= hi :: !OccursAt(s, sub, i)
    decreases hi + 1
  {
    if hi < 0 then -1 else if OccursAt(s, sub, hi) then hi else LastIndexUpTo(s, sub, hi - 1)
  }

  /** A separator whose first character does not come again in it cannot straddle the end of a text it follows. */
  predicate Sharp(sep: string) {
    sep != "" && sep[0] !in sep[1..]
  }

  /** Splitting around an explicit separator splits the two sides. */
  lemma {:induction false} SplitAround(a: string, sep: string, b: string)
    requires Sharp(sep)
    ensures Split(a + sep + b, sep) == Split(a, sep) + Split(b, sep)
    decreases |a|
  {
    var s := a + sep + b;
    if a == "" {
      assert s == sep + b;
      SplitAt(s, sep);
    } else {
      PrefixStays(a, sep, b);
      if sep <= a {
        DropAround(a, sep, b, |sep|);
        SplitAround(a[|sep|..], sep, b);
        SplitAt(a, sep);
        SplitAt(s, sep);
      } else {
        DropAround(a, sep, b, 1);
        SplitAround(a[1..], sep, b);
        SplitPast(a, sep);
        SplitPast(s, sep);
        HeadAppend(a[0], Split(a[1..], sep), Split(b, sep));
      }
    }
  }

  lemma DropAround(a: string, sep: string, b: string, n: nat)
    requires n <= |a|
    ensures (a + sep + b)[n..] == a[n..] + sep + b
  {
  }

  lemma SplitAt(s: string, sep: string)
    requires sep != "" && sep <= s
    ensures Split(s, sep) == [""] + Split(s[|sep|..], sep)
  {
  }

  lemma SplitPast(s: string, sep: string)
    requires sep != "" && s != "" && !(sep <= s)
    ensures Split(s, sep) == [[s[0]] + Split(s[1..], sep)[0]] + Split(s[1..], sep)[1..]
  {
  }

  lemma HeadAppend(c: char, s: seq<string>, t: seq<string>)
    requires s != []
    ensures [[c] + (s + t)[0]] + (s + t)[1..] == [[c] + s[0]] + s[1..] + t
  {
  }

  lemma PrefixStays(a: string, sep: string, b: string)
    requires Sharp(sep) && a != ""
    ensures sep <= a + sep + b <==> sep <= a
  {
    var s := a + sep + b;
    assert forall i | 0 <= i < |a| :: s[i] == a[i];
    if |a| < |sep| {
      assert s[|a|] == sep[0] && sep[|a|] == sep[1..][|a| - 1];
    }
  }

  /** A text without the separator's first character is one piece. */
  lemma {:induction false} SplitNone(s: string, sep: string)
    requires sep != "" && sep[0] !in s
    ensures Split(s, sep) == [s]
    decreases |s|
  {
    if s != "" {
      SplitNone(s[1..], sep);
      assert [s[0]] + s[1..] == s;
    }
  }

  /** Five pieces around one separator. */
  lemma SplitFive(a: string, b: string, c: string, d: string, e: string, sep: string)
    requires |sep| == 1 && forall x | x in [a, b, c, d, e] :: sep[0] !in x
    ensures Split(a + sep + b + sep + c + sep + d + sep + e, sep) == [a, b, c, d, e]
  {
    var abcd, abc, ab := a + sep + b + sep + c + sep + d, a + sep + b + sep + c, a + sep + b;
    assert a in [a, b, c, d, e] && b in [a, b, c, d, e] && c in [a, b, c, d, e];
    assert d in [a, b, c, d, e] && e in [a, b, c, d, e];
    SplitAround(abcd, sep, e);
    SplitAround(abc, sep, d);
    SplitAround(ab, sep, c);
    SplitAround(a, sep, b);
    SplitNone(a, sep);
    SplitNone(b, sep);
    SplitNone(c, sep);
    SplitNone(d, sep);
    SplitNone(e, sep);
  }

  /** Split undoes Join. */
  lemma {:induction false} SplitJoin(parts: seq<string>, sep: string)
    requires |sep| == 1 && parts != [] && (forall i | 0 <= i < |parts| :: sep[0] !in parts[i])
    ensures Split(Join(parts, sep), sep) == parts
  {
    SplitNone(parts[0], sep);
    if |parts| == 1 {
      assert parts == [parts[0]];
    } else {
      SplitAround(parts[0], sep, Join(parts[1..], sep));
      SplitJoin(parts[1..], sep);
    }
  }

  /** Join undoes Split. */
  lemma {:induction false} JoinSplit(s: string, sep: string)
    requires sep != ""
    ensures Join(Split(s, sep), sep) == s
    decreases |s|
  {
    if s == "" {
    } else if sep <= s {
      JoinSplit(s[|sep|..], sep);
      JoinCons("", Split(s[|sep|..], sep), sep);
      assert s == "" + sep + s[|sep|..];
    } else {
      JoinSplit(s[1..], sep);
      JoinHead(s[0], Split(s[1..], sep), sep);
      assert s == [s[0]] + s[1..];
    }
  }

  lemma JoinCons(a: string, rest: seq<string>, sep: string)
    requires rest != []
    ensures Join([a] + rest, sep) == a + sep + Join(rest, sep)
  {
    assert ([a] + rest)[1..] == rest;
  }

  lemma JoinHead(c: char, rest: seq<string>, sep: string)
    requires rest != []
    ensures Join([[c] + rest[0]] + rest[1..], sep) == [c] + Join(rest, sep)
  {
    if |rest| > 1 {
      JoinCons([c] + rest[0], rest[1..], sep);
      var tail := Join(rest[1..], sep);
      assert [c] + rest[0] + sep + tail == [c] + (rest[0] + sep + tail);
    } else {
      assert [[c] + rest[0]] + rest[1..] == [[c] + rest[0]];
    }
  }

  predicate Blank(s: string) {
    forall i | 0 <= i < |s| :: IsSpace(s[i])
  }

  /** White space neither first nor last. */
  predicate Tight(s: string) {
    s != "" ==> !IsSpace(s[0]) && !IsSpace(s[|s| - 1])
  }

  /** TrimSpace takes away the white space around a text, and nothing else. */
  lemma TrimSpaceExact(before: string, s: string, after: string)
    requires Blank(before) && Tight(s) && Blank(after)
    ensures TrimSpace(before + s + after) == s
  {
    assert before + s + after == before + (s + after);
    TrimLeftBlank(before, s + after);
    if s == "" {
      assert "" + after == after;
      TrimLeftBlank(after, "");
      assert after + "" == after;
    } else {
      assert (s + after)[0] == s[0];
      TrimRightBlank(s, after);
    }
  }

  lemma {:induction false} TrimLeftBlank(before: string, s: string)
    requires Blank(before)
    ensures TrimSpaceLeft(before + s) == TrimSpaceLeft(s)
  {
    if before == "" {
      assert before + s == s;
    } else {
      assert Blank(before[1..]);
      TrimLeftBlank(before[1..], s);
      assert (before + s)[1..] == before[1..] + s;
    }
  }

  lemma {:induction false} TrimRightBlank(s: string, after: string)
    requires Blank(after) && s != "" && !IsSpace(s[|s| - 1])
    ensures TrimSpaceRight(s + after) == s
    decreases |after|
  {
    if after == "" {
      assert s + after == s;
    } else {
      var shorter := after[..|after| - 1];
      assert Blank(shorter);
      TrimRightBlank(s, shorter);
      assert (s + after)[..|s + after| - 1] == s + shorter;
    }
  }

  /** TrimSpace keeps every character that is not white space. */
  lemma TrimKeeps(s: string, c: char)
    requires !IsSpace(c) && c in s
    ensures c in TrimSpace(s)
  {
    TrimLeftKeeps(s, c);
    TrimRightKeeps(TrimSpaceLeft(s), c);
  }

  lemma {:induction false} TrimLeftKeeps(s: string, c: char)
    requires !IsSpace(c) && c in s
    ensures c in TrimSpaceLeft(s)
  {
    if IsSpace(s[0]) {
      assert s == [s[0]] + s[1..];
      TrimLeftKeeps(s[1..], c);
    }
  }

  lemma {:induction false} TrimRightKeeps(s: string, c: char)
    requires !IsSpace(c) && c in s
    ensures c in TrimSpaceRight(s)
    decreases |s|
  {
    if IsSpace(s[|s| - 1]) {
      assert s == s[..|s| - 1] + [s[|s| - 1]];
      TrimRightKeeps(s[..|s| - 1], c);
    }
  }

  /** TrimRight takes away all the trailing c, TrimLeft all the leading ones, and nothing else. */
  lemma {:induction false} TrimExact(s: string, c: char, cs: string)
    requires forall i | 0 <= i < |cs| :: cs[i] == c
    ensures (s != "" ==> s[|s| - 1] != c) ==> TrimRight(s + cs, c) == s
    ensures (s != "" ==> s[0] != c) ==> TrimLeft(cs + s, c) == s
    decreases |cs|
  {
    if cs == "" {
      assert s + cs == s && cs + s == s;
    } else {
      TrimExact(s, c, cs[1..]);
      assert (cs + s)[1..] == cs[1..] + s;
      assert cs[1..] == cs[..|cs| - 1];
      assert (s + cs)[..|s + cs| - 1] == s + cs[..|cs| - 1];
    }
  }

  lemma TrimNothing(s: string)
    requires NoSpace(s)
    ensures TrimSpace(s) == s
  {
  }

  /** A suffix is found where it starts. */
  lemma LastIndexOfSuffix(p: string, m: string)
    ensures LastIndex(p + m, m) == |p|
  {
    assert OccursAt(p + m, m, |p|);
  }

  /** strings.ReplaceAll for a text to replace that is not empty. */
  function ReplaceAll(s: string, from: string, to: string): string
    requires from != ""
  {
    Join(Split(s, from), to)
  }

  /** An occurrence is replaced, and the texts around it are treated by themselves. */
  lemma ReplaceAround(a: string, from: string, b: string, to: string)
    requires Sharp(from)
    ensures ReplaceAll(a + from + b, from, to) == ReplaceAll(a, from, to) + to + ReplaceAll(b, from, to)
  {
    SplitAround(a, from, b);
    JoinBoth(Split(a, from), Split(b, from), to);
  }

  lemma {:induction false} JoinBoth(a: seq<string>, b: seq<string>, sep: string)
    requires a != [] && b != []
    ensures Join(a + b, sep) == Join(a, sep) + sep + Join(b, sep)
  {
    if |a| == 1 {
      assert (a + b)[1..] == b;
    } else {
      assert (a + b)[1..] == a[1..] + b;
      JoinBoth(a[1..], b, sep);
      assert Join(a + b, sep) == a[0] + sep + (Join(a[1..], sep) + sep + Join(b, sep));
    }
  }

  /** Replacing a text that does not occur changes nothing. */
  lemma {:induction false} ReplaceNothing(s: string, from: string, to: string)
    requires from != "" && forall i :: !OccursAt(s, from, i)
    ensures Split(s, from) == [s] && ReplaceAll(s, from, to) == s
    decreases |s|
  {
    if s != "" {
      assert !(from <= s) by {
        assert !OccursAt(s, from, 0);
      }
      forall i ensures !OccursAt(s[1..], from, i) {
        OccursInTail(s, from, i);
      }
      ReplaceNothing(s[1..], from, to);
      assert [s[0]] + s[1..] == s;
    }
  }

  lemma OccursInTail(s: string, sub: string, i: int)
    requires s != ""
    ensures OccursAt(s[1..], sub, i) <==> i >= 0 && OccursAt(s, sub, i + 1)
  {
    if 0 <= i <= |s| - 1 - |sub| {
      SliceOfTail(s, i, i + |sub|);
    }
  }

  lemma SliceOfTail(s: string, lo: nat, hi: nat)
    requires lo <= hi < |s|
    ensures s[1..][lo..hi] == s[lo + 1..hi + 1]
  {
    var a, b := s[1..][lo..hi], s[lo + 1..hi + 1];
    assert |a| == |b|;
    assert forall j | 0 <= j < |a| :: a[j] == b[j];
  }
}
