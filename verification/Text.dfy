/** Characters and names: the little of Go's unicode and fmt packages that the object names depend on. */
module Text {

  /** unicode.IsSpace. */
  predicate IsSpace(c: char) {
    var n := c as int;
    || 9 <= n <= 13 || n == 0x20 || n == 0x85 || n == 0xA0 || n == 0x1680
    || 0x2000 <= n <= 0x200A || n == 0x2028 || n == 0x2029 || n == 0x202F || n == 0x205F || n == 0x3000
  }

  predicate NoSpace(s: string) {
    forall i | 0 <= i < |s| :: !IsSpace(s[i])
  }

  /** The longest prefix without white space. */
  function Token(s: string): (t: string)
    ensures t <= s && NoSpace(t)
    ensures |t| < |s| ==> IsSpace(s[|t|])
  {
    if s == [] || IsSpace(s[0]) then [] else [s[0]] + Token(s[1..])
  }

  /** fmt.Sscanf(name, "nfs-%s", &pv): the literal must match; %s skips blanks, fails on a newline
      and then reads one token. A failed scan leaves pv empty. */
  function ScanPVName(name: string): string {
    if "nfs-" <= name then ScanToken(name[4..]) else ""
  }

  function ScanToken(s: string): string {
    if s == [] || s[0] == '\n' then ""
    else if IsSpace(s[0]) then ScanToken(s[1..])
    else Token(s)
  }

  /** The name of every backend object of a PV. */
  function BackendName(pv: string): (name: string)
    ensures |name| == 4 + |pv| && name[..4] == "nfs-" && name[4..] == pv
  {
    "nfs-" + pv
  }

  /** The PV name the controller library derives from a claim's UID. */
  function PVName(uid: string): (pv: string)
    ensures |pv| == 4 + |uid| && pv[..4] == "pvc-" && pv[4..] == uid
  {
    "pvc-" + uid
  }

  lemma {:induction false} TokenOfWhole(s: string)
    requires NoSpace(s)
    ensures Token(s) == s
  {
    if s != [] {
      assert NoSpace(s[1..]);
      TokenOfWhole(s[1..]);
    }
  }

  /** The sweep's scan inverts the name the provisioner builds exactly for names that are one word. */
  lemma ScanInvertsBackendName(pv: string)
    ensures ScanPVName(BackendName(pv)) == pv <==> NoSpace(pv)
  {
    assert "nfs-" <= BackendName(pv);
    assert BackendName(pv)[4..] == pv;
    ScanTokenIsOneWord(pv);
    if NoSpace(pv) && pv != "" {
      assert !IsSpace(pv[0]);
      TokenOfWhole(pv);
    }
  }

  /** The sweep's scan of any name: nothing without the prefix, else the first word behind the prefix and any blanks,
      unless a newline comes before it. */
  lemma ScanExact(name: string, blanks: string, word: string, rest: string)
    requires forall i | 0 <= i < |blanks| :: IsSpace(blanks[i]) && blanks[i] != '\n'
    requires NoSpace(word) && (rest != "" ==> IsSpace(rest[0]) && (word == "" ==> rest[0] == '\n'))
    ensures !("nfs-" <= name) ==> ScanPVName(name) == ""
    ensures ScanPVName("nfs-" + (blanks + (word + rest))) == word
  {
    assert ("nfs-" + (blanks + (word + rest)))[4..] == blanks + (word + rest);
    ScanSkips(blanks, word + rest);
    if word == "" {
      assert word + rest == rest;
    } else {
      assert (word + rest)[0] == word[0];
      TokenStops(word, rest);
    }
  }

  lemma {:induction false} ScanSkips(blanks: string, s: string)
    requires forall i | 0 <= i < |blanks| :: IsSpace(blanks[i]) && blanks[i] != '\n'
    ensures ScanToken(blanks + s) == ScanToken(s)
  {
    if blanks == "" {
      assert blanks + s == s;
    } else {
      assert (blanks + s)[1..] == blanks[1..] + s;
      ScanSkips(blanks[1..], s);
    }
  }

  lemma {:induction false} TokenStops(word: string, rest: string)
    requires NoSpace(word) && (rest != "" ==> IsSpace(rest[0]))
    ensures Token(word + rest) == word
  {
    if word == "" {
      assert word + rest == rest;
    } else {
      assert (word + rest)[1..] == word[1..] + rest;
      assert NoSpace(word[1..]);
      TokenStops(word[1..], rest);
    }
  }

  lemma {:induction false} ScanTokenIsOneWord(s: string)
    ensures NoSpace(ScanToken(s))
  {
    if s != [] && s[0] != '\n' && IsSpace(s[0]) {
      ScanTokenIsOneWord(s[1..]);
    }
  }
}
