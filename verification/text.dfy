/** The functions of Go's `strings` package that the repository uses. */
module Text {

  /** What topics and tags are trimmed of. */
  const BLANKS := {'\t', '\n', ' '}

  /** The first position of `sep` in `s`, or -1. */
  function IndexOf(s: string, sep: string): (i: int)
    ensures -1 <= i
    ensures i >= 0 ==> i + |sep| <= |s| && s[i..i + |sep|] == sep
    decreases |s|
  {
    if |s| < |sep| then -1
    else if s[..|sep|] == sep then 0
    else if s == "" then -1
    else
      var i := IndexOf(s[1..], sep);
      if i < 0 then -1 else
        assert s[1..][i..i + |sep|] == s[i + 1..i + 1 + |sep|];
        i + 1
  }

  /** `strings.Split` with a non-empty separator: never an empty list. */
  function Split(s: string, sep: string): (parts: seq<string>)
    requires sep != ""
    ensures parts != []
    decreases |s|
  {
    var i := IndexOf(s, sep);
    if i < 0 then [s] else [s[..i]] + Split(s[i + |sep|..], sep)
  }

  function TrimLeft(s: string, cut: set<char>): string {
    if s != "" && s[0] in cut then TrimLeft(s[1..], cut) else s
  }

  function TrimRight(s: string, cut: set<char>): string {
    if s != "" && s[|s| - 1] in cut then TrimRight(s[..|s| - 1], cut) else s
  }

  /** `strings.Trim`. */
  function Trim(s: string, cut: set<char>): string {
    TrimRight(TrimLeft(s, cut), cut)
  }

  // ---------- What they compute ----------

  predicate IsAt(s: string, sep: string, i: int) {
    0 <= i <= i + |sep| <= |s| && s[i..i + |sep|] == sep
  }

  /** The position found is one of the separator, no earlier one is, and -1 means that there is none. */
  lemma {:induction false} IndexOfIsFirst(s: string, sep: string)
    ensures var i := IndexOf(s, sep); (i == -1 || IsAt(s, sep, i)) && forall k: int :: IsAt(s, sep, k) ==> 0 <= i <= k
    decreases |s|
  {
    if |s| >= |sep| && s[..|sep|] != sep && s != "" {
      IndexOfIsFirst(s[1..], sep);
      forall k: int | IsAt(s, sep, k) ensures 0 <= IndexOf(s, sep) <= k {
        assert k > 0 && s[1..][k - 1..k - 1 + |sep|] == s[k..k + |sep|];
        assert IsAt(s[1..], sep, k - 1);
      }
    }
  }

  function Joined(parts: seq<string>, sep: string): string {
    if parts == [] then "" else if |parts| == 1 then parts[0] else parts[0] + sep + Joined(parts[1..], sep)
  }

  /** The parts with the separator between them are the text, no part contains the separator, and the
      first part ends where the separator first begins. */
  lemma {:induction false} SplitCuts(s: string, sep: string)
    requires sep != ""
    ensures Joined(Split(s, sep), sep) == s
    ensures forall p, k: int :: p in Split(s, sep) ==> !IsAt(p, sep, k)
    ensures forall k: int :: IsAt(s, sep, k) ==> |Split(s, sep)[0]| <= k
    decreases |s|
  {
    var i := IndexOf(s, sep);
    IndexOfIsFirst(s, sep);
    if i >= 0 {
      SplitCuts(s[i + |sep|..], sep);
      assert s == s[..i] + sep + s[i + |sep|..];
      forall k: int | IsAt(s[..i], sep, k) ensures false {
        assert s[..i][k..k + |sep|] == s[k..k + |sep|];
        assert IsAt(s, sep, k);
      }
    }
  }

  /** A topic or tag is stored without tabs, newlines and spaces at its ends. */
  lemma TrimKeepsMiddle(s: string) returns (from: nat, to: nat)
    ensures from <= to <= |s| && Trim(s, BLANKS) == s[from..to]
    ensures forall i :: 0 <= i < from || to <= i < |s| ==> s[i] == '\t' || s[i] == '\n' || s[i] == ' '
    ensures from < to ==> IsInk(s[from]) && IsInk(s[to - 1])
  {
    from := LeftCut(s);
    var left := TrimLeft(s, BLANKS);
    var length := RightCut(left);
    to := from + length;
    assert forall i :: to <= i < |s| ==> s[i] == left[i - from];
  }

  predicate IsInk(c: char) {
    c != '\t' && c != '\n' && c != ' '
  }

  lemma {:induction false} LeftCut(s: string) returns (from: nat)
    ensures from <= |s| && TrimLeft(s, BLANKS) == s[from..]
    ensures forall i :: 0 <= i < from ==> !IsInk(s[i])
    ensures from < |s| ==> IsInk(s[from])
  {
    from := 0;
    if s != "" && s[0] in BLANKS {
      var rest := LeftCut(s[1..]);
      from := rest + 1;
      assert forall i :: 0 < i < from ==> s[i] == s[1..][i - 1];
    }
  }

  lemma {:induction false} RightCut(s: string) returns (to: nat)
    ensures to <= |s| && TrimRight(s, BLANKS) == s[..to]
    ensures forall i :: to <= i < |s| ==> !IsInk(s[i])
    ensures to > 0 ==> IsInk(s[to - 1])
  {
    to := |s|;
    if s != "" && s[|s| - 1] in BLANKS {
      to := RightCut(s[..|s| - 1]);
    }
  }
}
