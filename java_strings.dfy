/**
 * The few java.lang.String operations the recipe code relies on, with
 * Java's own edge cases: `split(":")` drops trailing empty pieces,
 * `split(":", 2)` keeps them, `replace` removes non-overlapping
 * occurrences from left to right. Case conversion covers ASCII letters
 * only.
 */
module JavaStrings {

  function UpperChar(c: char): char {
    if 'a' <= c <= 'z' then (c as int - 32) as char else c
  }

  function LowerChar(c: char): char {
    if 'A' <= c <= 'Z' then (c as int + 32) as char else c
  }

  /** String.toUpperCase */
  function Upper(s: string): (r: string)
    ensures |r| == |s|
    ensures forall i :: 0 <= i < |s| ==> r[i] == UpperChar(s[i])
  {
    if s == [] then [] else [UpperChar(s[0])] + Upper(s[1..])
  }

  /** String.toLowerCase */
  function Lower(s: string): (r: string)
    ensures |r| == |s|
    ensures forall i :: 0 <= i < |s| ==> r[i] == LowerChar(s[i])
  {
    if s == [] then [] else [LowerChar(s[0])] + Lower(s[1..])
  }

  /** The per-character test of String.equalsIgnoreCase. */
  predicate CharEqualsIgnoreCase(a: char, b: char) {
    a == b || UpperChar(a) == UpperChar(b) || LowerChar(UpperChar(a)) == LowerChar(UpperChar(b))
  }

  /** String.equalsIgnoreCase */
  predicate EqualsIgnoreCase(a: string, b: string) {
    |a| == |b| && forall i :: 0 <= i < |a| ==> CharEqualsIgnoreCase(a[i], b[i])
  }

  lemma UpperIdempotent(s: string)
    ensures Upper(Upper(s)) == Upper(s)
  {
  }

  /** Two characters are equal ignoring case exactly when their upper cases are equal. */
  lemma CharEqualsIgnoreCaseIffUpper(a: char, b: char)
    ensures CharEqualsIgnoreCase(a, b) <==> UpperChar(a) == UpperChar(b)
  {
  }

  /** equalsIgnoreCase holds exactly when the upper-cased strings are equal. */
  lemma EqualsIgnoreCaseIffUpper(a: string, b: string)
    ensures EqualsIgnoreCase(a, b) <==> Upper(a) == Upper(b)
  {
    if |a| == |b| {
      forall i | 0 <= i < |a|
        ensures CharEqualsIgnoreCase(a[i], b[i]) <==> Upper(a)[i] == Upper(b)[i]
      {
        CharEqualsIgnoreCaseIffUpper(a[i], b[i]);
      }
      if EqualsIgnoreCase(a, b) {
        assert Upper(a) == Upper(b);
      }
    }
  }

  predicate StartsWith(s: string, prefix: string) {
    |prefix| <= |s| && s[..|prefix|] == prefix
  }

  predicate EndsWith(s: string, suffix: string) {
    |suffix| <= |s| && s[|s| - |suffix|..] == suffix
  }

  predicate OccursAt(s: string, t: string, i: int) {
    0 <= i <= |s| - |t| && s[i..i + |t|] == t
  }

  /** `t` occurs somewhere in `s` (String.contains). */
  predicate ContainsSub(s: string, t: string) {
    exists i | 0 <= i <= |s| - |t| :: OccursAt(s, t, i)
  }

  /** The index of the first `c` in `s` (String.indexOf). */
  function IndexOf(s: string, c: char): (i: nat)
    requires c in s
    ensures i < |s| && s[i] == c && c !in s[..i]
  {
    if s[0] == c then 0 else
      assert c in s[1..] by { var k :| 0 <= k < |s| && s[k] == c; assert s[1..][k - 1] == c; }
      var j := IndexOf(s[1..], c);
      assert s[..j + 1] == [s[0]] + s[1..][..j];
      j + 1
  }

  /** Every piece between separators, empty ones included. */
  function Pieces(s: string, sep: char): (r: seq<string>)
    ensures |r| >= 1
    ensures forall k :: 0 <= k < |r| ==> sep !in r[k]
    decreases |s|
  {
    if sep !in s then [s] else
      var i := IndexOf(s, sep);
      [s[..i]] + Pieces(s[i + 1..], sep)
  }

  function Join(parts: seq<string>, sep: char): string
    requires |parts| >= 1
  {
    if |parts| == 1 then parts[0] else parts[0] + [sep] + Join(parts[1..], sep)
  }

  function DropTrailingEmpty(parts: seq<string>): (r: seq<string>)
    ensures |r| <= |parts| && r == parts[..|r|]
    ensures |r| > 0 ==> r[|r| - 1] != ""
    ensures forall k :: |r| <= k < |parts| ==> parts[k] == ""
  {
    if |parts| > 0 && parts[|parts| - 1] == "" then DropTrailingEmpty(parts[..|parts| - 1]) else parts
  }

  /**
   * String.split(String.valueOf(sep)) with limit 0: a string without the
   * separator is returned whole (even when empty); otherwise trailing
   * empty pieces are removed, so ":" splits into no piece at all.
   */
  function SplitAll(s: string, sep: char): seq<string> {
    if sep !in s then [s] else DropTrailingEmpty(Pieces(s, sep))
  }

  /** String.split(String.valueOf(sep), 2): at most two pieces, cut at the first separator. */
  function SplitFirst(s: string, sep: char): (r: seq<string>)
    ensures |r| == 1 <==> sep !in s
    ensures |r| == 1 || |r| == 2
    ensures |r| == 1 ==> r[0] == s
    ensures |r| == 2 ==> sep !in r[0] && r[0] + [sep] + r[1] == s
  {
    if sep !in s then [s] else
      var i := IndexOf(s, sep);
      assert s == s[..i] + [sep] + s[i + 1..];
      [s[..i], s[i + 1..]]
  }

  /** Gluing the pieces back with the separator gives the input. */
  lemma {:induction false} JoinPieces(s: string, sep: char)
    ensures Join(Pieces(s, sep), sep) == s
    decreases |s|
  {
    if sep in s {
      var i := IndexOf(s, sep);
      var rest := s[i + 1..];
      JoinPieces(rest, sep);
      var ps := Pieces(s, sep);
      assert ps == [s[..i]] + Pieces(rest, sep);
      assert |ps| >= 2 && ps[0] == s[..i] && ps[1..] == Pieces(rest, sep);
      assert Join(ps, sep) == s[..i] + [sep] + rest;
      assert s == s[..i] + [sep] + rest;
    }
  }

  /** A prefix without the separator and a value cut at the first separator. */
  lemma SplitFirstAt(prefix: string, value: string, sep: char)
    requires sep !in prefix
    ensures SplitFirst(prefix + [sep] + value, sep) == [prefix, value]
  {
    var s := prefix + [sep] + value;
    assert s[|prefix|] == sep;
    var i := IndexOf(s, sep);
    assert forall k :: 0 <= k < |prefix| ==> s[k] == prefix[k];
    assert i == |prefix|;
    assert s[..|prefix|] == prefix;
    assert s[|prefix| + 1..] == value;
  }

  /** `prefix:value` with no other separator and a non-empty value splits into exactly those two pieces. */
  lemma SplitAllPair(prefix: string, value: string, sep: char)
    requires sep !in prefix && sep !in value && value != ""
    ensures SplitAll(prefix + [sep] + value, sep) == [prefix, value]
  {
    var s := prefix + [sep] + value;
    assert s[|prefix|] == sep;
    var i := IndexOf(s, sep);
    assert forall k :: 0 <= k < |prefix| ==> s[k] == prefix[k];
    assert i == |prefix|;
    assert s[..|prefix|] == prefix;
    assert s[|prefix| + 1..] == value;
    assert Pieces(s, sep) == [prefix, value];
  }

  /** String.replace(target, ""): every non-overlapping occurrence, scanned from the left, is removed. */
  function RemoveAll(s: string, target: string): string
    requires |target| > 0
    decreases |s|
  {
    if |s| < |target| then s
    else if s[..|target|] == target then RemoveAll(s[|target|..], target)
    else [s[0]] + RemoveAll(s[1..], target)
  }

  /**
   * Removing ".yml" from `n + ".yml"` gives back `n` when `n` has no ".yml"
   * of its own: no occurrence can straddle the end of `n`, since '.' is
   * none of 'y', 'm', 'l'.
   */
  lemma {:induction false} RemoveYmlSuffix(n: string)
    requires !ContainsSub(n, ".yml")
    ensures RemoveAll(n + ".yml", ".yml") == n
    decreases |n|
  {
    var s := n + ".yml";
    if n == [] {
      assert s == ".yml";
      assert s[4..] == [];
    } else {
      YmlNotAtHead(n);
      YmlNotInTail(n);
      RemoveYmlSuffix(n[1..]);
      assert s[1..] == n[1..] + ".yml";
      assert RemoveAll(s, ".yml") == [s[0]] + RemoveAll(s[1..], ".yml");
      assert [s[0]] + n[1..] == n;
    }
  }

  /** `n + ".yml"` does not start with ".yml" when `n` is non-empty and holds no ".yml". */
  lemma YmlNotAtHead(n: string)
    requires n != [] && !ContainsSub(n, ".yml")
    ensures (n + ".yml")[..4] != ".yml"
  {
    var s := n + ".yml";
    if |n| >= 4 {
      assert !OccursAt(n, ".yml", 0);
      assert n[0..4] == s[..4];
    } else {
      assert s[|n|] == '.';
      assert ".yml"[|n|] != '.';
    }
  }

  /** A string without ".yml" has none in its tail either. */
  lemma YmlNotInTail(n: string)
    requires n != [] && !ContainsSub(n, ".yml")
    ensures !ContainsSub(n[1..], ".yml")
  {
    forall i | 0 <= i <= |n[1..]| - 4
      ensures !OccursAt(n[1..], ".yml", i)
    {
      assert !OccursAt(n, ".yml", i + 1);
      assert n[i + 1..i + 1 + 4] == n[1..][i..i + 4];
    }
  }

  /** A string without an occurrence of the target is left as it is. */
  lemma {:induction false} RemoveAllAbsent(s: string, t: string)
    requires |t| > 0 && !ContainsSub(s, t)
    ensures RemoveAll(s, t) == s
    decreases |s|
  {
    if |s| >= |t| {
      assert !OccursAt(s, t, 0);
      assert !ContainsSub(s[1..], t) by {
        if ContainsSub(s[1..], t) {
          var i :| 0 <= i <= |s[1..]| - |t| && OccursAt(s[1..], t, i);
          assert s[i + 1..i + 1 + |t|] == s[1..][i..i + |t|];
          assert OccursAt(s, t, i + 1);
        }
      }
      RemoveAllAbsent(s[1..], t);
      assert [s[0]] + s[1..] == s;
    }
  }

  /** Only one pass is made, so a name can still hold ".yml" afterwards. */
  lemma RemoveAllSinglePass()
    ensures RemoveAll("..ymlyml", ".yml") == ".yml"
  {
    assert "..ymlyml"[1..] == ".ymlyml";
    assert ".ymlyml"[..4] == ".yml";
    assert ".ymlyml"[4..] == "yml";
    assert RemoveAll("yml", ".yml") == "yml";
    assert "..ymlyml"[..4] != ".yml" by { assert "..ymlyml"[1] == '.'; }
  }

  function DigitChar(d: nat): char
    requires d < 10
  {
    ('0' as int + d) as char
  }

  function NatToString(n: nat): (r: string)
    ensures |r| > 0
  {
    if n < 10 then [DigitChar(n)] else NatToString(n / 10) + [DigitChar(n % 10)]
  }

  /** Integer.toString */
  function IntToString(i: int): (r: string)
    ensures |r| > 0
  {
    if i < 0 then "-" + NatToString(-i) else NatToString(i)
  }
}
