/** String helpers the instruction model is built on: the lowercasing applied to
    mnemonics and syntax names, Rust's `[&str]::join`, and the left-aligned padding
    of `format!("{:<w}", ..)`. Strings are sequences of characters; only ASCII letters
    are case-mapped. */
module Text {

  /** An ASCII capital letter. */
  predicate IsUpper(c: char) {
    'A' <= c <= 'Z'
  }

  /** A string with no ASCII capital letter in it. */
  predicate IsLower(s: string) {
    forall i :: 0 <= i < |s| ==> !IsUpper(s[i])
  }

  function LowerChar(c: char): (r: char)
    ensures !IsUpper(r)
    ensures !IsUpper(c) ==> r == c
    ensures IsUpper(c) ==> r as int == c as int + 32
  {
    if IsUpper(c) then (c as int + 32) as char else c
  }

  /** `to_lowercase`, restricted to ASCII: every capital letter is replaced by its
      small letter and every other character is kept. */
  function Lower(s: string): (r: string)
    ensures |r| == |s|
    ensures IsLower(r)
    ensures forall i :: 0 <= i < |s| && !IsUpper(s[i]) ==> r[i] == s[i]
    ensures forall i :: 0 <= i < |s| && IsUpper(s[i]) ==> r[i] as int == s[i] as int + 32
  {
    seq(|s|, i requires 0 <= i < |s| => LowerChar(s[i]))
  }

  /** Lowercasing changes exactly the strings that contain a capital letter. */
  lemma LowerFixesLower(s: string)
    ensures Lower(s) == s <==> IsLower(s)
  {
    if IsLower(s) {
      assert forall i :: 0 <= i < |s| ==> Lower(s)[i] == s[i];
    }
  }

  /** Lowercasing twice is lowercasing once. */
  lemma LowerIdempotent(s: string)
    ensures Lower(Lower(s)) == Lower(s)
  {
    LowerFixesLower(Lower(s));
  }

  /** `parts.join(sep)`: the parts in order, with `sep` between neighbours. */
  function Join(sep: string, parts: seq<string>): (r: string)
    ensures |parts| == 0 ==> r == ""
    ensures |parts| > 0 ==> |r| == TotalLength(parts) + |sep| * (|parts| - 1)
    ensures |parts| > 0 ==> r[..|parts[0]|] == parts[0]
  {
    if |parts| == 0 then ""
    else if |parts| == 1 then parts[0]
    else parts[0] + sep + Join(sep, parts[1..])
  }

  /** The summed length of all parts. */
  function TotalLength(parts: seq<string>): nat {
    if |parts| == 0 then 0 else |parts[0]| + TotalLength(parts[1..])
  }

  /** Joining two non-empty runs of parts is joining each run and putting one more
      separator between them. */
  lemma {:induction false} JoinAppend(sep: string, a: seq<string>, b: seq<string>)
    requires |a| > 0 && |b| > 0
    ensures Join(sep, a + b) == Join(sep, a) + sep + Join(sep, b)
  {
    if |a| == 1 {
      assert (a + b)[1..] == b;
    } else {
      assert (a + b)[1..] == a[1..] + b;
      JoinAppend(sep, a[1..], b);
    }
  }

  /** Every part preceded by `sep`, concatenated. */
  function PrefixEach(sep: string, parts: seq<string>): string {
    if |parts| == 0 then "" else sep + parts[0] + PrefixEach(sep, parts[1..])
  }

  /** Every part followed by `sep`, concatenated. */
  function TerminateEach(sep: string, parts: seq<string>): string {
    if |parts| == 0 then "" else parts[0] + sep + TerminateEach(sep, parts[1..])
  }

  /** Joining two parts puts the separator between them. */
  lemma JoinTwo(sep: string, a: string, b: string)
    ensures Join(sep, [a, b]) == a + sep + b
  {
    assert [a, b][1..] == [b];
  }

  /** A separator put in front of a join puts one in front of every part. */
  lemma {:induction false} JoinAsPrefixed(sep: string, parts: seq<string>)
    requires |parts| > 0
    ensures sep + Join(sep, parts) == PrefixEach(sep, parts)
  {
    if |parts| > 1 {
      JoinAsPrefixed(sep, parts[1..]);
    }
  }

  /** A separator put after a join puts one after every part. */
  lemma {:induction false} JoinAsTerminated(sep: string, parts: seq<string>)
    requires |parts| > 0
    ensures Join(sep, parts) + sep == TerminateEach(sep, parts)
  {
    if |parts| > 1 {
      JoinAsTerminated(sep, parts[1..]);
    }
  }

  /** Joining a non-empty run of parts followed by more parts is joining the run,
      then every further part preceded by the separator. */
  lemma JoinThenPrefixEach(sep: string, a: seq<string>, b: seq<string>)
    requires |a| > 0
    ensures Join(sep, a + b) == Join(sep, a) + PrefixEach(sep, b)
  {
    if |b| > 0 {
      JoinAppend(sep, a, b);
      JoinAsPrefixed(sep, b);
      ConcatAssoc(Join(sep, a), sep, Join(sep, b));
    } else {
      assert a + b == a;
      assert PrefixEach(sep, b) == "";
      assert Join(sep, a) + "" == Join(sep, a);
    }
  }

  /** Concatenation regroups freely. */
  lemma ConcatAssoc(x: string, y: string, z: string)
    ensures x + y + z == x + (y + z)
  {
  }

  /** Prefixing distributes over concatenation of the parts: order is kept. */
  lemma {:induction false} PrefixEachAppend(sep: string, a: seq<string>, b: seq<string>)
    ensures PrefixEach(sep, a + b) == PrefixEach(sep, a) + PrefixEach(sep, b)
  {
    if |a| > 0 {
      assert (a + b)[1..] == a[1..] + b;
      PrefixEachAppend(sep, a[1..], b);
    } else {
      assert a + b == b;
    }
  }

  /** A string of `n` spaces. */
  function Spaces(n: nat): (r: string)
    ensures |r| == n
    ensures forall i :: 0 <= i < n ==> r[i] == ' '
  {
    seq(n, _ => ' ')
  }

  /** `format!("{:<width}", s)`: `s` left-aligned in a field of at least `width`
      characters, filled with spaces on the right and never truncated. */
  function PadRight(s: string, width: nat): (r: string)
    ensures |r| == if |s| >= width then |s| else width
    ensures r[..|s|] == s
    ensures forall i :: |s| <= i < |r| ==> r[i] == ' '
  {
    if |s| >= width then s else s + Spaces(width - |s|)
  }
}
