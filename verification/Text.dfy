/** Text as the programs take it apart: stripping, lower case, searching. */
module Text {

  /** What is stripped, and by whom: the installer's reader, the hook's reader (`isspace`), Python's `strip`, and
      the dots at the end of a host name. */
  datatype Blanks = Shared | Hook | Python | Dots

  predicate Strips(b: Blanks, c: char) {
    match b
    case Shared => c == ' ' || c == '\t' || c == '\r' || c == '\n'
    case Hook => c == ' ' || 9 as char <= c <= 13 as char
    case Python =>
      || c == ' ' || 9 as char <= c <= 13 as char || 0x1C as char <= c <= 0x1F as char
      || c == 0x85 as char || c == 0xA0 as char || c == 0x1680 as char || 0x2000 as char <= c <= 0x200A as char
      || c == 0x2028 as char || c == 0x2029 as char || c == 0x202F as char || c == 0x205F as char
      || c == 0x3000 as char
    case Dots => c == '.'
  }

  // ---- Trimming --------------------------------------------------------------------------------

  function TrimLeft(b: Blanks, s: string): (r: string)
    ensures r != "" ==> !Strips(b, r[0])
  {
    if s == "" || !Strips(b, s[0]) then s else TrimLeft(b, s[1..])
  }

  function TrimRight(b: Blanks, s: string): (r: string)
    ensures r != "" ==> !Strips(b, r[|r| - 1])
    ensures r <= s
    decreases |s|
  {
    if s == "" || !Strips(b, s[|s| - 1]) then s else TrimRight(b, s[..|s| - 1])
  }

  function Trim(b: Blanks, s: string): string {
    TrimRight(b, TrimLeft(b, s))
  }

  /** No white space at either end. */
  predicate Trimmed(b: Blanks, s: string) {
    s == "" || (!Strips(b, s[0]) && !Strips(b, s[|s| - 1]))
  }

  lemma TrimFixes(b: Blanks, s: string)
    ensures Trimmed(b, Trim(b, s))
    ensures Trim(b, s) == s <==> Trimmed(b, s)
  {
  }

  lemma TrimTwice(b: Blanks, s: string)
    ensures Trim(b, Trim(b, s)) == Trim(b, s)
  {
  }

  lemma {:induction false} TrimKeepsOut(b: Blanks, s: string, c: char)
    requires c !in s
    ensures c !in Trim(b, s)
    decreases |s|
  {
    if s != "" && Strips(b, s[0]) {
      TrimKeepsOut(b, s[1..], c);
    } else {
      assert forall i :: 0 <= i < |TrimRight(b, s)| ==> TrimRight(b, s)[i] == s[i];
    }
  }

  /** Behind a character that is no space, only the right end is stripped. */
  lemma {:induction false} TrimRightBehind(b: Blanks, head: string, s: string)
    requires head != "" && !Strips(b, head[|head| - 1])
    ensures TrimRight(b, head + s) == head + TrimRight(b, s)
    decreases |s|
  {
    if s == "" {
      assert head + s == head;
    } else if Strips(b, s[|s| - 1]) {
      assert (head + s)[..|head + s| - 1] == head + s[..|s| - 1];
      TrimRightBehind(b, head, s[..|s| - 1]);
    }
  }

  /** Stripping the right end first changes nothing. */
  lemma {:induction false} TrimAfterRight(b: Blanks, s: string)
    ensures Trim(b, TrimRight(b, s)) == Trim(b, s)
    decreases |s|
  {
    if s != "" {
      if Strips(b, s[0]) {
        TrimAfterRight(b, s[1..]);
        RightOfSpace(b, s);
      } else {
        var r := TrimRight(b, s);
        TrimRightBehind(b, [s[0]], s[1..]);
        assert s == [s[0]] + s[1..];
        assert r[0] == s[0];
        TrimFixes(b, r);
      }
    }
  }

  lemma {:induction false} RightOfSpace(b: Blanks, s: string)
    requires s != "" && Strips(b, s[0])
    ensures TrimLeft(b, TrimRight(b, s)) == TrimLeft(b, TrimRight(b, s[1..]))
    decreases |s|
  {
    if Strips(b, s[|s| - 1]) {
      if |s| > 1 {
        assert s[..|s| - 1][1..] == s[1..][..|s| - 2];
        RightOfSpace(b, s[..|s| - 1]);
      }
    } else {
      assert s[1..][|s| - 2] == s[|s| - 1];
    }
  }

  // ---- Lower case and search ---------------------------------------------------------------

  function LowerChar(c: char): char {
    if 'A' <= c <= 'Z' then (c as int - 'A' as int + 'a' as int) as char else c
  }

  function Lower(s: string): (r: string)
    ensures |r| == |s| && forall i :: 0 <= i < |s| ==> r[i] == LowerChar(s[i])
  {
    seq(|s|, i requires 0 <= i < |s| => LowerChar(s[i]))
  }

  /** The first index of a character, or the length. */
  function Find(s: string, c: char): (n: nat)
    ensures n <= |s| && c !in s[..n] && (n < |s| ==> s[n] == c)
    decreases |s|
  {
    if s == "" || s[0] == c then 0
    else
      var n := 1 + Find(s[1..], c);
      assert s[..n] == [s[0]] + s[1..][..n - 1];
      n
  }

  lemma FindIs(head: string, c: char, tail: string)
    requires c !in head
    ensures Find(head + [c] + tail, c) == |head|
  {
    var s := head + [c] + tail;
    var n := Find(s, c);
    assert s[|head|] == c && forall i :: 0 <= i < |head| ==> s[i] == head[i];
    assert forall i :: 0 <= i < n ==> s[i] == s[..n][i];
  }
}
