/** The server's host allowlist. What the text says of IP addresses is a parameter: whether it is one, and whether
    that address is global. Lower case is that of ASCII. */
module Allowlist {
  import opened Bytes
  import opened Text

  // ---- Normal form -----------------------------------------------------------------------------

  /** Outer white space off, then dots off the end, then lower case. */
  function Normalize(host: string): string {
    Lower(TrimRight(Dots, Trim(Python, host)))
  }

  predicate EndsWith(s: string, suffix: string) {
    |suffix| <= |s| && s[|s| - |suffix|..] == suffix
  }

  /** One entry, normalised, lets a normalised host through. */
  predicate Matches(host: string, entry: string) {
    entry != "" && (host == entry || EndsWith(host, "." + entry))
  }

  predicate IsAllowed(ip: string -> Option<bool>, host: string, allowedHosts: seq<string>) {
    var h := Normalize(host);
    h != "" &&
    match ip(h)
    case Some(global) => global
    case None => exists i :: 0 <= i < |allowedHosts| && Matches(h, Normalize(allowedHosts[i]))
  }

  /** `is_allowed_destination`. */
  method IsAllowedDestination(ip: string -> Option<bool>, host: string, allowedHosts: seq<string>)
    returns (allowed: bool)
    ensures allowed <==> IsAllowed(ip, host, allowedHosts)
  {
    var h := Normalize(host);
    if h == "" {
      return false;
    }
    var address := ip(h);
    if address.Some? {
      return address.value;
    }
    for i := 0 to |allowedHosts|
      invariant forall j :: 0 <= j < i ==> !Matches(h, Normalize(allowedHosts[j]))
    {
      var entry := Normalize(allowedHosts[i]);
      if entry == "" {
        continue;
      }
      if h == entry || EndsWith(h, "." + entry) {
        assert Matches(h, Normalize(allowedHosts[i]));
        return true;
      }
    }
    return false;
  }

  // ---- Labels ----------------------------------------------------------------------------------

  /** The parts of a name between its dots. */
  function Labels(name: string): (labels: seq<string>)
    ensures labels != []
    decreases |name|
  {
    var n := Find(name, '.');
    if n == |name| then [name] else [name[..n]] + Labels(name[n + 1..])
  }

  function Join(labels: seq<string>): string
    requires labels != []
  {
    if |labels| == 1 then labels[0] else labels[0] + "." + Join(labels[1..])
  }

  lemma {:induction false} JoinLabels(name: string)
    ensures Join(Labels(name)) == name
    decreases |name|
  {
    var n := Find(name, '.');
    if n < |name| {
      JoinLabels(name[n + 1..]);
      assert Labels(name)[1..] == Labels(name[n + 1..]);
      assert name == name[..n] + "." + name[n + 1..];
    }
  }

  lemma LabelsOfFirst(first: string, rest: string)
    requires '.' !in first
    ensures Labels(first + "." + rest) == [first] + Labels(rest)
  {
    var name := first + "." + rest;
    FindIs(first, '.', rest);
    assert name[..|first|] == first && name[|first| + 1..] == rest;
  }

  lemma {:induction false} JoinAppend(a: seq<string>, b: seq<string>)
    requires a != [] && b != []
    ensures Join(a + b) == Join(a) + "." + Join(b)
    decreases |a|
  {
    if |a| == 1 {
      assert (a + b)[1..] == b;
    } else {
      assert (a + b)[1..] == a[1..] + b;
      JoinAppend(a[1..], b);
    }
  }

  ghost predicate Dotless(labels: seq<string>) {
    forall i :: 0 <= i < |labels| ==> '.' !in labels[i]
  }

  lemma {:induction false} LabelsAreDotless(name: string)
    ensures Dotless(Labels(name))
    decreases |name|
  {
    var n := Find(name, '.');
    if n < |name| {
      LabelsAreDotless(name[n + 1..]);
    } else {
      assert name[..n] == name;
    }
  }

  lemma {:induction false} LabelsOfJoin(labels: seq<string>)
    requires labels != [] && Dotless(labels)
    ensures Labels(Join(labels)) == labels
  {
    if |labels| == 1 {
      assert labels == [labels[0]];
    } else {
      LabelsOfJoin(labels[1..]);
      LabelsOfFirst(labels[0], Join(labels[1..]));
    }
  }

  /** Putting a dot between two names puts their labels together. */
  lemma LabelsOfDotted(front: string, name: string)
    ensures Labels(front + "." + name) == Labels(front) + Labels(name)
  {
    JoinLabels(front);
    JoinLabels(name);
    LabelsAreDotless(front);
    LabelsAreDotless(name);
    JoinAppend(Labels(front), Labels(name));
    LabelsOfJoin(Labels(front) + Labels(name));
  }

  predicate LabelSuffix(labels: seq<string>, suffix: seq<string>) {
    |suffix| <= |labels| && labels[|labels| - |suffix|..] == suffix
  }

  lemma EndingIsSuffix(host: string, entry: string)
    requires EndsWith(host, "." + entry)
    ensures LabelSuffix(Labels(host), Labels(entry))
  {
    var front := host[..|host| - |entry| - 1];
    assert host == front + "." + entry;
    LabelsOfDotted(front, entry);
  }

  lemma SuffixIsEnding(host: string, entry: string)
    requires LabelSuffix(Labels(host), Labels(entry)) && host != entry
    ensures EndsWith(host, "." + entry)
  {
    JoinLabels(host);
    JoinLabels(entry);
    var labels, suffix := Labels(host), Labels(entry);
    var front := labels[..|labels| - |suffix|];
    assert labels == front + suffix;
    assert front != [];
    JoinAppend(front, suffix);
    EndsInOrder(Join(front), entry);
  }

  lemma EndsInOrder(front: string, entry: string)
    ensures EndsWith(front + "." + entry, "." + entry)
  {
  }

  /** The text test means what an allowlist should: the entry's labels end the host's labels. */
  lemma MatchIsLabelSuffix(host: string, entry: string)
    ensures host == entry || EndsWith(host, "." + entry) <==> LabelSuffix(Labels(host), Labels(entry))
  {
    if EndsWith(host, "." + entry) {
      EndingIsSuffix(host, entry);
    } else if LabelSuffix(Labels(host), Labels(entry)) && host != entry {
      SuffixIsEnding(host, entry);
    }
  }

  /** A host that is no IP address is let through exactly when the labels of some entry end its labels. */
  lemma AllowedMeansLabels(ip: string -> Option<bool>, host: string, allowedHosts: seq<string>)
    requires ip(Normalize(host)) == None
    ensures IsAllowed(ip, host, allowedHosts) <==>
      (&& Normalize(host) != ""
       && exists i :: 0 <= i < |allowedHosts| && Normalize(allowedHosts[i]) != ""
            && LabelSuffix(Labels(Normalize(host)), Labels(Normalize(allowedHosts[i]))))
  {
    var h := Normalize(host);
    forall i | 0 <= i < |allowedHosts|
      ensures Matches(h, Normalize(allowedHosts[i])) <==>
          Normalize(allowedHosts[i]) != "" && LabelSuffix(Labels(h), Labels(Normalize(allowedHosts[i])))
    {
      MatchIsLabelSuffix(h, Normalize(allowedHosts[i]));
    }
  }

  // ---- What the normal form hides --------------------------------------------------------------

  predicate AllStripped(b: Blanks, s: string) {
    forall i :: 0 <= i < |s| ==> Strips(b, s[i])
  }

  lemma {:induction false} TrimRightDrops(b: Blanks, s: string, tail: string)
    requires AllStripped(b, tail)
    ensures TrimRight(b, s + tail) == TrimRight(b, s)
    decreases |tail|
  {
    if tail == "" {
      assert s + tail == s;
    } else {
      assert (s + tail)[..|s + tail| - 1] == s + tail[..|tail| - 1];
      TrimRightDrops(b, s, tail[..|tail| - 1]);
    }
  }

  lemma {:induction false} TrimLeftDrops(b: Blanks, head: string, s: string)
    requires AllStripped(b, head)
    ensures TrimLeft(b, head + s) == TrimLeft(b, s)
    decreases |head|
  {
    if head == "" {
      assert head + s == s;
    } else {
      assert (head + s)[1..] == head[1..] + s;
      TrimLeftDrops(b, head[1..], s);
    }
  }

  lemma {:induction false} TrimLeftKeepsTail(b: Blanks, s: string, tail: string)
    ensures TrimLeft(b, s + tail) == if TrimLeft(b, s) != "" then TrimLeft(b, s) + tail else TrimLeft(b, tail)
    decreases |s|
  {
    if s == "" {
      assert s + tail == tail;
    } else if Strips(b, s[0]) {
      assert (s + tail)[1..] == s[1..] + tail;
      TrimLeftKeepsTail(b, s[1..], tail);
    }
  }

  /** White space around a host changes nothing. */
  lemma OuterSpace(before: string, host: string, after: string)
    requires AllStripped(Python, before) && AllStripped(Python, after)
    ensures Normalize(before + host + after) == Normalize(host)
  {
    assert before + host + after == before + (host + after);
    TrimLeftDrops(Python, before, host + after);
    TrimLeftKeepsTail(Python, host, after);
    if TrimLeft(Python, host) != "" {
      TrimRightDrops(Python, TrimLeft(Python, host), after);
    } else {
      TrimLeftDrops(Python, after, "");
      assert after + "" == after;
    }
  }

  /** A host none of which is white space or whose last character is not: what a trailing dot leaves alone. */
  predicate DotIsHarmless(host: string) {
    host == "" || !Strips(Python, host[|host| - 1]) || Trim(Python, host) == ""
  }

  /** What a dot behind a host becomes part of: the host, freed of white space on the left only. */
  lemma NormalizeDotted(host: string)
    ensures Normalize(host + ".") == Lower(TrimRight(Dots, TrimLeft(Python, host)))
  {
    var left := TrimLeft(Python, host);
    TrimLeftKeepsTail(Python, host, ".");
    assert !Strips(Python, '.');
    assert TrimLeft(Python, host + ".") == left + ".";
    assert (left + ".")[|left + "."| - 1] == '.';
    assert Trim(Python, host + ".") == left + ".";
    assert AllStripped(Dots, ".");
    TrimRightDrops(Dots, left, ".");
  }

  lemma LastKept(host: string)
    requires TrimLeft(Python, host) != ""
    ensures host != "" && TrimLeft(Python, host)[|TrimLeft(Python, host)| - 1] == host[|host| - 1]
  {
  }

  lemma BlankHost(host: string)
    ensures Trim(Python, host) == "" <==> TrimLeft(Python, host) == ""
  {
    TrimFixes(Python, host);
    var left := TrimLeft(Python, host);
    if left != "" {
      TrimRightBehind(Python, [left[0]], left[1..]);
      assert left == [left[0]] + left[1..];
    }
  }

  /** A dot behind a host changes nothing, except behind white space that ends a name: that space is then
      inside, and stays. */
  lemma TrailingDot(host: string)
    ensures Normalize(host + ".") == Normalize(host) <==> DotIsHarmless(host)
    ensures !DotIsHarmless(host) ==>
        Normalize(host + ".") != "" && Strips(Python, Normalize(host + ".")[|Normalize(host + ".")| - 1])
  {
    var left := TrimLeft(Python, host);
    NormalizeDotted(host);
    BlankHost(host);
    if left != "" {
      LastKept(host);
      var last := left[|left| - 1];
      if Strips(Python, last) {
        assert last != '.' && TrimRight(Dots, left) == left;
        assert Strips(Python, LowerChar(last));
        assert |Normalize(host)| <= |TrimRight(Python, left)| <= |left| - 1;
      }
    }
  }

  lemma CaseOfStrips(b: Blanks, c: char)
    ensures Strips(b, LowerChar(c)) <==> Strips(b, c)
  {
  }

  lemma {:induction false} CaseOfTrimLeft(b: Blanks, s: string)
    ensures Lower(TrimLeft(b, s)) == TrimLeft(b, Lower(s))
    decreases |s|
  {
    if s != "" {
      CaseOfStrips(b, s[0]);
      assert Lower(s)[1..] == Lower(s[1..]);
      if Strips(b, s[0]) {
        CaseOfTrimLeft(b, s[1..]);
      }
    }
  }

  lemma {:induction false} CaseOfTrimRight(b: Blanks, s: string)
    ensures Lower(TrimRight(b, s)) == TrimRight(b, Lower(s))
    decreases |s|
  {
    if s != "" {
      var n := |s| - 1;
      CaseOfStrips(b, s[n]);
      assert Lower(s)[..n] == Lower(s[..n]);
      if Strips(b, s[n]) {
        CaseOfTrimRight(b, s[..n]);
      }
    }
  }

  /** Letter case changes nothing. */
  lemma LetterCase(host: string, other: string)
    requires Lower(host) == Lower(other)
    ensures Normalize(host) == Normalize(other)
  {
    CaseOfTrimLeft(Python, host);
    CaseOfTrimLeft(Python, other);
    CaseOfTrimRight(Python, TrimLeft(Python, host));
    CaseOfTrimRight(Python, TrimLeft(Python, other));
    CaseOfTrimRight(Dots, Trim(Python, host));
    CaseOfTrimRight(Dots, Trim(Python, other));
  }

  /** The answer is the same for every spelling of the host: any letter case, any white space around it, and a
      dot behind it where that is harmless. */
  lemma SameAnswer(ip: string -> Option<bool>, host: string, other: string, before: string, after: string,
      allowedHosts: seq<string>)
    requires Lower(host) == Lower(other) && AllStripped(Python, before) && AllStripped(Python, after)
    ensures IsAllowed(ip, before + other + after, allowedHosts) <==> IsAllowed(ip, host, allowedHosts)
    ensures DotIsHarmless(host) ==>
        (IsAllowed(ip, host + ".", allowedHosts) <==> IsAllowed(ip, host, allowedHosts))
  {
    LetterCase(host, other);
    OuterSpace(before, other, after);
    TrailingDot(host);
  }

  lemma SpaceMatchesNone(host: string, allowedHosts: seq<string>)
    requires host != "" && Strips(Python, host[|host| - 1])
    requires forall i :: 0 <= i < |allowedHosts| ==> Trimmed(Python, Normalize(allowedHosts[i]))
    ensures forall i :: 0 <= i < |allowedHosts| ==> !Matches(host, Normalize(allowedHosts[i]))
  {
  }

  /** Where it is not harmless, a dot shuts the host out, whatever entries there are that do not end in white
      space themselves. */
  lemma DotBehindSpace(ip: string -> Option<bool>, host: string, allowedHosts: seq<string>)
    requires !DotIsHarmless(host) && ip(Normalize(host + ".")) == None
    requires forall i :: 0 <= i < |allowedHosts| ==> Trimmed(Python, Normalize(allowedHosts[i]))
    ensures !IsAllowed(ip, host + ".", allowedHosts)
  {
    TrailingDot(host);
    SpaceMatchesNone(Normalize(host + "."), allowedHosts);
  }
}
