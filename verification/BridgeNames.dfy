/** The comma-separated bridge option: strings.Split and strings.TrimSpace. */
module BridgeNames {

  function Join(parts: seq<string>): string
    requires parts != []
  {
    if |parts| == 1 then parts[0] else parts[0] + "," + Join(parts[1..])
  }

  predicate NoCommas(parts: seq<string>) {
    forall p :: p in parts ==> ',' !in p
  }

  // strings.Split(s, ",")
  function Split(s: string): (parts: seq<string>)
    ensures parts != [] && NoCommas(parts) && Join(parts) == s
  {
    SplitFrom(s, 0)
  }

  // The parts of s when s[..i] is known to hold no comma.
  function SplitFrom(s: string, i: nat): (parts: seq<string>)
    requires i <= |s| && ',' !in s[..i]
    ensures parts != [] && NoCommas(parts) && Join(parts) == s
    decreases |s|, |s| - i
  {
    if i == |s| then
      assert s[..i] == s;
      [s]
    else if s[i] == ',' then
      var rest := SplitFrom(s[i + 1..], 0);
      assert s == s[..i] + "," + s[i + 1..];
      assert ([s[..i]] + rest)[1..] == rest;
      [s[..i]] + rest
    else
      assert s[..i + 1] == s[..i] + [s[i]];
      SplitFrom(s, i + 1)
  }

  // Where the first part ends is where the first comma is.
  lemma FirstPart(parts: seq<string>)
    requires parts != [] && NoCommas(parts)
    ensures var s, n := Join(parts), |parts[0]|;
            && n <= |s| && s[..n] == parts[0]
            && (forall k :: 0 <= k < n ==> s[k] != ',')
            && (|parts| == 1 ==> |s| == n)
            && (|parts| > 1 ==> n < |s| && s[n] == ',' && s[n + 1..] == Join(parts[1..]))
  {
    var s, n := Join(parts), |parts[0]|;
    assert parts[0] in parts;
    assert s[..n] == parts[0];
    forall k | 0 <= k < n ensures s[k] != ',' {
      assert s[k] == parts[0][k] && parts[0][k] in parts[0];
    }
  }

  // Two comma-free lists that join to the same text are the same list.
  lemma {:induction false} SplitIsTheOnlyWay(a: seq<string>, b: seq<string>)
    requires a != [] && b != [] && NoCommas(a) && NoCommas(b) && Join(a) == Join(b)
    ensures a == b
    decreases |a|
  {
    FirstPart(a);
    FirstPart(b);
    assert |a[0]| == |b[0]|;
    if |a| == 1 {
    } else {
      SplitIsTheOnlyWay(a[1..], b[1..]);
      assert a == [a[0]] + a[1..] && b == [b[0]] + b[1..];
    }
  }

  // White space as strings.TrimSpace sees it.
  predicate IsSpace(c: char) {
    || '\t' <= c <= '\r' || c == ' '
    || c == '\U{85}' || c == '\U{A0}' || c == '\U{1680}' || '\U{2000}' <= c <= '\U{200A}'
    || c == '\U{2028}' || c == '\U{2029}' || c == '\U{202F}' || c == '\U{205F}' || c == '\U{3000}'
  }

  predicate Blank(s: string) {
    forall c :: c in s ==> IsSpace(c)
  }

  // strings.TrimSpace
  function TrimSpace(s: string): string {
    if s == "" then s
    else if IsSpace(s[0]) then TrimSpace(s[1..])
    else if IsSpace(s[|s| - 1]) then TrimSpace(s[..|s| - 1])
    else s
  }

  // s[i..j] is s without the white space around it.
  predicate IsCore(s: string, i: nat, j: nat) {
    i <= j <= |s| && Blank(s[..i]) && Blank(s[j..]) && (i < j ==> !IsSpace(s[i]) && !IsSpace(s[j - 1]))
  }

  lemma CoreAfterFront(s: string, i: nat, j: nat)
    requires s != "" && IsSpace(s[0]) && IsCore(s[1..], i, j)
    ensures IsCore(s, i + 1, j + 1) && s[i + 1..j + 1] == s[1..][i..j]
  {
    assert s[..i + 1] == [s[0]] + s[1..][..i];
    assert s[j + 1..] == s[1..][j..];
  }

  lemma CoreBeforeBack(s: string, i: nat, j: nat)
    requires s != "" && IsSpace(s[|s| - 1]) && IsCore(s[..|s| - 1], i, j)
    ensures IsCore(s, i, j) && s[i..j] == s[..|s| - 1][i..j]
  {
    assert s[j..] == s[..|s| - 1][j..] + [s[|s| - 1]];
    assert s[..i] == s[..|s| - 1][..i];
  }

  // What is cut off is white space, and nothing is left to cut off.
  lemma {:induction false} TrimSpaceIsExact(s: string) returns (i: nat, j: nat)
    ensures IsCore(s, i, j) && TrimSpace(s) == s[i..j]
  {
    if s == "" || (!IsSpace(s[0]) && !IsSpace(s[|s| - 1])) {
      i, j := 0, |s|;
    } else if IsSpace(s[0]) {
      i, j := TrimSpaceIsExact(s[1..]);
      CoreAfterFront(s, i, j);
      i, j := i + 1, j + 1;
    } else {
      i, j := TrimSpaceIsExact(s[..|s| - 1]);
      CoreBeforeBack(s, i, j);
    }
  }

  lemma TrimsToNothingIffBlank(s: string)
    ensures TrimSpace(s) == "" <==> Blank(s)
  {
    var i, j := TrimSpaceIsExact(s);
    if i == j {
      assert s == s[..i] + s[j..];
    } else {
      assert s[i] in s;
    }
  }

  // Blanks, tabs and line ends are white space, and no printable ASCII character is.
  lemma AsciiSpaces(c: char)
    requires c <= '~'
    ensures IsSpace(c) <==> c == ' ' || c == '\t' || c == '\n' || c == '\r' || c == '\U{0B}' || c == '\U{0C}'
  {
    assert '\t' as int == 9 && '\n' as int == 10 && '\r' as int == 13;
  }

  // A text that neither starts nor ends with white space, and some around it.
  lemma {:induction false} TrimsBothEnds(front: string, s: string, back: string)
    requires Blank(front) && Blank(back) && s != "" && !IsSpace(s[0]) && !IsSpace(s[|s| - 1])
    ensures TrimSpace(front + s + back) == s
    decreases |front| + |back|
  {
    var t := front + s + back;
    if front != "" {
      assert t[0] == front[0] && front[0] in front && t[1..] == front[1..] + s + back;
      TrimsBothEnds(front[1..], s, back);
    } else if back != "" {
      var rest := back[..|back| - 1];
      assert t[0] == s[0] && t[|t| - 1] == back[|back| - 1] && back[|back| - 1] in back;
      assert t[..|t| - 1] == front + s + rest;
      TrimsBothEnds(front, s, rest);
    } else {
      assert t == s;
    }
  }
}
