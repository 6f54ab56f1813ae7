/** The few string functions of the standard library that the services and the money parser lean on. */
module Text {

  /** The characters that `unicode.IsSpace` accepts. */
  predicate IsSpace(c: char) {
    || '\t' <= c <= '\r' || c == ' ' || c == '\U{85}' || c == '\U{A0}' || c == '\U{1680}'
    || '\U{2000}' <= c <= '\U{200A}' || c == '\U{2028}' || c == '\U{2029}' || c == '\U{202F}'
    || c == '\U{205F}' || c == '\U{3000}'
  }

  /** Octets of a character in UTF-8 (section 3 of RFC 3629). */
  function Utf8Width(c: char): nat {
    if c < '\U{80}' then 1 else if c < '\U{800}' then 2 else if c < '\U{10000}' then 3 else 4
  }

  /** How many code points fit into so many octets: 7 bits in one, and 5 for each octet and one more in several. */
  function Room(octets: nat): nat {
    if octets == 0 then 0 else if octets == 1 then 128 else if octets == 2 then 2048 else 32 * Room(octets - 1)
  }

  /** The shortest encoding that holds the code point. */
  lemma WidthIsLeast(c: char)
    ensures 1 <= Utf8Width(c) && Room(Utf8Width(c) - 1) <= c as int < Room(Utf8Width(c))
  {
    assert Room(3) == 32 * Room(2) && Room(4) == 32 * Room(3);
  }

  /** `len` of the text as a Go string. */
  function Utf8Length(s: string): nat {
    if s == "" then 0 else Utf8Width(s[0]) + Utf8Length(s[1..])
  }

  /** As many octets as characters at least, and exactly as many if and only if all of them are ASCII. */
  lemma {:induction false} Utf8LengthOf(s: string)
    ensures |s| <= Utf8Length(s)
    ensures Utf8Length(s) == |s| <==> forall i :: 0 <= i < |s| ==> s[i] < '\U{80}'
  {
    if s != "" {
      Utf8LengthOf(s[1..]);
      assert forall i :: 1 <= i < |s| ==> s[i] == s[1..][i - 1];
    }
  }

  function TrimLeft(s: string): string {
    if s != "" && IsSpace(s[0]) then TrimLeft(s[1..]) else s
  }

  function TrimRight(s: string): string {
    if s != "" && IsSpace(s[|s| - 1]) then TrimRight(s[..|s| - 1]) else s
  }

  /** `strings.TrimSpace`. */
  function TrimSpace(s: string): string {
    TrimRight(TrimLeft(s))
  }

  ghost predicate Bare(s: string) {
    s == "" || (!IsSpace(s[0]) && !IsSpace(s[|s| - 1]))
  }

  lemma {:induction false} TrimRightBare(s: string)
    requires s == "" || !IsSpace(s[0])
    ensures Bare(TrimRight(s))
    decreases |s|
  {
    if s != "" && IsSpace(s[|s| - 1]) {
      TrimRightBare(s[..|s| - 1]);
    }
  }

  lemma {:induction false} TrimLeftBare(s: string)
    ensures TrimLeft(s) == "" || !IsSpace(TrimLeft(s)[0])
    decreases |s|
  {
    if s != "" && IsSpace(s[0]) {
      TrimLeftBare(s[1..]);
    }
  }

  /** A trimmed string is bare, and only bare strings are left as they are. */
  lemma TrimSpaceBare(s: string)
    ensures Bare(TrimSpace(s))
    ensures TrimSpace(s) == s <==> Bare(s)
  {
    TrimLeftBare(s);
    TrimRightBare(TrimLeft(s));
  }

  // ---- what is cut off

  ghost predicate Blank(s: string) {
    forall i :: 0 <= i < |s| ==> IsSpace(s[i])
  }

  lemma {:induction false} TrimLeftCuts(left: string, s: string)
    requires Blank(left) && (s == "" || !IsSpace(s[0]))
    ensures TrimLeft(left + s) == s
    decreases |left|
  {
    if left == "" {
      assert left + s == s;
    } else {
      assert (left + s)[1..] == left[1..] + s;
      TrimLeftCuts(left[1..], s);
    }
  }

  lemma {:induction false} TrimRightCuts(s: string, right: string)
    requires Blank(right) && (s == "" || !IsSpace(s[|s| - 1]))
    ensures TrimRight(s + right) == s
    decreases |right|
  {
    if right == "" {
      assert s + right == s;
    } else {
      assert (s + right)[..|s + right| - 1] == s + right[..|right| - 1];
      TrimRightCuts(s, right[..|right| - 1]);
    }
  }

  lemma {:induction false} TrimLeftLeaves(s: string) returns (left: string)
    ensures Blank(left) && s == left + TrimLeft(s)
    decreases |s|
  {
    left := "";
    if s != "" && IsSpace(s[0]) {
      left := TrimLeftLeaves(s[1..]);
      left := [s[0]] + left;
    }
  }

  lemma {:induction false} TrimRightLeaves(s: string) returns (right: string)
    ensures Blank(right) && s == TrimRight(s) + right
    decreases |s|
  {
    right := "";
    if s != "" && IsSpace(s[|s| - 1]) {
      right := TrimRightLeaves(s[..|s| - 1]);
      right := right + [s[|s| - 1]];
    }
  }

  /** Blank before and after a bare text is cut off, and nothing else. */
  lemma TrimSpaceCuts(left: string, t: string, right: string)
    requires Blank(left) && Blank(right) && Bare(t)
    ensures TrimSpace(left + t + right) == t
  {
    if t == "" {
      assert left + t + right == (left + right) + "";
      TrimLeftCuts(left + right, "");
    } else {
      assert left + t + right == left + (t + right);
      TrimLeftCuts(left, t + right);
      TrimRightCuts(t, right);
    }
  }

  /** What is left of a text is the bare text that it is, up to blank around it. */
  lemma TrimSpaceIff(s: string, t: string)
    ensures TrimSpace(s) == t <==> Bare(t) && exists left, right :: Blank(left) && Blank(right) && s == left + t + right
  {
    if TrimSpace(s) == t {
      TrimSpaceBare(s);
      var left := TrimLeftLeaves(s);
      var right := TrimRightLeaves(TrimLeft(s));
      assert s == left + (t + right) == left + t + right;
    }
    if Bare(t) && exists left, right :: Blank(left) && Blank(right) && s == left + t + right {
      var left, right :| Blank(left) && Blank(right) && s == left + t + right;
      TrimSpaceCuts(left, t, right);
    }
  }
}
