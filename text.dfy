/** JavaScript string behaviour the core relies on: `String.prototype.trim` and truthiness. */
module Text {
  import opened Wrappers

  /** The code points that `trim` strips: ECMAScript WhiteSpace and LineTerminator. */
  predicate IsWhite(c: char) {
    || c == '\t' || c == '\n' || c == '\U{B}' || c == '\U{C}' || c == '\r' || c == ' '
    || c == '\U{A0}' || c == '\U{1680}' || ('\U{2000}' <= c <= '\U{200A}')
    || c == '\U{2028}' || c == '\U{2029}' || c == '\U{202F}' || c == '\U{205F}'
    || c == '\U{3000}' || c == '\U{FEFF}'
  }

  predicate AllWhite(s: string) {
    forall k :: 0 <= k < |s| ==> IsWhite(s[k])
  }

  /** `s` with its leading white space removed. */
  function TrimStart(s: string): (r: string)
    ensures |r| <= |s|
  {
    if |s| > 0 && IsWhite(s[0]) then TrimStart(s[1..]) else s
  }

  /** `s` with its trailing white space removed. */
  function TrimEnd(s: string): (r: string)
    ensures |r| <= |s|
  {
    if |s| > 0 && IsWhite(s[|s| - 1]) then TrimEnd(s[..|s| - 1]) else s
  }

  /** JavaScript's `s.trim()`. */
  function Trim(s: string): string {
    TrimEnd(TrimStart(s))
  }

  /** A string is blank when its trimmed form is empty (`!s.trim()` in the create-poll form and the add-option guard). */
  predicate IsBlank(s: string) {
    Trim(s) == ""
  }

  /** JavaScript truthiness of a `string | null` value: present and not empty. */
  predicate Truthy(o: Option<string>) {
    o.Some? && o.value != ""
  }

  /** `TrimStart` leaves a suffix of `s`, cuts only white space, and stops at a non-white character. */
  lemma {:induction false} TrimStartShape(s: string)
    ensures TrimStart(s) == s[|s| - |TrimStart(s)|..]
    ensures AllWhite(s[..|s| - |TrimStart(s)|])
    ensures TrimStart(s) != [] ==> !IsWhite(TrimStart(s)[0])
  {
    if |s| > 0 && IsWhite(s[0]) {
      TrimStartShape(s[1..]);
      var n := |s| - |TrimStart(s)|;
      assert s[..n] == [s[0]] + s[1..][..n - 1];
    }
  }

  /** `TrimEnd` leaves a prefix of `s`, cuts only white space, and stops at a non-white character. */
  lemma {:induction false} TrimEndShape(s: string)
    ensures TrimEnd(s) == s[..|TrimEnd(s)|]
    ensures AllWhite(s[|TrimEnd(s)|..])
    ensures TrimEnd(s) != [] ==> !IsWhite(TrimEnd(s)[|TrimEnd(s)| - 1])
  {
    if |s| > 0 && IsWhite(s[|s| - 1]) {
      var init := s[..|s| - 1];
      TrimEndShape(init);
      var n := |TrimEnd(s)|;
      assert s[n..] == init[n..] + [s[|s| - 1]];
    }
  }

  /** The trimmed string is the infix of `s` left after cutting white space off both ends,
      and it neither starts nor ends with white space. */
  lemma TrimIsInfix(s: string)
    ensures exists i :: 0 <= i <= |s| - |Trim(s)|
              && Trim(s) == s[i..i + |Trim(s)|]
              && AllWhite(s[..i]) && AllWhite(s[i + |Trim(s)|..])
    ensures Trim(s) != [] ==> !IsWhite(Trim(s)[0]) && !IsWhite(Trim(s)[|Trim(s)| - 1])
  {
    var t := TrimStart(s);
    TrimStartShape(s);
    TrimEndShape(t);
    var i := |s| - |t|;
    var r := TrimEnd(t);
    assert r == t[..|r|];
    assert t[..|r|] == s[i..i + |r|];
    assert t[|r|..] == s[i + |r|..];
    assert AllWhite(s[..i]);
    assert AllWhite(s[i + |r|..]);
    assert r != [] ==> r[0] == t[0];
  }

  /** Blank strings are exactly the all-white ones. */
  lemma BlankIffAllWhite(s: string)
    ensures IsBlank(s) <==> AllWhite(s)
  {
    var t := TrimStart(s);
    TrimStartShape(s);
    TrimEndShape(t);
    if IsBlank(s) {
      assert s[..|s| - |t|] == s;
    }
  }

  /** A string with no white space at either end is its own trimmed form. */
  lemma TrimUnpadded(s: string)
    requires s != [] ==> !IsWhite(s[0]) && !IsWhite(s[|s| - 1])
    ensures Trim(s) == s
  {
    if s != [] {
      assert TrimStart(s) == s;
    }
  }

  /** Trimming twice is trimming once. */
  lemma TrimIdempotent(s: string)
    ensures Trim(Trim(s)) == Trim(s)
  {
    TrimIsInfix(s);
    TrimUnpadded(Trim(s));
  }
}
