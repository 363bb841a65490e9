/** ASCII character classes and string helpers used by the validators, the slug
    derivation and the avatar initials. Non-ASCII characters are not classified:
    the model treats strings as ASCII. */
module Ascii {

  /** `\s` restricted to ASCII: space, tab, line feed, vertical tab, form feed, carriage return. */
  predicate IsSpace(c: char) {
    c == ' ' || c == '\t' || c == '\n' || c == '\U{000B}' || c == '\U{000C}' || c == '\r'
  }

  predicate IsUpper(c: char) { 'A' <= c <= 'Z' }
  predicate IsLower(c: char) { 'a' <= c <= 'z' }
  predicate IsDigit(c: char) { '0' <= c <= '9' }

  /** `\w`: letters, digits and underscore. */
  predicate IsWordChar(c: char) { IsUpper(c) || IsLower(c) || IsDigit(c) || c == '_' }

  function ToLower(c: char): (d: char)
    ensures IsUpper(c) ==> IsLower(d)
    ensures !IsUpper(c) ==> d == c
  {
    if IsUpper(c) then (c as int - 'A' as int + 'a' as int) as char else c
  }

  function ToUpper(c: char): (d: char)
    ensures IsLower(c) ==> IsUpper(d)
    ensures !IsLower(c) ==> d == c
  {
    if IsLower(c) then (c as int - 'a' as int + 'A' as int) as char else c
  }

  /** `String.prototype.toLowerCase` on ASCII text. */
  function Lower(s: string): string {
    seq(|s|, i requires 0 <= i < |s| => ToLower(s[i]))
  }

  /** `String.prototype.toUpperCase` on ASCII text. */
  function Upper(s: string): string {
    seq(|s|, i requires 0 <= i < |s| => ToUpper(s[i]))
  }

  predicate NoSpace(s: string) {
    forall i :: 0 <= i < |s| ==> !IsSpace(s[i])
  }

  /** Every character is whitespace. */
  predicate AllSpace(s: string) {
    forall i :: 0 <= i < |s| ==> IsSpace(s[i])
  }

  /** `String.prototype.startsWith`. */
  predicate StartsWith(s: string, prefix: string) {
    |prefix| <= |s| && s[..|prefix|] == prefix
  }

  /** Drops the leading run of whitespace. */
  function DropSpaces(s: string): (r: string)
    ensures |r| <= |s| && r == s[|s| - |r|..]
    ensures r == [] || !IsSpace(r[0])
  {
    if s != [] && IsSpace(s[0]) then DropSpaces(s[1..]) else s
  }

  /** The dropped run is exactly the leading whitespace: a whitespace run followed by
      text that does not start with whitespace leaves that text. */
  lemma {:induction false} DropSpacesRun(sp: string, t: string)
    requires AllSpace(sp)
    requires t == [] || !IsSpace(t[0])
    ensures DropSpaces(sp + t) == t
    decreases |sp|
  {
    if sp == [] {
      assert sp + t == t;
    } else {
      assert (sp + t)[0] == sp[0];
      assert (sp + t)[1..] == sp[1..] + t;
      assert AllSpace(sp[1..]) by {
        forall i | 0 <= i < |sp| - 1 ensures IsSpace(sp[1..][i]) { assert sp[1..][i] == sp[i + 1]; }
      }
      DropSpacesRun(sp[1..], t);
    }
  }

  /** Drops the trailing run of whitespace. */
  function DropTrailingSpaces(s: string): (r: string)
    ensures |r| <= |s| && r == s[..|r|]
    ensures r == [] || !IsSpace(r[|r| - 1])
  {
    if s != [] && IsSpace(s[|s| - 1]) then DropTrailingSpaces(s[..|s| - 1]) else s
  }

  /** `String.prototype.trim`: whitespace removed from both ends. */
  function Trim(s: string): (r: string)
    ensures |r| <= |s|
    ensures r != [] ==> !IsSpace(r[0]) && !IsSpace(r[|r| - 1])
  {
    DropTrailingSpaces(DropSpaces(s))
  }

  /** Where the last word starts: just after the last whitespace character, or 0
      when there is none. */
  function LastWordStart(s: string): (k: nat)
    ensures k <= |s|
    ensures forall j :: k <= j < |s| ==> !IsSpace(s[j])
    ensures k > 0 ==> IsSpace(s[k - 1])
    ensures s != [] && !IsSpace(s[|s| - 1]) ==> k < |s|
  {
    if s == [] then 0
    else if IsSpace(s[|s| - 1]) then |s|
    else LastWordStart(s[..|s| - 1])
  }

  /** The three properties of `LastWordStart` determine it. */
  lemma LastWordStartUnique(s: string, k: nat)
    requires k <= |s|
    requires forall j :: k <= j < |s| ==> !IsSpace(s[j])
    requires k > 0 ==> IsSpace(s[k - 1])
    ensures k == LastWordStart(s)
  {
  }

  /** A text that neither starts nor ends with whitespace is its own trim. */
  lemma TrimTrimmed(s: string)
    requires s != [] && !IsSpace(s[0]) && !IsSpace(s[|s| - 1])
    ensures Trim(s) == s
  {
  }

  /** `s.split(/\s+/)`: the pieces between maximal whitespace runs, in order; a
      leading or trailing run gives an empty first or last piece. The pieces are
      peeled off from the end, so the last piece is the text after the last
      whitespace character. */
  function SplitOnSpaceRuns(s: string): (parts: seq<string>)
    ensures |parts| >= 1
    ensures parts[|parts| - 1] == s[LastWordStart(s)..]
    decreases |s|
  {
    var k := LastWordStart(s);
    if k == 0 then [s]
    else SplitOnSpaceRuns(DropTrailingSpaces(s[..k - 1])) + [s[k..]]
  }

  /** Dropping trailing whitespace never touches a non-space first character. */
  lemma DropTrailingKeepsFirst(s: string)
    requires s != [] && !IsSpace(s[0])
    ensures var r := DropTrailingSpaces(s); r != [] && r[0] == s[0]
  {
  }

  /** A text that starts with a non-space character has a non-empty first piece
      starting with that character. */
  lemma {:induction false} SplitFirstPiece(s: string)
    requires s != [] && !IsSpace(s[0])
    ensures var parts := SplitOnSpaceRuns(s); parts[0] != [] && parts[0][0] == s[0]
    decreases |s|
  {
    var k := LastWordStart(s);
    if k > 0 {
      var head := DropTrailingSpaces(s[..k - 1]);
      assert k - 1 > 0;
      assert s[..k - 1][0] == s[0];
      DropTrailingKeepsFirst(s[..k - 1]);
      SplitFirstPiece(head);
      FirstOfAppend(SplitOnSpaceRuns(head), [s[k..]]);
    }
  }

  /** No piece contains whitespace: the pieces are exactly the words between the runs. */
  lemma {:induction false} SplitPiecesHaveNoSpace(s: string)
    ensures forall p :: p in SplitOnSpaceRuns(s) ==> NoSpace(p)
    decreases |s|
  {
    var k := LastWordStart(s);
    if k > 0 {
      var head := DropTrailingSpaces(s[..k - 1]);
      SplitPiecesHaveNoSpace(head);
      var last := s[k..];
      forall j | 0 <= j < |last| ensures !IsSpace(last[j]) { assert last[j] == s[k + j]; }
      assert SplitOnSpaceRuns(s) == SplitOnSpaceRuns(head) + [last];
    }
  }

  lemma FirstOfAppend<T>(xs: seq<T>, ys: seq<T>)
    requires xs != []
    ensures (xs + ys)[0] == xs[0]
  {
  }
}
