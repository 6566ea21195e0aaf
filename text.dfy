/**
 * String primitives the storefront relies on: the whitespace trimming and
 * lower-casing of `String.prototype.trim` / `toLowerCase`, the e-mail
 * normalisation built from them, and splitting/joining text at line breaks
 * (the receipt is a multi-line template).
 */
module Text {

  /** The characters `trim` removes: ECMAScript WhiteSpace and LineTerminator. */
  predicate IsSpace(c: char) {
    || c == '\t' || c == '\U{000B}' || c == '\U{000C}' || c == ' '
    || c == '\U{00A0}' || c == '\U{FEFF}' || c == '\U{1680}'
    || ('\U{2000}' <= c <= '\U{200A}')
    || c == '\U{202F}' || c == '\U{205F}' || c == '\U{3000}'
    || c == '\n' || c == '\r' || c == '\U{2028}' || c == '\U{2029}'
  }

  /** Drops the leading whitespace (characterised by TrimStartSpec). */
  function TrimStart(s: string): (r: string) {
    if s != [] && IsSpace(s[0]) then TrimStart(s[1..]) else s
  }

  /** Drops the trailing whitespace (characterised by TrimEndSpec). */
  function TrimEnd(s: string): (r: string) {
    if s != [] && IsSpace(s[|s| - 1]) then TrimEnd(s[..|s| - 1]) else s
  }

  /** `trim`: no longer than the input, and neither starting nor ending with whitespace. */
  function Trim(s: string): (r: string)
    ensures |r| <= |s|
    ensures r == [] || (!IsSpace(r[0]) && !IsSpace(r[|r| - 1]))
  {
    TrimStartSpec(s);
    TrimEndSpec(TrimStart(s));
    TrimEndStartsLikeInput(TrimStart(s));
    TrimEnd(TrimStart(s))
  }

  function LowerChar(c: char): char {
    if 'A' <= c <= 'Z' then (c as int + 32) as char else c
  }

  /** Lower-cases every character (characterised by LowerSpec). */
  function Lower(s: string): (r: string)
    ensures |r| == |s|
  {
    if s == [] then [] else [LowerChar(s[0])] + Lower(s[1..])
  }

  /** The directory key of a typed e-mail address: already trimmed and already lower-case. */
  function Normalize(email: string): (key: string)
    ensures |key| <= |email|
    ensures Trim(key) == key && Lower(key) == key
  {
    TrimIdempotent(email);
    TrimLowerCommute(Trim(email));
    LowerIdempotent(Trim(email));
    Lower(Trim(email))
  }

  /** TrimStart keeps the longest suffix that does not start with a space. */
  lemma {:induction false} TrimStartSpec(s: string)
    ensures |TrimStart(s)| <= |s| && TrimStart(s) == s[|s| - |TrimStart(s)|..]
    ensures TrimStart(s) == [] || !IsSpace(TrimStart(s)[0])
    ensures forall i :: 0 <= i < |s| - |TrimStart(s)| ==> IsSpace(s[i])
  {
    if s != [] && IsSpace(s[0]) {
      var t := s[1..];
      TrimStartSpec(t);
      var r := TrimStart(t);
      assert TrimStart(s) == r;
      assert t[|t| - |r|..] == s[|s| - |r|..];
      forall i | 0 <= i < |s| - |r|
        ensures IsSpace(s[i])
      {
        if i > 0 {
          assert s[i] == t[i - 1];
        }
      }
    }
  }

  /** TrimEnd keeps the longest prefix that does not end with a space. */
  lemma {:induction false} TrimEndSpec(s: string)
    ensures |TrimEnd(s)| <= |s| && TrimEnd(s) == s[..|TrimEnd(s)|]
    ensures TrimEnd(s) == [] || !IsSpace(TrimEnd(s)[|TrimEnd(s)| - 1])
    ensures forall i :: |TrimEnd(s)| <= i < |s| ==> IsSpace(s[i])
  {
    if s != [] && IsSpace(s[|s| - 1]) {
      var t := s[..|s| - 1];
      TrimEndSpec(t);
      var r := TrimEnd(t);
      assert TrimEnd(s) == r;
      assert t[..|r|] == s[..|r|];
      forall i | |r| <= i < |s|
        ensures IsSpace(s[i])
      {
        if i < |s| - 1 {
          assert s[i] == t[i];
        }
      }
    }
  }

  /** Trim keeps a middle slice of its input and removes only whitespace, from both ends. */
  lemma TrimSpec(s: string)
    ensures var i := |s| - |TrimStart(s)|;
            && 0 <= i && i + |Trim(s)| <= |s|
            && Trim(s) == s[i..i + |Trim(s)|]
            && (forall k :: 0 <= k < i ==> IsSpace(s[k]))
            && (forall k :: i + |Trim(s)| <= k < |s| ==> IsSpace(s[k]))
  {
    var u := TrimStart(s);
    var i := |s| - |u|;
    var t := TrimEnd(u);
    TrimStartSpec(s);
    TrimEndSpec(u);
    assert u == s[i..];
    assert t == u[..|t|];
    assert t == s[i..i + |t|];
    forall k | i + |t| <= k < |s|
      ensures IsSpace(s[k])
    {
      assert s[k] == u[k - i];
    }
  }

  /** Lower lower-cases each character in place. */
  lemma {:induction false} LowerSpec(s: string)
    ensures forall i :: 0 <= i < |s| ==> Lower(s)[i] == LowerChar(s[i])
  {
    if s != [] {
      LowerSpec(s[1..]);
    }
  }

  /** The three properties of TrimStart determine its result. */
  lemma TrimStartUnique(s: string, k: nat)
    requires k <= |s|
    requires s[k..] == [] || !IsSpace(s[k])
    requires forall i :: 0 <= i < k ==> IsSpace(s[i])
    ensures TrimStart(s) == s[k..]
  {
    TrimStartSpec(s);
    var r := TrimStart(s);
    assert |s| - |r| == k;
  }

  /** The three properties of TrimEnd determine its result. */
  lemma TrimEndUnique(s: string, k: nat)
    requires k <= |s|
    requires k == 0 || !IsSpace(s[k - 1])
    requires forall i :: k <= i < |s| ==> IsSpace(s[i])
    ensures TrimEnd(s) == s[..k]
  {
    TrimEndSpec(s);
    var r := TrimEnd(s);
    assert |r| == k;
  }

  /** Dropping trailing whitespace keeps the first character, unless nothing is left. */
  lemma TrimEndStartsLikeInput(s: string)
    ensures TrimEnd(s) == [] || TrimEnd(s)[0] == s[0]
  {
    TrimEndSpec(s);
  }

  /** A string that neither starts nor ends with a space is its own trimming. */
  lemma TrimKeepsUnpadded(s: string)
    requires s == [] || (!IsSpace(s[0]) && !IsSpace(s[|s| - 1]))
    ensures Trim(s) == s
  {
  }

  /** Trimming an already trimmed string changes nothing. */
  lemma TrimIdempotent(s: string)
    ensures Trim(Trim(s)) == Trim(s)
  {
    var t := Trim(s);
    var u := TrimStart(s);
    TrimStartSpec(s);
    TrimEndSpec(u);
    assert t == u[..|t|];
    assert t == [] || t[0] == u[0];
    TrimStartUnique(t, 0);
    TrimEndUnique(t, |t|);
  }

  lemma LowerIdempotent(s: string)
    ensures Lower(Lower(s)) == Lower(s)
  {
    LowerSpec(s);
    LowerSpec(Lower(s));
  }

  lemma LowerOfSuffix(s: string, k: nat)
    requires k <= |s|
    ensures Lower(s[k..]) == Lower(s)[k..]
  {
    LowerSpec(s);
    LowerSpec(s[k..]);
  }

  lemma LowerOfPrefix(s: string, k: nat)
    requires k <= |s|
    ensures Lower(s[..k]) == Lower(s)[..k]
  {
    LowerSpec(s);
    LowerSpec(s[..k]);
  }

  lemma LowerKeepsSpaces(s: string)
    ensures forall i :: 0 <= i < |s| ==> (IsSpace(Lower(s)[i]) <==> IsSpace(s[i]))
  {
    LowerSpec(s);
  }

  lemma TrimStartLowerCommute(s: string)
    ensures TrimStart(Lower(s)) == Lower(TrimStart(s))
  {
    var u := TrimStart(s);
    var k := |s| - |u|;
    var l := Lower(s);
    TrimStartSpec(s);
    LowerOfSuffix(s, k);
    LowerKeepsSpaces(s);
    assert l[k..] == [] || !IsSpace(l[k]);
    assert forall i :: 0 <= i < k ==> IsSpace(l[i]);
    TrimStartUnique(l, k);
  }

  lemma TrimEndLowerCommute(s: string)
    ensures TrimEnd(Lower(s)) == Lower(TrimEnd(s))
  {
    var t := TrimEnd(s);
    var k := |t|;
    var l := Lower(s);
    TrimEndSpec(s);
    LowerOfPrefix(s, k);
    LowerKeepsSpaces(s);
    assert k == 0 || !IsSpace(l[k - 1]);
    assert forall i :: k <= i < |s| ==> IsSpace(l[i]);
    TrimEndUnique(l, k);
  }

  /** Lower-casing and trimming commute, since lower-casing maps spaces to spaces and nothing else to one. */
  lemma TrimLowerCommute(s: string)
    ensures Trim(Lower(s)) == Lower(Trim(s))
  {
    TrimStartLowerCommute(s);
    TrimEndLowerCommute(TrimStart(s));
  }

  /** A normalised e-mail is its own key: normalising twice equals normalising once. */
  lemma NormalizeIdempotent(email: string)
    ensures Normalize(Normalize(email)) == Normalize(email)
  {
    TrimLowerCommute(Trim(email));
    TrimIdempotent(email);
    LowerIdempotent(Trim(email));
  }

  /** Joins lines with a line feed between each two, as a multi-line template literal does. */
  function JoinLines(lines: seq<string>): (text: string) {
    if |lines| == 0 then ""
    else if |lines| == 1 then lines[0]
    else lines[0] + "\n" + JoinLines(lines[1..])
  }

  /** Splits text at every line feed; the empty text is one empty line. */
  function Lines(s: string): (r: seq<string>)
    ensures |r| >= 1
  {
    if s == [] then [""]
    else
      var rest := Lines(s[1..]);
      if s[0] == '\n' then [""] + rest else [[s[0]] + rest[0]] + rest[1..]
  }

  lemma {:induction false} LinesOfPrefix(a: string, b: string)
    requires '\n' !in a
    ensures Lines(a + b) == [a + Lines(b)[0]] + Lines(b)[1..]
  {
    if a == [] {
      assert a + b == b;
      assert a + Lines(b)[0] == Lines(b)[0];
      assert Lines(b) == [Lines(b)[0]] + Lines(b)[1..];
    } else {
      assert (a + b)[1..] == a[1..] + b;
      LinesOfPrefix(a[1..], b);
      assert [a[0]] + (a[1..] + Lines(b)[0]) == a + Lines(b)[0];
    }
  }

  /** Splitting undoes joining, provided no line holds a line feed of its own. */
  lemma {:induction false} LinesOfJoin(lines: seq<string>)
    requires |lines| >= 1
    requires forall i :: 0 <= i < |lines| ==> '\n' !in lines[i]
    ensures Lines(JoinLines(lines)) == lines
  {
    if |lines| == 1 {
      LinesOfPrefix(lines[0], "");
      assert lines[0] + "" == lines[0];
    } else {
      var tail := JoinLines(lines[1..]);
      LinesOfJoin(lines[1..]);
      assert ("\n" + tail)[1..] == tail;
      assert Lines("\n" + tail) == [""] + Lines(tail);
      assert lines[0] + "\n" + tail == lines[0] + ("\n" + tail);
      LinesOfPrefix(lines[0], "\n" + tail);
      assert lines[0] + "" == lines[0];
    }
  }
}
