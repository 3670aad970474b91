/**
 * C strings as the module sees them. A buffer is a sequence of chars; the
 * string it denotes is everything before its first NUL. `strlen`, `strcmp`
 * and the null-aware `equals` of main.cpp are defined over such buffers.
 */
module CStrings {
  import opened Wrappers

  const NUL: char := '\0'

  /** `strlen`: the index of the first NUL, or the whole length when there is none. */
  function CStrLen(s: seq<char>): (n: nat)
    ensures n <= |s|
    ensures forall i :: 0 <= i < n ==> s[i] != NUL
    ensures n < |s| ==> s[n] == NUL
  {
    if s == [] || s[0] == NUL then 0 else 1 + CStrLen(s[1..])
  }

  predicate NoNul(s: seq<char>) {
    forall i :: 0 <= i < |s| ==> s[i] != NUL
  }

  /** A buffer that holds a terminating NUL, so that reading it as a C string stays inside it. */
  predicate Terminated(buf: seq<char>) {
    CStrLen(buf) < |buf|
  }

  /** The string a buffer denotes: its characters up to the first NUL. */
  function CString(buf: seq<char>): (s: seq<char>)
    ensures NoNul(s) && s <= buf
  {
    buf[..CStrLen(buf)]
  }

  lemma CStringOfNulFree(s: seq<char>)
    requires NoNul(s)
    ensures CStrLen(s) == |s| && CString(s) == s
  {
  }

  /** Appending a terminator to a NUL-free string gives a buffer that denotes exactly that string. */
  lemma CStringOfTerminated(s: seq<char>)
    requires NoNul(s)
    ensures Terminated(s + [NUL]) && CString(s + [NUL]) == s
  {
    var b := s + [NUL];
    var n := CStrLen(b);
    assert b[|s|] == NUL;
    assert b[..|s|] == s;
  }

  lemma CStringCons(s: seq<char>)
    requires |s| > 0 && s[0] != NUL
    ensures CString(s) == [s[0]] + CString(s[1..])
  {
    assert CStrLen(s) == 1 + CStrLen(s[1..]);
    assert s[..CStrLen(s)] == [s[0]] + s[1..][..CStrLen(s[1..])];
  }

  lemma CStringHead(s: seq<char>)
    requires Terminated(s)
    ensures CString(s) == [] <==> s[0] == NUL
    ensures s[0] != NUL ==> CString(s)[0] == s[0]
  {
  }

  /**
   * `strcmp`: compares the two buffers character by character (as unsigned
   * values) up to the first difference or the end of the first string. It is
   * zero exactly when the two buffers denote the same string.
   */
  function StrCmp(a: seq<char>, b: seq<char>): (r: int)
    requires Terminated(a) && Terminated(b)
    ensures r == 0 <==> CString(a) == CString(b)
    decreases |a|
  {
    if a[0] != b[0] || a[0] == NUL then
      CStringHead(a);
      CStringHead(b);
      a[0] as int - b[0] as int
    else
      CStringCons(a);
      CStringCons(b);
      StrCmp(a[1..], b[1..])
  }

  /**
   * `equals`: two null pointers are equal, a null and a non-null pointer
   * never are, and two buffers are equal when `strcmp` finds no difference.
   */
  function Equals(str1: Option<seq<char>>, str2: Option<seq<char>>): (r: bool)
    requires str1.Some? ==> Terminated(str1.value)
    requires str2.Some? ==> Terminated(str2.value)
    ensures r <==> (str1.None? && str2.None?)
                   || (str1.Some? && str2.Some? && CString(str1.value) == CString(str2.value))
  {
    if str1.None? && str2.None? then
      true
    else if str1.Some? && str2.Some? then
      StrCmp(str1.value, str2.value) == 0
    else
      false
  }
}
