/**
 * `jstringToC`: copies a runtime string into a freshly allocated,
 * NUL-terminated buffer, or yields null. The runtime's answer to the
 * character fetch and the allocator's answer are inputs.
 */
module StringBridge {
  import opened Wrappers
  import opened CStrings

  /**
   * A runtime string handle (`None` for a null `jstring`) together with
   * whether `GetStringUTFChars` hands out its characters and whether
   * `malloc` succeeds for the copy.
   */
  datatype StringArg = StringArg(handle: Option<seq<char>>, charsOk: bool, mallocOk: bool)

  /** What a conversion leaves behind: the copy, if any, and the fetch/release discipline. */
  datatype Conversion = Conversion(buffer: Option<seq<char>>, acquired: bool, released: bool)

  /** The buffer `jstringToC` returns for `arg`. */
  function ConvertedBuffer(arg: StringArg): (r: Option<seq<char>>)
    ensures r.Some? <==> arg.handle.Some? && arg.charsOk && arg.mallocOk
    ensures r.Some? ==>
      var s := arg.handle.value;
      var n := CStrLen(s);
      |r.value| == n + 1 && r.value[..n] == s[..n] && r.value[n] == NUL
  {
    if arg.handle.Some? && arg.charsOk && arg.mallocOk then
      Some(CString(arg.handle.value) + [NUL])
    else
      None
  }

  /** The C string that buffer denotes (`None` when the conversion yields null). */
  function ConvertedString(arg: StringArg): (r: Option<seq<char>>)
    ensures r.Some? <==> ConvertedBuffer(arg).Some?
    ensures r.Some? ==>
      Terminated(ConvertedBuffer(arg).value) &&
      r.value == CString(ConvertedBuffer(arg).value) &&
      r.value == CString(arg.handle.value)
  {
    match ConvertedBuffer(arg)
    case None => None
    case Some(buf) =>
      CStringOfTerminated(CString(arg.handle.value));
      Some(CString(buf))
  }

  /** A string without NUL survives the conversion unchanged: the copy is the string plus one terminator. */
  lemma ConversionRoundTrip(arg: StringArg)
    requires arg.handle.Some? && arg.charsOk && arg.mallocOk
    requires NoNul(arg.handle.value)
    ensures ConvertedBuffer(arg) == Some(arg.handle.value + [NUL])
    ensures ConvertedString(arg) == arg.handle
  {
    CStringOfNulFree(arg.handle.value);
  }

  /**
   * The conversion itself: fetch the characters, measure them with
   * `strlen`, allocate `len + 1` chars, zero them (`memset`), copy the
   * characters in (`memcpy`) and release the fetched characters.
   */
  method JStringToC(arg: StringArg) returns (conv: Conversion)
    ensures conv.buffer == ConvertedBuffer(arg)
    ensures conv.acquired <==> arg.handle.Some? && arg.charsOk
    ensures conv.released <==> conv.acquired
  {
    var ret: Option<seq<char>> := None;
    var acquired, released := false, false;
    if arg.handle.Some? {
      if arg.charsOk {
        acquired := true;
        var str := arg.handle.value;
        var len := CStrLen(str);
        if arg.mallocOk {
          var buf := new char[len + 1];
          forall i | 0 <= i < len + 1 {
            buf[i] := NUL;
          }
          forall i | 0 <= i < len {
            buf[i] := str[i];
          }
          assert buf[..] == str[..len] + [NUL];
          ret := Some(buf[..]);
        }
        released := true;
      }
    }
    conv := Conversion(ret, acquired, released);
  }
}
