/** NUL-terminated strings in fixed-size memory, and the copy routine the SDK uses on them. */
module CStrings {

  const NUL: char := '\0'

  // The string a reader finds at the start of some memory: everything before the first NUL.
  function CString(memory: seq<char>): (s: string)
    ensures |s| <= |memory| && s == memory[..|s|] && NUL !in s
    ensures |s| < |memory| ==> memory[|s|] == NUL
  {
    if memory == [] || memory[0] == NUL then "" else [memory[0]] + CString(memory[1..])
  }

  // What strncpy(dst, src, n) leaves in the n bytes at dst: a cut or NUL-padded copy.
  function StrNCpy(src: string, n: nat): (bytes: seq<char>)
    ensures |bytes| == n
  {
    if |src| >= n then src[..n] else src + seq(n - |src|, _ => NUL)
  }

  // The last byte of a non-empty buffer overwritten with NUL.
  function Terminate(bytes: seq<char>): (r: seq<char>)
    requires |bytes| > 0
    ensures |r| == |bytes|
  {
    bytes[..|bytes| - 1] + [NUL]
  }

  // The longest prefix of s that an n-byte buffer can hold next to its terminator.
  function Truncated(s: string, n: nat): string
    requires n > 0
  {
    if |s| < n then s else s[..n - 1]
  }

  lemma {:induction false} CStringIsPrefix(s: string, tail: seq<char>)
    requires NUL !in s
    requires tail != [] ==> tail[0] == NUL
    ensures CString(s + tail) == s
  {
    if s == "" {
      assert s + tail == tail;
    } else {
      assert (s + tail)[1..] == s[1..] + tail;
      CStringIsPrefix(s[1..], tail);
    }
  }

  // A string shorter than the buffer survives strncpy unchanged.
  lemma StrNCpyKeepsShort(src: string, n: nat)
    requires NUL !in src && |src| < n
    ensures CString(StrNCpy(src, n)) == src
    ensures NUL in StrNCpy(src, n)
  {
    CStringIsPrefix(src, seq(n - |src|, _ => NUL));
    assert StrNCpy(src, n)[|src|] == NUL;
  }

  // strncpy followed by the forced terminator stores exactly the truncated string.
  lemma StrNCpyTruncates(src: string, n: nat)
    requires NUL !in src && n > 0
    ensures CString(Terminate(StrNCpy(src, n))) == Truncated(src, n)
    ensures NUL in Terminate(StrNCpy(src, n))
  {
    var bytes := Terminate(StrNCpy(src, n));
    var kept := Truncated(src, n);
    assert bytes[n - 1] == NUL;
    assert bytes == kept + bytes[|kept|..];
    CStringIsPrefix(kept, bytes[|kept|..]);
  }
}
