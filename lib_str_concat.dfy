/** StrConcat of examples/golang_grpc/internal/lib/StrConcat.go: the inputs are
    copied one after another into a 40-byte buffer, and whatever does not fit
    is dropped. Go strings are byte sequences. */
module StrConcat {

  type byte = b: int | 0 <= b < 256

  /** The size of the buffer `bs`. */
  const BufferSize: nat := 40

  /** The plain concatenation of the inputs, in order. */
  function Concat(strs: seq<seq<byte>>): seq<byte>
  {
    if strs == [] then [] else Concat(strs[..|strs| - 1]) + strs[|strs| - 1]
  }

  /** The first n bytes of s, or all of s when it is shorter. */
  function Truncate(s: seq<byte>, n: nat): (t: seq<byte>)
    ensures |t| <= n && t <= s
    ensures |s| <= n ==> t == s
    ensures |s| > n ==> |t| == n
  {
    if |s| <= n then s else s[..n]
  }

  /** Truncating before appending more and truncating again loses nothing. */
  lemma TruncateAppend(s: seq<byte>, u: seq<byte>, n: nat)
    ensures Truncate(Truncate(s, n) + u, n) == Truncate(s + u, n)
  {
    if |s| <= n {
    } else {
      assert (s + u)[..n] == s[..n];
      assert (s[..n] + u)[..n] == s[..n];
    }
  }

  /** copy(dst[from:], src): copies as many bytes as both sides have, and
      returns that count. */
  method Copy(dst: array<byte>, from: nat, src: seq<byte>) returns (n: nat)
    requires from <= dst.Length
    modifies dst
    ensures n == if dst.Length - from < |src| then dst.Length - from else |src|
    ensures dst[..from] == old(dst[..from])
    ensures dst[from..from + n] == src[..n]
    ensures dst[from + n..] == old(dst[from + n..])
  {
    n := if dst.Length - from < |src| then dst.Length - from else |src|;
    var k := 0;
    while k < n
      invariant 0 <= k <= n
      invariant dst[..from] == old(dst[..from])
      invariant dst[from..from + k] == src[..k]
      invariant dst[from + k..] == old(dst[from + k..])
    {
      dst[from + k] := src[k];
      assert dst[from..from + k + 1] == dst[from..from + k] + [src[k]];
      assert src[..k + 1] == src[..k] + [src[k]];
      k := k + 1;
    }
  }

  /** StrConcat(str...). */
  method StrConcat(strs: seq<seq<byte>>) returns (r: seq<byte>)
    ensures r == Truncate(Concat(strs), BufferSize)
    ensures |r| <= BufferSize && r <= Concat(strs)
    ensures |Concat(strs)| <= BufferSize ==> r == Concat(strs)
    ensures strs == [] ==> r == []
  {
    var bs := new byte[BufferSize];
    var bl := 0;
    var i := 0;
    while i < |strs|
      invariant 0 <= i <= |strs|
      invariant bl <= BufferSize
      invariant bs[..bl] == Truncate(Concat(strs[..i]), BufferSize)
    {
      var s := strs[i];
      ghost var before := bs[..bl];
      var n := Copy(bs, bl, s);
      assert bs[..bl + n] == bs[..bl] + bs[bl..bl + n];
      assert bs[..bl + n] == before + s[..n];
      assert before + s[..n] == Truncate(before + s, BufferSize);
      assert strs[..i + 1][..i] == strs[..i];
      TruncateAppend(Concat(strs[..i]), s, BufferSize);
      bl := bl + n;
      i := i + 1;
    }
    assert strs[..|strs|] == strs;
    r := bs[..bl];
  }
}
