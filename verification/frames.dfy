/** Classification of inbound text frames (main.js:125-159) and the fixed-offset layout
    of inbound binary frames (main.js:161-167). */
module Frames {
  import opened Wrappers
  import opened Bytes

  /** What the message handler does with a text frame. */
  datatype TextFrame =
    | Heartbeat                         // exactly "2": answered with "3"
    | NamespaceOpen                     // prefix "40": namespace-open acknowledgement
    | NamespaceEvent(jsonPart: string)  // prefix "42/tweets": the JSON text to parse
    | Ignored                           // anything else

  /** `s.indexOf(c)`: the first position of `c`, or -1 when `c` does not occur. */
  function IndexOf(s: string, c: char): (r: int)
    ensures -1 <= r < |s|
    ensures r == -1 <==> c !in s
    ensures r >= 0 ==> s[r] == c && c !in s[..r]
  {
    if s == [] then -1
    else if s[0] == c then 0
    else
      var k := IndexOf(s[1..], c);
      if k == -1 then -1 else k + 1
  }

  /** `s.substring(start)` for one argument: a negative start counts as 0 and a start past
      the end as the end. */
  function Substring(s: string, start: int): (r: string)
    ensures 0 <= start <= |s| ==> r == s[start..]
    ensures start < 0 ==> r == s
  {
    var b := if start < 0 then 0 else if start > |s| then |s| else start;
    s[b..]
  }

  /** The classification performed by the text branch of the message handler, in the
      order the source tests it. The JSON part starts at the first `[`; without one,
      `indexOf` yields -1 and the whole frame is handed to the parser. */
  function ClassifyText(msg: string): (c: TextFrame)
    ensures c.Heartbeat? <==> msg == "2"
    ensures c.NamespaceOpen? <==> "40" <= msg
    ensures c.NamespaceEvent? <==> "42/tweets" <= msg
    ensures c.NamespaceEvent? && '[' in msg ==>
              exists k :: 0 <= k < |msg| && msg[k] == '[' && '[' !in msg[..k] && c.jsonPart == msg[k..]
    ensures c.NamespaceEvent? && '[' !in msg ==> c.jsonPart == msg
  {
    if msg == "2" then Heartbeat
    else if "40" <= msg then
      assert msg[1] != "42/tweets"[1];
      NamespaceOpen
    else if "42/tweets" <= msg then NamespaceEvent(Substring(msg, IndexOf(msg, '[')))
    else Ignored
  }

  const KeyIdLength := 1
  const IvLength := 12
  const TagLength := 16
  /** Frames shorter than key id, IV and tag together are dropped. */
  const MinFrameLength := KeyIdLength + IvLength + TagLength

  /** A binary frame cut into its fields. */
  datatype EncryptedFrame = EncryptedFrame(keyId: byte, iv: seq<byte>, ciphertext: seq<byte>, tag: seq<byte>)
  {
    /** The field lengths of the wire layout (AES-GCM with a 96-bit IV and a 128-bit tag). */
    predicate WellFormed()
    {
      |iv| == IvLength && |tag| == TagLength
    }
  }

  /** The frame as it is on the wire: key id, IV, ciphertext, tag. */
  function Join(f: EncryptedFrame): (u: seq<byte>)
    ensures f.WellFormed() ==> |u| == MinFrameLength + |f.ciphertext|
  {
    [f.keyId] + f.iv + f.ciphertext + f.tag
  }

  /** The binary branch's `u.length < 29` guard and the `slice` calls at fixed offsets. */
  function SplitFrame(u: seq<byte>): (r: Option<EncryptedFrame>)
    ensures r.None? <==> |u| < MinFrameLength
    ensures r.Some? ==> r.value.WellFormed() && |r.value.ciphertext| == |u| - MinFrameLength
    ensures r.Some? ==> Join(r.value) == u
  {
    if |u| < MinFrameLength then None
    else
      var keyId := u[0];
      var iv := u[1..13];
      var tag := u[|u| - 16..];
      var ciphertext := u[13..|u| - 16];
      assert [keyId] + iv + ciphertext + tag == u;
      Some(EncryptedFrame(keyId, iv, ciphertext, tag))
  }

  /** Splitting a well-formed frame's wire form gives back its fields. */
  lemma SplitJoin(f: EncryptedFrame)
    requires f.WellFormed()
    ensures SplitFrame(Join(f)) == Some(f)
  {
    var u := Join(f);
    assert u[0] == f.keyId;
    assert u[1..13] == f.iv;
    assert u[|u| - 16..] == f.tag;
    assert u[13..|u| - 16] == f.ciphertext;
  }
}
