/** Buffers that are written from front to back. */
module Buffers {
  import opened ByteOrder
  import opened Wire

  /** `bytes` copied into `s` at `pos`. */
  function Overwritten(s: seq<Byte>, pos: nat, bytes: seq<Byte>): (r: seq<Byte>)
    requires pos + |bytes| <= |s|
    ensures |r| == |s|
  {
    s[..pos] + bytes + s[pos + |bytes|..]
  }

  lemma OverwrittenTwice(s: seq<Byte>, pos: nat, a: seq<Byte>, b: seq<Byte>)
    requires pos + |a| + |b| <= |s|
    ensures Overwritten(Overwritten(s, pos, a), pos + |a|, b) == Overwritten(s, pos, a + b)
  {
    var once, r := Overwritten(s, pos, a), pos + |a|;
    assert once[..r] == s[..pos] + a;
    assert once[r + |b|..] == s[r + |b|..];
    assert s[..pos] + a + b == s[..pos] + (a + b);
  }

  lemma OverwrittenParts(s: seq<Byte>, pos: nat, bytes: seq<Byte>)
    requires pos + |bytes| <= |s|
    ensures var r := Overwritten(s, pos, bytes);
      && r[..pos] == s[..pos] && r[pos..pos + |bytes|] == bytes && r[pos + |bytes|..] == s[pos + |bytes|..]
      && r[..pos + |bytes|] == s[..pos] + bytes
  {
  }

  /** memcpy */
  method Copy(buffer: array<Byte>, pos: nat, bytes: seq<Byte>) returns (end: nat)
    requires pos + |bytes| <= buffer.Length
    modifies buffer
    ensures end == pos + |bytes|
    ensures buffer[..] == Overwritten(old(buffer[..]), pos, bytes)
  {
    for i := 0 to |bytes|
      invariant buffer[..pos] == old(buffer[..pos])
      invariant buffer[pos..pos + i] == bytes[..i]
      invariant buffer[pos + i..] == old(buffer[pos + i..])
    {
      buffer[pos + i] := bytes[i];
    }
    end := pos + |bytes|;
  }

  /** A name cut to 27 characters, and a NUL. */
  method CopyString(buffer: array<Byte>, pos: nat, text: Text) returns (end: nat)
    requires pos + 28 <= buffer.Length
    modifies buffer
    ensures end == pos + |Cut(text)| + 1
    ensures buffer[..] == Overwritten(old(buffer[..]), pos, Cut(text) + [0])
  {
    hide Overwritten;
    var len := |text|;
    if len > MAX_NAME_LENGTH {
      len := MAX_NAME_LENGTH;
    }
    assert text[..len] == Cut(text);
    OverwrittenTwice(buffer[..], pos, text[..len], [0]);
    end := Copy(buffer, pos, text[..len]);
    end := end + 1;
    OneByte(buffer[..], end - 1, 0);
    buffer[end - 1] := 0;
  }

  lemma OneByte(s: seq<Byte>, pos: nat, b: Byte)
    requires pos < |s|
    ensures Overwritten(s, pos, [b]) == s[pos := b]
  {
  }
}
