/** UTF-8 as sections 3 and 4 of RFC 3629 define it, with the leniency of Go's decoder. */
module Utf8 {
  import opened Seqs
  import opened Text

  type Byte = x: int | 0 <= x < 256

  /** A byte that begins a character: anything but 10xxxxxx. */
  predicate RuneStart(b: Byte) { b < 0x80 || 0xC0 <= b }

  predicate Continues(b: int) { 0x80 <= b < 0xC0 }

  function Encode(c: char): (bytes: seq<Byte>)
    ensures |bytes| == RuneLen(c)
    ensures RuneStart(bytes[0])
    ensures forall i :: 0 < i < |bytes| ==> !RuneStart(bytes[i])
  {
    var n := c as int;
    if n < 0x80 then [n]
    else if n < 0x800 then [0xC0 + n / 64, 0x80 + n % 64]
    else if n < 0x10000 then [0xE0 + n / 4096, 0x80 + n / 64 % 64, 0x80 + n % 64]
    else [0xF0 + n / 262144, 0x80 + n / 4096 % 64, 0x80 + n / 64 % 64, 0x80 + n % 64]
  }

  function EncodeAll(s: string): seq<Byte> {
    if s == "" then [] else Encode(s[0]) + EncodeAll(s[1..])
  }

  datatype Rune = Rune(c: char, size: nat)

  /** Go's utf8.RuneError: an invalid byte decodes to the replacement character, alone. */
  const BAD := Rune('\U{FFFD}', 1)

  function DecodeTwo(b: Byte, b1: Byte): Rune
    requires 0xC2 <= b <= 0xDF
  {
    if Continues(b1) then Rune(((b - 0xC0) * 64 + (b1 - 0x80)) as char, 2) else BAD
  }

  function DecodeThree(b: Byte, b1: Byte, b2: Byte): Rune
    requires 0xE0 <= b <= 0xEF
  {
    var lo, hi := if b == 0xE0 then 0xA0 else 0x80, if b == 0xED then 0x9F else 0xBF;
    if lo <= b1 <= hi && Continues(b2)
    then Rune(((b - 0xE0) * 4096 + (b1 - 0x80) * 64 + (b2 - 0x80)) as char, 3) else BAD
  }

  function DecodeFour(b: Byte, b1: Byte, b2: Byte, b3: Byte): Rune
    requires 0xF0 <= b <= 0xF4
  {
    var lo, hi := if b == 0xF0 then 0x90 else 0x80, if b == 0xF4 then 0x8F else 0xBF;
    if lo <= b1 <= hi && Continues(b2) && Continues(b3)
    then Rune(((b - 0xF0) * 262144 + (b1 - 0x80) * 4096 + (b2 - 0x80) * 64 + (b3 - 0x80)) as char, 4) else BAD
  }

  function DecodeRune(bytes: seq<Byte>): (r: Rune)
    requires bytes != []
    ensures 1 <= r.size <= |bytes|
  {
    var b := bytes[0];
    if b < 0x80 then Rune(b as char, 1)
    else if 0xC2 <= b <= 0xDF && |bytes| >= 2 then DecodeTwo(b, bytes[1])
    else if 0xE0 <= b <= 0xEF && |bytes| >= 3 then DecodeThree(b, bytes[1], bytes[2])
    else if 0xF0 <= b <= 0xF4 && |bytes| >= 4 then DecodeFour(b, bytes[1], bytes[2], bytes[3])
    else BAD
  }

  function Decode(bytes: seq<Byte>): string
    decreases |bytes|
  {
    if bytes == [] then ""
    else [DecodeRune(bytes).c] + Decode(bytes[DecodeRune(bytes).size..])
  }

  /** Base-64 digits, as the continuation bytes carry them. */
  lemma Digits(n: nat)
    ensures n / 4096 == n / 64 / 64 && n / 262144 == n / 4096 / 64
    ensures n == n / 64 * 64 + n % 64
    ensures n / 64 == n / 4096 * 64 + n / 64 % 64
    ensures n / 4096 == n / 262144 * 64 + n / 4096 % 64
  {
  }

  lemma TwoBytes(c: char)
    requires 0x80 <= c as int < 0x800
    ensures DecodeTwo(Encode(c)[0], Encode(c)[1]) == Rune(c, 2)
  {
    Digits(c as int);
  }

  lemma ThreeBytes(c: char)
    requires 0x800 <= c as int < 0x10000
    ensures DecodeThree(Encode(c)[0], Encode(c)[1], Encode(c)[2]) == Rune(c, 3)
  {
    Digits(c as int);
  }

  lemma FourBytes(c: char)
    requires 0x10000 <= c as int
    ensures Encode(c)[0] <= 0xF4
    ensures DecodeFour(Encode(c)[0], Encode(c)[1], Encode(c)[2], Encode(c)[3]) == Rune(c, 4)
  {
    Digits(c as int);
  }

  lemma EncodedRune(c: char, rest: seq<Byte>)
    ensures DecodeRune(Encode(c) + rest) == Rune(c, RuneLen(c))
  {
    match RuneLen(c) {
      case 1 =>
      case 2 => TwoBytes(c);
      case 3 => ThreeBytes(c);
      case _ => FourBytes(c);
    }
  }

  lemma {:induction false} DecodeOfEncode(s: string)
    ensures Decode(EncodeAll(s)) == s
  {
    if s != "" {
      var rest := EncodeAll(s[1..]);
      EncodedRune(s[0], rest);
      assert EncodeAll(s)[RuneLen(s[0])..] == rest;
      DecodeOfEncode(s[1..]);
    }
  }
}

/** `tailBuffer`: the end of what a chatty child printed, in bounded memory. */
module TailBuffer {
  import opened Seqs
  import opened Text
  import opened Utf8

  /** The last max elements. */
  function Last(all: seq<Byte>, max: nat): seq<Byte> {
    if |all| <= max then all else all[|all| - max..]
  }

  /** The longest end of a text whose encoding fits in max bytes. */
  function LastFitting(s: string, max: nat): string {
    if |EncodeAll(s)| <= max then s else LastFitting(s[1..], max)
  }

  /** How many bytes the boundary cut skips. */
  function Skip(bytes: seq<Byte>): (n: nat)
    ensures n <= |bytes|
    ensures forall i :: 0 <= i < n ==> !RuneStart(bytes[i])
    ensures n < |bytes| ==> RuneStart(bytes[n])
  {
    if bytes == [] || RuneStart(bytes[0]) then 0 else 1 + Skip(bytes[1..])
  }

  lemma SkipIs(bytes: seq<Byte>, n: nat)
    requires n <= |bytes| && (forall i :: 0 <= i < n ==> !RuneStart(bytes[i]))
    requires n < |bytes| ==> RuneStart(bytes[n])
    ensures Skip(bytes) == n
  {
  }

  /** Skipping to a boundary costs at most three bytes and leaves the text. */
  ghost predicate CutsTo(kept: seq<Byte>, text: string) {
    Skip(kept) <= 3 && kept[Skip(kept)..] == EncodeAll(text)
  }

  /** Cutting an encoded text to its last max bytes and then to a character boundary leaves
      the last whole characters that fit. */
  lemma {:induction false} CutOnBoundary(s: string, max: nat)
    requires max < |EncodeAll(s)|
    ensures CutsTo(Last(EncodeAll(s), max), LastFitting(s, max))
  {
    var first, rest := Encode(s[0]), s[1..];
    var tail := EncodeAll(rest);
    if max < |tail| {
      LastOfConcat(first, tail, max);
      CutOnBoundary(rest, max);
    } else {
      CutInFirst(s[0], rest, |first| + |tail| - max);
    }
  }

  lemma LastOfConcat(a: seq<Byte>, b: seq<Byte>, max: nat)
    requires max <= |b|
    ensures Last(a + b, max) == Last(b, max)
  {
  }

  lemma CutInFirst(c: char, rest: string, cut: nat)
    requires 0 < cut <= RuneLen(c)
    ensures CutsTo((Encode(c) + EncodeAll(rest))[cut..], rest)
  {
    if cut < RuneLen(c) {
      CutInside(Encode(c), rest, cut);
    } else {
      ConcatParts(Encode(c), EncodeAll(rest));
      StartsOnBoundary(rest);
      WholeSlice(EncodeAll(rest));
    }
  }

  lemma StartsOnBoundary(s: string)
    ensures Skip(EncodeAll(s)) == 0
  {
    if s != "" {
      assert EncodeAll(s)[0] == Encode(s[0])[0];
    }
  }

  /** A cut inside a character skips what is left of it. */
  lemma CutInside(first: seq<Byte>, rest: string, cut: nat)
    requires 0 < cut < |first| <= 4 && forall i :: 0 < i < |first| ==> !RuneStart(first[i])
    ensures var kept := (first + EncodeAll(rest))[cut..];
      Skip(kept) == |first| - cut <= 3 && kept[Skip(kept)..] == EncodeAll(rest)
  {
    var kept := (first + EncodeAll(rest))[cut..];
    var skip := |first| - cut;
    assert forall i :: 0 <= i < skip ==> kept[i] == first[cut + i];
    assert rest != "" ==> kept[skip] == Encode(rest[0])[0];
    SkipIs(kept, skip);
    assert kept[skip..] == EncodeAll(rest);
  }

  /** No valid UTF-8 text longer than what the cut leaves is an end of the kept bytes. */
  lemma NothingLongerIsValid(kept: seq<Byte>, text: string)
    requires |EncodeAll(text)| <= |kept| && kept[|kept| - |EncodeAll(text)|..] == EncodeAll(text)
    ensures |EncodeAll(text)| <= |kept| - Skip(kept)
  {
    if text != "" {
      var from := |kept| - |EncodeAll(text)|;
      assert EncodeAll(text)[0] == Encode(text[0])[0];
      assert kept[from] == kept[from..][0];
    }
  }

  lemma {:induction false} LastFittingIsLongest(s: string, max: nat, i: nat)
    requires i <= |s| && |EncodeAll(s[i..])| <= max
    ensures |EncodeAll(LastFitting(s, max))| <= max
    ensures |s[i..]| <= |LastFitting(s, max)| <= |s|
    ensures s[|s| - |LastFitting(s, max)|..] == LastFitting(s, max)
    decreases |s|
  {
    LastFittingIsATail(s, max);
    if max < |EncodeAll(s)| {
      if i == 0 {
        WholeSlice(s);
      }
      DropDrop(s, 1, i - 1);
      LastFittingIsLongest(s[1..], max, i - 1);
    }
  }

  lemma {:induction false} LastFittingIsATail(s: string, max: nat)
    ensures |EncodeAll(LastFitting(s, max))| <= max && |LastFitting(s, max)| <= |s|
    ensures s[|s| - |LastFitting(s, max)|..] == LastFitting(s, max)
    decreases |s|
  {
    if |EncodeAll(s)| <= max {
      WholeSlice(s);
    } else {
      LastFittingIsATail(s[1..], max);
      DropDrop(s, 1, |s| - 1 - |LastFitting(s, max)|);
    }
  }

  /** What is kept of some bytes: all, or the last max of them from the first that begins a character. */
  function Kept(written: seq<Byte>, max: nat): seq<Byte> {
    var last := Last(written, max);
    if max < |written| then last[Skip(last)..] else last
  }

  /** Whatever the bytes, what is kept ends them, fits, and begins a character when some were dropped. */
  lemma KeptIsATail(written: seq<Byte>, max: nat)
    ensures var kept := Kept(written, max);
      && |kept| <= |written| && written[|written| - |kept|..] == kept && (max < |written| ==> |kept| <= max)
      && (max < |written| && kept != [] ==> RuneStart(kept[0])) && (max >= |written| ==> kept == written)
  {
    WholeSlice(written);
    var last := Last(written, max);
    if max < |written| {
      DropDrop(written, |written| - max, Skip(last));
    }
  }

  class Buffer {
    const max: nat
    var b: seq<Byte>
    var dropped: bool
    /** Everything written so far. */
    ghost var written: seq<Byte>

    ghost predicate Valid()
      reads this
    {
      b == Last(written, max) && dropped == (max < |written|)
    }

    constructor (max: nat)
      ensures Valid() && written == [] && this.max == max
    {
      this.max, b, dropped, written := max, [], false, [];
    }

    method Write(p: seq<Byte>) returns (n: nat)
      requires Valid()
      modifies this
      ensures Valid() && written == old(written) + p && n == |p|
    {
      b := b + p;
      written := written + p;
      if |b| > max {
        b := b[|b| - max..];
        dropped := true;
      }
      n := |p|;
    }

    /** The kept tail as it reads, bytes that are no text as replacement characters. The caller names the
        text that was written, when it was text. */
    method ToString(ghost text: string) returns (s: string)
      requires Valid()
      ensures s == (if max < |written| then "..." else "") + TrimSpace(Decode(Kept(written, max)))
      ensures written == EncodeAll(text) ==>
        s == (if max < |EncodeAll(text)| then "..." else "") + TrimSpace(LastFitting(text, max))
    {
      var start := 0;
      if dropped {
        while start < |b| && !RuneStart(b[start])
          invariant 0 <= start <= |b|
          invariant forall i :: 0 <= i < start ==> !RuneStart(b[i])
        {
          start := start + 1;
        }
        SkipIs(b, start);
      }
      if written == EncodeAll(text) {
        if dropped {
          CutOnBoundary(text, max);
        }
        DecodeOfEncode(LastFitting(text, max));
        assert b[start..] == EncodeAll(LastFitting(text, max));
      }
      s := TrimSpace(Decode(b[start..]));
      if dropped {
        s := "..." + s;
      }
    }
  }
}
