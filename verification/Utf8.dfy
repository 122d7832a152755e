/** The incremental UTF-8 buffer of the streaming clients.
  *
  * `Encode` is the encoding of RFC 3629 section 3 and is the reference: a byte string is well formed exactly when
  * it encodes some text. `FirstSequence` is the byte-by-byte validator behind `std::str::from_utf8`. Everything else
  * relates the two. Dafny's `char` ranges over the Unicode scalar values, as Rust's does.
  */
module Utf8 {
  import opened Wrappers

  type Byte = b: int | 0 <= b < 256

  // ---------- The reference: RFC 3629 section 3 ----------

  function EncodeChar(c: char): seq<Byte> {
    var n := c as int;
    if n < 0x80 then [n]
    else if n < 0x800 then [0xC0 + n / 0x40, 0x80 + n % 0x40]
    else if n < 0x1_0000 then [0xE0 + n / 0x1000, 0x80 + n / 0x40 % 0x40, 0x80 + n % 0x40]
    else [0xF0 + n / 0x4_0000, 0x80 + n / 0x1000 % 0x40, 0x80 + n / 0x40 % 0x40, 0x80 + n % 0x40]
  }

  function Encode(text: string): seq<Byte> {
    if text == "" then [] else EncodeChar(text[0]) + Encode(text[1..])
  }

  ghost predicate WellFormed(bytes: seq<Byte>) {
    exists text: string :: Encode(text) == bytes
  }

  /** Some continuation makes `bytes` well formed. */
  ghost predicate Extendable(bytes: seq<Byte>) {
    exists more: seq<Byte> :: WellFormed(bytes + more)
  }

  /** `bytes` is the non-empty beginning of one encoded character, without its last byte. */
  ghost predicate SplitsOneChar(bytes: seq<Byte>) {
    exists c: char :: 0 < |bytes| < |EncodeChar(c)| && bytes == EncodeChar(c)[..|bytes|]
  }

  lemma {:induction false} EncodeConcat(a: string, b: string)
    ensures Encode(a + b) == Encode(a) + Encode(b)
  {
    hide EncodeChar;
    if a == "" {
      assert a + b == b;
    } else {
      EncodeConcat(a[1..], b);
      assert (a + b)[1..] == a[1..] + b;
      assert Encode(a) == EncodeChar(a[0]) + Encode(a[1..]);
      Regroup(EncodeChar(a[0]), Encode(a[1..]), Encode(b));
    }
  }

  // ---------- The validator ----------

  /** What validation finds at the front of a non-empty byte string: a whole character of the given width, a character
    * cut short by the end of input (`error_len` is `None`), or a byte that fits no character. */
  datatype Front = Whole(width: nat) | Cut | Bad

  function Width(lead: Byte): nat {
    if lead < 0x80 then 1
    else if 0xC2 <= lead <= 0xDF then 2
    else if 0xE0 <= lead <= 0xEF then 3
    else if 0xF0 <= lead <= 0xF4 then 4
    else 0
  }

  predicate Continuation(b: Byte) {
    0x80 <= b <= 0xBF
  }

  predicate SecondFits(lead: Byte, second: Byte) {
    && Continuation(second)
    && (lead == 0xE0 ==> 0xA0 <= second)
    && (lead == 0xED ==> second <= 0x9F)
    && (lead == 0xF0 ==> 0x90 <= second)
    && (lead == 0xF4 ==> second <= 0x8F)
  }

  function FirstSequence(s: seq<Byte>): Front
    requires s != []
  {
    var width := Width(s[0]);
    if width == 0 then Bad
    else if width == 1 then Whole(1)
    else if |s| == 1 then Cut
    else if !SecondFits(s[0], s[1]) then Bad
    else if width == 2 then Whole(2)
    else if |s| == 2 then Cut
    else if !Continuation(s[2]) then Bad
    else if width == 3 then Whole(3)
    else if |s| == 3 then Cut
    else if !Continuation(s[3]) then Bad
    else Whole(4)
  }

  function DecodeFirst(s: seq<Byte>): char
    requires s != [] && FirstSequence(s).Whole?
  {
    var width := Width(s[0]);
    if width == 1 then s[0] as char
    else if width == 2 then (s[0] as int * 0x40 + s[1] as int - 0x3080) as char
    else if width == 3 then (s[0] as int * 0x1000 + s[1] as int * 0x40 + s[2] as int - 0xE_2080) as char
    else (s[0] as int * 0x4_0000 + s[1] as int * 0x1000 + s[2] as int * 0x40 + s[3] as int - 0x3C8_2080) as char
  }

  /** The text of the longest valid prefix, as `from_utf8(&s[..valid_up_to])` returns it. */
  function Decode(s: seq<Byte>): string {
    if s == [] then ""
    else match FirstSequence(s)
      case Whole(width) => [DecodeFirst(s)] + Decode(s[width..])
      case _ => ""
  }

  /** The length of that prefix: `Utf8Error::valid_up_to`, or `|s|` when there is no error. */
  function ValidUpTo(s: seq<Byte>): (n: nat)
    ensures n <= |s|
  {
    if s == [] then 0
    else match FirstSequence(s)
      case Whole(width) => width + ValidUpTo(s[width..])
      case _ => 0
  }

  function Rest(s: seq<Byte>): seq<Byte> {
    s[ValidUpTo(s)..]
  }

  /** Validation has found no error other than a character cut short at the end. */
  predicate Acceptable(s: seq<Byte>) {
    Rest(s) == [] || FirstSequence(Rest(s)) == Cut
  }

  // ---------- One character: validator against reference ----------

  lemma EncodeThenDecodeChar(c: char, more: seq<Byte>)
    ensures FirstSequence(EncodeChar(c) + more) == Whole(|EncodeChar(c)|)
    ensures DecodeFirst(EncodeChar(c) + more) == c
  {
    var n := c as int;
    var e := EncodeChar(c);
    assert n < 0x11_0000 && (n < 0xD800 || 0xDFFF < n);
    assert n / 0x40 / 0x40 == n / 0x1000 && n / 0x1000 / 0x40 == n / 0x4_0000;
    var s := e + more;
    assert s[0] == e[0];
    if |e| > 1 { assert s[1] == e[1]; }
    if |e| > 2 { assert s[2] == e[2]; }
    if |e| > 3 { assert s[3] == e[3]; }
  }

  lemma DecodeThenEncodeChar(s: seq<Byte>)
    requires s != [] && FirstSequence(s).Whole?
    ensures EncodeChar(DecodeFirst(s)) == s[..FirstSequence(s).width]
  {
    var n := DecodeFirst(s) as int;
    var width := Width(s[0]);
    if width == 2 {
      Digits64(s[0] as int - 0xC0, s[1] as int - 0x80);
    } else if width == 3 {
      Digits64((s[0] as int - 0xE0) * 0x40 + s[1] as int - 0x80, s[2] as int - 0x80);
      Digits64(s[0] as int - 0xE0, s[1] as int - 0x80);
      assert n / 0x1000 == n / 0x40 / 0x40;
    } else if width == 4 {
      Digits64(((s[0] as int - 0xF0) * 0x40 + s[1] as int - 0x80) * 0x40 + s[2] as int - 0x80, s[3] as int - 0x80);
      Digits64((s[0] as int - 0xF0) * 0x40 + s[1] as int - 0x80, s[2] as int - 0x80);
      Digits64(s[0] as int - 0xF0, s[1] as int - 0x80);
      assert n / 0x1000 == n / 0x40 / 0x40;
      assert n / 0x4_0000 == n / 0x1000 / 0x40;
    }
  }

  lemma Digits64(high: int, low: int)
    requires 0 <= low < 0x40
    ensures (high * 0x40 + low) / 0x40 == high && (high * 0x40 + low) % 0x40 == low
  {
  }

  /** The validator's verdict on a front does not change when bytes are appended, unless it was `Cut`. */
  lemma FrontIsStable(s: seq<Byte>, more: seq<Byte>)
    requires s != []
    ensures !FirstSequence(s).Cut? ==> FirstSequence(s + more) == FirstSequence(s)
    ensures FirstSequence(s).Whole? ==> DecodeFirst(s + more) == DecodeFirst(s)
  {
    assert forall i | 0 <= i < |s| :: (s + more)[i] == s[i];
  }

  /** The shortest completion of a cut character. */
  function Completion(s: seq<Byte>): (more: seq<Byte>)
    requires s != [] && FirstSequence(s) == Cut
  {
    var second := if s[0] == 0xE0 then 0xA0 else if s[0] == 0xF0 then 0x90 else 0x80;
    ([second, 0x80, 0x80][|s| - 1..])[..Width(s[0]) - |s|]
  }

  lemma CompletionCompletes(s: seq<Byte>)
    requires s != [] && FirstSequence(s) == Cut
    ensures FirstSequence(s + Completion(s)) == Whole(|s + Completion(s)|)
    ensures Completion(s) != []
  {
    var t := s + Completion(s);
    assert t[0] == s[0] && t[|s|] == Completion(s)[0];
    assert |s| > 1 ==> t[1] == s[1];
    assert |s| > 2 ==> t[2] == s[2];
    assert |t| > |s| + 1 ==> t[|s| + 1] == Completion(s)[1];
    assert |t| > |s| + 2 ==> t[|s| + 2] == Completion(s)[2];
  }

  lemma WholeFits(s: seq<Byte>)
    requires s != []
    ensures FirstSequence(s).Whole? ==> 0 < FirstSequence(s).width <= |s|
  {
  }

  lemma CutMeansSplitChar(s: seq<Byte>)
    requires s != []
    ensures FirstSequence(s) == Cut <==> SplitsOneChar(s)
  {
    if FirstSequence(s) == Cut {
      var t := s + Completion(s);
      CompletionCompletes(s);
      DecodeThenEncodeChar(t);
      assert t[..|t|] == t;
      assert s == EncodeChar(DecodeFirst(t))[..|s|];
    }
    if SplitsOneChar(s) {
      var c: char :| 0 < |s| < |EncodeChar(c)| && s == EncodeChar(c)[..|s|];
      EncodeThenDecodeChar(c, []);
      assert EncodeChar(c) + [] == s + EncodeChar(c)[|s|..];
      FrontIsStable(s, EncodeChar(c)[|s|..]);
      WholeFits(s);
    }
  }

  // ---------- Whole byte strings ----------

  lemma FirstDecoded(s: seq<Byte>)
    requires s != [] && FirstSequence(s).Whole?
    ensures var width := FirstSequence(s).width;
            && 0 < width <= |s|
            && Encode(Decode(s)) == s[..width] + Encode(Decode(s[width..]))
            && ValidUpTo(s) == width + ValidUpTo(s[width..])
            && Rest(s) == Rest(s[width..])
  {
    var width := FirstSequence(s).width;
    DecodeThenEncodeChar(s);
    WholeFits(s);
    hide EncodeChar, FirstSequence, DecodeFirst;
    var tail := Decode(s[width..]);
    assert Decode(s) == [DecodeFirst(s)] + tail;
    assert ([DecodeFirst(s)] + tail)[1..] == tail;
  }

  lemma NothingToDecode()
    ensures Decode([]) == "" && Rest([]) == [] && Acceptable([])
  {
  }

  lemma NothingDecoded(s: seq<Byte>)
    requires s == [] || !FirstSequence(s).Whole?
    ensures Encode(Decode(s)) == [] && ValidUpTo(s) == 0 && Rest(s) == s
  {
  }

  lemma {:induction false} DecodeSplits(s: seq<Byte>)
    ensures Encode(Decode(s)) == s[..ValidUpTo(s)]
    ensures Rest(s) != [] ==> !FirstSequence(Rest(s)).Whole?
    decreases |s|
  {
    hide *;
    if s != [] && FirstSequence(s).Whole? {
      var width := FirstSequence(s).width;
      FirstDecoded(s);
      DecodeSplits(s[width..]);
      assert s[..ValidUpTo(s)] == s[..width] + s[width..][..ValidUpTo(s[width..])];
    } else {
      NothingDecoded(s);
    }
  }

  lemma DecodeOneMore(c: char, more: seq<Byte>)
    ensures Decode(EncodeChar(c) + more) == [c] + Decode(more)
    ensures Rest(EncodeChar(c) + more) == Rest(more)
  {
    EncodeThenDecodeChar(c, more);
    assert (EncodeChar(c) + more)[|EncodeChar(c)|..] == more;
    hide EncodeChar, FirstSequence, DecodeFirst;
    assert Decode(EncodeChar(c) + more) == [c] + Decode(more);
  }

  lemma {:induction false} EncodeThenDecode(text: string, more: seq<Byte>)
    ensures Decode(Encode(text) + more) == text + Decode(more)
    ensures Rest(Encode(text) + more) == Rest(more)
  {
    hide EncodeChar, Decode, Rest;
    if text == "" {
      assert Encode(text) + more == more;
    } else {
      var tail := Encode(text[1..]) + more;
      EncodeThenDecode(text[1..], more);
      DecodeOneMore(text[0], tail);
      assert Encode(text) + more == EncodeChar(text[0]) + tail;
      assert text == [text[0]] + text[1..];
    }
  }

  /** Decoding may be resumed from the bytes left over. */
  lemma DecodeConcat(a: seq<Byte>, b: seq<Byte>)
    ensures Decode(a + b) == Decode(a) + Decode(Rest(a) + b)
    ensures Rest(a + b) == Rest(Rest(a) + b)
  {
    NothingIsLost(a);
    hide *;
    EncodeThenDecode(Decode(a), Rest(a) + b);
    Regroup(Encode(Decode(a)), Rest(a), b);
  }

  lemma BadIsHopeless(s: seq<Byte>, more: seq<Byte>)
    requires !Acceptable(s)
    ensures Decode(s + more) == Decode(s)
    ensures !Acceptable(s + more)
  {
    DecodeSplits(s);
    DecodeConcat(s, more);
    FrontIsStable(Rest(s), more);
    assert Rest(Rest(s) + more) == Rest(s) + more;
    assert Decode(Rest(s) + more) == "";
  }

  lemma WellFormedIffNoRest(s: seq<Byte>)
    ensures WellFormed(s) <==> Rest(s) == []
  {
    DecodeSplits(s);
    if Rest(s) == [] {
      assert s == s[..ValidUpTo(s)];
    }
    if WellFormed(s) {
      var text: string :| Encode(text) == s;
      EncodeThenDecode(text, []);
      assert Encode(text) + [] == s;
    }
  }

  /** Validation accepts a byte string exactly when some continuation of it is well formed. */
  lemma AcceptableIffExtendable(s: seq<Byte>)
    ensures Acceptable(s) <==> Extendable(s)
  {
    DecodeSplits(s);
    if Acceptable(s) {
      var more := if Rest(s) == [] then [] else Completion(Rest(s));
      if Rest(s) != [] {
        CompletionCompletes(Rest(s));
        DecodeConcat(s, more);
        var t := Rest(s) + more;
        assert t[|t|..] == [];
        assert Rest(t) == [];
      } else {
        assert s + more == s;
      }
      WellFormedIffNoRest(s + more);
    }
    if Extendable(s) {
      var more: seq<Byte> :| WellFormed(s + more);
      WellFormedIffNoRest(s + more);
      if !Acceptable(s) {
        BadIsHopeless(s, more);
      }
    }
  }

  /** The left-over bytes of an acceptable string are the beginning of one character: at most three bytes. */
  lemma RestIsSplitChar(s: seq<Byte>)
    requires Acceptable(s) && Rest(s) != []
    ensures SplitsOneChar(Rest(s)) && |Rest(s)| <= 3
  {
    CutMeansSplitChar(Rest(s));
  }

  /** The rest has no valid prefix of its own. */
  lemma RestIsStuck(s: seq<Byte>)
    ensures Decode(Rest(s)) == "" && Rest(Rest(s)) == Rest(s) && ValidUpTo(Rest(s)) == 0
  {
    DecodeSplits(s);
  }

  lemma NothingIsLost(s: seq<Byte>)
    ensures Encode(Decode(s)) + Rest(s) == s
  {
    DecodeSplits(s);
    hide Encode, Decode, ValidUpTo, FirstSequence;
  }

  lemma AppendKeepsBytes(buffer: string, bytes: seq<Byte>)
    ensures Encode(buffer + Decode(bytes)) + Rest(bytes) == Encode(buffer) + bytes
  {
    var before, valid, rest := Encode(buffer), Encode(Decode(bytes)), Rest(bytes);
    NothingIsLost(bytes);
    EncodeConcat(buffer, Decode(bytes));
    hide *;
    assert before + valid + rest == before + (valid + rest);
  }

  // ---------- append_utf8_chunk ----------

  method AppendUtf8Chunk(pending: seq<Byte>, chunk: seq<Byte>, buffer: string)
    returns (ok: bool, pending': seq<Byte>, buffer': string)
    ensures ok <==> Extendable(pending + chunk)
    ensures buffer' == buffer + Decode(pending + chunk) && pending' == Rest(pending + chunk)
    ensures Encode(buffer') + pending' == Encode(buffer) + (pending + chunk)
    ensures ok && pending' != [] ==> SplitsOneChar(pending') && |pending'| <= 3
  {
    var bytes := pending + chunk;
    pending', buffer' := bytes, buffer;
    RestIsStuck(bytes);
    AppendKeepsBytes(buffer, bytes);
    AcceptableIffExtendable(bytes);
    hide Decode, Encode, FirstSequence, Extendable, SplitsOneChar, ValidUpTo;
    while true
      invariant (pending' == bytes && buffer' == buffer)
             || (pending' == Rest(bytes) && buffer' == buffer + Decode(bytes))
      decreases |pending'|
    {
      var validUpTo := ValidUpTo(pending');
      if validUpTo == |pending'| {
        buffer', pending' := buffer' + Decode(pending'), [];
        ok := true;
        break;
      }
      if validUpTo > 0 {
        buffer', pending' := buffer' + Decode(pending'), pending'[validUpTo..];
        continue;
      }
      ok := FirstSequence(pending') == Cut;
      break;
    }
    if ok && pending' != [] {
      RestIsSplitChar(bytes);
    }
  }

  // ---------- Runs of calls ----------

  function Concat(chunks: seq<seq<Byte>>): seq<Byte> {
    if chunks == [] then [] else chunks[0] + Concat(chunks[1..])
  }

  /** Runs `append_utf8_chunk` over `chunks`, stopping at the first error; `None` is that error. */
  ghost function AppendAll(pending: seq<Byte>, text: string, chunks: seq<seq<Byte>>): Option<(string, seq<Byte>)>
    decreases |chunks|
  {
    if chunks == [] then Some((text, pending))
    else if !Acceptable(pending + chunks[0]) then None
    else AppendAll(Rest(pending + chunks[0]), text + Decode(pending + chunks[0]), chunks[1..])
  }

  lemma {:induction false} AppendAllFrom(seen: seq<Byte>, chunks: seq<seq<Byte>>)
    requires Acceptable(seen)
    ensures var run, all := AppendAll(Rest(seen), Decode(seen), chunks), seen + Concat(chunks);
            run == if Acceptable(all) then Some((Decode(all), Rest(all))) else None
    decreases |chunks|
  {
    hide Decode, Rest, Acceptable;
    if chunks == [] {
      assert seen + Concat(chunks) == seen;
    } else {
      var next := seen + chunks[0];
      assert seen + Concat(chunks) == next + Concat(chunks[1..]);
      DecodeConcat(seen, chunks[0]);
      AcceptableConcat(seen, chunks[0]);
      if Acceptable(next) {
        AppendAllFrom(next, chunks[1..]);
      } else {
        BadIsHopeless(next, Concat(chunks[1..]));
      }
    }
  }

  lemma AcceptableConcat(seen: seq<Byte>, chunk: seq<Byte>)
    ensures Acceptable(seen + chunk) <==> Acceptable(Rest(seen) + chunk)
  {
    DecodeConcat(seen, chunk);
  }

  /** A run fails exactly when the bytes received so far cannot be continued to a well-formed string. Otherwise the text
    * and the left-over bytes account for every byte, and at most one character is held back. */
  lemma RunRefinesWholeDecoding(chunks: seq<seq<Byte>>)
    ensures AppendAll([], "", chunks).Some? <==> Extendable(Concat(chunks))
    ensures AppendAll([], "", chunks).Some? ==>
              var (text, pending) := AppendAll([], "", chunks).value;
              && Encode(text) + pending == Concat(chunks)
              && (pending != [] ==> SplitsOneChar(pending) && |pending| <= 3)
              && (WellFormed(Concat(chunks)) <==> pending == [])
  {
    var all := Concat(chunks);
    assert [] + all == all;
    assert Rest([]) == [] && Decode([]) == "" && Acceptable([]);
    AppendAllFrom([], chunks);
    AcceptableIffExtendable(all);
    NothingIsLost(all);
    WellFormedIffNoRest(all);
    hide *;
    if Acceptable(all) && Rest(all) != [] {
      RestIsSplitChar(all);
    }
  }
}
