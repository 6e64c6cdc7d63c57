/** URL-safe base64 without padding (RFC 4648, sections 3.2 and 5), decoded as leniently as Python's binascii does. */
module Base64 {
  import opened Basics

  newtype byte = x: int | 0 <= x < 256

  newtype sextet = x: int | 0 <= x < 64

  function Letter(v: sextet): char {
    if v < 26 then 'A' + v as char
    else if v < 52 then 'a' + (v - 26) as char
    else if v < 62 then '0' + (v - 52) as char
    else if v == 62 then '-' else '_'
  }

  /** The value of a letter; both alphabets are understood, everything else is skipped. */
  function Value(c: char): Option<sextet> {
    if 'A' <= c <= 'Z' then Some((c - 'A') as int as sextet)
    else if 'a' <= c <= 'z' then Some((c - 'a') as int as sextet + 26)
    else if '0' <= c <= '9' then Some((c - '0') as int as sextet + 52)
    else if c == '-' || c == '+' then Some(62)
    else if c == '_' || c == '/' then Some(63)
    else None
  }

  lemma LetterRoundTrip(v: sextet)
    ensures Value(Letter(v)) == Some(v)
    ensures Letter(v) != '=' && Letter(v) < '\U{80}' && !IsSpace(Letter(v))
  {
  }

  // ---- Encoding: three bytes to four letters ----

  function First(a: byte): sextet { (a / 4) as sextet }

  function Second(a: byte, b: byte): sextet { ((a % 4) * 16 + b / 16) as sextet }

  function Third(b: byte, c: byte): sextet { ((b % 16) * 4 + c / 64) as sextet }

  function Fourth(c: byte): sextet { (c % 64) as sextet }

  function Group3(a: byte, b: byte, c: byte): string {
    [Letter(First(a)), Letter(Second(a, b)), Letter(Third(b, c)), Letter(Fourth(c))]
  }

  function Group2(a: byte, b: byte): string { [Letter(First(a)), Letter(Second(a, b)), Letter(Third(b, 0))] }

  function Group1(a: byte): string { [Letter(First(a)), Letter(Second(a, 0))] }

  function Encode(bytes: seq<byte>): string {
    if bytes == [] then ""
    else if |bytes| == 1 then Group1(bytes[0]) + "=="
    else if |bytes| == 2 then Group2(bytes[0], bytes[1]) + "="
    else Group3(bytes[0], bytes[1], bytes[2]) + Encode(bytes[3..])
  }

  function StripPadding(s: string): string {
    if s != "" && s[|s| - 1] == '=' then StripPadding(s[..|s| - 1]) else s
  }

  /** The letters alone. */
  function Unpadded(bytes: seq<byte>): string {
    if bytes == [] then ""
    else if |bytes| == 1 then Group1(bytes[0])
    else if |bytes| == 2 then Group2(bytes[0], bytes[1])
    else Group3(bytes[0], bytes[1], bytes[2]) + Unpadded(bytes[3..])
  }

  function Padding(n: nat): string { seq((4 - n % 4) % 4, i => '=') }

  // ---- Decoding: one character at a time ----

  /** Where the decoder is: letters read of the current four, bits kept from the last one, padding seen, bytes written. */
  datatype State = State(pos: nat, left: sextet, pads: nat, out: seq<byte>)

  datatype Progress = More(state: State) | Done(out: seq<byte>)

  predicate Fits(st: State) {
    st.pos < 4 && (st.pos == 2 ==> st.left < 16) && (st.pos == 3 ==> st.left < 4)
  }

  /** Six more bits: every letter but the first of four completes a byte. */
  function Fed(st: State, v: sextet): (next: State)
    requires Fits(st)
    ensures Fits(next)
  {
    if st.pos == 0 then State(1, v, 0, st.out)
    else if st.pos == 1 then State(2, v % 16, 0, st.out + [((st.left as int * 4 + v as int / 16) % 256) as byte])
    else if st.pos == 2 then State(3, v % 4, 0, st.out + [(st.left as int * 16 + v as int / 4) as byte])
    else State(0, 0, 0, st.out + [(st.left as int * 64 + v as int) as byte])
  }

  function DecodeChar(st: State, c: char): (p: Progress)
    requires Fits(st)
    ensures p.More? ==> Fits(p.state)
  {
    if c == '=' then
      if st.pos >= 2 && st.pos + st.pads + 1 >= 4 then Done(st.out)
      else More(st.(pads := if st.pos >= 2 then st.pads + 1 else st.pads))
    else
      match Value(c)
      case None => More(st)
      case Some(v) => More(Fed(st, v))
  }

  function DecodeFrom(st: State, s: string): Option<seq<byte>>
    requires Fits(st)
    decreases |s|
  {
    if s == "" then if st.pos == 0 then Some(st.out) else None
    else
      match DecodeChar(st, s[0])
      case Done(out) => Some(out)
      case More(next) => DecodeFrom(next, s[1..])
  }

  predicate Ascii(s: string) { forall i :: 0 <= i < |s| ==> s[i] < '\U{80}' }

  function Decode(s: string): Option<seq<byte>> {
    if Ascii(s) then DecodeFrom(State(0, 0, 0, []), s) else None
  }

  // ---- Round trip ----

  lemma DecodeLetter(st: State, v: sextet, rest: string)
    requires Fits(st)
    ensures DecodeFrom(st, [Letter(v)] + rest) == DecodeFrom(Fed(st, v), rest)
  {
    LetterRoundTrip(v);
    assert ([Letter(v)] + rest)[1..] == rest;
  }

  /** The bits a letter leaves over for the next byte. */
  function Top4(b: byte): sextet { (b / 16) as sextet }

  function Top2(c: byte): sextet { (c / 64) as sextet }

  lemma FedSecond(a: byte, b: byte, out: seq<byte>)
    ensures Fed(State(1, First(a), 0, out), Second(a, b)) == State(2, Top4(b), 0, out + [a])
  {
    var x, y := a as int, b as int;
    SplitBySixteen(x % 4, y / 16);
    assert Second(a, b) as int == (x % 4) * 16 + y / 16 && First(a) as int == x / 4;
  }

  lemma SplitBySixteen(high: nat, low: nat)
    requires low < 16
    ensures (high * 16 + low) / 16 == high && (high * 16 + low) % 16 == low
  {
  }

  lemma SplitByFour(high: nat, low: nat)
    requires low < 4
    ensures (high * 4 + low) / 4 == high && (high * 4 + low) % 4 == low
  {
  }

  lemma FedThird(b: byte, c: byte, out: seq<byte>)
    ensures Fed(State(2, Top4(b), 0, out), Third(b, c)) == State(3, Top2(c), 0, out + [b])
  {
    var y, z := b as int, c as int;
    SplitByFour(y % 16, z / 64);
    assert Third(b, c) as int == (y % 16) * 4 + z / 64 && Top4(b) as int == y / 16;
  }

  lemma FedFourth(c: byte, out: seq<byte>)
    ensures Fed(State(3, Top2(c), 0, out), Fourth(c)) == State(0, 0, 0, out + [c])
  {
  }

  /** Two letters give back the first byte, the third the second, the fourth the third. */
  lemma DecodeFirst(out: seq<byte>, a: byte, b: byte, rest: string)
    ensures DecodeFrom(State(0, 0, 0, out), [Letter(First(a)), Letter(Second(a, b))] + rest)
            == DecodeFrom(State(2, Top4(b), 0, out + [a]), rest)
  {
    var x, y := First(a), Second(a, b);
    assert [Letter(x), Letter(y)] + rest == [Letter(x)] + ([Letter(y)] + rest);
    DecodeLetter(State(0, 0, 0, out), x, [Letter(y)] + rest);
    DecodeLetter(State(1, x, 0, out), y, rest);
    FedSecond(a, b, out);
  }

  lemma DecodeSecond(out: seq<byte>, b: byte, c: byte, rest: string)
    ensures DecodeFrom(State(2, Top4(b), 0, out), [Letter(Third(b, c))] + rest) == DecodeFrom(State(3, Top2(c), 0, out + [b]), rest)
  {
    DecodeLetter(State(2, Top4(b), 0, out), Third(b, c), rest);
    FedThird(b, c, out);
  }

  lemma DecodeThird(out: seq<byte>, c: byte, rest: string)
    ensures DecodeFrom(State(3, Top2(c), 0, out), [Letter(Fourth(c))] + rest) == DecodeFrom(State(0, 0, 0, out + [c]), rest)
  {
    DecodeLetter(State(3, Top2(c), 0, out), Fourth(c), rest);
    FedFourth(c, out);
  }

  lemma DecodeFour(out: seq<byte>, a: byte, b: byte, c: byte, rest: string)
    ensures DecodeFrom(State(0, 0, 0, out), Group3(a, b, c) + rest) == DecodeFrom(State(0, 0, 0, out + [a, b, c]), rest)
  {
    var z, w := [Letter(Third(b, c))], [Letter(Fourth(c))];
    SplitGroup(a, b, c, rest);
    DecodeFirst(out, a, b, z + (w + rest));
    DecodeSecond(out + [a], b, c, w + rest);
    DecodeThird(out + [a] + [b], c, rest);
    assert out + [a] + [b] + [c] == out + [a, b, c];
  }

  lemma SplitGroup(a: byte, b: byte, c: byte, rest: string)
    ensures Group3(a, b, c) + rest
            == [Letter(First(a)), Letter(Second(a, b))] + ([Letter(Third(b, c))] + ([Letter(Fourth(c))] + rest))
  {
  }

  lemma DecodeTwo(out: seq<byte>, a: byte)
    ensures DecodeFrom(State(0, 0, 0, out), Group1(a) + "==") == Some(out + [a])
  {
    DecodeFirst(out, a, 0, "==");
    assert "=="[1..] == "=";
  }

  lemma DecodeThree(out: seq<byte>, a: byte, b: byte)
    ensures DecodeFrom(State(0, 0, 0, out), Group2(a, b) + "=") == Some(out + [a, b])
  {
    var g := Group2(a, b);
    DecodeFirst(out, a, b, [g[2]] + "=");
    DecodeSecond(out + [a], b, 0, "=");
    assert g + "=" == [g[0], g[1]] + ([g[2]] + "=");
    assert out + [a] + [b] == out + [a, b];
  }

  lemma {:induction false} DecodeEncoded(out: seq<byte>, bytes: seq<byte>)
    ensures DecodeFrom(State(0, 0, 0, out), Encode(bytes)) == Some(out + bytes)
    decreases |bytes|
  {
    if bytes == [] {
      assert out + bytes == out;
    } else if |bytes| == 1 {
      DecodeTwo(out, bytes[0]);
      assert bytes == [bytes[0]];
    } else if |bytes| == 2 {
      DecodeThree(out, bytes[0], bytes[1]);
      assert bytes == [bytes[0], bytes[1]];
    } else {
      DecodeFour(out, bytes[0], bytes[1], bytes[2], Encode(bytes[3..]));
      DecodeEncoded(out + [bytes[0], bytes[1], bytes[2]], bytes[3..]);
      Regroup(out, bytes);
    }
  }

  lemma Regroup(out: seq<byte>, bytes: seq<byte>)
    requires |bytes| >= 3
    ensures out + [bytes[0], bytes[1], bytes[2]] + bytes[3..] == out + bytes
  {
  }

  predicate Clean(s: string) { forall i :: 0 <= i < |s| ==> s[i] != '=' && s[i] < '\U{80}' && !IsSpace(s[i]) }

  lemma GroupsClean(a: byte, b: byte, c: byte)
    ensures Clean(Group3(a, b, c)) && Clean(Group2(a, b)) && Clean(Group1(a))
  {
    forall v: sextet
      ensures Letter(v) != '=' && Letter(v) < '\U{80}' && !IsSpace(Letter(v))
    {
      LetterRoundTrip(v);
    }
  }

  /** The letters of an encoding: ASCII, no padding, no white space, and all that padding removal leaves. */
  lemma {:induction false} UnpaddedShape(bytes: seq<byte>)
    ensures Clean(Unpadded(bytes))
    ensures Encode(bytes) == Unpadded(bytes) + Padding(|Unpadded(bytes)|)
    ensures bytes != [] ==> Unpadded(bytes) != ""
    decreases |bytes|
  {
    if bytes == [] {
    } else if |bytes| == 1 {
      GroupsClean(bytes[0], 0, 0);
      assert Padding(2) == "==";
    } else if |bytes| == 2 {
      GroupsClean(bytes[0], bytes[1], 0);
      assert Padding(3) == "=";
    } else {
      GroupsClean(bytes[0], bytes[1], bytes[2]);
      UnpaddedShape(bytes[3..]);
      AppendGroup(Group3(bytes[0], bytes[1], bytes[2]), Unpadded(bytes[3..]));
    }
  }

  lemma AppendGroup(g: string, rest: string)
    requires Clean(g) && Clean(rest) && |g| == 4
    ensures Clean(g + rest) && g + (rest + Padding(|rest|)) == (g + rest) + Padding(|g + rest|)
  {
    assert (|g| + |rest|) % 4 == |rest| % 4;
  }

  lemma {:induction false} StripsPadding(s: string, n: nat)
    requires s == "" || s[|s| - 1] != '='
    ensures StripPadding(s + seq(n, i => '=')) == s
  {
    var p := s + seq(n, i => '=');
    if n == 0 {
      assert p == s;
    } else {
      assert p[..|p| - 1] == s + seq(n - 1, i => '=');
      StripsPadding(s, n - 1);
    }
  }

  /** Padding stripped after encoding and put back by length before decoding loses nothing. */
  lemma UnpaddedRoundTrip(bytes: seq<byte>)
    ensures var t := StripPadding(Encode(bytes));
            Decode(t + Padding(|t|)) == Some(bytes)
    ensures Strip(StripPadding(Encode(bytes))) == StripPadding(Encode(bytes))
    ensures bytes != [] ==> StripPadding(Encode(bytes)) != ""
  {
    UnpaddedShape(bytes);
    var t := Unpadded(bytes);
    PaddingStripped(t);
    PaddedIsAscii(t);
    DecodeEncoded([], bytes);
    assert [] + bytes == bytes;
    StripTrims(t);
  }

  lemma PaddingStripped(t: string)
    requires Clean(t)
    ensures StripPadding(t + Padding(|t|)) == t
  {
    StripsPadding(t, (4 - |t| % 4) % 4);
  }

  lemma PaddedIsAscii(t: string)
    requires Clean(t)
    ensures Ascii(t + Padding(|t|))
  {
    assert forall i :: 0 <= i < |Padding(|t|)| ==> Padding(|t|)[i] == '=';
  }
}
