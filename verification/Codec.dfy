/** The packet generator's template: one binary encoder and decoder over any list of field types. */
module Codec {
  import opened Prelude
  import opened Arithmetic

  /** The supported Go types: string, []uint16, and the signed and unsigned integers of 1, 2, 4 or 8 bytes. */
  datatype FieldType = Text | Words | Integer(width: nat, signed: bool)

  datatype Value = TextValue(bytes: seq<byte>) | WordsValue(words: seq<uint16>) | IntValue(n: int)

  datatype Parsed<+T> = Short | Parsed(value: T, rest: seq<byte>)

  predicate Supported(t: FieldType) {
    t.Integer? ==> t.width in {1, 2, 4, 8}
  }

  function Pow256(w: nat): (p: nat)
    ensures p > 0
  {
    if w == 0 then 1 else 256 * Pow256(w - 1)
  }

  predicate HasType(v: Value, t: FieldType) {
    match t
    case Text => v.TextValue?
    case Words => v.WordsValue?
    case Integer(w, signed) =>
      v.IntValue? && w > 0 &&
      if signed then -128 * Pow256(w - 1) <= v.n < 128 * Pow256(w - 1) else 0 <= v.n < Pow256(w)
  }

  ghost predicate Typed(vs: seq<Value>, ts: seq<FieldType>) {
    |vs| == |ts| && forall k :: 0 <= k < |ts| ==> HasType(vs[k], ts[k])
  }

  /** A string or list whose length fits its length byte. */
  predicate Fits(v: Value) {
    match v
    case TextValue(bytes) => |bytes| <= 255
    case WordsValue(words) => |words| <= 255
    case IntValue(_) => true
  }

  ghost predicate AllFit(vs: seq<Value>) {
    forall k :: 0 <= k < |vs| ==> Fits(vs[k])
  }

  // ---- Writing ----

  function BigEndian(n: nat, w: nat): (b: seq<byte>)
    ensures |b| == w
    decreases w
  {
    if w == 0 then [] else BigEndian(n / 256, w - 1) + [n % 256]
  }

  function WordsBytes(words: seq<uint16>): (b: seq<byte>)
    ensures |b| == 2 * |words|
  {
    if words == [] then [] else BigEndian(words[0], 2) + WordsBytes(words[1..])
  }

  /** Two's complement in w bytes. */
  function ToWire(n: int, w: nat): nat
    requires 0 <= n + Pow256(w)
  {
    if n < 0 then n + Pow256(w) else n
  }

  /** The length byte is a truncating conversion; the elements are written in full. */
  function Put(t: FieldType, v: Value): seq<byte>
    requires HasType(v, t)
  {
    match t
    case Text => [|v.bytes| % 256] + v.bytes
    case Words => [|v.words| % 256] + WordsBytes(v.words)
    case Integer(w, _) => BigEndian(ToWire(v.n, w), w)
  }

  function Encode(ts: seq<FieldType>, vs: seq<Value>): seq<byte>
    requires Typed(vs, ts)
  {
    if ts == [] then [] else Put(ts[0], vs[0]) + Encode(ts[1..], vs[1..])
  }

  // ---- Reading ----

  function Take(input: seq<byte>, n: nat): Parsed<seq<byte>> {
    if n <= |input| then Parsed(input[..n], input[n..]) else Short
  }

  function FromBigEndian(b: seq<byte>): (n: nat)
    ensures n < Pow256(|b|)
  {
    if b == [] then 0 else FromBigEndian(b[..|b| - 1]) * 256 + b[|b| - 1]
  }

  function FromWire(u: nat, w: nat, signed: bool): int
    requires w > 0
  {
    if signed && u >= 128 * Pow256(w - 1) then u - Pow256(w) else u
  }

  function Word(high: byte, low: byte): uint16 {
    var h: int, l: int := high, low;
    h * 256 + l
  }

  function ToWords(b: seq<byte>): (words: seq<uint16>)
    ensures |words| == |b| / 2
  {
    if |b| < 2 then [] else [Word(b[0], b[1])] + ToWords(b[2..])
  }

  function GetText(input: seq<byte>): Parsed<seq<byte>> {
    if input == [] then Short else Take(input[1..], input[0])
  }

  function GetWords(input: seq<byte>): Parsed<seq<uint16>> {
    if input == [] then Short
    else
      var length: int := input[0];
      match Take(input[1..], 2 * length)
      case Short => Short
      case Parsed(b, rest) => Parsed(ToWords(b), rest)
  }

  function GetInt(input: seq<byte>, w: nat, signed: bool): (got: Parsed<int>)
    requires w > 0
    ensures got.Parsed? ==> HasType(IntValue(got.value), Integer(w, signed))
  {
    match Take(input, w)
    case Short => Short
    case Parsed(b, rest) => Parsed(FromWire(FromBigEndian(b), w, signed), rest)
  }

  function Get(t: FieldType, input: seq<byte>): (got: Parsed<Value>)
    requires Supported(t)
    ensures got.Parsed? ==> HasType(got.value, t) && |got.rest| <= |input|
  {
    match t
    case Text => (match GetText(input) case Short => Short case Parsed(b, rest) => Parsed(TextValue(b), rest))
    case Words => (match GetWords(input) case Short => Short case Parsed(ws, rest) => Parsed(WordsValue(ws), rest))
    case Integer(w, signed) =>
      (match GetInt(input, w, signed) case Short => Short case Parsed(n, rest) => Parsed(IntValue(n), rest))
  }

  ghost predicate AllSupported(ts: seq<FieldType>) {
    forall k :: 0 <= k < |ts| ==> Supported(ts[k])
  }

  function Decode(ts: seq<FieldType>, input: seq<byte>): (got: Parsed<seq<Value>>)
    requires AllSupported(ts)
    ensures got.Parsed? ==> |got.rest| <= |input|
  {
    if ts == [] then Parsed([], input)
    else match Get(ts[0], input)
      case Short => Short
      case Parsed(v, rest) =>
        match Decode(ts[1..], rest)
        case Short => Short
        case Parsed(vs, end) => Parsed([v] + vs, end)
  }

  lemma {:induction false} DecodedIsTyped(ts: seq<FieldType>, input: seq<byte>)
    requires AllSupported(ts)
    ensures Decode(ts, input).Parsed? ==> Typed(Decode(ts, input).value, ts)
    decreases |ts|
  {
    if ts != [] && Get(ts[0], input).Parsed? {
      DecodedIsTyped(ts[1..], Get(ts[0], input).rest);
    }
  }

  // ---- Round trips ----

  lemma {:induction false} BigEndianBack(n: nat, w: nat)
    requires n < Pow256(w)
    ensures FromBigEndian(BigEndian(n, w)) == n
    decreases w
  {
    if w > 0 {
      BigEndianBack(n / 256, w - 1);
      assert BigEndian(n, w)[..w - 1] == BigEndian(n / 256, w - 1);
    }
  }

  /** Byte i is the digit of weight 256 to the power w-1-i: the most significant comes first. */
  lemma {:induction false} BigEndianDigits(n: nat, w: nat, i: nat)
    requires i < w
    ensures BigEndian(n, w)[i] == n / Pow256(w - 1 - i) % 256
    decreases w
  {
    if i == w - 1 {
      assert Pow256(0) == 1;
    } else {
      BigEndianDigits(n / 256, w - 1, i);
      assert BigEndian(n, w)[i] == BigEndian(n / 256, w - 1)[i];
      DivideTwice(n, Pow256(w - 2 - i));
    }
  }

  lemma DivideTwice(n: nat, p: nat)
    requires p > 0
    ensures n / 256 / p == n / (256 * p)
  {
    var a := n / 256;
    var q := a / p;
    assert p * q <= a < p * q + p;
    assert 256 * (p * q) <= n < 256 * (p * q) + 256 * p;
    Distribute(256 * p, q);
    QuotientIs(n, 256 * p, q);
  }

  lemma WireBack(n: int, w: nat, signed: bool)
    requires w > 0 && HasType(IntValue(n), Integer(w, signed))
    ensures ToWire(n, w) < Pow256(w) && FromWire(ToWire(n, w), w, signed) == n
    ensures ToWire(n, w) == n || ToWire(n, w) == n + Pow256(w)
  {
    assert Pow256(w) == 256 * Pow256(w - 1);
  }

  lemma ToWordsCons(high: byte, low: byte, rest: seq<byte>)
    ensures ToWords([high, low] + rest) == [Word(high, low)] + ToWords(rest)
  {
    var b := [high, low] + rest;
    assert b[0] == high && b[1] == low;
    assert b[2..] == rest;
  }

  lemma {:induction false} WordsBack(words: seq<uint16>)
    ensures ToWords(WordsBytes(words)) == words
    decreases |words|
  {
    if words != [] {
      TwoBytes(words[0]);
      ToWordsCons(words[0] / 256, words[0] % 256, WordsBytes(words[1..]));
      WordsBack(words[1..]);
    }
  }

  lemma TwoBytes(n: uint16)
    ensures BigEndian(n, 2) == [n / 256, n % 256]
  {
    assert BigEndian(n / 256, 1) == BigEndian(n / 256 / 256, 0) + [n / 256 % 256];
  }

  /** Taking back what was put in front. */
  lemma TakeFront(a: seq<byte>, suffix: seq<byte>)
    ensures Take(a + suffix, |a|) == Parsed(a, suffix)
  {
    assert (a + suffix)[..|a|] == a && (a + suffix)[|a|..] == suffix;
  }

  lemma TextRoundTrip(bytes: seq<byte>, suffix: seq<byte>)
    ensures var got := GetText(Put(Text, TextValue(bytes)) + suffix);
            if |bytes| <= 255 then got == Parsed(bytes, suffix) else got.Short? || got.value != bytes
  {
    var input := Put(Text, TextValue(bytes)) + suffix;
    assert input[1..] == bytes + suffix;
    TakeFront(bytes, suffix);
  }

  lemma GetWordsBehind(length: byte, body: seq<byte>)
    ensures var count: int := length;
            GetWords([length] + body) ==
            match Take(body, 2 * count)
            case Short => Short
            case Parsed(b, rest) => Parsed(ToWords(b), rest)
  {
    assert ([length] + body)[1..] == body;
  }

  lemma WordsRoundTrip(words: seq<uint16>, suffix: seq<byte>)
    ensures var got := GetWords(Put(Words, WordsValue(words)) + suffix);
            if |words| <= 255 then got == Parsed(words, suffix) else got.Short? || got.value != words
  {
    var body := WordsBytes(words) + suffix;
    assert Put(Words, WordsValue(words)) + suffix == [|words| % 256] + body;
    GetWordsBehind(|words| % 256, body);
    if |words| <= 255 {
      WordsBack(words);
      TakeFront(WordsBytes(words), suffix);
    }
  }

  lemma IntRoundTrip(n: int, w: nat, signed: bool, suffix: seq<byte>)
    requires w > 0 && HasType(IntValue(n), Integer(w, signed))
    ensures GetInt(Put(Integer(w, signed), IntValue(n)) + suffix, w, signed) == Parsed(n, suffix)
  {
    WireBack(n, w, signed);
    TakeFront(BigEndian(ToWire(n, w), w), suffix);
    BigEndianBack(ToWire(n, w), w);
  }

  /** One field comes back, with the suffix untouched, exactly when its length fits the length byte. */
  lemma FieldRoundTrip(t: FieldType, v: Value, suffix: seq<byte>)
    requires Supported(t) && HasType(v, t)
    ensures var got := Get(t, Put(t, v) + suffix);
            if Fits(v) then got == Parsed(v, suffix) else got.Short? || got.value != v
  {
    match t
    case Text => TextRoundTrip(v.bytes, suffix);
    case Words => WordsRoundTrip(v.words, suffix);
    case Integer(w, signed) => IntRoundTrip(v.n, w, signed, suffix);
  }

  lemma FitsFirst(vs: seq<Value>)
    requires vs != []
    ensures AllFit(vs) <==> Fits(vs[0]) && AllFit(vs[1..])
  {
    assert forall k :: 1 <= k < |vs| ==> vs[k] == vs[1..][k - 1];
  }

  /** Decoding an encoding followed by any suffix returns the values and leaves exactly the suffix,
      if and only if every string and list has at most 255 elements. */
  lemma {:induction false} RoundTrip(ts: seq<FieldType>, vs: seq<Value>, suffix: seq<byte>)
    requires AllSupported(ts) && Typed(vs, ts)
    ensures Decode(ts, Encode(ts, vs) + suffix) == Parsed(vs, suffix) <==> AllFit(vs)
    decreases |ts|
  {
    if ts != [] {
      var tail := Encode(ts[1..], vs[1..]) + suffix;
      assert Encode(ts, vs) + suffix == Put(ts[0], vs[0]) + tail;
      var input := Encode(ts, vs) + suffix;
      FieldRoundTrip(ts[0], vs[0], tail);
      FitsFirst(vs);
      RoundTrip(ts[1..], vs[1..], suffix);
      DecodeFirst(ts, input, Get(ts[0], input), vs, suffix);
    }
  }

  lemma DecodeFirst(ts: seq<FieldType>, input: seq<byte>, first: Parsed<Value>, vs: seq<Value>, suffix: seq<byte>)
    requires AllSupported(ts) && ts != [] && vs != [] && first == Get(ts[0], input)
    ensures Decode(ts, input) == Parsed(vs, suffix) <==>
            first.Parsed? && first.value == vs[0] && Decode(ts[1..], first.rest) == Parsed(vs[1..], suffix)
  {
    assert vs == [vs[0]] + vs[1..];
    if first.Parsed? && Decode(ts[1..], first.rest).Parsed? {
      var whole := [first.value] + Decode(ts[1..], first.rest).value;
      assert whole[0] == first.value && whole[1..] == Decode(ts[1..], first.rest).value;
    }
  }

  /** Encodings delimit themselves: what follows cannot change how the front reads. */
  lemma SelfDelimiting(ts: seq<FieldType>, a: seq<Value>, b: seq<Value>, x: seq<byte>, y: seq<byte>)
    requires AllSupported(ts) && Typed(a, ts) && Typed(b, ts) && AllFit(a) && AllFit(b)
    requires Encode(ts, a) + x == Encode(ts, b) + y
    ensures a == b && x == y
  {
    RoundTrip(ts, a, x);
    RoundTrip(ts, b, y);
  }

  /** Cut anywhere, an encoding is recognised as incomplete. */
  lemma {:induction false} CutIsShort(ts: seq<FieldType>, vs: seq<Value>, k: nat)
    requires AllSupported(ts) && Typed(vs, ts) && AllFit(vs) && k < |Encode(ts, vs)|
    ensures Decode(ts, Encode(ts, vs)[..k]).Short?
    decreases |ts|
  {
    var first := Put(ts[0], vs[0]);
    var whole := Encode(ts, vs);
    if k < |first| {
      assert whole[..k] == first[..k];
      CutField(ts[0], vs[0], k);
    } else {
      var tail := Encode(ts[1..], vs[1..]);
      assert whole[..k] == first + tail[..k - |first|];
      FieldRoundTrip(ts[0], vs[0], tail[..k - |first|]);
      CutIsShort(ts[1..], vs[1..], k - |first|);
    }
  }

  lemma CutField(t: FieldType, v: Value, k: nat)
    requires Supported(t) && HasType(v, t) && Fits(v) && k < |Put(t, v)|
    ensures Get(t, Put(t, v)[..k]).Short?
  {
  }

  /** What is decoded when these values come in front. */
  function Behind(front: seq<Value>, more: Parsed<seq<Value>>): Parsed<seq<Value>> {
    match more
    case Short => Short
    case Parsed(vs, rest) => Parsed(front + vs, rest)
  }

  lemma BehindBehind(a: seq<Value>, b: seq<Value>, more: Parsed<seq<Value>>)
    ensures Behind(a, Behind(b, more)) == Behind(a + b, more)
  {
    if more.Parsed? {
      assert a + (b + more.value) == (a + b) + more.value;
    }
  }

  /** Part-way through decoding: the first i fields are got, the reader stands at now. */
  ghost predicate Progress(ts: seq<FieldType>, start: seq<byte>, i: nat, got: seq<Value>, now: seq<byte>)
    requires AllSupported(ts) && i <= |ts|
  {
    Decode(ts, start) == Behind(got, Decode(ts[i..], now))
  }

  lemma ProgressStart(ts: seq<FieldType>, start: seq<byte>)
    requires AllSupported(ts)
    ensures Progress(ts, start, 0, [], start)
  {
    assert ts[0..] == ts;
    var all := Decode(ts, start);
    if all.Parsed? {
      assert [] + all.value == all.value;
    }
  }

  lemma DecodeHere(ts: seq<FieldType>, i: nat, now: seq<byte>)
    requires AllSupported(ts) && i < |ts|
    ensures Decode(ts[i..], now) ==
            match Get(ts[i], now)
            case Short => Short
            case Parsed(v, rest) => Behind([v], Decode(ts[i + 1..], rest))
  {
    assert ts[i..][1..] == ts[i + 1..];
  }

  lemma ProgressNext(ts: seq<FieldType>, start: seq<byte>, i: nat, got: seq<Value>, now: seq<byte>)
    requires AllSupported(ts) && i < |ts| && Progress(ts, start, i, got, now)
    ensures match Get(ts[i], now)
            case Short => Decode(ts, start) == Short
            case Parsed(v, rest) => Progress(ts, start, i + 1, got + [v], rest)
  {
    DecodeHere(ts, i, now);
    var field := Get(ts[i], now);
    if field.Parsed? {
      BehindBehind(got, [field.value], Decode(ts[i + 1..], field.rest));
    }
  }

  lemma ProgressEnd(ts: seq<FieldType>, start: seq<byte>, got: seq<Value>, now: seq<byte>)
    requires AllSupported(ts) && Progress(ts, start, |ts|, got, now)
    ensures Decode(ts, start) == Parsed(got, now)
  {
    assert got + [] == got;
  }

  // ---- The generated methods ----

  /** An io.Reader over the bytes not yet consumed; every read gives all it was asked for or an error. */
  class Reader {
    var input: seq<byte>

    constructor (input: seq<byte>)
      ensures this.input == input
    {
      this.input := input;
    }

    /** After a short read what is left of the input is not stated: the source's Read has consumed it. */
    method ReadN(n: nat) returns (b: Option<seq<byte>>)
      modifies this
      ensures match Take(old(input), n)
              case Short => b == None
              case Parsed(bytes, rest) => b == Some(bytes) && input == rest
    {
      if n > |input| {
        input := [];
        return None;
      }
      b := Some(input[..n]);
      input := input[n..];
    }

    method ReadByte() returns (b: Option<byte>)
      modifies this
      ensures if old(input) == [] then b == None else b == Some(old(input)[0]) && input == old(input)[1..]
    {
      var buf := ReadN(1);
      if buf.None? {
        return None;
      }
      b := Some(buf.value[0]);
    }

    method ReadText() returns (text: Option<seq<byte>>)
      modifies this
      ensures match GetText(old(input))
              case Short => text == None
              case Parsed(bytes, rest) => text == Some(bytes) && input == rest
    {
      var length := ReadByte();
      if length.None? {
        return None;
      }
      text := ReadN(length.value);
    }

    method ReadWords() returns (words: Option<seq<uint16>>)
      modifies this
      ensures match GetWords(old(input))
              case Short => words == None
              case Parsed(ws, rest) => words == Some(ws) && input == rest
    {
      var length := ReadByte();
      if length.None? {
        return None;
      }
      var count: int := length.value;
      var buf := ReadN(2 * count);
      words := if buf.None? then None else Some(ToWords(buf.value));
    }

    method ReadInt(w: nat, signed: bool) returns (n: Option<int>)
      requires w > 0
      modifies this
      ensures match GetInt(old(input), w, signed)
              case Short => n == None
              case Parsed(v, rest) => n == Some(v) && input == rest
    {
      var buf := ReadN(w);
      n := if buf.None? then None else Some(FromWire(FromBigEndian(buf.value), w, signed));
    }

    /** Reading field i of a struct part-way decoded: a string, a list or an unsigned integer. */
    method NextText(ghost ts: seq<FieldType>, ghost start: seq<byte>, ghost i: nat, ghost got: seq<Value>)
      returns (text: Option<seq<byte>>)
      requires AllSupported(ts) && i < |ts| && ts[i] == Text && Progress(ts, start, i, got, input)
      modifies this
      ensures match text
              case None => Decode(ts, start) == Short
              case Some(bytes) => Progress(ts, start, i + 1, got + [TextValue(bytes)], input)
    {
      ProgressNext(ts, start, i, got, input);
      text := ReadText();
    }

    method NextWords(ghost ts: seq<FieldType>, ghost start: seq<byte>, ghost i: nat, ghost got: seq<Value>)
      returns (words: Option<seq<uint16>>)
      requires AllSupported(ts) && i < |ts| && ts[i] == Words && Progress(ts, start, i, got, input)
      modifies this
      ensures match words
              case None => Decode(ts, start) == Short
              case Some(ws) => Progress(ts, start, i + 1, got + [WordsValue(ws)], input)
    {
      ProgressNext(ts, start, i, got, input);
      words := ReadWords();
    }

    method NextInt(w: nat, ghost ts: seq<FieldType>, ghost start: seq<byte>, ghost i: nat, ghost got: seq<Value>)
      returns (n: Option<int>)
      requires AllSupported(ts) && i < |ts| && w > 0 && ts[i] == Integer(w, false) && Progress(ts, start, i, got, input)
      modifies this
      ensures match n
              case None => Decode(ts, start) == Short
              case Some(v) => 0 <= v < Pow256(w) && Progress(ts, start, i + 1, got + [IntValue(v)], input)
    {
      ProgressNext(ts, start, i, got, input);
      n := ReadInt(w, false);
    }

    method ReadField(t: FieldType) returns (v: Option<Value>)
      requires Supported(t)
      modifies this
      ensures match Get(t, old(input))
              case Short => v == None
              case Parsed(value, rest) => v == Some(value) && input == rest
    {
      match t
      case Text =>
        var text := ReadText();
        v := if text.None? then None else Some(TextValue(text.value));
      case Words =>
        var words := ReadWords();
        v := if words.None? then None else Some(WordsValue(words.value));
      case Integer(w, signed) =>
        var n := ReadInt(w, signed);
        v := if n.None? then None else Some(IntValue(n.value));
    }
  }

  lemma EncodeAppend(ts: seq<FieldType>, vs: seq<Value>, t: FieldType, v: Value)
    requires Typed(vs, ts) && HasType(v, t)
    ensures Encode(ts + [t], vs + [v]) == Encode(ts, vs) + Put(t, v)
    decreases |ts|
  {
    if ts == [] {
      assert (ts + [t])[1..] == [] && Put(t, v) + [] == Put(t, v);
    } else {
      assert (ts + [t])[1..] == ts[1..] + [t] && (vs + [v])[1..] == vs[1..] + [v];
      EncodeAppend(ts[1..], vs[1..], t, v);
    }
  }

  /** The buffer after the opcode and the first i fields. */
  ghost function Buffered(opcode: byte, ts: seq<FieldType>, vs: seq<Value>, i: nat): seq<byte>
    requires Typed(vs, ts) && i <= |ts|
  {
    [opcode] + Encode(ts[..i], vs[..i])
  }

  lemma BufferedNext(opcode: byte, ts: seq<FieldType>, vs: seq<Value>, i: nat)
    requires Typed(vs, ts) && i < |ts|
    ensures Buffered(opcode, ts, vs, i + 1) == Buffered(opcode, ts, vs, i) + Put(ts[i], vs[i])
  {
    var ts0, vs0, t, v := ts[..i], vs[..i], ts[i], vs[i];
    assert ts[..i + 1] == ts0 + [t];
    assert vs[..i + 1] == vs0 + [v];
    EncodeAppend(ts0, vs0, t, v);
    Associative([opcode], Encode(ts0, vs0), Put(t, v));
  }

  lemma Associative(a: seq<byte>, b: seq<byte>, c: seq<byte>)
    ensures a + (b + c) == (a + b) + c
  {
  }

  lemma BufferedInt(opcode: byte, ts: seq<FieldType>, vs: seq<Value>, i: nat, w: nat, n: nat)
    requires Typed(vs, ts) && i < |ts| && ts[i] == Integer(w, false) && vs[i] == IntValue(n)
    ensures Buffered(opcode, ts, vs, i + 1) == Buffered(opcode, ts, vs, i) + BigEndian(n, w)
  {
    BufferedNext(opcode, ts, vs, i);
  }

  lemma BufferedAll(opcode: byte, ts: seq<FieldType>, vs: seq<Value>)
    requires Typed(vs, ts)
    ensures Buffered(opcode, ts, vs, 0) == [opcode]
    ensures Buffered(opcode, ts, vs, |ts|) == [opcode] + Encode(ts, vs)
  {
    assert ts[..|ts|] == ts && vs[..|ts|] == vs;
  }

  /** The generated Marshal of a struct with these fields. */
  method Marshal(opcode: byte, ts: seq<FieldType>, vs: seq<Value>) returns (b: seq<byte>)
    requires Typed(vs, ts)
    ensures b == [opcode] + Encode(ts, vs)
  {
    b := [opcode];
    BufferedAll(opcode, ts, vs);
    for i := 0 to |ts|
      invariant b == Buffered(opcode, ts, vs, i)
    {
      BufferedNext(opcode, ts, vs, i);
      b := b + Put(ts[i], vs[i]);
    }
  }

  /** The generated Unmarshal of a struct with these fields. */
  method Unmarshal(r: Reader, ts: seq<FieldType>) returns (vs: Option<seq<Value>>)
    requires AllSupported(ts)
    modifies r
    ensures match Decode(ts, old(r.input))
            case Short => vs == None
            case Parsed(values, rest) => vs == Some(values) && r.input == rest
  {
    var got: seq<Value> := [];
    ProgressStart(ts, r.input);
    for i := 0 to |ts|
      invariant Progress(ts, old(r.input), i, got, r.input)
    {
      ProgressNext(ts, old(r.input), i, got, r.input);
      var v := r.ReadField(ts[i]);
      if v.None? {
        return None;
      }
      got := got + [v.value];
    }
    ProgressEnd(ts, old(r.input), got, r.input);
    return Some(got);
  }
}
