/**
 Packing a signed channel pointer and its bundle into one transaction asset,
 and unpacking it again.
 */
module ChannelTransaction {
  import opened Prelude
  import Decimal
  import opened Base64

  const MAX_POINTER_BYTES: nat := 1024 * 1024
  const MAX_BUNDLE_BYTES: nat := 8 * 1024 * 1024
  const MAX_TRANSACTION_BYTES: nat := 16 * 1024 * 1024

  predicate IsChannel(s: string) { s == "stable" || s == "dev" || s == "nightly" }

  predicate IsGeneration(g: int) { 0 < g <= Decimal.MAX_GENERATION }

  /** The six fields of a transaction object. */
  datatype Document = Document(version: int, kind: string, channel: string, generation: int, pointer64: string, bundle64: string)

  const KIND: string := "aos-channel-transaction"

  const OPEN: string := "{\"channel\":\""
  const POINTER_KEY: string := "\",\"channel-toml-base64\":\""
  const GENERATION_KEY: string := "\",\"generation\":"
  const SCHEMA_KEYS: string := "," + "\"kind\":\"aos-channel-transaction\",\"schema-version\":1,\"sigstore-bundle-base64\":\""
  const CLOSE: string := "\"}\n"

  /** The fixed texts around the four fields. */
  datatype Frame = Frame(open: string, pointer: string, generation: string, schema: string, close: string)

  const FRAME: Frame := Frame(OPEN, POINTER_KEY, GENERATION_KEY, SCHEMA_KEYS, CLOSE)

  datatype Fields = Fields(channel: string, pointer64: string, numeral: string, bundle64: string)

  function Write(f: Frame, d: Fields): string {
    f.open + (d.channel + (f.pointer + (d.pointer64 + (f.generation + (d.numeral + (f.schema + (d.bundle64 + f.close)))))))
  }

  /** The exact text written: keys in order, no spaces, one final newline. Its
      strings hold nothing JSON escapes. */
  function Dump(channel: string, generation: nat, pointer64: string, bundle64: string): string {
    Write(FRAME, Fields(channel, pointer64, Decimal.Print(generation), bundle64))
  }

  /** `pack`, but for the file system. */
  function Pack(channel: string, generation: int, pointer: seq<Byte>, bundle: seq<Byte>): Result<string> {
    if !IsChannel(channel) then Err("channel must be stable, dev, or nightly")
    else if !IsGeneration(generation) then Err("generation out of range")
    else if !(0 < |pointer| <= MAX_POINTER_BYTES) then Err("channel pointer has an invalid size")
    else if !(0 < |bundle| <= MAX_BUNDLE_BYTES) then Err("Sigstore bundle has an invalid size")
    else
      var text := Dump(channel, generation, Encode(pointer), Encode(bundle));
      if |text| <= MAX_TRANSACTION_BYTES then Ok(text) else Err("transaction is too large")
  }

  /** `decode` on a string. */
  function DecodeField(value: string, maximum: nat): Result<seq<Byte>> {
    if value == "" then Err("must be non-empty base64")
    else if !HasShape(value) then Err("is malformed")
    else
      match Decode(value)
      case None => Err("is malformed")
      case Some(bytes) => if 0 < |bytes| <= maximum then Ok(bytes) else Err("has an invalid decoded size")
  }

  /** What `json.loads` makes of a text: the six-field object, if it is one. */
  type Loads = string -> Option<Document>

  /** `load_transaction`. */
  function Load(loads: Loads, text: string): Result<Document> {
    if !(0 < |text| <= MAX_TRANSACTION_BYTES) then Err("transaction has an invalid size")
    else
      match loads(text)
      case None => Err("not a transaction object")
      case Some(d) =>
        if d.version != 1 then Err("transaction schema-version must be integer 1")
        else if d.kind != KIND then Err("transaction kind is invalid")
        else if !IsChannel(d.channel) then Err("channel must be stable, dev, or nightly")
        else if !IsGeneration(d.generation) then Err("generation out of range")
        else Ok(d)
  }

  datatype Files = Files(pointer: seq<Byte>, bundle: seq<Byte>)

  /** `unpack`, up to writing its two files. */
  function Unpack(loads: Loads, text: string, channel: string, generation: int): Result<Files> {
    match Load(loads, text)
    case Err(e) => Err(e)
    case Ok(d) =>
      if d.channel != channel then Err("transaction channel does not match")
      else if d.generation != generation then Err("transaction generation does not match")
      else
        match DecodeField(d.pointer64, MAX_POINTER_BYTES)
        case Err(e) => Err(e)
        case Ok(pointer) =>
          match DecodeField(d.bundle64, MAX_BUNDLE_BYTES)
          case Err(e) => Err(e)
          case Ok(bundle) => Ok(Files(pointer, bundle))
  }

  /** Text with nothing in it that JSON writes any other way. */
  predicate IsPlain(s: string) { forall i :: 0 <= i < |s| ==> s[i] != '"' && s[i] != '\\' && ' ' <= s[i] <= '~' }

  /** JSON reads back what JSON wrote, for transactions as `pack` writes them. */
  ghost predicate LoadsDumps(loads: Loads) {
    forall channel, generation: nat, pointer64, bundle64 {:trigger Dump(channel, generation, pointer64, bundle64)} ::
      IsChannel(channel) && IsGeneration(generation) && IsPlain(pointer64) && IsPlain(bundle64) ==>
        loads(Dump(channel, generation, pointer64, bundle64)) == Some(Document(1, KIND, channel, generation, pointer64, bundle64))
  }

  // ---- A reader that does ----

  /** What follows an expected text. */
  function Skip(text: string, expected: string): Option<string> {
    if expected <= text then Some(text[|expected|..]) else None
  }

  /** The longest start of a text without the given character. */
  function UntilFrom(text: string, c: char, i: nat): (k: nat)
    requires i <= |text|
    ensures i <= k <= |text| && (k < |text| ==> text[k] == c) && forall j :: i <= j < k ==> text[j] != c
    decreases |text| - i
  {
    if i == |text| || text[i] == c then i else UntilFrom(text, c, i + 1)
  }

  function Until(text: string, c: char): string { text[..UntilFrom(text, c, 0)] }

  /** A field up to `stop`, and the text after it and after `expected`. */
  function Field(text: string, stop: char, expected: string): Option<(string, string)> {
    match Skip(text[|Until(text, stop)|..], expected)
    case None => None
    case Some(rest) => Some((Until(text, stop), rest))
  }

  /** Fields, each followed by its separator. */
  function WriteAll(fields: seq<string>, separators: seq<string>): string
    requires |fields| == |separators|
  {
    if fields == [] then [] else fields[0] + (separators[0] + WriteAll(fields[1..], separators[1..]))
  }

  /** Each field runs up to the first character of its separator. */
  function ReadAll(text: string, separators: seq<string>): (r: Option<seq<string>>)
    ensures r.Some? ==> |r.value| == |separators|
    decreases |separators|
  {
    if separators == [] then if text == [] then Some([]) else None
    else if separators[0] == [] then None
    else
      match Field(text, separators[0][0], separators[0])
      case None => None
      case Some((field, rest)) =>
        match ReadAll(rest, separators[1..])
        case None => None
        case Some(fields) => Some([field] + fields)
  }

  function Separators(f: Frame): seq<string> { [f.pointer, f.generation, f.schema, f.close] }

  function Split(f: Frame, text: string): Option<Fields> {
    match Skip(text, f.open)
    case None => None
    case Some(rest) =>
      match ReadAll(rest, Separators(f))
      case None => None
      case Some(fs) => Some(Fields(fs[0], fs[1], fs[2], fs[3]))
  }

  /** Reads exactly the texts that `Dump` writes. */
  function ReadDump(text: string): Option<Document> {
    match Split(FRAME, text)
    case None => None
    case Some(d) =>
      if Decimal.IsGenerationText(d.numeral) then
        Some(Document(1, KIND, d.channel, Decimal.Value(d.numeral), d.pointer64, d.bundle64))
      else None
  }

  lemma {:induction false} FieldIs(field: string, stop: char, expected: string, rest: string)
    requires stop !in field && expected != "" && expected[0] == stop
    ensures Field(field + (expected + rest), stop, expected) == Some((field, rest))
  {
    var text := field + (expected + rest);
    assert text[|field|] == stop && forall j :: 0 <= j < |field| ==> text[j] == field[j];
    assert UntilFrom(text, stop, 0) == |field|;
    assert text[..|field|] == field && text[|field|..] == expected + rest;
    assert (expected + rest)[|expected|..] == rest;
  }

  /** The assumption on JSON can be met. */
  lemma {:induction false} ReaderExists()
    ensures LoadsDumps(ReadDump)
  {
    forall channel, generation: nat, pointer64, bundle64 {:trigger Dump(channel, generation, pointer64, bundle64)}
      | IsChannel(channel) && IsGeneration(generation) && IsPlain(pointer64) && IsPlain(bundle64)
      ensures ReadDump(Dump(channel, generation, pointer64, bundle64)) == Some(Document(1, KIND, channel, generation, pointer64, bundle64))
    {
      ReadsDump(channel, generation, pointer64, bundle64);
    }
  }

  ghost predicate Separates(fields: seq<string>, separators: seq<string>) {
    && |fields| == |separators|
    && forall i :: 0 <= i < |fields| ==> separators[i] != [] && separators[i][0] !in fields[i]
  }

  lemma {:induction false} ReadUndoesWrite(fields: seq<string>, separators: seq<string>)
    requires Separates(fields, separators)
    ensures ReadAll(WriteAll(fields, separators), separators) == Some(fields)
    decreases |fields|
  {
    if fields != [] {
      FieldIs(fields[0], separators[0][0], separators[0], WriteAll(fields[1..], separators[1..]));
      ReadUndoesWrite(fields[1..], separators[1..]);
      assert fields == [fields[0]] + fields[1..];
    }
  }

  lemma {:induction false} WriteIsWriteAll(f: Frame, d: Fields)
    ensures Write(f, d) == f.open + WriteAll([d.channel, d.pointer64, d.numeral, d.bundle64], Separators(f))
  {
    var fields, seps := [d.channel, d.pointer64, d.numeral, d.bundle64], Separators(f);
    assert fields[1..] == [d.pointer64, d.numeral, d.bundle64] && seps[1..] == [f.generation, f.schema, f.close];
    assert fields[1..][1..] == [d.numeral, d.bundle64] && seps[1..][1..] == [f.schema, f.close];
    assert fields[1..][1..][1..] == [d.bundle64] && seps[1..][1..][1..] == [f.close];
    assert [d.bundle64][1..] == [] && [f.close][1..] == [] && f.close + [] == f.close;
    assert WriteAll([d.bundle64], [f.close]) == d.bundle64 + f.close;
    assert WriteAll(fields[1..][1..], seps[1..][1..]) == d.numeral + (f.schema + (d.bundle64 + f.close));
    assert WriteAll(fields[1..], seps[1..]) == d.pointer64 + (f.generation + (d.numeral + (f.schema + (d.bundle64 + f.close))));
  }

  lemma {:induction false} SplitUndoesWrite(f: Frame, d: Fields)
    requires Separates([d.channel, d.pointer64, d.numeral, d.bundle64], Separators(f))
    ensures Split(f, Write(f, d)) == Some(d)
  {
    WriteIsWriteAll(f, d);
    var rest := WriteAll([d.channel, d.pointer64, d.numeral, d.bundle64], Separators(f));
    assert (f.open + rest)[|f.open|..] == rest;
    ReadUndoesWrite([d.channel, d.pointer64, d.numeral, d.bundle64], Separators(f));
  }

  lemma {:induction false} ReadsDump(channel: string, generation: nat, pointer64: string, bundle64: string)
    requires IsChannel(channel) && IsGeneration(generation) && IsPlain(pointer64) && IsPlain(bundle64)
    ensures ReadDump(Dump(channel, generation, pointer64, bundle64)) == Some(Document(1, KIND, channel, generation, pointer64, bundle64))
  {
    var d := Fields(channel, pointer64, Decimal.Print(generation), bundle64);
    Decimal.GenerationTextIff(d.numeral, generation);
    NumeralHasNoComma(d.numeral);
    FrameSeparates(d);
    SplitUndoesWrite(FRAME, d);
  }

  lemma {:induction false} NumeralHasNoComma(s: string)
    requires Decimal.AllDigits(s)
    ensures ',' !in s
  {
  }

  lemma {:induction false} FrameSeparates(d: Fields)
    requires IsChannel(d.channel) && IsPlain(d.pointer64) && ',' !in d.numeral && IsPlain(d.bundle64)
    ensures Separates([d.channel, d.pointer64, d.numeral, d.bundle64], Separators(FRAME))
  {
    assert '"' !in d.channel && '"' !in d.pointer64 && '"' !in d.bundle64;
    assert POINTER_KEY[0] == '"' && GENERATION_KEY[0] == '"' && SCHEMA_KEYS[0] == ',' && CLOSE[0] == '"';
    var fields, seps := [d.channel, d.pointer64, d.numeral, d.bundle64], Separators(FRAME);
    assert seps[0] == POINTER_KEY && seps[1] == GENERATION_KEY && seps[2] == SCHEMA_KEYS && seps[3] == CLOSE;
    assert fields[0] == d.channel && fields[1] == d.pointer64 && fields[2] == d.numeral && fields[3] == d.bundle64;
  }

  // ---- Packing and unpacking ----

  /** Neither check of `decode` refuses an encoding of allowed length. */
  lemma {:induction false} FieldReadsBack(bytes: seq<Byte>, maximum: nat)
    requires 0 < |bytes| <= maximum
    ensures DecodeField(Encode(bytes), maximum) == Ok(bytes)
  {
    DecodeEncode(bytes);
    DecodableHasShape(Encode(bytes));
    EncodeLength(bytes);
  }

  lemma {:induction false} EncodingIsPlain(bytes: seq<Byte>)
    ensures IsPlain(Encode(bytes))
  {
    forall i | 0 <= i < |Encode(bytes)| ensures IsLetter(Encode(bytes)[i]) || Encode(bytes)[i] == '=' {
      SymbolReadsBack(EncodeSymbols(bytes)[i]);
    }
  }

  /** The exact length of a transaction. */
  lemma {:induction false} DumpLength(channel: string, generation: nat, pointer: seq<Byte>, bundle: seq<Byte>)
    ensures |Dump(channel, generation, Encode(pointer), Encode(bundle))|
         == 134 + |channel| + |Decimal.Print(generation)| + (|pointer| + 2) / 3 * 4 + (|bundle| + 2) / 3 * 4
  {
    EncodeLength(pointer);
    EncodeLength(bundle);
  }

  lemma {:induction false} NumeralIsShort(generation: nat)
    requires IsGeneration(generation)
    ensures |Decimal.Print(generation)| <= 18
  {
    Decimal.EighteenDigits();
    Decimal.LengthOfPrint(generation, 18);
  }

  /** Packing succeeds exactly within the limits: the 16 MiB check can never
      fail once the others have passed. */
  lemma {:induction false} PackIff(channel: string, generation: int, pointer: seq<Byte>, bundle: seq<Byte>)
    ensures Pack(channel, generation, pointer, bundle).Ok? <==>
      && (channel == "stable" || channel == "dev" || channel == "nightly")
      && 1 <= generation <= 999_999_999_999_999_999
      && 1 <= |pointer| <= 1_048_576 && 1 <= |bundle| <= 8_388_608
  {
    if IsChannel(channel) && IsGeneration(generation) && 0 < |pointer| <= MAX_POINTER_BYTES && 0 < |bundle| <= MAX_BUNDLE_BYTES {
      DumpLength(channel, generation, pointer, bundle);
      NumeralIsShort(generation);
    }
  }

  /** Unpacking what was packed returns the exact bytes, and under any other
      channel or generation is refused. */
  lemma {:induction false} UnpackPack(loads: Loads, channel: string, generation: int, pointer: seq<Byte>, bundle: seq<Byte>, asked: string, askedGeneration: int)
    requires LoadsDumps(loads) && Pack(channel, generation, pointer, bundle).Ok?
    ensures var r := Unpack(loads, Pack(channel, generation, pointer, bundle).value, asked, askedGeneration);
      if asked == channel && askedGeneration == generation then r == Ok(Files(pointer, bundle)) else r.Err?
  {
    var text := Dump(channel, generation, Encode(pointer), Encode(bundle));
    EncodingIsPlain(pointer);
    EncodingIsPlain(bundle);
    assert loads(text) == Some(Document(1, KIND, channel, generation, Encode(pointer), Encode(bundle)));
    FieldReadsBack(pointer, MAX_POINTER_BYTES);
    FieldReadsBack(bundle, MAX_BUNDLE_BYTES);
  }

  /** And nothing else is refused: a text of allowed size that reads as the six
      fields asked for, with payloads that decode within their limits, unpacks. */
  lemma {:induction false} ValidUnpacks(loads: Loads, text: string, channel: string, generation: int)
    requires 1 <= |text| <= 16_777_216 && loads(text).Some?
    requires var d := loads(text).value;
      && d.version == 1 && d.kind == "aos-channel-transaction" && d.channel == channel && d.generation == generation
      && (channel == "stable" || channel == "dev" || channel == "nightly") && 1 <= generation <= 999_999_999_999_999_999
      && Decode(d.pointer64).Some? && 1 <= |Decode(d.pointer64).value| <= 1_048_576
      && Decode(d.bundle64).Some? && 1 <= |Decode(d.bundle64).value| <= 8_388_608
    ensures Unpack(loads, text, channel, generation)
         == Ok(Files(Decode(loads(text).value.pointer64).value, Decode(loads(text).value.bundle64).value))
  {
    var d := loads(text).value;
    DecodableHasShape(d.pointer64);
    DecodableHasShape(d.bundle64);
    NotEmpty(d.pointer64);
    NotEmpty(d.bundle64);
  }

  lemma {:induction false} NotEmpty(s: string)
    requires Decode(s).Some? && Decode(s).value != []
    ensures s != ""
  {
  }

  /** The exact text of a transaction. */
  lemma {:induction false} TransactionText(channel: string, generation: nat, pointer64: string, bundle64: string)
    ensures Dump(channel, generation, pointer64, bundle64) ==
      "{\"channel\":\"" + channel + "\",\"channel-toml-base64\":\"" + pointer64 + "\",\"generation\":" + Decimal.Print(generation)
      + ("," + "\"kind\":\"aos-channel-transaction\",\"schema-version\":1,\"sigstore-bundle-base64\":\"") + bundle64 + "\"}\n"
  {
    WriteInOrder(FRAME, Fields(channel, pointer64, Decimal.Print(generation), bundle64));
  }

  lemma {:induction false} WriteInOrder(f: Frame, d: Fields)
    ensures Write(f, d) == f.open + d.channel + f.pointer + d.pointer64 + f.generation + d.numeral + f.schema + d.bundle64 + f.close
  {
  }

  /** Whatever text is unpacked: success means the fields are valid and asked
      for, and both payloads are non-empty and within their limits. */
  lemma {:induction false} UnpackedIsValid(loads: Loads, text: string, channel: string, generation: int)
    requires Unpack(loads, text, channel, generation).Ok?
    ensures var files, d := Unpack(loads, text, channel, generation).value, loads(text);
      && (channel == "stable" || channel == "dev" || channel == "nightly") && 1 <= generation <= 999_999_999_999_999_999
      && d.Some? && d.value.version == 1 && d.value.kind == "aos-channel-transaction" && d.value.channel == channel && d.value.generation == generation
      && Decode(d.value.pointer64) == Some(files.pointer) && Decode(d.value.bundle64) == Some(files.bundle)
      && 0 < |files.pointer| <= MAX_POINTER_BYTES && 0 < |files.bundle| <= MAX_BUNDLE_BYTES
  {
    var d := loads(text).value;
    assert Load(loads, text) == Ok(d);
  }
}
