/** Reading router calldata: ABI words, length-prefixed segments and Bebop payloads. */
module Calldata {
  import opened Wrappers

  type byte = x: int | 0 <= x < 256
  type Bytes = seq<byte>

  const ABI_WORD_BYTES: nat := 32
  const FUNCTION_SELECTOR_BYTES: nat := 4
  const BEBOP_PACKED_PREFIX_BYTES: nat := 95
  const BEBOP_PARTIAL_FILL_OFFSET_INDEX: nat := 41
  const BEBOP_ORIGINAL_TAKER_AMOUNT_START: nat := 42
  const BEBOP_ORIGINAL_TAKER_AMOUNT_END: nat := 74

  datatype DecodeError =
    | ShortSelector
    | UnknownSelector
    | HeadOverflow
    | ShortHead
    | WordTooLarge
    | OffsetOverflow
    | OffsetOutside
    | LengthOverflow
    | LengthOutside
    | TruncatedPrefix
    | SegmentOutside
    | ShortSegment

  // Big-endian numbers.

  function BigEndian(bytes: Bytes): (n: nat)
    decreases |bytes|
  {
    if bytes == [] then 0 else BigEndian(bytes[..|bytes| - 1]) * 256 + bytes[|bytes| - 1]
  }

  function Pow256(width: nat): (n: nat)
    ensures n >= 1
  {
    if width == 0 then 1 else Pow256(width - 1) * 256
  }

  /** The big-endian bytes of a number. */
  function BytesOf(n: nat, width: nat): (bytes: Bytes)
    ensures |bytes| == width
    decreases width
  {
    if width == 0 then [] else BytesOf(n / 256, width - 1) + [n % 256]
  }

  lemma {:induction false} NumberReadsBack(n: nat, width: nat)
    requires n < Pow256(width)
    ensures BigEndian(BytesOf(n, width)) == n
    decreases width
  {
    if width > 0 {
      NumberReadsBack(n / 256, width - 1);
      var bytes := BytesOf(n, width);
      assert bytes[..|bytes| - 1] == BytesOf(n / 256, width - 1);
    }
  }

  lemma LastDigit(n: nat, d: nat)
    requires d < 256
    ensures (n * 256 + d) / 256 == n && (n * 256 + d) % 256 == d
  {
  }

  lemma {:induction false} BytesReadBack(bytes: Bytes)
    ensures BytesOf(BigEndian(bytes), |bytes|) == bytes
    ensures BigEndian(bytes) < Pow256(|bytes|)
    decreases |bytes|
  {
    if bytes != [] {
      var init, last := bytes[..|bytes| - 1], bytes[|bytes| - 1];
      BytesReadBack(init);
      LastDigit(BigEndian(init), last);
      assert BytesOf(BigEndian(bytes), |bytes|) == init + [last] by {
        assert BigEndian(bytes) == BigEndian(init) * 256 + last;
      }
    }
  }

  lemma {:induction false} PrefixNotLarger(bytes: Bytes, i: nat)
    requires i <= |bytes|
    ensures BigEndian(bytes[..i]) <= BigEndian(bytes)
    decreases |bytes| - i
  {
    if i == |bytes| {
      assert bytes[..i] == bytes;
    } else {
      PrefixNotLarger(bytes, i + 1);
      assert bytes[..i + 1][..i] == bytes[..i];
    }
  }

  /** A word as a 64-bit size. */
  function WordValue(word: Bytes): Result<u64, DecodeError> {
    if BigEndian(word) <= U64_MAX then Ok(BigEndian(word)) else Err(WordTooLarge)
  }

  /** The per-byte overflow check rejects exactly the words whose value does not fit. */
  method AbiWordToUsize(word: Bytes) returns (r: Result<u64, DecodeError>)
    ensures r.Ok? <==> BigEndian(word) <= U64_MAX
    ensures r == WordValue(word)
  {
    var value: u64 := 0;
    for i := 0 to |word|
      invariant value == BigEndian(word[..i])
    {
      assert word[..i + 1][..i] == word[..i];
      PrefixNotLarger(word, i + 1);
      var scaled := value as int * 256;
      if scaled > U64_MAX {
        return Err(WordTooLarge);
      }
      var next := scaled + word[i];
      if next > U64_MAX {
        return Err(WordTooLarge);
      }
      value := next;
    }
    assert word[..|word|] == word;
    return Ok(value);
  }

  // Length-prefixed segments.

  function EncodePle(segments: seq<Bytes>): Bytes
    requires forall i :: 0 <= i < |segments| ==> |segments[i]| < 65536
    decreases |segments|
  {
    if segments == [] then []
    else BytesOf(|segments[0]|, 2) + segments[0] + EncodePle(segments[1..])
  }

  /** What the bytes decode to, segment by segment. */
  function DecodePle(bytes: Bytes): Result<seq<Bytes>, DecodeError>
    decreases |bytes|
  {
    if bytes == [] then Ok([])
    else if |bytes| < 2 then Err(TruncatedPrefix)
    else
      var end := 2 + BigEndian(bytes[..2]);
      if end > |bytes| then Err(SegmentOutside)
      else
        match DecodePle(bytes[end..])
        case Ok(rest) => Ok([bytes[2..end]] + rest)
        case Err(error) => Err(error)
  }

  /** The cursor stays within the slice, so its checked addition cannot overflow. */
  method DecodePleSegments(bytes: Bytes) returns (r: Result<seq<Bytes>, DecodeError>)
    ensures r == DecodePle(bytes)
  {
    var cursor := 0;
    var segments: seq<Bytes> := [];
    assert bytes[0..] == bytes;
    PrefixedByNothing(DecodePle(bytes));
    while cursor < |bytes|
      invariant 0 <= cursor <= |bytes|
      invariant DecodePle(bytes) == Prefixed(segments, DecodePle(bytes[cursor..]))
    {
      var rest := bytes[cursor..];
      if |bytes| - cursor < 2 {
        return Err(TruncatedPrefix);
      }
      var len := bytes[cursor] as int * 256 + bytes[cursor + 1];
      TwoBytes(rest);
      assert BigEndian(rest[..2]) == len;
      cursor := cursor + 2;
      var end := cursor + len;
      if end > |bytes| {
        return Err(SegmentOutside);
      }
      assert rest[2..2 + len] == bytes[cursor..end];
      assert rest[2 + len..] == bytes[end..];
      PrefixedInTurn(segments, [bytes[cursor..end]], DecodePle(bytes[end..]));
      segments := segments + [bytes[cursor..end]];
      cursor := end;
    }
    assert bytes[cursor..] == [] && segments + [] == segments;
    return Ok(segments);
  }

  lemma TwoBytes(bytes: Bytes)
    requires |bytes| >= 2
    ensures BigEndian(bytes[..2]) == bytes[0] as int * 256 + bytes[1]
  {
    assert bytes[..2][..1] == bytes[..1] && bytes[..1][..0] == [];
    assert BigEndian(bytes[..1]) == bytes[0];
  }

  lemma LengthReadsBack(len: nat)
    requires len < 65536
    ensures BigEndian(BytesOf(len, 2)) == len
  {
    assert Pow256(2) == 65536;
    NumberReadsBack(len, 2);
  }

  lemma ThreePieces(a: Bytes, b: Bytes, c: Bytes)
    ensures var s := a + b + c;
      s[..|a|] == a && s[|a|..|a| + |b|] == b && s[|a| + |b|..] == c
  {
  }

  /** Decoding undoes encoding, whatever the number of segments. */
  lemma {:induction false} DecodeUndoesEncode(segments: seq<Bytes>)
    requires forall i :: 0 <= i < |segments| ==> |segments[i]| < 65536
    ensures DecodePle(EncodePle(segments)) == Ok(segments)
    decreases |segments|
  {
    if segments != [] {
      DecodeUndoesEncode(segments[1..]);
      var prefix, first := BytesOf(|segments[0]|, 2), segments[0];
      var bytes := EncodePle(segments);
      LengthReadsBack(|first|);
      ThreePieces(prefix, first, EncodePle(segments[1..]));
      assert segments == [first] + segments[1..];
    }
  }

  /** Every accepted input is the encoding of what it decodes to. */
  lemma {:induction false} EncodeUndoesDecode(bytes: Bytes)
    requires DecodePle(bytes).Ok?
    ensures var segments := DecodePle(bytes).value;
      && (forall i :: 0 <= i < |segments| ==> |segments[i]| < 65536)
      && EncodePle(segments) == bytes
    decreases |bytes|
  {
    if bytes != [] {
      var len := BigEndian(bytes[..2]);
      EncodeUndoesDecode(bytes[2 + len..]);
      LengthFits(bytes[..2]);
      EncodeOneMore(bytes[2..2 + len], DecodePle(bytes[2 + len..]).value);
      CutTwice(bytes, 2, 2 + len);
    }
  }

  lemma LengthFits(prefix: Bytes)
    requires |prefix| == 2
    ensures BigEndian(prefix) < 65536 && BytesOf(BigEndian(prefix), 2) == prefix
  {
    assert Pow256(2) == 65536;
    BytesReadBack(prefix);
  }

  lemma EncodeOneMore(first: Bytes, rest: seq<Bytes>)
    requires |first| < 65536 && forall i :: 0 <= i < |rest| ==> |rest[i]| < 65536
    ensures forall i :: 0 <= i < |[first] + rest| ==> |([first] + rest)[i]| < 65536
    ensures EncodePle([first] + rest) == BytesOf(|first|, 2) + first + EncodePle(rest)
  {
    assert ([first] + rest)[1..] == rest;
  }

  lemma CutTwice(bytes: Bytes, i: nat, j: nat)
    requires i <= j <= |bytes|
    ensures bytes[..i] + bytes[i..j] + bytes[j..] == bytes
  {
  }

  // The final dynamic argument.

  /** `extract_final_dynamic_bytes_arg`. */
  function FinalDynamicBytes(args: Bytes, argCount: u64): Result<Bytes, DecodeError>
    requires argCount >= 1
  {
    var headLen := argCount * ABI_WORD_BYTES;
    if headLen > U64_MAX then Err(HeadOverflow)
    else if |args| < headLen then Err(ShortHead)
    else
      var offset :- WordValue(args[headLen - ABI_WORD_BYTES..headLen]);
      var lengthEnd: nat := offset as int + ABI_WORD_BYTES;
      if lengthEnd > U64_MAX then Err(OffsetOverflow)
      else if |args| < lengthEnd then Err(OffsetOutside)
      else
        var length :- WordValue(args[offset..lengthEnd]);
        var bytesEnd: nat := lengthEnd + length;
        if bytesEnd > U64_MAX then Err(LengthOverflow)
        else if |args| < bytesEnd then Err(LengthOutside)
        else Ok(args[lengthEnd..bytesEnd])
  }

  /** A call's arguments whose last is dynamic bytes: head words, offset, length, bytes, padding. */
  function EncodeArgs(head: Bytes, argCount: u64, data: Bytes, padding: Bytes): Bytes {
    head + BytesOf(argCount * ABI_WORD_BYTES, ABI_WORD_BYTES) + BytesOf(|data|, ABI_WORD_BYTES) + data + padding
  }

  lemma WordReadsBack(n: nat)
    requires n <= U64_MAX
    ensures WordValue(BytesOf(n, ABI_WORD_BYTES)) == Ok(n)
  {
    WordHoldsSizes();
    NumberReadsBack(n, ABI_WORD_BYTES);
  }

  lemma {:induction false} PowGrows(a: nat, b: nat)
    requires a <= b
    ensures Pow256(a) <= Pow256(b)
    decreases b
  {
    if a < b {
      PowGrows(a, b - 1);
    }
  }

  lemma WordHoldsSizes()
    ensures Pow256(ABI_WORD_BYTES) > U64_MAX
  {
    PowGrows(8, ABI_WORD_BYTES);
    assert Pow256(4) == 0x1_0000_0000;
    assert Pow256(8) == 0x1_0000_0000_0000_0000;
  }

  lemma Pieces(a: Bytes, b: Bytes, c: Bytes, d: Bytes, e: Bytes)
    ensures var s := a + b + c + d + e;
      && s[|a|..|a| + |b|] == b
      && s[|a| + |b|..|a| + |b| + |c|] == c
      && s[|a| + |b| + |c|..|a| + |b| + |c| + |d|] == d
  {
  }

  /** The final dynamic argument of an encoded call is read back, whatever precedes or pads it. */
  lemma DynamicBytesReadBack(head: Bytes, argCount: u64, data: Bytes, padding: Bytes)
    requires 1 <= argCount && |head| == (argCount - 1) * ABI_WORD_BYTES
    requires (argCount + 1) * ABI_WORD_BYTES + |data| <= U64_MAX
    ensures FinalDynamicBytes(EncodeArgs(head, argCount, data, padding), argCount) == Ok(data)
  {
    var args := EncodeArgs(head, argCount, data, padding);
    var headLen: nat := argCount as int * ABI_WORD_BYTES;
    var offsetWord, lengthWord := BytesOf(headLen, ABI_WORD_BYTES), BytesOf(|data|, ABI_WORD_BYTES);
    Pieces(head, offsetWord, lengthWord, data, padding);
    WordReadsBack(headLen);
    WordReadsBack(|data|);
    assert args[headLen - ABI_WORD_BYTES..headLen] == offsetWord;
    assert args[headLen..headLen + ABI_WORD_BYTES] == lengthWord;
    assert args[headLen + ABI_WORD_BYTES..headLen + ABI_WORD_BYTES + |data|] == data;
  }

  // Protocol payloads.

  datatype SwapEncoding = Single | Sequential | Split

  /** Everything before the protocol data of one swap: the executor, and for a split its header. */
  function HeaderBytes(encoding: SwapEncoding): nat {
    if encoding.Split? then 25 else 20
  }

  function ArgCount(encoding: SwapEncoding): u64 {
    if encoding.Split? then 10 else 9
  }

  function StripHeaders(segments: seq<Bytes>, header: nat): Result<seq<Bytes>, DecodeError>
    decreases |segments|
  {
    if segments == [] then Ok([])
    else if |segments[0]| < header then Err(ShortSegment)
    else
      var rest :- StripHeaders(segments[1..], header);
      Ok([segments[0][header..]] + rest)
  }

  /** `extract_protocol_payloads`. */
  function ProtocolPayloads(encoding: SwapEncoding, swaps: Bytes): Result<seq<Bytes>, DecodeError> {
    if encoding.Single? then StripHeaders([swaps], HeaderBytes(encoding))
    else
      var segments :- DecodePle(swaps);
      StripHeaders(segments, HeaderBytes(encoding))
  }

  datatype BebopPayload = BebopPayload(originalFilledTakerAmount: nat, partialFillOffset: byte)

  /** `decode_bebop_payload`. */
  function DecodeBebop(data: Bytes, tokenIn: Bytes, tokenOut: Bytes): Option<BebopPayload> {
    if |data| < BEBOP_PACKED_PREFIX_BYTES then None
    else if data[0..20] != tokenIn || data[20..40] != tokenOut then None
    else Some(BebopPayload(BigEndian(data[BEBOP_ORIGINAL_TAKER_AMOUNT_START..BEBOP_ORIGINAL_TAKER_AMOUNT_END]),
                           data[BEBOP_PARTIAL_FILL_OFFSET_INDEX]))
  }

  /** The payloads that match the token pair, in order. */
  function Matching(payloads: seq<Bytes>, tokenIn: Bytes, tokenOut: Bytes): seq<BebopPayload>
    decreases |payloads|
  {
    if payloads == [] then []
    else
      var rest := Matching(payloads[1..], tokenIn, tokenOut);
      match DecodeBebop(payloads[0], tokenIn, tokenOut)
      case Some(payload) => [payload] + rest
      case None => rest
  }

  /** The function selectors of the three swap calls, hashes of their signatures. */
  datatype Selectors = Selectors(split: Bytes, sequential: Bytes, single: Bytes) {
    predicate Distinct() {
      && |split| == |sequential| == |single| == FUNCTION_SELECTOR_BYTES
      && split != sequential && split != single && sequential != single
    }

    function Of(encoding: SwapEncoding): Bytes {
      match encoding
      case Split => split
      case Sequential => sequential
      case Single => single
    }
  }

  /** `extract_router_swaps`. */
  function RouterSwaps(selectors: Selectors, calldata: Bytes): Result<(SwapEncoding, Bytes), DecodeError> {
    if |calldata| < FUNCTION_SELECTOR_BYTES then Err(ShortSelector)
    else
      var selector := calldata[..FUNCTION_SELECTOR_BYTES];
      var args := calldata[FUNCTION_SELECTOR_BYTES..];
      if selector == selectors.split then
        var swaps :- FinalDynamicBytes(args, 10);
        Ok((Split, swaps))
      else if selector == selectors.sequential then
        var swaps :- FinalDynamicBytes(args, 9);
        Ok((Sequential, swaps))
      else if selector == selectors.single then
        var swaps :- FinalDynamicBytes(args, 9);
        Ok((Single, swaps))
      else Err(UnknownSelector)
  }

  /** `inspect_router_call_for_bebop`, after hex decoding. */
  function Inspect(selectors: Selectors, calldata: Bytes, tokenIn: Bytes, tokenOut: Bytes)
    : Result<seq<BebopPayload>, DecodeError>
  {
    var found :- RouterSwaps(selectors, calldata);
    var payloads :- ProtocolPayloads(found.0, found.1);
    Ok(Matching(payloads, tokenIn, tokenOut))
  }

  // The encoder the inspection undoes.

  /**
   One swap of a route: the indices of its tokens and its share of the input, which only a
   split call carries, then its executor's address and its protocol data.
   */
  datatype Swap = Swap(indexIn: byte, indexOut: byte, share: nat, executor: Bytes, data: Bytes)
  {
    predicate Valid() {
      |executor| == 20 && share < Pow256(3)
    }

    function Packed(encoding: SwapEncoding): Bytes {
      (if encoding.Split? then [indexIn, indexOut] + BytesOf(share, 3) else []) + executor + data
    }
  }

  function Segments(encoding: SwapEncoding, swaps: seq<Swap>): (segments: seq<Bytes>)
    ensures |segments| == |swaps| && forall i :: 0 <= i < |swaps| ==> segments[i] == swaps[i].Packed(encoding)
  {
    seq(|swaps|, i requires 0 <= i < |swaps| => swaps[i].Packed(encoding))
  }

  function Datas(swaps: seq<Swap>): (datas: seq<Bytes>)
    ensures |datas| == |swaps| && forall i :: 0 <= i < |swaps| ==> datas[i] == swaps[i].data
  {
    seq(|swaps|, i requires 0 <= i < |swaps| => swaps[i].data)
  }

  /** Routes the encoding can carry. */
  predicate Encodable(encoding: SwapEncoding, swaps: seq<Swap>) {
    && (forall i :: 0 <= i < |swaps| ==> swaps[i].Valid())
    && (if encoding.Single? then |swaps| == 1
        else forall i :: 0 <= i < |swaps| ==> |swaps[i].Packed(encoding)| < 65536)
  }

  function EncodeSwaps(encoding: SwapEncoding, swaps: seq<Swap>): Bytes
    requires Encodable(encoding, swaps)
  {
    if encoding.Single? then swaps[0].Packed(encoding) else EncodePle(Segments(encoding, swaps))
  }

  function EncodeCall(selectors: Selectors, encoding: SwapEncoding, head: Bytes, swaps: seq<Swap>, padding: Bytes): Bytes
    requires Encodable(encoding, swaps)
  {
    selectors.Of(encoding) + EncodeArgs(head, ArgCount(encoding), EncodeSwaps(encoding, swaps), padding)
  }

  lemma HeaderStripped(encoding: SwapEncoding, swap: Swap)
    requires swap.Valid()
    ensures |swap.Packed(encoding)| == HeaderBytes(encoding) + |swap.data|
    ensures swap.Packed(encoding)[HeaderBytes(encoding)..] == swap.data
  {
  }

  lemma {:induction false} HeadersStripped(encoding: SwapEncoding, swaps: seq<Swap>)
    requires forall i :: 0 <= i < |swaps| ==> swaps[i].Valid()
    ensures StripHeaders(Segments(encoding, swaps), HeaderBytes(encoding)) == Ok(Datas(swaps))
    decreases |swaps|
  {
    if swaps != [] {
      HeadersStripped(encoding, swaps[1..]);
      HeaderStripped(encoding, swaps[0]);
      assert Segments(encoding, swaps)[1..] == Segments(encoding, swaps[1..]);
      assert Datas(swaps) == [swaps[0].data] + Datas(swaps[1..]);
    }
  }

  lemma PayloadsReadBack(encoding: SwapEncoding, swaps: seq<Swap>)
    requires Encodable(encoding, swaps)
    ensures ProtocolPayloads(encoding, EncodeSwaps(encoding, swaps)) == Ok(Datas(swaps))
  {
    HeadersStripped(encoding, swaps);
    if encoding.Single? {
      assert Segments(encoding, swaps) == [EncodeSwaps(encoding, swaps)];
    } else {
      DecodeUndoesEncode(Segments(encoding, swaps));
    }
  }

  /**
   Inspecting an encoded call of any kind, with any number of swaps, returns exactly the
   payloads of the swaps that match the token pair, in order.
   */
  lemma InspectFindsMatching(selectors: Selectors, encoding: SwapEncoding, head: Bytes, swaps: seq<Swap>,
                             padding: Bytes, tokenIn: Bytes, tokenOut: Bytes)
    requires selectors.Distinct() && Encodable(encoding, swaps)
    requires |head| == (ArgCount(encoding) - 1) * ABI_WORD_BYTES
    requires (ArgCount(encoding) + 1) * ABI_WORD_BYTES + |EncodeSwaps(encoding, swaps)| <= U64_MAX
    ensures Inspect(selectors, EncodeCall(selectors, encoding, head, swaps, padding), tokenIn, tokenOut)
         == Ok(Matching(Datas(swaps), tokenIn, tokenOut))
  {
    var calldata := EncodeCall(selectors, encoding, head, swaps, padding);
    var args := EncodeArgs(head, ArgCount(encoding), EncodeSwaps(encoding, swaps), padding);
    assert calldata[..FUNCTION_SELECTOR_BYTES] == selectors.Of(encoding);
    assert calldata[FUNCTION_SELECTOR_BYTES..] == args;
    DynamicBytesReadBack(head, ArgCount(encoding), EncodeSwaps(encoding, swaps), padding);
    PayloadsReadBack(encoding, swaps);
  }

  /** A Bebop fill as the executor packs it. */
  datatype Fill = Fill(tokenIn: Bytes, tokenOut: Bytes, transferType: byte, partialFillOffset: byte, amount: nat,
                       tail: Bytes)
  {
    predicate Valid() {
      |tokenIn| == 20 && |tokenOut| == 20 && amount < Pow256(ABI_WORD_BYTES) && |tail| >= 21
    }

    function Packed(): Bytes {
      tokenIn + tokenOut + [transferType, partialFillOffset] + BytesOf(amount, ABI_WORD_BYTES) + tail
    }
  }

  lemma FillReadsBack(fill: Fill, tokenIn: Bytes, tokenOut: Bytes)
    requires fill.Valid()
    ensures DecodeBebop(fill.Packed(), tokenIn, tokenOut) ==
      if fill.tokenIn == tokenIn && fill.tokenOut == tokenOut
      then Some(BebopPayload(fill.amount, fill.partialFillOffset))
      else None
  {
    var data := fill.Packed();
    Pieces(fill.tokenIn, fill.tokenOut, [fill.transferType, fill.partialFillOffset],
           BytesOf(fill.amount, ABI_WORD_BYTES), fill.tail);
    NumberReadsBack(fill.amount, ABI_WORD_BYTES);
    assert data[0..20] == fill.tokenIn;
    assert data[20..40] == fill.tokenOut;
    assert data[40..42] == [fill.transferType, fill.partialFillOffset];
    assert data[41] == data[40..42][1];
  }

  /** The amounts of the fills for the pair, in order. */
  function FillsFor(fills: seq<Fill>, tokenIn: Bytes, tokenOut: Bytes): seq<BebopPayload>
    decreases |fills|
  {
    if fills == [] then []
    else
      var rest := FillsFor(fills[1..], tokenIn, tokenOut);
      if fills[0].tokenIn == tokenIn && fills[0].tokenOut == tokenOut
      then [BebopPayload(fills[0].amount, fills[0].partialFillOffset)] + rest
      else rest
  }

  lemma {:induction false} MatchingFills(fills: seq<Fill>, payloads: seq<Bytes>, tokenIn: Bytes, tokenOut: Bytes)
    requires |payloads| == |fills|
    requires forall i :: 0 <= i < |fills| ==> fills[i].Valid() && payloads[i] == fills[i].Packed()
    ensures Matching(payloads, tokenIn, tokenOut) == FillsFor(fills, tokenIn, tokenOut)
    decreases |fills|
  {
    if fills != [] {
      MatchingFills(fills[1..], payloads[1..], tokenIn, tokenOut);
      FillReadsBack(fills[0], tokenIn, tokenOut);
    }
  }

  /**
   A call carrying any number of Bebop fills is inspected to exactly the amounts and offsets
   of the fills for the expected pair, in order.
   */
  lemma InspectReadsFills(selectors: Selectors, encoding: SwapEncoding, head: Bytes, swaps: seq<Swap>, padding: Bytes,
                          fills: seq<Fill>, tokenIn: Bytes, tokenOut: Bytes)
    requires selectors.Distinct() && Encodable(encoding, swaps)
    requires |head| == (ArgCount(encoding) - 1) * ABI_WORD_BYTES
    requires (ArgCount(encoding) + 1) * ABI_WORD_BYTES + |EncodeSwaps(encoding, swaps)| <= U64_MAX
    requires |fills| == |swaps|
    requires forall i :: 0 <= i < |fills| ==> fills[i].Valid() && swaps[i].data == fills[i].Packed()
    ensures Inspect(selectors, EncodeCall(selectors, encoding, head, swaps, padding), tokenIn, tokenOut)
         == Ok(FillsFor(fills, tokenIn, tokenOut))
  {
    InspectFindsMatching(selectors, encoding, head, swaps, padding, tokenIn, tokenOut);
    MatchingFills(fills, Datas(swaps), tokenIn, tokenOut);
  }

  // What is refused.

  /** Headers are stripped exactly when every segment is at least that long. */
  lemma {:induction false} StripsExactly(segments: seq<Bytes>, header: nat)
    ensures StripHeaders(segments, header).Ok? <==> forall i :: 0 <= i < |segments| ==> |segments[i]| >= header
    ensures StripHeaders(segments, header).Ok? ==>
      var datas := StripHeaders(segments, header).value;
      |datas| == |segments| && forall i :: 0 <= i < |segments| ==> datas[i] == segments[i][header..]
    decreases |segments|
  {
    if segments != [] {
      StripsExactly(segments[1..], header);
      assert forall i :: 0 < i < |segments| ==> segments[i] == segments[1..][i - 1];
    }
  }

  /** Only a call to one of the three swap functions is inspected, and as what its selector says. */
  lemma OnlyKnownCalls(selectors: Selectors, calldata: Bytes)
    requires selectors.Distinct() && RouterSwaps(selectors, calldata).Ok?
    ensures |calldata| >= 4 && calldata[..4] == selectors.Of(RouterSwaps(selectors, calldata).value.0)
    ensures RouterSwaps(selectors, calldata).value.0 != Split ==>
      FinalDynamicBytes(calldata[4..], 9) == Ok(RouterSwaps(selectors, calldata).value.1)
    ensures RouterSwaps(selectors, calldata).value.0 == Split ==>
      FinalDynamicBytes(calldata[4..], 10) == Ok(RouterSwaps(selectors, calldata).value.1)
  {
  }
}
