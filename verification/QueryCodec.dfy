/** The query encoder of provider requests (src/transport/request.rs) against the
    percent decoder of transfer links (src/domain/ton_transfer_link.rs). */
module QueryCodec {
  import opened Basics

  type byte = x: int | 0 <= x < 256
  type bytes = seq<byte>

  const SPACE: byte := 32
  const PERCENT: byte := 37
  const AMPERSAND: byte := 38
  const PLUS: byte := 43
  const SLASH: byte := 47
  const EQUALS: byte := 61
  const QUESTION: byte := 63

  // ----- encoding -----

  /** Bytes that appear as themselves: letters, digits, `*`, `-`, `.`, `_`. */
  predicate Literal(b: byte) {
    65 <= b <= 90 || 97 <= b <= 122 || 48 <= b <= 57 || b == 42 || b == 45 || b == 46 || b == 95
  }

  function HexDigit(nibble: int): (d: byte)
    requires 0 <= nibble < 16
    ensures HexValue(d) == Some(nibble)
  {
    if nibble < 10 then 48 + nibble else 65 + (nibble - 10)
  }

  function EncodeByte(b: byte): (r: bytes)
    ensures r != [] && AMPERSAND !in r && EQUALS !in r && QUESTION !in r
  {
    if Literal(b) then [b]
    else if b == SPACE then [PLUS]
    else [PERCENT, HexDigit(b / 16), HexDigit(b % 16)]
  }

  function Encode(value: bytes): (r: bytes)
    ensures AMPERSAND !in r && EQUALS !in r && QUESTION !in r
  {
    if value == [] then [] else Encode(value[..|value| - 1]) + EncodeByte(value[|value| - 1])
  }

  method AppendEncodedQueryComponent(output: bytes, value: bytes) returns (r: bytes)
    ensures r == output + Encode(value)
  {
    r := output;
    for i := 0 to |value|
      invariant r == output + Encode(value[..i])
    {
      assert value[..i + 1][..i] == value[..i];
      var b := value[i];
      if Literal(b) {
        r := r + [b];
      } else if b == SPACE {
        r := r + [PLUS];
      } else {
        r := r + [PERCENT];
        r := r + [HexDigit(b / 16)];
        r := r + [HexDigit(b % 16)];
      }
      assert r == output + (Encode(value[..i]) + EncodeByte(b));
    }
    assert value[..|value|] == value;
  }

  datatype Pair = Pair(name: bytes, value: bytes)

  function EncodePair(p: Pair): bytes {
    Encode(p.name) + [EQUALS] + Encode(p.value)
  }

  /** Encoded pairs joined by `&`. */
  function Query(pairs: seq<Pair>): bytes {
    if pairs == [] then []
    else if |pairs| == 1 then EncodePair(pairs[0])
    else Query(pairs[..|pairs| - 1]) + [AMPERSAND] + EncodePair(pairs[|pairs| - 1])
  }

  // ----- decoding -----

  function HexValue(b: byte): Option<int> {
    if 48 <= b <= 57 then Some(b - 48)
    else if 97 <= b <= 102 then Some(b - 97 + 10)
    else if 65 <= b <= 70 then Some(b - 65 + 10)
    else None
  }

  /** The bytes a text decodes to; `None` for a broken escape. */
  function Unescape(value: bytes): Option<bytes> {
    if value == [] then Some([])
    else if value[0] != PERCENT then Prepend(value[0], Unescape(value[1..]))
    else if |value| < 3 || HexValue(value[1]).None? || HexValue(value[2]).None? then None
    else Prepend(HexValue(value[1]).value * 16 + HexValue(value[2]).value, Unescape(value[3..]))
  }

  function Prepend(b: byte, rest: Option<bytes>): Option<bytes> {
    match rest
    case None => None
    case Some(more) => Some([b] + more)
  }

  predicate Tail(b: byte) {
    128 <= b <= 191
  }

  /** The length of the well-formed UTF-8 character at the front, or zero. */
  function CharLength(s: bytes): (n: nat)
    ensures n <= |s|
  {
    if s == [] then 0
    else if s[0] < 128 then 1
    else if |s| >= 2 && 194 <= s[0] <= 223 && Tail(s[1]) then 2
    else if |s| >= 3 && Tail(s[2])
      && ((s[0] == 224 && 160 <= s[1] <= 191) || ((225 <= s[0] <= 236 || 238 <= s[0] <= 239) && Tail(s[1]))
          || (s[0] == 237 && 128 <= s[1] <= 159)) then 3
    else if |s| >= 4 && Tail(s[2]) && Tail(s[3])
      && ((s[0] == 240 && 144 <= s[1] <= 191) || (241 <= s[0] <= 243 && Tail(s[1]))
          || (s[0] == 244 && 128 <= s[1] <= 143)) then 4
    else 0
  }

  /** Well-formed UTF-8 (section 4 of RFC 3629). */
  predicate Utf8(s: bytes) {
    s == [] || (CharLength(s) > 0 && Utf8(s[CharLength(s)..]))
  }

  function PercentDecode(value: bytes): Option<bytes> {
    match Unescape(value)
    case None => None
    case Some(decoded) => if Utf8(decoded) then Some(decoded) else None
  }

  /** The decoding loop from here on, with what it has so far. */
  function UnescapeOn(sofar: bytes, value: bytes): Option<bytes>
    decreases |value|
  {
    if value == [] then Some(sofar)
    else if value[0] != PERCENT then UnescapeOn(sofar + [value[0]], value[1..])
    else if |value| < 3 || HexValue(value[1]).None? || HexValue(value[2]).None? then None
    else UnescapeOn(sofar + [HexValue(value[1]).value * 16 + HexValue(value[2]).value], value[3..])
  }

  lemma {:induction false} UnescapeOnIs(sofar: bytes, value: bytes)
    ensures UnescapeOn(sofar, value)
         == match Unescape(value) case None => None case Some(more) => Some(sofar + more)
    decreases |value|
  {
    if value == [] {
      assert sofar + [] == sofar;
    } else {
      var b, rest := value[0], value[1..];
      if value[0] == PERCENT && |value| >= 3 && HexValue(value[1]).Some? && HexValue(value[2]).Some? {
        b, rest := HexValue(value[1]).value * 16 + HexValue(value[2]).value, value[3..];
      }
      UnescapeOnIs(sofar + [b], rest);
      if Unescape(rest).Some? {
        Regroup(sofar, [b], Unescape(rest).value);
      }
    }
  }

  lemma Regroup(a: bytes, b: bytes, c: bytes)
    ensures a + (b + c) == (a + b) + c
  {
  }

  lemma UnescapeWhole(value: bytes)
    ensures UnescapeOn([], value) == Unescape(value)
  {
    UnescapeOnIs([], value);
    if Unescape(value).Some? {
      assert [] + Unescape(value).value == Unescape(value).value;
    }
  }

  method PercentDecodeOnce(value: bytes) returns (r: Option<bytes>)
    ensures r == PercentDecode(value)
  {
    UnescapeWhole(value);
    var decoded: bytes := [];
    var i := 0;
    assert value[0..] == value;
    while i < |value|
      invariant i <= |value| && UnescapeOn(decoded, value[i..]) == UnescapeOn([], value)
    {
      assert value[i..][1..] == value[i + 1..];
      if value[i] != PERCENT {
        decoded := decoded + [value[i]];
        i := i + 1;
        continue;
      }
      if i + 2 >= |value| {
        return None;
      }
      var high, low := HexValue(value[i + 1]), HexValue(value[i + 2]);
      if high.None? || low.None? {
        return None;
      }
      assert value[i..][3..] == value[i + 3..];
      decoded := decoded + [high.value * 16 + low.value];
      i := i + 3;
    }
    assert value[i..] == [];
    r := if Utf8(decoded) then Some(decoded) else None;
  }

  // ----- one component -----

  /** What a decoder that leaves `+` alone makes of an encoded text. */
  function PlusForSpace(value: bytes): (r: bytes)
    ensures |r| == |value| && forall i :: 0 <= i < |r| ==> r[i] == if value[i] == SPACE then PLUS else value[i]
  {
    seq(|value|, i requires 0 <= i < |value| => if value[i] == SPACE then PLUS else value[i])
  }

  lemma UnescapeByte(b: byte, rest: bytes)
    ensures Unescape(EncodeByte(b) + rest) == Prepend(if b == SPACE then PLUS else b, Unescape(rest))
  {
    var e := EncodeByte(b);
    if |e| == 1 {
      assert (e + rest)[1..] == rest;
    } else {
      assert (e + rest)[3..] == rest;
    }
  }

  lemma EncodeLast(value: bytes, init: bytes, last: byte)
    requires value == init + [last]
    ensures Encode(value) == Encode(init) + EncodeByte(last)
  {
    assert value[..|value| - 1] == init;
  }

  lemma Chain(whole: bytes, front: bytes, a: bytes, b: bytes, c: bytes, tail: bytes)
    requires front == a + b && tail == b + c && whole == front + c
    ensures whole == a + tail
  {
    Regroup(a, b, c);
  }

  lemma LastApart(first: byte, rest: bytes)
    requires rest != []
    ensures var init, last := rest[..|rest| - 1], rest[|rest| - 1];
            rest == init + [last] && [first] + rest == ([first] + init) + [last]
  {
  }

  lemma {:induction false} EncodeCons(first: byte, rest: bytes)
    ensures Encode([first] + rest) == EncodeByte(first) + Encode(rest)
    decreases |rest|
  {
    if rest == [] {
      EncodeLast([first] + rest, [], first);
    } else {
      var init, last := rest[..|rest| - 1], rest[|rest| - 1];
      var longer, front := [first] + rest, [first] + init;
      LastApart(first, rest);
      EncodeCons(first, init);
      EncodeLast(rest, init, last);
      EncodeLast(longer, front, last);
      Chain(Encode(longer), Encode(front), EncodeByte(first), Encode(init), EncodeByte(last), Encode(rest));
    }
  }

  lemma EncodeFront(value: bytes)
    requires value != []
    ensures Encode(value) == EncodeByte(value[0]) + Encode(value[1..])
  {
    assert value == [value[0]] + value[1..];
    EncodeCons(value[0], value[1..]);
  }

  lemma {:induction false} UnescapeEncoded(value: bytes)
    ensures Unescape(Encode(value)) == Some(PlusForSpace(value))
  {
    if value != [] {
      EncodeFront(value);
      UnescapeEncoded(value[1..]);
      UnescapeByte(value[0], Encode(value[1..]));
      PlusFront(value);
    }
  }

  lemma PlusFront(value: bytes)
    requires value != []
    ensures PlusForSpace(value) == [if value[0] == SPACE then PLUS else value[0]] + PlusForSpace(value[1..])
  {
  }

  lemma {:induction false} PlusForSpaceUtf8(value: bytes)
    requires Utf8(value)
    ensures Utf8(PlusForSpace(value))
    decreases |value|
  {
    if value != [] {
      var n := CharLength(value);
      assert CharLength(PlusForSpace(value)) == n;
      PlusForSpaceUtf8(value[n..]);
      assert PlusForSpace(value)[n..] == PlusForSpace(value[n..]);
    }
  }

  /** Decoding an encoded text gives it back with `+` for every space. */
  lemma ComponentRoundTrip(value: bytes)
    requires Utf8(value)
    ensures PercentDecode(Encode(value)) == Some(PlusForSpace(value))
    ensures PercentDecode(Encode(value)) == Some(value) <==> SPACE !in value
  {
    UnescapeEncoded(value);
    PlusForSpaceUtf8(value);
    if SPACE in value {
      var i :| 0 <= i < |value| && value[i] == SPACE;
      assert PlusForSpace(value)[i] != value[i];
    } else {
      assert PlusForSpace(value) == value;
    }
  }

  // ----- the encoding loses nothing -----

  /** A reference decoder that reads `+` as a space, as form encoding means it. */
  function FormDecode(value: bytes): bytes {
    if value == [] then []
    else if value[0] == PLUS then [SPACE] + FormDecode(value[1..])
    else if value[0] == PERCENT && |value| >= 3 && HexValue(value[1]).Some? && HexValue(value[2]).Some?
    then [HexValue(value[1]).value * 16 + HexValue(value[2]).value] + FormDecode(value[3..])
    else [value[0]] + FormDecode(value[1..])
  }

  lemma FormDecodesByte(b: byte, rest: bytes)
    ensures FormDecode(EncodeByte(b) + rest) == [b] + FormDecode(rest)
  {
    var e := EncodeByte(b);
    if |e| == 1 {
      assert (e + rest)[1..] == rest;
    } else {
      assert (e + rest)[3..] == rest;
    }
  }

  lemma {:induction false} FormRoundTrip(value: bytes)
    ensures FormDecode(Encode(value)) == value
  {
    if value != [] {
      EncodeFront(value);
      FormRoundTrip(value[1..]);
      FormDecodesByte(value[0], Encode(value[1..]));
    }
  }

  lemma EncodeInjective(a: bytes, b: bytes)
    requires Encode(a) == Encode(b)
    ensures a == b
  {
    FormRoundTrip(a);
    FormRoundTrip(b);
  }

  // ----- whole queries -----

  /** The pieces between separators; one piece when there is none. */
  function Split(s: bytes, separator: byte): (r: seq<bytes>)
    ensures r != []
  {
    if s == [] then [[]]
    else
      var rest := Split(s[..|s| - 1], separator);
      if s[|s| - 1] == separator then rest + [[]]
      else Lengthened(rest, s[|s| - 1])
  }

  /** The text before and after the first separator. */
  function SplitOnce(s: bytes, separator: byte): Option<Pair> {
    if s == [] then None
    else if s[0] == separator then Some(Pair([], s[1..]))
    else
      match SplitOnce(s[1..], separator)
      case None => None
      case Some(p) => Some(Pair([s[0]] + p.name, p.value))
  }

  /** The last piece with one more byte. */
  function Lengthened(pieces: seq<bytes>, b: byte): seq<bytes>
    requires pieces != []
  {
    pieces[..|pieces| - 1] + [pieces[|pieces| - 1] + [b]]
  }

  lemma LengthenedLast(pieces: seq<bytes>, piece: bytes, b: byte)
    ensures Lengthened(pieces + [piece], b) == pieces + [piece + [b]]
  {
    var longer := pieces + [piece];
    assert longer[..|longer| - 1] == pieces && longer[|longer| - 1] == piece;
  }

  lemma SplitLast(whole: bytes, init: bytes, last: byte, separator: byte)
    requires whole == init + [last]
    ensures Split(whole, separator)
         == if last == separator then Split(init, separator) + [[]] else Lengthened(Split(init, separator), last)
  {
    assert whole[..|whole| - 1] == init;
  }

  lemma PieceApart(head: bytes, piece: bytes, separator: byte)
    requires piece != []
    ensures var shorter, last := piece[..|piece| - 1], piece[|piece| - 1];
            shorter + [last] == piece && head + [separator] + piece == (head + [separator] + shorter) + [last]
  {
  }

  lemma {:induction false} SplitPiece(head: bytes, piece: bytes, separator: byte)
    requires separator !in piece
    ensures Split(head + [separator] + piece, separator) == Split(head, separator) + [piece]
    decreases |piece|
  {
    var whole := head + [separator] + piece;
    if piece == [] {
      SplitLast(whole, head, separator, separator);
    } else {
      var shorter, last := piece[..|piece| - 1], piece[|piece| - 1];
      PieceApart(head, piece, separator);
      SplitPiece(head, shorter, separator);
      SplitLast(whole, head + [separator] + shorter, last, separator);
      LengthenedLast(Split(head, separator), shorter, last);
    }
  }

  lemma {:induction false} SplitSingle(piece: bytes, separator: byte)
    requires separator !in piece
    ensures Split(piece, separator) == [piece]
  {
    if piece != [] {
      SplitSingle(piece[..|piece| - 1], separator);
      assert piece[..|piece| - 1] + [piece[|piece| - 1]] == piece;
    }
  }

  lemma {:induction false} SplitOnceAt(name: bytes, value: bytes, separator: byte)
    requires separator !in name
    ensures SplitOnce(name + [separator] + value, separator) == Some(Pair(name, value))
    decreases |name|
  {
    var whole := name + [separator] + value;
    if name == [] {
      assert whole[1..] == value;
    } else {
      SplitOnceAt(name[1..], value, separator);
      assert whole[1..] == name[1..] + [separator] + value;
      assert name == [name[0]] + name[1..];
    }
  }

  function EncodedPairs(pairs: seq<Pair>): (r: seq<bytes>)
    ensures |r| == |pairs| && forall i :: 0 <= i < |pairs| ==> r[i] == EncodePair(pairs[i])
  {
    if pairs == [] then [] else EncodedPairs(pairs[..|pairs| - 1]) + [EncodePair(pairs[|pairs| - 1])]
  }

  lemma PairHasNoAmpersand(p: Pair)
    ensures AMPERSAND !in EncodePair(p)
  {
  }

  /** The pieces of a built query are its encoded pairs, in order. */
  lemma {:induction false} SplitQuery(pairs: seq<Pair>)
    requires pairs != []
    ensures Split(Query(pairs), AMPERSAND) == EncodedPairs(pairs)
  {
    var last := pairs[|pairs| - 1];
    PairHasNoAmpersand(last);
    if |pairs| == 1 {
      SplitSingle(EncodePair(last), AMPERSAND);
    } else {
      SplitQuery(pairs[..|pairs| - 1]);
      SplitPiece(Query(pairs[..|pairs| - 1]), EncodePair(last), AMPERSAND);
    }
  }

  // ----- transfer-link parameters -----

  datatype Parameters = Parameters(
    amount: Option<bytes>, text: Option<bytes>, exp: Option<bytes>, jetton: Option<bytes>, bin: Option<bytes>)

  datatype LinkError = InvalidUrl | DuplicateParameter(name: bytes) | UnsupportedParameter(name: bytes)

  const AMOUNT: bytes := [97, 109, 111, 117, 110, 116]
  const TEXT: bytes := [116, 101, 120, 116]
  const EXP: bytes := [101, 120, 112]
  const JETTON: bytes := [106, 101, 116, 116, 111, 110]
  const BIN: bytes := [98, 105, 110]

  const NONE := Parameters(None, None, None, None, None)

  predicate Supported(name: bytes) {
    name == AMOUNT || name == TEXT || name == EXP || name == JETTON || name == BIN
  }

  function Lookup(p: Parameters, name: bytes): Option<bytes> {
    if name == AMOUNT then p.amount
    else if name == TEXT then p.text
    else if name == EXP then p.exp
    else if name == JETTON then p.jetton
    else if name == BIN then p.bin
    else None
  }

  function Store(p: Parameters, name: bytes, value: bytes): Parameters {
    if name == AMOUNT then p.(amount := Some(value))
    else if name == TEXT then p.(text := Some(value))
    else if name == EXP then p.(exp := Some(value))
    else if name == JETTON then p.(jetton := Some(value))
    else if name == BIN then p.(bin := Some(value))
    else p
  }

  /** Assigns decoded pairs in order; a name may appear once. */
  function Assign(pairs: seq<Pair>): Result<Parameters, LinkError> {
    if pairs == [] then Success(NONE)
    else
      match Assign(pairs[..|pairs| - 1])
      case Failure(e) => Failure(e)
      case Success(p) => AssignOne(p, pairs[|pairs| - 1])
  }

  function AssignOne(p: Parameters, pair: Pair): Result<Parameters, LinkError> {
    if !Supported(pair.name) then Failure(UnsupportedParameter(pair.name))
    else if Lookup(p, pair.name).Some? then Failure(DuplicateParameter(pair.name))
    else Success(Store(p, pair.name, pair.value))
  }

  /** A piece without `=` is a name with an empty value. */
  function DecodePiece(piece: bytes): Option<Pair> {
    var raw := SplitOnce(piece, EQUALS).GetOr(Pair(piece, []));
    var name, value := PercentDecode(raw.name), PercentDecode(raw.value);
    if name.None? || value.None? then None else Some(Pair(name.value, value.value))
  }

  /** Decodes and assigns pieces in order, up to the first error. */
  function AssignPieces(pieces: seq<bytes>): Result<Parameters, LinkError> {
    if pieces == [] then Success(NONE)
    else
      match AssignPieces(pieces[..|pieces| - 1])
      case Failure(e) => Failure(e)
      case Success(p) =>
        match DecodePiece(pieces[|pieces| - 1])
        case None => Failure(InvalidUrl)
        case Some(pair) => AssignOne(p, pair)
  }

  function Parse(query: Option<bytes>): Result<Parameters, LinkError> {
    if query.None? || query.value == [] then Success(NONE) else AssignPieces(Split(query.value, AMPERSAND))
  }

  method ParseParameters(query: Option<bytes>) returns (r: Result<Parameters, LinkError>)
    ensures r == Parse(query)
  {
    if query.None? || query.value == [] {
      return Success(NONE);
    }
    var pieces := Split(query.value, AMPERSAND);
    var parameters := NONE;
    for i := 0 to |pieces|
      invariant AssignPieces(pieces[..i]) == Success(parameters)
    {
      assert pieces[..i + 1][..i] == pieces[..i];
      var raw := SplitOnce(pieces[i], EQUALS).GetOr(Pair(pieces[i], []));
      var name := PercentDecodeOnce(raw.name);
      var value := PercentDecodeOnce(raw.value);
      if name.None? || value.None? {
        AssignFails(pieces, i + 1, InvalidUrl);
        return Failure(InvalidUrl);
      }
      if !Supported(name.value) {
        AssignFails(pieces, i + 1, UnsupportedParameter(name.value));
        return Failure(UnsupportedParameter(name.value));
      }
      if Lookup(parameters, name.value).Some? {
        AssignFails(pieces, i + 1, DuplicateParameter(name.value));
        return Failure(DuplicateParameter(name.value));
      }
      parameters := Store(parameters, name.value, value.value);
    }
    assert pieces[..|pieces|] == pieces;
    r := Success(parameters);
  }

  lemma {:induction false} AssignFails(pieces: seq<bytes>, n: nat, e: LinkError)
    requires n <= |pieces| && AssignPieces(pieces[..n]) == Failure(e)
    ensures AssignPieces(pieces) == Failure(e)
    decreases |pieces| - n
  {
    if n < |pieces| {
      assert pieces[..n + 1][..n] == pieces[..n];
      AssignFails(pieces, n + 1, e);
    } else {
      assert pieces[..n] == pieces;
    }
  }

  ghost predicate Texts(pairs: seq<Pair>) {
    forall i :: 0 <= i < |pairs| ==> Utf8(pairs[i].name) && Utf8(pairs[i].value)
  }

  function PlusPair(p: Pair): Pair {
    Pair(PlusForSpace(p.name), PlusForSpace(p.value))
  }

  function PlusPairs(pairs: seq<Pair>): (r: seq<Pair>)
    ensures |r| == |pairs| && forall i :: 0 <= i < |r| ==> r[i] == PlusPair(pairs[i])
  {
    seq(|pairs|, i requires 0 <= i < |pairs| => PlusPair(pairs[i]))
  }

  /** One encoded pair decodes to itself with `+` for spaces. */
  lemma PairRoundTrip(p: Pair)
    requires Utf8(p.name) && Utf8(p.value)
    ensures DecodePiece(EncodePair(p)) == Some(PlusPair(p))
  {
    SplitOnceAt(Encode(p.name), Encode(p.value), EQUALS);
    ComponentRoundTrip(p.name);
    ComponentRoundTrip(p.value);
  }

  /** The round trip of a whole query: splitting at `&` and at the first `=` and
      decoding each part once gives the pairs back in order, with `+` for spaces. */
  lemma QueryRoundTrip(pairs: seq<Pair>, i: nat)
    requires Texts(pairs) && i < |pairs|
    ensures |Split(Query(pairs), AMPERSAND)| == |pairs|
    ensures DecodePiece(Split(Query(pairs), AMPERSAND)[i]) == Some(PlusPair(pairs[i]))
    ensures DecodePiece(Split(Query(pairs), AMPERSAND)[i]) == Some(pairs[i])
            <==> SPACE !in pairs[i].name && SPACE !in pairs[i].value
  {
    SplitQuery(pairs);
    PairRoundTrip(pairs[i]);
    ComponentRoundTrip(pairs[i].name);
    ComponentRoundTrip(pairs[i].value);
  }

  /** Parsing a built query assigns the pairs it was built from. */
  lemma ParseBuilt(pairs: seq<Pair>)
    requires Texts(pairs)
    ensures Parse(Some(Query(pairs))) == Assign(PlusPairs(pairs))
  {
    if pairs == [] {
      assert PlusPairs(pairs) == [];
    } else {
      SplitQuery(pairs);
      var pieces := Split(Query(pairs), AMPERSAND);
      QueryNonempty(pairs);
      AssignEncoded(pieces, pairs);
    }
  }

  lemma QueryNonempty(pairs: seq<Pair>)
    requires pairs != []
    ensures Query(pairs) != []
  {
  }

  lemma {:induction false} AssignEncoded(pieces: seq<bytes>, pairs: seq<Pair>)
    requires |pieces| == |pairs| && Texts(pairs)
    requires forall i :: 0 <= i < |pairs| ==> pieces[i] == EncodePair(pairs[i])
    ensures AssignPieces(pieces) == Assign(PlusPairs(pairs))
    decreases |pairs|
  {
    if pairs == [] {
      assert PlusPairs(pairs) == [];
    } else {
      var n := |pairs| - 1;
      AssignEncoded(pieces[..n], pairs[..n]);
      PairRoundTrip(pairs[n]);
      assert PlusPairs(pairs)[..n] == PlusPairs(pairs[..n]);
    }
  }

  ghost predicate NamesSupported(pairs: seq<Pair>) {
    forall i :: 0 <= i < |pairs| ==> Supported(pairs[i].name)
  }

  ghost predicate NamesDistinct(pairs: seq<Pair>) {
    forall i, j :: 0 <= i < j < |pairs| ==> pairs[i].name != pairs[j].name
  }

  predicate Named(pairs: seq<Pair>, name: bytes) {
    exists i :: 0 <= i < |pairs| && pairs[i].name == name
  }

  /** Every slot holds the value given for its name, and nothing else. */
  ghost predicate Holds(p: Parameters, pairs: seq<Pair>) {
    && (forall i :: 0 <= i < |pairs| ==> Lookup(p, pairs[i].name) == Some(pairs[i].value))
    && (forall name :: Lookup(p, name).Some? ==> Named(pairs, name))
  }

  lemma StoreHolds(p: Parameters, pairs: seq<Pair>, pair: Pair)
    requires Holds(p, pairs) && Supported(pair.name) && Lookup(p, pair.name).None?
    ensures Holds(Store(p, pair.name, pair.value), pairs + [pair])
  {
    var q, longer := Store(p, pair.name, pair.value), pairs + [pair];
    forall i | 0 <= i < |longer| ensures Lookup(q, longer[i].name) == Some(longer[i].value) {
      if i < |pairs| { StoreOther(p, pair, longer[i].name); }
    }
    forall name | Lookup(q, name).Some? ensures Named(longer, name) {
      if name == pair.name {
        assert longer[|pairs|].name == name;
      } else {
        StoreOther(p, pair, name);
        var i :| 0 <= i < |pairs| && pairs[i].name == name;
        assert longer[i].name == name;
      }
    }
  }

  lemma StoreOther(p: Parameters, pair: Pair, name: bytes)
    requires Supported(pair.name)
    ensures Lookup(Store(p, pair.name, pair.value), name) == if name == pair.name then Some(pair.value) else Lookup(p, name)
  {
  }

  /** Assignment succeeds exactly for supported names without repetition, and then
      every slot holds the value given for its name. */
  lemma {:induction false} AssignIff(pairs: seq<Pair>)
    ensures Assign(pairs).Success? <==> NamesSupported(pairs) && NamesDistinct(pairs)
    ensures Assign(pairs).Success? ==> Holds(Assign(pairs).value, pairs)
  {
    if pairs != [] {
      var n := |pairs| - 1;
      var before, last := pairs[..n], pairs[n];
      assert pairs == before + [last];
      AssignIff(before);
      NamesGrow(before, last);
      if Assign(before).Success? {
        assert Lookup(Assign(before).value, last.name).Some? <==> Named(before, last.name);
        if Assign(pairs).Success? {
          StoreHolds(Assign(before).value, before, last);
        }
      }
    }
  }

  lemma NamesGrow(pairs: seq<Pair>, last: Pair)
    ensures NamesSupported(pairs + [last]) <==> NamesSupported(pairs) && Supported(last.name)
    ensures NamesDistinct(pairs + [last]) <==> NamesDistinct(pairs) && !Named(pairs, last.name)
  {
    var longer := pairs + [last];
    assert forall i :: 0 <= i < |pairs| ==> longer[i] == pairs[i];
    assert longer[|pairs|] == last;
    if NamesSupported(longer) {
      assert forall i :: 0 <= i < |pairs| ==> Supported(longer[i].name);
    }
    if NamesDistinct(longer) {
      forall i, j | 0 <= i < j < |pairs| ensures pairs[i].name != pairs[j].name {
        assert longer[i].name != longer[j].name;
      }
      assert forall i :: 0 <= i < |pairs| ==> longer[i].name != longer[|pairs|].name;
    }
  }

  /** The query text determines the pairs. */
  lemma QueryInjective(a: seq<Pair>, b: seq<Pair>)
    requires Query(a) == Query(b)
    ensures a == b
  {
    if a == [] || b == [] {
      if a != [] { QueryNonempty(a); }
      if b != [] { QueryNonempty(b); }
    } else {
      SplitQuery(a);
      SplitQuery(b);
      forall i | 0 <= i < |a| ensures a[i] == b[i] {
        assert EncodePair(a[i]) == EncodePair(b[i]);
        SplitOnceAt(Encode(a[i].name), Encode(a[i].value), EQUALS);
        SplitOnceAt(Encode(b[i].name), Encode(b[i].value), EQUALS);
        EncodeInjective(a[i].name, b[i].name);
        EncodeInjective(a[i].value, b[i].value);
      }
    }
  }

  // ----- the request URL -----

  function PathOf(segments: seq<bytes>): bytes {
    if segments == [] then [] else PathOf(segments[..|segments| - 1]) + [SLASH] + segments[|segments| - 1]
  }

  function QueryPart(pairs: seq<Pair>): bytes {
    if pairs == [] then [] else [QUESTION] + Query(pairs)
  }

  method AppendPath(base: bytes, path: seq<bytes>) returns (url: bytes)
    ensures url == base + PathOf(path)
  {
    url := base;
    for i := 0 to |path|
      invariant url == base + PathOf(path[..i])
    {
      assert path[..i + 1][..i] == path[..i];
      url := url + [SLASH] + path[i];
      assert url == base + (PathOf(path[..i]) + [SLASH] + path[i]);
    }
    assert path[..|path|] == path;
  }

  /** One turn of the query loop. */
  method AppendPair(url: bytes, separator: byte, p: Pair) returns (r: bytes)
    ensures r == url + ([separator] + EncodePair(p))
  {
    var name := AppendEncodedQueryComponent(url + [separator], p.name);
    r := AppendEncodedQueryComponent(name + [EQUALS], p.value);
    RegroupPair(url, [separator], Encode(p.name), Encode(p.value));
  }

  lemma RegroupPair(url: bytes, separator: bytes, name: bytes, value: bytes)
    ensures url + separator + name + [EQUALS] + value == url + (separator + (name + [EQUALS] + value))
  {
    Regroup(separator, name + [EQUALS], value);
    Regroup(separator, name, [EQUALS]);
    Regroup(url, separator + name + [EQUALS], value);
    Regroup(url, separator + name, [EQUALS]);
    Regroup(url, separator, name);
  }

  function Separator(i: nat): byte {
    if i == 0 then QUESTION else AMPERSAND
  }

  /** One more pair makes the URL of one more pair. */
  lemma UrlGrows(root: bytes, pairs: seq<Pair>, i: nat, url: bytes, added: bytes)
    requires i < |pairs| && url == root + QueryPart(pairs[..i]) && added == [Separator(i)] + EncodePair(pairs[i])
    ensures url + added == root + QueryPart(pairs[..i + 1])
  {
    QueryGrows(pairs, i);
    Chain(url + added, url, root, QueryPart(pairs[..i]), added, QueryPart(pairs[..i + 1]));
  }

  method AppendQuery(root: bytes, pairs: seq<Pair>) returns (url: bytes)
    ensures url == root + QueryPart(pairs)
  {
    url := root;
    for i := 0 to |pairs|
      invariant url == root + QueryPart(pairs[..i])
    {
      UrlGrows(root, pairs, i, url, [Separator(i)] + EncodePair(pairs[i]));
      url := AppendPair(url, if i == 0 then QUESTION else AMPERSAND, pairs[i]);
    }
    assert pairs[..|pairs|] == pairs;
  }

  lemma RegroupFour(a: bytes, b: bytes, c: bytes, d: bytes)
    ensures a + (b + c + d) == (a + b) + (c + d)
  {
  }

  lemma QueryGrows(pairs: seq<Pair>, i: nat)
    requires i < |pairs|
    ensures QueryPart(pairs[..i + 1])
         == QueryPart(pairs[..i]) + ([Separator(i)] + EncodePair(pairs[i]))
  {
    var longer := pairs[..i + 1];
    if i == 0 {
      assert longer == [pairs[0]] && pairs[..0] == [];
      assert [] + ([QUESTION] + EncodePair(pairs[0])) == [QUESTION] + EncodePair(pairs[0]);
    } else {
      var front, pair := Query(pairs[..i]), EncodePair(pairs[i]);
      assert Query(longer) == front + [AMPERSAND] + pair by {
        assert longer[..|longer| - 1] == pairs[..i] && longer[|longer| - 1] == pairs[i];
      }
      RegroupFour([QUESTION], front, [AMPERSAND], pair);
    }
  }

  /** Whoever splits the URL at its first `?` finds exactly the built query. */
  lemma UrlHoldsQuery(base: bytes, path: seq<bytes>, pairs: seq<Pair>)
    requires QUESTION !in base + PathOf(path) && pairs != []
    ensures SplitOnce(base + PathOf(path) + QueryPart(pairs), QUESTION) == Some(Pair(base + PathOf(path), Query(pairs)))
  {
    SplitOnceAt(base + PathOf(path), Query(pairs), QUESTION);
    assert base + PathOf(path) + QueryPart(pairs) == base + PathOf(path) + [QUESTION] + Query(pairs);
  }
}
