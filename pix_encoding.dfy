/**
 * The serialising half of the PIX BR Code builder (`src/controllers/brCodePIX/index.ts`):
 * `padTwoZeros`, `getEVM`, the `merchantInformation` and `additionalDataFields`
 * getters and `toBRCode`, over the fields a successful construction stores.
 * The layout is the data-object format of the EMV QR Code Specification for
 * Payment Systems (Merchant-Presented Mode): a two-digit ID, a two-digit length
 * and the value, the payload closed by the CRC object with ID "63".
 * A reader of that format, `DecodeObjects`, is the partner every layout
 * statement is proved against.
 */
module PixEncoding {
  import opened Wrappers
  import opened JsStrings
  import opened Utf8
  import opened Crc16
  import opened PixValidation

  const PayloadFormatIndicator := "01"
  const Gui := "br.gov.bcb.pix"
  const MerchantCategoryCode := "0000"
  const CurrencyCode := "986"
  /** The number `6304` the source joins in: ID "63" and length "04" of the CRC object. */
  const CrcHeader := "6304"

  // ---------------------------------------------------------------------------
  // padTwoZeros and getEVM
  // ---------------------------------------------------------------------------

  /** `value.toString().padStart(2, "0")`: never shorter than two characters,
      exactly two below 100, and from 10 on the plain decimal, untruncated. */
  function PadTwoZeros(n: nat): (r: string)
    ensures |r| >= 2 && (|r| == 2 <==> n < 100)
    ensures n >= 10 ==> r == NatToString(n, 10)
  {
    NatToStringLength(n, 10, 2);
    NatToStringLength(n, 10, 1);
    PadStart(NatToString(n, 10), 2, '0')
  }

  /** The characters `padTwoZeros` writes are decimal digits denoting `n`. */
  lemma PadTwoZerosDigits(n: nat)
    ensures IsLowerDigits(PadTwoZeros(n), 10) && ValueOf(PadTwoZeros(n), 10) == n
  {
    var t := NatToString(n, 10);
    NatToStringDigits(n, 10);
    ValueOfNatToString(n, 10);
    if |t| < 2 {
      assert PadTwoZeros(n) == ['0'] + t;
      ValueOfZeroPrefix(t, 10);
    }
  }

  /** `padTwoZeros(n)` for `n < 10`: a zero, then the digit. */
  lemma PadTwoZerosSingleDigit(n: nat)
    requires n < 10
    ensures PadTwoZeros(n) == ['0', DigitChar(n)]
  {
  }

  /** Below 100, `padTwoZeros` writes the tens digit and the units digit. */
  lemma PadTwoZerosOfTwoDigits(n: nat)
    requires n < 100
    ensures PadTwoZeros(n) == [DigitChar(n / 10), DigitChar(n % 10)]
  {
    if n >= 10 {
      TwoDigitString(n);
    } else {
      OneDigitPadded(n);
    }
  }

  lemma {:induction false} TwoDigitString(n: nat)
    requires 10 <= n < 100
    ensures PadTwoZeros(n) == [DigitChar(n / 10), DigitChar(n % 10)]
  {
    var q, d := n / 10, n % 10;
    assert Quot(n, 10) == q && Rem(n, 10) == d && q < 10;
    var t := NatToString(n, 10);
    assert t == NatToString(q, 10) + [DigitChar(d)];
    assert NatToString(q, 10) == [DigitChar(q)];
    assert t == [DigitChar(q), DigitChar(d)];
  }

  lemma {:induction false} OneDigitPadded(n: nat)
    requires n < 10
    ensures PadTwoZeros(n) == [DigitChar(0), DigitChar(n)]
  {
    var r := PadTwoZeros(n);
    assert |r| == 2 && r[1..] == [DigitChar(n)];
  }

  /** The header `getEVM` writes for an ID and a length below 100: their tens
      and units digits. */
  lemma HeaderDigits(id: nat, length: nat, header: string)
    requires id < 100 && length < 100
    requires header == [DigitChar(id / 10), DigitChar(id % 10), DigitChar(length / 10), DigitChar(length % 10)]
    ensures header == PadTwoZeros(id) + PadTwoZeros(length)
  {
    PadTwoZerosOfTwoDigits(id);
    PadTwoZerosOfTwoDigits(length);
  }

  /** `getEVM(id, value)`: nothing for an empty (or absent) value, otherwise
      the padded ID, the padded length and the value. */
  function GetEvm(id: nat, value: string): (r: string)
    ensures r == [] <==> value == []
    ensures value != [] ==> |r| >= |value| + 4
  {
    if value == [] then [] else PadTwoZeros(id) + PadTwoZeros(|value|) + value
  }

  /** For an ID and a length below 100, a data object is four characters longer
      than its value: the two-digit ID, the two-digit length, then the value. */
  lemma GetEvmLayout(id: nat, value: string)
    requires id < 100 && 0 < |value| < 100
    ensures var r := GetEvm(id, value);
      && |r| == |value| + 4
      && r[..2] == PadTwoZeros(id) && IsLowerDigits(r[..2], 10) && ValueOf(r[..2], 10) == id
      && r[2..4] == PadTwoZeros(|value|) && IsLowerDigits(r[2..4], 10) && ValueOf(r[2..4], 10) == |value|
      && r[4..] == value
  {
    PadTwoZerosDigits(id);
    PadTwoZerosDigits(|value|);
    HeaderLayout(PadTwoZeros(id), PadTwoZeros(|value|), value);
  }

  lemma HeaderLayout(x: string, y: string, value: string)
    requires |x| == 2 && |y| == 2
    ensures var r := x + y + value;
      |r| == |value| + 4 && r[..2] == x && r[2..4] == y && r[4..] == value
  {
  }

  /** Below 100, the digits `padTwoZeros` writes denote the number. */
  lemma ValueOfPadTwoZeros(n: nat)
    requires n < 100
    ensures |PadTwoZeros(n)| == 2 && ValueOf(PadTwoZeros(n), 10) == n
  {
    PadTwoZerosOfTwoDigits(n);
    assert PadTwoZeros(n) == CentsDigits(n);
  }

  /** Where the pieces of `x + y + value + rest` sit, for two-character `x` and `y`. */
  lemma SplitHeader(x: string, y: string, value: string, rest: string)
    requires |x| == 2 && |y| == 2
    ensures var s := x + y + value + rest;
      && s[..2] == x && s[2..4] == y && s[4..4 + |value|] == value && s[4 + |value|..] == rest
      && x + y + value == s[..4 + |value|]
  {
  }

  /** An empty value leaves the object out altogether. */
  lemma GetEvmOmitsEmpty(id: nat)
    ensures GetEvm(id, "") == ""
  {
  }

  // ---------------------------------------------------------------------------
  // The templates and the payload
  // ---------------------------------------------------------------------------

  /** `this._description && ...`: an absent description and an empty one both
      contribute nothing to the join. */
  function DescriptionText(description: Option<string>): string {
    description.GetOr("")
  }

  /** The `merchantInformation` getter: GUI (sub-ID 00), key (01) and, when
      given, description (02). The GUI is always there, so the template is
      never empty and object 26 is always written. */
  function MerchantInformation(f: Fields): (r: string)
    ensures |r| >= 4 + |Gui|
  {
    GetEvm(0, Gui) + GetEvm(1, f.key) + GetEvm(2, DescriptionText(f.description))
  }

  /** The `additionalDataFields` getter: the identifier as sub-ID 05, written
      exactly when the identifier is non-empty. */
  function AdditionalDataFields(f: Fields): (r: string)
    ensures r == [] <==> f.identifier == []
    ensures f.identifier != [] ==> |r| >= |f.identifier| + 4
  {
    GetEvm(5, f.identifier)
  }

  /** `this._amount?.toFixed(2)`: absent stays absent (the empty value), and any
      given amount, zero included, is written. */
  function AmountText(amount: Option<int>): (r: string)
    ensures r == [] <==> amount.None?
    ensures amount.Some? ==> r == ToFixed2(amount.value)
  {
    match amount
    case None => ""
    case Some(cents) => ToFixed2(cents)
  }

  /** The `data` string of `toBRCode`: the objects 00, 26, 52, 53, 54, 58, 59, 60
      and 62 joined in that order, then `6304`. */
  function PayloadBody(f: Fields): (r: string)
    ensures |r| >= 4 && r[|r| - 4..] == CrcHeader
  {
    GetEvm(0, PayloadFormatIndicator)
    + GetEvm(26, MerchantInformation(f))
    + GetEvm(52, MerchantCategoryCode)
    + GetEvm(53, CurrencyCode)
    + GetEvm(54, AmountText(f.amount))
    + GetEvm(58, f.receiverCountryCode)
    + GetEvm(59, f.receiverName)
    + GetEvm(60, f.receiverCity)
    + GetEvm(62, AdditionalDataFields(f))
    + CrcHeader
  }

  /** `crc16ccitt(data).toString(16).toUpperCase()`: the checksum of the UTF-8
      bytes of `data` in upper-case hexadecimal, not padded, so one to four
      characters, four exactly when the checksum is at least 0x1000. */
  function ChecksumText(data: string): (r: string)
    ensures 1 <= |r| <= 4 && (|r| == 4 <==> Checksum(Encode(data)) >= 0x1000)
  {
    var c := Checksum(Encode(data));
    assert Pow(16, 4) == 0x10000 && Pow(16, 3) == 0x1000;
    NatToStringLength(c, 16, 4);
    NatToStringLength(c, 16, 3);
    NatToStringLength(c, 16, 1);
    ToUpperCase(NatToString(c, 16))
  }

  /** The characters of the checksum text are hexadecimal digits without a
      leading zero, none of them a lower-case letter, denoting the checksum. */
  lemma ChecksumTextDigits(data: string)
    ensures var r, c := ChecksumText(data), Checksum(Encode(data));
      && (forall i :: 0 <= i < |r| ==> DigitValue(r[i]) < 16 && !('a' <= r[i] <= 'z'))
      && (|r| > 1 ==> DigitValue(r[0]) != 0)
      && ValueOf(r, 16) == c
  {
    var c := Checksum(Encode(data));
    var t := NatToString(c, 16);
    NatToStringDigits(c, 16);
    ValueOfNatToString(c, 16);
    ValueOfToUpperCase(t, 16);
  }

  /** `toBRCode()` as written: the payload, then one to four checksum characters. */
  function ToBRCode(f: Fields): (r: string)
    ensures |PayloadBody(f)| < |r| <= |PayloadBody(f)| + 4 && r[..|PayloadBody(f)|] == PayloadBody(f)
  {
    PayloadBody(f) + ChecksumText(PayloadBody(f))
  }

  // ---------------------------------------------------------------------------
  // A reader of the data-object format
  // ---------------------------------------------------------------------------

  datatype DataObject = DataObject(id: nat, value: string)

  /** Objects a reader can recover: ID and length fit in two digits, value non-empty. */
  predicate WellFormed(os: seq<DataObject>) {
    forall i :: 0 <= i < |os| ==> os[i].id < 100 && 0 < |os[i].value| < 100
  }

  function EncodeObjects(os: seq<DataObject>): string
    decreases |os|
  {
    if os == [] then [] else GetEvm(os[0].id, os[0].value) + EncodeObjects(os[1..])
  }

  /** Two decimal digits, or nothing. */
  function TwoDigits(s: string): (r: Option<nat>)
    requires |s| == 2
    ensures r.Some? ==> r.value < 100
  {
    if DigitValue(s[0]) < 10 && DigitValue(s[1]) < 10 then
      assert s[..1][..0] == [] && s[..1] == [s[0]];
      Some(DigitValue(s[0]) * 10 + DigitValue(s[1]))
    else None
  }

  /** Reads ID, length and value, object after object, to the end of the text;
      fails on a truncated object, a zero length or a non-digit header. */
  function DecodeObjects(s: string): Option<seq<DataObject>>
    decreases |s|
  {
    if s == [] then Some([])
    else if |s| < 4 then None
    else
      var id, len := TwoDigits(s[..2]), TwoDigits(s[2..4]);
      if id.None? || len.None? || len.value == 0 || |s| < 4 + len.value then None
      else
        var rest := DecodeObjects(s[4 + len.value..]);
        if rest.None? then None else Some([DataObject(id.value, s[4..4 + len.value])] + rest.value)
  }

  /** The two-digit header `padTwoZeros` writes reads back as the number. */
  lemma TwoDigitsOfPadTwoZeros(n: nat)
    requires n < 100
    ensures |PadTwoZeros(n)| == 2 && TwoDigits(PadTwoZeros(n)) == Some(n)
  {
    PadTwoZerosOfTwoDigits(n);
    DigitValueOfDigitChar(n / 10);
    DigitValueOfDigitChar(n % 10);
  }

  /** What a reader returns for known objects in front of text it read as `d`. */
  function Prepend(os: seq<DataObject>, d: Option<seq<DataObject>>): Option<seq<DataObject>> {
    if d.None? then None else Some(os + d.value)
  }

  /** Reading a well-formed object followed by more text yields that object,
      then whatever the rest yields. */
  lemma DecodeHead(o: DataObject, rest: string)
    requires o.id < 100 && 0 < |o.value| < 100
    ensures DecodeObjects(GetEvm(o.id, o.value) + rest) == Prepend([o], DecodeObjects(rest))
  {
    var x, y := PadTwoZeros(o.id), PadTwoZeros(|o.value|);
    TwoDigitsOfPadTwoZeros(o.id);
    TwoDigitsOfPadTwoZeros(|o.value|);
    assert GetEvm(o.id, o.value) + rest == x + y + o.value + rest;
    DecodeHeader(x, y, o.id, o.value, rest);
  }

  lemma DecodeHeader(x: string, y: string, id: nat, value: string, rest: string)
    requires |x| == 2 && |y| == 2 && TwoDigits(x) == Some(id) && TwoDigits(y) == Some(|value|) && value != []
    ensures DecodeObjects(x + y + value + rest) == Prepend([DataObject(id, value)], DecodeObjects(rest))
  {
    SplitHeader(x, y, value, rest);
  }

  lemma WellFormedTail(os: seq<DataObject>)
    requires os != [] && WellFormed(os)
    ensures WellFormed(os[1..]) && os[0].id < 100 && 0 < |os[0].value| < 100
  {
    forall i | 0 <= i < |os| - 1 ensures os[1..][i].id < 100 && 0 < |os[1..][i].value| < 100 {
      assert os[1..][i] == os[i + 1];
    }
  }

  /** Reading well-formed objects followed by more text yields those objects,
      then whatever the rest yields. */
  lemma {:induction false} DecodeEncodeAppend(os: seq<DataObject>, rest: string)
    requires WellFormed(os)
    ensures DecodeObjects(EncodeObjects(os) + rest) == Prepend(os, DecodeObjects(rest))
    decreases |os|
  {
    if os == [] {
      assert EncodeObjects(os) + rest == rest;
      if DecodeObjects(rest).Some? {
        assert os + DecodeObjects(rest).value == DecodeObjects(rest).value;
      }
    } else {
      WellFormedTail(os);
      DecodeEncodeAppend(os[1..], rest);
      DecodeCons(os[0], os[1..], rest, DecodeObjects(rest));
      assert os == [os[0]] + os[1..];
    }
  }

  /** The inductive step of `DecodeEncodeAppend`: one more object in front. */
  lemma DecodeCons(o: DataObject, more: seq<DataObject>, rest: string, d: Option<seq<DataObject>>)
    requires o.id < 100 && 0 < |o.value| < 100
    requires DecodeObjects(EncodeObjects(more) + rest) == Prepend(more, d)
    ensures DecodeObjects(EncodeObjects([o] + more) + rest) == Prepend([o] + more, d)
  {
    var tail := EncodeObjects(more) + rest;
    EncodeObjectsCons(o, more, rest);
    DecodeHead(o, tail);
    PrependTwice(o, more, d);
  }

  lemma EncodeObjectsCons(o: DataObject, more: seq<DataObject>, rest: string)
    ensures EncodeObjects([o] + more) + rest == GetEvm(o.id, o.value) + (EncodeObjects(more) + rest)
  {
    assert ([o] + more)[1..] == more;
  }

  lemma PrependTwice(o: DataObject, more: seq<DataObject>, d: Option<seq<DataObject>>)
    ensures Prepend([o], Prepend(more, d)) == Prepend([o] + more, d)
  {
    if d.Some? {
      assert [o] + (more + d.value) == [o] + more + d.value;
    }
  }

  /** Reading back well-formed objects gives exactly those objects. */
  lemma DecodeEncode(os: seq<DataObject>)
    requires WellFormed(os)
    ensures DecodeObjects(EncodeObjects(os)) == Some(os)
  {
    DecodeEncodeAppend(os, "");
    assert EncodeObjects(os) + "" == EncodeObjects(os);
    assert os + [] == os;
    assert Prepend(os, Some([])) == Some(os);
  }

  /** The objects of `toBRCode`'s payload before the CRC object, in order;
      ID 54 only when an amount is given. */
  function TopLevelObjects(f: Fields): seq<DataObject> {
    [DataObject(0, PayloadFormatIndicator)]
    + [DataObject(26, MerchantInformation(f))]
    + [DataObject(52, MerchantCategoryCode)]
    + [DataObject(53, CurrencyCode)]
    + AmountObjects(f.amount)
    + [DataObject(58, f.receiverCountryCode)]
    + [DataObject(59, f.receiverName)]
    + [DataObject(60, f.receiverCity)]
    + [DataObject(62, AdditionalDataFields(f))]
  }

  function AmountObjects(amount: Option<int>): seq<DataObject> {
    if amount.Some? then [DataObject(54, AmountText(amount))] else []
  }

  /** The objects of the merchant account template (ID 26), in order;
      sub-ID 02 only for a non-empty description. */
  function MerchantObjects(f: Fields): seq<DataObject> {
    [DataObject(0, Gui), DataObject(1, f.key)]
    + (if DescriptionText(f.description) != "" then [DataObject(2, DescriptionText(f.description))] else [])
  }

  /** The objects of the additional data field template (ID 62): the
      identifier as sub-ID 05 when it is non-empty. */
  function AdditionalObjects(f: Fields): seq<DataObject> {
    if f.identifier != [] then [DataObject(5, f.identifier)] else []
  }

  lemma {:induction false} EncodeObjectsAppend(a: seq<DataObject>, b: seq<DataObject>)
    ensures EncodeObjects(a + b) == EncodeObjects(a) + EncodeObjects(b)
    decreases |a|
  {
    if a == [] {
      assert a + b == b;
    } else {
      assert (a + b)[0] == a[0];
      assert (a + b)[1..] == a[1..] + b;
      EncodeObjectsAppend(a[1..], b);
    }
  }

  lemma EncodeObjectsOne(o: DataObject)
    ensures EncodeObjects([o]) == GetEvm(o.id, o.value)
  {
    assert [o][1..] == [];
  }

  lemma EncodeObjectsSnoc(a: seq<DataObject>, o: DataObject)
    ensures EncodeObjects(a + [o]) == EncodeObjects(a) + GetEvm(o.id, o.value)
  {
    EncodeObjectsAppend(a, [o]);
    assert [o][1..] == [];
  }

  /** The payload is the top-level objects, then `6304`: an object with an
      empty value (an absent amount) contributes nothing either way. */
  lemma PayloadBodyIsObjects(f: Fields)
    ensures PayloadBody(f) == EncodeObjects(TopLevelObjects(f)) + CrcHeader
  {
    var o0, o1, o2, o3 := DataObject(0, PayloadFormatIndicator), DataObject(26, MerchantInformation(f)),
      DataObject(52, MerchantCategoryCode), DataObject(53, CurrencyCode);
    var o5, o6, o7, o8 := DataObject(58, f.receiverCountryCode), DataObject(59, f.receiverName),
      DataObject(60, f.receiverCity), DataObject(62, AdditionalDataFields(f));
    var l3, amount := [o0] + [o1] + [o2] + [o3], AmountObjects(f.amount);
    EncodeWithAmount(l3, f.amount);
    EncodeFour(o0, o1, o2, o3);
    EncodeObjectsSnoc(l3 + amount, o5);
    EncodeObjectsSnoc(l3 + amount + [o5], o6);
    EncodeObjectsSnoc(l3 + amount + [o5] + [o6], o7);
    EncodeObjectsSnoc(l3 + amount + [o5] + [o6] + [o7], o8);
  }

  lemma EncodeWithAmount(front: seq<DataObject>, amount: Option<int>)
    ensures EncodeObjects(front + AmountObjects(amount)) == EncodeObjects(front) + GetEvm(54, AmountText(amount))
  {
    if amount.Some? {
      EncodeObjectsSnoc(front, DataObject(54, AmountText(amount)));
    } else {
      assert front + AmountObjects(amount) == front;
    }
  }

  lemma EncodeFour(o0: DataObject, o1: DataObject, o2: DataObject, o3: DataObject)
    ensures EncodeObjects([o0] + [o1] + [o2] + [o3]) ==
      GetEvm(o0.id, o0.value) + GetEvm(o1.id, o1.value) + GetEvm(o2.id, o2.value) + GetEvm(o3.id, o3.value)
  {
    EncodeObjectsOne(o0);
    EncodeObjectsSnoc([o0], o1);
    EncodeObjectsSnoc([o0] + [o1], o2);
    EncodeObjectsSnoc([o0] + [o1] + [o2], o3);
  }


  // ---------------------------------------------------------------------------
  // What a reader makes of the code
  // ---------------------------------------------------------------------------

  /** The four-digit checksum the format calls for: the same digits, zero-padded. */
  function PaddedChecksumText(data: string): string {
    PadStart(ChecksumText(data), 4, '0')
  }

  /** `toBRCode()` with the checksum zero-padded to four digits. */
  function PaddedToBRCode(f: Fields): string {
    PayloadBody(f) + PaddedChecksumText(PayloadBody(f))
  }

  /** The padded checksum is always four upper-case hexadecimal digits denoting
      the checksum, and equals the unpadded text whenever that has four digits. */
  lemma PaddedChecksumTextDigits(data: string)
    ensures var r, c := PaddedChecksumText(data), Checksum(Encode(data));
      && |r| == 4
      && (forall i :: 0 <= i < 4 ==> DigitValue(r[i]) < 16 && !('a' <= r[i] <= 'z'))
      && ValueOf(r, 16) == c
      && (c >= 0x1000 ==> r == ChecksumText(data))
  {
    var t := ChecksumText(data);
    ChecksumTextDigits(data);
    if |t| < 4 {
      assert PaddedChecksumText(data) == Repeat('0', 4 - |t|) + t;
      ValueOfZerosPrefix(4 - |t|, t, 16);
    }
  }

  /** An object with an ID and a value below 100 characters is four characters
      longer than its value, or empty with the value. */
  lemma GetEvmLength(id: nat, value: string)
    requires id < 100 && |value| < 100
    ensures |GetEvm(id, value)| == if value == [] then 0 else |value| + 4
  {
  }

  /** The template of ID 26 for key and description below 100 characters:
      22 characters for GUI and key headers, plus the key, plus an object for a
      non-empty description. */
  lemma MerchantInformationLength(f: Fields)
    requires 0 < |f.key| < 100 && |DescriptionText(f.description)| < 100
    ensures var d := DescriptionText(f.description);
      |MerchantInformation(f)| == 22 + |f.key| + (if d == "" then 0 else 4 + |d|)
  {
    GetEvmLength(0, Gui);
    GetEvmLength(1, f.key);
    GetEvmLength(2, DescriptionText(f.description));
  }

  /** Validated fields give objects a reader can recover, as long as the ID 26
      template and the amount text stay below 100 characters. */
  lemma TopLevelWellFormed(f: Fields, v: Validators)
    requires ValidFields(f, v)
    requires |MerchantInformation(f)| < 100 && |AmountText(f.amount)| < 100
    ensures WellFormed(TopLevelObjects(f))
  {
    TopLevelValueBounds(f, v);
    WellFormedRow(DataObject(0, PayloadFormatIndicator), DataObject(26, MerchantInformation(f)),
      DataObject(52, MerchantCategoryCode), DataObject(53, CurrencyCode), AmountObjects(f.amount),
      DataObject(58, f.receiverCountryCode), DataObject(59, f.receiverName),
      DataObject(60, f.receiverCity), DataObject(62, AdditionalDataFields(f)));
  }

  /** The values of the top-level objects of validated fields are non-empty and,
      under the same two conditions, shorter than 100 characters. */
  lemma TopLevelValueBounds(f: Fields, v: Validators)
    requires ValidFields(f, v)
    requires |MerchantInformation(f)| < 100 && |AmountText(f.amount)| < 100
    ensures 0 < |MerchantInformation(f)| && 0 < |AdditionalDataFields(f)| < 100
    ensures 0 < |f.receiverCountryCode| < 100 && 0 < |f.receiverName| < 100 && 0 < |f.receiverCity| < 100
    ensures WellFormed(AmountObjects(f.amount))
  {
    ValidFieldsBounds(f, v);
    GetEvmLength(5, f.identifier);
    GetEvmLength(0, Gui);
    assert |MerchantInformation(f)| >= |GetEvm(0, Gui)|;
    if f.amount.Some? {
      assert |ToFixed2(f.amount.value)| >= 4;
    }
  }

  /** Nine objects in the order of the payload, the fifth a possibly empty list. */
  lemma WellFormedRow(o0: DataObject, o1: DataObject, o2: DataObject, o3: DataObject, amount: seq<DataObject>,
                      o5: DataObject, o6: DataObject, o7: DataObject, o8: DataObject)
    requires Readable(o0) && Readable(o1) && Readable(o2) && Readable(o3) && WellFormed(amount)
    requires Readable(o5) && Readable(o6) && Readable(o7) && Readable(o8)
    ensures WellFormed([o0] + [o1] + [o2] + [o3] + amount + [o5] + [o6] + [o7] + [o8])
  {
    WellFormedOne(o0);
    WellFormedOne(o1);
    WellFormedOne(o2);
    WellFormedOne(o3);
    WellFormedOne(o5);
    WellFormedOne(o6);
    WellFormedOne(o7);
    WellFormedOne(o8);
    var l := [o0] + [o1];
    WellFormedAppend([o0], [o1]);
    WellFormedAppend(l, [o2]);
    l := l + [o2];
    WellFormedAppend(l, [o3]);
    l := l + [o3];
    WellFormedAppend(l, amount);
    l := l + amount;
    WellFormedAppend(l, [o5]);
    l := l + [o5];
    WellFormedAppend(l, [o6]);
    l := l + [o6];
    WellFormedAppend(l, [o7]);
    l := l + [o7];
    WellFormedAppend(l, [o8]);
  }

  /** An object a reader can recover on its own. */
  predicate Readable(o: DataObject) {
    o.id < 100 && 0 < |o.value| < 100
  }

  lemma WellFormedOne(o: DataObject)
    requires Readable(o)
    ensures WellFormed([o])
  {
  }

  lemma WellFormedAppend(a: seq<DataObject>, b: seq<DataObject>)
    requires WellFormed(a) && WellFormed(b)
    ensures WellFormed(a + b)
  {
    forall i | 0 <= i < |a + b| ensures (a + b)[i].id < 100 && 0 < |(a + b)[i].value| < 100 {
      if i < |a| { assert (a + b)[i] == a[i]; } else { assert (a + b)[i] == b[i - |a|]; }
    }
  }

  /** The stored strings a successful construction leaves are non-empty and short. */
  lemma ValidFieldsBounds(f: Fields, v: Validators)
    requires ValidFields(f, v)
    ensures 0 < |f.receiverName| <= 25 && 0 < |f.receiverCity| <= 15 && |f.receiverCountryCode| == 2
    ensures 0 < |f.identifier| <= 25 && 0 < |f.key| <= 77
    ensures f.description.Some? ==> |f.description.value| <= 77
    ensures f.amount.Some? ==> f.amount.value >= 0
  {
    assert FieldChecks(f, v)[0] == None && FieldChecks(f, v)[1] == None && FieldChecks(f, v)[2] == None;
    assert FieldChecks(f, v)[3] == None && FieldChecks(f, v)[4] == None && FieldChecks(f, v)[5] == None;
    assert FieldChecks(f, v)[6] == None;
  }

  /** `6304` followed by four characters is the CRC data object. */
  lemma CrcObject(c: string)
    requires |c| == 4
    ensures CrcHeader + c == GetEvm(63, c)
  {
    assert NatToString(63, 10) == "63";
    assert NatToString(4, 10) == "4";
  }

  /** Objects, `6304` and four characters read back as the objects and the CRC
      object; with fewer than four characters the text does not read. */
  lemma DecodeWithCrc(os: seq<DataObject>, c: string)
    requires WellFormed(os) && |c| <= 4
    ensures DecodeObjects(EncodeObjects(os) + CrcHeader + c) ==
      if |c| == 4 then Some(os + [DataObject(63, c)]) else None
  {
    assert EncodeObjects(os) + CrcHeader + c == EncodeObjects(os) + (CrcHeader + c);
    DecodeEncodeAppend(os, CrcHeader + c);
    if |c| == 4 {
      CrcObjectDecodes(c);
    } else {
      TruncatedCrcObject(c);
    }
  }

  lemma CrcObjectDecodes(c: string)
    requires |c| == 4
    ensures DecodeObjects(CrcHeader + c) == Some([DataObject(63, c)])
  {
    CrcObject(c);
    DecodeHead(DataObject(63, c), "");
    assert GetEvm(63, c) + "" == CrcHeader + c;
    assert [DataObject(63, c)] + [] == [DataObject(63, c)];
  }

  /** With a four-digit checksum, a reader recovers every object of the code,
      the CRC object last. */
  lemma PaddedCodeDecodes(f: Fields, v: Validators)
    requires ValidFields(f, v)
    requires |MerchantInformation(f)| < 100 && |AmountText(f.amount)| < 100
    ensures DecodeObjects(PaddedToBRCode(f)) ==
      Some(TopLevelObjects(f) + [DataObject(63, PaddedChecksumText(PayloadBody(f)))])
  {
    PaddedChecksumTextDigits(PayloadBody(f));
    PayloadBodyIsObjects(f);
    TopLevelWellFormed(f, v);
    DecodeWithCrc(TopLevelObjects(f), PaddedChecksumText(PayloadBody(f)));
  }

  /** As written, a reader recovers the code exactly when the checksum is at
      least 0x1000; below that the CRC object announces four characters and
      carries fewer, and the whole code is unreadable. */
  lemma CodeDecodesIffChecksumHasFourDigits(f: Fields, v: Validators)
    requires ValidFields(f, v)
    requires |MerchantInformation(f)| < 100 && |AmountText(f.amount)| < 100
    ensures var c := Checksum(Encode(PayloadBody(f)));
      && (c >= 0x1000 ==>
            DecodeObjects(ToBRCode(f)) == Some(TopLevelObjects(f) + [DataObject(63, ChecksumText(PayloadBody(f)))]))
      && (c < 0x1000 ==> DecodeObjects(ToBRCode(f)) == None)
  {
    PayloadBodyIsObjects(f);
    TopLevelWellFormed(f, v);
    DecodeWithCrc(TopLevelObjects(f), ChecksumText(PayloadBody(f)));
  }

  /** `6304` followed by fewer than four characters does not read. */
  lemma TruncatedCrcObject(t: string)
    requires |t| < 4
    ensures DecodeObjects(CrcHeader + t) == None
  {
    var s := CrcHeader + t;
    assert s[..2] == "63" && s[2..4] == "04";
    assert TwoDigits(s[2..4]) == Some(4);
  }

  // ---------------------------------------------------------------------------
  // Optional elements and template overflow
  // ---------------------------------------------------------------------------

  /** The ID 26 template is its objects: GUI, key and, when non-empty, description. */
  lemma MerchantInformationIsObjects(f: Fields)
    ensures MerchantInformation(f) == EncodeObjects(MerchantObjects(f))
  {
    ObjectsOfTemplate(Gui, f.key, DescriptionText(f.description));
  }

  /** Sub-IDs 00, 01 and, for a non-empty third value, 02, encoded one after the other. */
  lemma ObjectsOfTemplate(g: string, k: string, d: string)
    ensures EncodeObjects([DataObject(0, g), DataObject(1, k)] + (if d != "" then [DataObject(2, d)] else []))
         == GetEvm(0, g) + GetEvm(1, k) + GetEvm(2, d)
  {
    var a := [DataObject(0, g), DataObject(1, k)];
    EncodeObjectsOne(DataObject(0, g));
    EncodeObjectsSnoc([DataObject(0, g)], DataObject(1, k));
    assert a == [DataObject(0, g)] + [DataObject(1, k)];
    if d != "" {
      EncodeObjectsSnoc(a, DataObject(2, d));
    } else {
      assert a + [] == a;
    }
  }

  /** The ID 62 template is its one object: the identifier as sub-ID 05, or
      nothing for an empty identifier. */
  lemma AdditionalDataFieldsIsObjects(f: Fields)
    ensures AdditionalDataFields(f) == EncodeObjects(AdditionalObjects(f))
  {
    if f.identifier != [] {
      EncodeObjectsOne(DataObject(5, f.identifier));
    }
  }

  /** An absent or empty description leaves sub-ID 02 out of the template. */
  lemma EmptyDescriptionOmitted(f: Fields)
    requires f.description == None || f.description == Some("")
    ensures MerchantObjects(f) == [DataObject(0, Gui), DataObject(1, f.key)]
    ensures MerchantInformation(f) == GetEvm(0, Gui) + GetEvm(1, f.key)
  {
  }

  /** Without an amount there is no object with ID 54. */
  lemma AbsentAmountOmitted(f: Fields)
    requires f.amount == None
    ensures forall i :: 0 <= i < |TopLevelObjects(f)| ==> TopLevelObjects(f)[i].id != 54
    ensures |TopLevelObjects(f)| == 8
  {
    assert AmountObjects(f.amount) == [];
    IdsOfRow(DataObject(0, PayloadFormatIndicator), DataObject(26, MerchantInformation(f)),
      DataObject(52, MerchantCategoryCode), DataObject(53, CurrencyCode),
      DataObject(58, f.receiverCountryCode), DataObject(59, f.receiverName),
      DataObject(60, f.receiverCity), DataObject(62, AdditionalDataFields(f)));
  }

  /** A row of eight objects without an amount: where each one sits. */
  lemma IdsOfRow(o0: DataObject, o1: DataObject, o2: DataObject, o3: DataObject,
                 o5: DataObject, o6: DataObject, o7: DataObject, o8: DataObject)
    ensures var l := [o0] + [o1] + [o2] + [o3] + [] + [o5] + [o6] + [o7] + [o8];
      l == [o0, o1, o2, o3, o5, o6, o7, o8]
  {
  }

  /** An amount is the fifth object, whatever its value. */
  lemma AmountObjectPresent(f: Fields)
    requires f.amount.Some?
    ensures |TopLevelObjects(f)| == 9 && TopLevelObjects(f)[4] == DataObject(54, AmountText(f.amount))
  {
    FifthOfRow(DataObject(0, PayloadFormatIndicator), DataObject(26, MerchantInformation(f)),
      DataObject(52, MerchantCategoryCode), DataObject(53, CurrencyCode), DataObject(54, AmountText(f.amount)),
      DataObject(58, f.receiverCountryCode), DataObject(59, f.receiverName),
      DataObject(60, f.receiverCity), DataObject(62, AdditionalDataFields(f)));
  }

  lemma FifthOfRow(o0: DataObject, o1: DataObject, o2: DataObject, o3: DataObject, o4: DataObject,
                   o5: DataObject, o6: DataObject, o7: DataObject, o8: DataObject)
    ensures var l := [o0] + [o1] + [o2] + [o3] + [o4] + [o5] + [o6] + [o7] + [o8];
      |l| == 9 && l[4] == o4
  {
    var l4 := [o0] + [o1] + [o2] + [o3] + [o4];
    assert l4[4] == o4;
    var l6 := l4 + [o5] + [o6];
    assert l6[4] == o4;
    assert (l6 + [o7] + [o8])[4] == o4;
  }

  /** A zero amount is still written, as `54040.00`. */
  lemma ZeroAmountWritten()
    ensures AmountText(Some(0)) == "0.00" && GetEvm(54, AmountText(Some(0))) == "5404" + "0.00"
  {
    ZeroAmountText();
    HeaderDigits(54, 4, "5404");
  }

  lemma ZeroAmountText()
    ensures AmountText(Some(0)) == "0.00"
  {
    assert NatToString(0, 10) == "0";
    assert CentsDigits(0) == "00";
  }

  /** A value of 100 characters or more, such as a long ID 26 template, gets a
      length of three digits or more, so its object is five or more characters
      longer than its value. */
  lemma LongObjectHeader(id: nat, value: string)
    requires |value| >= 100
    ensures |PadTwoZeros(|value|)| >= 3 && |GetEvm(id, value)| >= |value| + 5
  {
  }

  /** Validated fields allow a template of up to 180 characters: a 77-character
      key and a 77-character description reach it. */
  lemma TemplateUpTo180(f: Fields, v: Validators)
    requires ValidFields(f, v)
    ensures |MerchantInformation(f)| <= 180
    ensures |f.key| == 77 && |DescriptionText(f.description)| == 77 ==> |MerchantInformation(f)| == 180
  {
    ValidFieldsBounds(f, v);
    assert |DescriptionText(f.description)| <= 77;
    TemplateLengthBound(f);
  }

  /** A key and a description of at most 77 characters make a template of at most 180. */
  lemma TemplateLengthBound(f: Fields)
    requires 0 < |f.key| <= 77 && |DescriptionText(f.description)| <= 77
    ensures |MerchantInformation(f)| <= 180
    ensures |f.key| == 77 && |DescriptionText(f.description)| == 77 ==> |MerchantInformation(f)| == 180
  {
    MerchantInformationLength(f);
  }
}
