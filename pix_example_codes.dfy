/**
 * The two codes `src/controllers/brCodePIX/index.spec.ts` expects `toBRCode`
 * to print, and a third input whose code is too short to read. The checksum
 * of a payload is worked out piece by piece: each lemma below feeds a few
 * characters to the CRC register, from a known register value to the next,
 * and `UpdateSplit` chains the pieces into whole objects and the whole payload.
 */
module PixExampleCodes {
  import opened Wrappers
  import opened JsStrings
  import opened Utf8
  import opened Crc16
  import opened PixValidation
  import opened PixEncoding
  import opened PixExamples

  // ---------------------------------------------------------------------------
  // The checksums of the example codes
  // ---------------------------------------------------------------------------

  /** Feeding a string is feeding its two pieces one after the other. */
  lemma UpdateSplit(crc: bv16, s: string, a: string, b: string)
    requires s == a + b
    ensures Update(crc, Encode(s)) == Update(Update(crc, Encode(a)), Encode(b))
  {
    EncodeAppend(a, b);
    UpdateAppend(crc, Encode(a), Encode(b));
  }

  /** A string in two pieces whose registers are known, from any register. */
  lemma RegisterChain(crc: bv16, s: string, a: string, b: string, middle: bv16, end: bv16)
    requires s == a + b && Update(crc, Encode(a)) == middle && Update(middle, Encode(b)) == end
    ensures Update(crc, Encode(s)) == end
  {
    UpdateSplit(crc, s, a, b);
  }

  /** One more piece after a prefix whose register is known. */
  lemma PayloadStep(prefix: string, piece: string, crc: bv16, d: bv16)
    requires Update(Initial, Encode(prefix)) == crc && Update(crc, Encode(piece)) == d
    ensures Update(Initial, Encode(prefix + piece)) == d
  {
    UpdateSplit(Initial, prefix + piece, prefix, piece);
  }

  /** A data object is its header followed by its value. */
  lemma ObjectText(id: nat, value: string, header: string)
    requires id < 100 && 0 < |value| < 100
    requires header == [DigitChar(id / 10), DigitChar(id % 10), DigitChar(|value| / 10), DigitChar(|value| % 10)]
    ensures GetEvm(id, value) == header + value
  {
    HeaderDigits(id, |value|, header);
  }

  /** The header of the GUI object of the merchant account template. */
  lemma GuiObjectText()
    ensures GetEvm(0, Gui) == "0014" + Gui
  {
    ObjectText(0, Gui, "0014");
  }

  /** The header of the key object of the merchant account template. */
  lemma KeyObjectText(f: Fields)
    requires f.key == ExampleKey
    ensures GetEvm(1, f.key) == "0125" + f.key
  {
    ObjectText(1, f.key, "0125");
  }

  /** The header of the description object of the merchant account template. */
  lemma DescriptionObjectText(f: Fields)
    requires f.description == Some("Teste")
    ensures GetEvm(2, DescriptionText(f.description)) == "0205" + "Teste"
  {
    ObjectText(2, "Teste", "0205");
  }

  /** The headers of the objects of the merchant account template. */
  lemma MerchantObjectTexts(f: Fields)
    requires f.key == ExampleKey && f.description == Some("Teste")
    ensures GetEvm(0, Gui) == "0014" + Gui
    ensures GetEvm(1, f.key) == "0125" + f.key
    ensures GetEvm(2, DescriptionText(f.description)) == "0205" + "Teste"
    ensures |MerchantInformation(f)| == 56
  {
    GuiObjectText();
    KeyObjectText(f);
    DescriptionObjectText(f);
    assert |Gui| == 14 && |ExampleKey| == 25;
  }

  lemma GuiPieces()
    ensures Gui == "br.gov." + "bcb.pix"
  {
  }

  lemma ExampleKeyPieces()
    ensures ExampleKey == "example" + "123456" + "@example" + ".com"
  {
  }

  /** The GUI, fed in its two halves. */
  lemma GuiRegister()
    ensures Update(0x483B, Encode(Gui)) == 0x3848
  {
    GuiFrontRegister();
    GuiBackRegister();
    GuiPieces();
    UpdateSplit(0x483B, Gui, "br.gov.", "bcb.pix");
  }

  /** The example key, fed in its four pieces. */
  lemma KeyRegister()
    ensures Update(0xC65B, Encode(ExampleKey)) == 0x1A67
  {
    KeyWordRegister();
    KeyDigitsRegister();
    KeyDomainRegister();
    KeyEndRegister();
    ExampleKeyPieces();
    UpdateSplit(0xC65B, "example" + "123456", "example", "123456");
    UpdateSplit(0xC65B, "example" + "123456" + "@example", "example" + "123456", "@example");
    UpdateSplit(0xC65B, ExampleKey, "example" + "123456" + "@example", ".com");
  }

  /** The merchant account template of the default data takes the register
      from 0x5450 to 0xFEDB. */
  lemma MerchantInformationRegister(f: Fields)
    requires f.key == ExampleKey && f.description == Some("Teste")
    ensures Update(0x5450, Encode(MerchantInformation(f))) == 0xFEDB
  {
    DescriptionObjectText(f);
    DescriptionRegister();
    GuiAndKeyRegister(f);
    var gui, key, description := GetEvm(0, Gui), GetEvm(1, f.key), GetEvm(2, DescriptionText(f.description));
    RegisterChain(0x1A67, description, "0205", "Teste", 0x89B8, 0xFEDB);
    RegisterChain(0x5450, MerchantInformation(f), gui + key, description, 0x1A67, 0xFEDB);
  }

  /** The GUI and key objects of the default data take the register from 0x5450 to 0x1A67. */
  lemma GuiAndKeyRegister(f: Fields)
    requires f.key == ExampleKey
    ensures Update(0x5450, Encode(GetEvm(0, Gui) + GetEvm(1, f.key))) == 0x1A67
  {
    GuiObjectRegister();
    KeyObjectRegister(f);
    RegisterChain(0x5450, GetEvm(0, Gui) + GetEvm(1, f.key), GetEvm(0, Gui), GetEvm(1, f.key), 0x3848, 0x1A67);
  }

  /** Sub-object 00, the GUI. */
  lemma GuiObjectRegister()
    ensures Update(0x5450, Encode(GetEvm(0, Gui))) == 0x3848
  {
    MerchantHeadersRegister();
    GuiRegister();
    GuiObjectText();
    RegisterChain(0x5450, GetEvm(0, Gui), "0014", Gui, 0x483B, 0x3848);
  }

  /** Sub-object 01, the example key. */
  lemma KeyObjectRegister(f: Fields)
    requires f.key == ExampleKey
    ensures Update(0x3848, Encode(GetEvm(1, f.key))) == 0x1A67
  {
    GuiBackRegister();
    KeyRegister();
    KeyObjectText(f);
    RegisterChain(0x3848, GetEvm(1, f.key), "0125", f.key, 0xC65B, 0x1A67);
  }

  /** Object 00, the payload format indicator. */
  lemma FormatObjectRegister()
    ensures Update(Initial, Encode(GetEvm(0, PayloadFormatIndicator))) == 0x89B9
  {
    ObjectText(0, PayloadFormatIndicator, "0002");
    FormatIndicatorRegister();
    UpdateSplit(Initial, GetEvm(0, PayloadFormatIndicator), "0002", PayloadFormatIndicator);
  }

  /** Object 26, the merchant account information. */
  lemma MerchantObjectRegister(f: Fields)
    requires f.key == ExampleKey && f.description == Some("Teste")
    ensures Update(0x89B9, Encode(GetEvm(26, MerchantInformation(f)))) == 0xFEDB
  {
    MerchantObjectTexts(f);
    ObjectText(26, MerchantInformation(f), "2656");
    MerchantHeadersRegister();
    MerchantInformationRegister(f);
    UpdateSplit(0x89B9, GetEvm(26, MerchantInformation(f)), "2656", MerchantInformation(f));
  }

  /** Object 52, the merchant category code. */
  lemma CategoryObjectRegister()
    ensures Update(0xFEDB, Encode(GetEvm(52, MerchantCategoryCode))) == 0x9E3F
  {
    ObjectText(52, MerchantCategoryCode, "5204");
    CategoryRegister();
    UpdateSplit(0xFEDB, GetEvm(52, MerchantCategoryCode), "5204", MerchantCategoryCode);
  }

  /** Object 53, the transaction currency. */
  lemma CurrencyObjectRegister()
    ensures Update(0x9E3F, Encode(GetEvm(53, CurrencyCode))) == 0xBF85
  {
    ObjectText(53, CurrencyCode, "5303");
    CurrencyRegister();
    UpdateSplit(0x9E3F, GetEvm(53, CurrencyCode), "5303", CurrencyCode);
  }

  /** Objects 00, 26, 52 and 53 of the default data, whatever the amount, take
      the register from its preset to 0xBF85. */
  lemma LeadingObjectsRegister(f: Fields)
    requires f.key == ExampleKey && f.description == Some("Teste")
    ensures Update(Initial, Encode(GetEvm(0, PayloadFormatIndicator) + GetEvm(26, MerchantInformation(f))
      + GetEvm(52, MerchantCategoryCode) + GetEvm(53, CurrencyCode))) == 0xBF85
  {
    FormatObjectRegister();
    MerchantObjectRegister(f);
    CategoryObjectRegister();
    CurrencyObjectRegister();
    var g0, g26, g52, g53 := GetEvm(0, PayloadFormatIndicator), GetEvm(26, MerchantInformation(f)),
      GetEvm(52, MerchantCategoryCode), GetEvm(53, CurrencyCode);
    PayloadStep(g0, g26, 0x89B9, 0xFEDB);
    PayloadStep(g0 + g26, g52, 0xFEDB, 0x9E3F);
    PayloadStep(g0 + g26 + g52, g53, 0x9E3F, 0xBF85);
  }

  /** Object 54 of data without an amount is empty and leaves the register as it is. */
  lemma NoAmountObjectRegister(f: Fields, crc: bv16)
    requires f.amount == None
    ensures Update(crc, Encode(GetEvm(54, AmountText(f.amount)))) == crc
  {
    GetEvmOmitsEmpty(54);
  }

  /** A data object takes the register through its header, then its value. */
  lemma ObjectRegister(id: nat, value: string, header: string, crc: bv16, mid: bv16, d: bv16)
    requires id < 100 && 0 < |value| < 100
    requires header == [DigitChar(id / 10), DigitChar(id % 10), DigitChar(|value| / 10), DigitChar(|value| % 10)]
    requires Update(crc, Encode(header)) == mid && Update(mid, Encode(value)) == d
    ensures Update(crc, Encode(GetEvm(id, value))) == d
  {
    ObjectText(id, value, header);
    UpdateSplit(crc, GetEvm(id, value), header, value);
  }

  /** The registers after each object of a payload chain into the register
      after the whole payload, `6304` included. */
  lemma PayloadChain(f: Fields, r4: bv16, r5: bv16, r6: bv16, r7: bv16, r8: bv16, r9: bv16, r10: bv16)
    requires Update(Initial, Encode(GetEvm(0, PayloadFormatIndicator) + GetEvm(26, MerchantInformation(f))
      + GetEvm(52, MerchantCategoryCode) + GetEvm(53, CurrencyCode))) == r4
    requires Update(r4, Encode(GetEvm(54, AmountText(f.amount)))) == r5
    requires Update(r5, Encode(GetEvm(58, f.receiverCountryCode))) == r6
    requires Update(r6, Encode(GetEvm(59, f.receiverName))) == r7
    requires Update(r7, Encode(GetEvm(60, f.receiverCity))) == r8
    requires Update(r8, Encode(GetEvm(62, AdditionalDataFields(f)))) == r9
    requires Update(r9, Encode(CrcHeader)) == r10
    ensures Update(Initial, Encode(PayloadBody(f))) == r10
  {
    var p4 := GetEvm(0, PayloadFormatIndicator) + GetEvm(26, MerchantInformation(f))
      + GetEvm(52, MerchantCategoryCode) + GetEvm(53, CurrencyCode);
    var p5 := p4 + GetEvm(54, AmountText(f.amount));
    PayloadStep(p4, GetEvm(54, AmountText(f.amount)), r4, r5);
    var p6 := p5 + GetEvm(58, f.receiverCountryCode);
    PayloadStep(p5, GetEvm(58, f.receiverCountryCode), r5, r6);
    var p7 := p6 + GetEvm(59, f.receiverName);
    PayloadStep(p6, GetEvm(59, f.receiverName), r6, r7);
    var p8 := p7 + GetEvm(60, f.receiverCity);
    PayloadStep(p7, GetEvm(60, f.receiverCity), r7, r8);
    var p9 := p8 + GetEvm(62, AdditionalDataFields(f));
    PayloadStep(p8, GetEvm(62, AdditionalDataFields(f)), r8, r9);
    PayloadStep(p9, CrcHeader, r9, r10);
  }

  /** The register after the whole payload of `ExampleFields(None)`, `6304` included. */
  lemma DefaultPayloadRegister()
    ensures Update(Initial, Encode(PayloadBody(ExampleFields(None)))) == 0xD6B4
  {
    var f := ExampleFields(None);
    LeadingObjectsRegister(f);
    NoAmountObjectRegister(f, 0xBF85);
    CountryRegister();
    NameRegister();
    CityRegister();
    AdditionalDataRegister();
    CrcHeaderRegister();
    ObjectRegister(58, f.receiverCountryCode, "5802", 0xBF85, 0x1AB9, 0xCB53);
    ObjectRegister(59, f.receiverName, "5907", 0xCB53, 0x229C, 0x3447);
    ObjectRegister(60, f.receiverCity, "6009", 0x3447, 0x121F, 0x4CBE);
    GetEvmLength(5, f.identifier);
    ObjectRegister(5, f.identifier, "0503", 0x27C4, 0x9D4D, 0x6CFA);
    ObjectRegister(62, AdditionalDataFields(f), "6207", 0x4CBE, 0x27C4, 0x6CFA);
    PayloadChain(f, 0xBF85, 0xBF85, 0xCB53, 0x3447, 0x4CBE, 0x6CFA, 0xD6B4);
  }

  /** `toFixed(2)` of 100.00 reais. */
  lemma HundredText()
    ensures AmountText(Some(10000)) == "100.00"
  {
    assert NatToString(100, 10) == "100";
    assert CentsDigits(0) == "00";
  }

  /** Object 54, the amount of 100.00 reais. */
  lemma AmountHundredObjectRegister()
    ensures Update(0xBF85, Encode(GetEvm(54, AmountText(Some(10000))))) == 0x8A38
  {
    HundredText();
    ObjectText(54, AmountText(Some(10000)), "5406");
    AmountHundredRegister();
    UpdateSplit(0xBF85, GetEvm(54, AmountText(Some(10000))), "5406", AmountText(Some(10000)));
  }

  /** The register after the whole payload of `ExampleFields(Some(10000))`, `6304` included. */
  lemma HundredPayloadRegister()
    ensures Update(Initial, Encode(PayloadBody(ExampleFields(Some(10000))))) == 0x316C
  {
    var f := ExampleFields(Some(10000));
    LeadingObjectsRegister(f);
    AmountHundredObjectRegister();
    CountryHundredRegister();
    NameHundredRegister();
    CityHundredRegister();
    AdditionalDataHundredRegister();
    CrcHeaderHundredRegister();
    ObjectRegister(58, f.receiverCountryCode, "5802", 0x8A38, 0x36BB, 0xA89A);
    ObjectRegister(59, f.receiverName, "5907", 0xA89A, 0x58F4, 0x1132);
    ObjectRegister(60, f.receiverCity, "6009", 0x1132, 0xAAEC, 0xAB09);
    GetEvmLength(5, f.identifier);
    ObjectRegister(5, f.identifier, "0503", 0x896C, 0xC15C, 0x7717);
    ObjectRegister(62, AdditionalDataFields(f), "6207", 0xAB09, 0x896C, 0x7717);
    PayloadChain(f, 0xBF85, 0x8A38, 0xA89A, 0x1132, 0xAB09, 0x7717, 0x316C);
  }

  /** `toFixed(2)` of 22.00 reais. */
  lemma TwentyTwoText()
    ensures AmountText(Some(2200)) == "22.00"
  {
    ToFixed2OfWhole(2200);
    TwoDigitString(22);
  }

  /** Object 54, the amount of 22.00 reais. */
  lemma AmountTwentyTwoObjectRegister()
    ensures Update(0xBF85, Encode(GetEvm(54, AmountText(Some(2200))))) == 0xBE49
  {
    TwentyTwoText();
    ObjectText(54, AmountText(Some(2200)), "5405");
    AmountTwentyTwoRegister();
    UpdateSplit(0xBF85, GetEvm(54, AmountText(Some(2200))), "5405", AmountText(Some(2200)));
  }

  /** The register after the whole payload of `ExampleFields(Some(2200))`, `6304` included. */
  lemma TwentyTwoPayloadRegister()
    ensures Update(Initial, Encode(PayloadBody(ExampleFields(Some(2200))))) == 0x0935
  {
    var f := ExampleFields(Some(2200));
    LeadingObjectsRegister(f);
    AmountTwentyTwoObjectRegister();
    CountryTwentyTwoRegister();
    NameTwentyTwoRegister();
    CityTwentyTwoRegister();
    AdditionalDataTwentyTwoRegister();
    CrcHeaderTwentyTwoRegister();
    ObjectRegister(58, f.receiverCountryCode, "5802", 0xBE49, 0x3F9B, 0x3660);
    ObjectRegister(59, f.receiverName, "5907", 0x3660, 0x18A2, 0x31AB);
    ObjectRegister(60, f.receiverCity, "6009", 0x31AB, 0x7B0A, 0x034D);
    GetEvmLength(5, f.identifier);
    ObjectRegister(5, f.identifier, "0503", 0x27B4, 0x4545, 0x2966);
    ObjectRegister(62, AdditionalDataFields(f), "6207", 0x034D, 0x27B4, 0x2966);
    PayloadChain(f, 0xBF85, 0xBE49, 0x3660, 0x31AB, 0x034D, 0x2966, 0x0935);
  }

  // ---------------------------------------------------------------------------
  // Register values, a few characters at a time
  // ---------------------------------------------------------------------------

  /** Object 00, `000201`, from the preset register. */
  lemma FormatIndicatorRegister()
    ensures Update(0xFFFF, Encode("0002")) == 0x7E08
    ensures Update(0x7E08, Encode("01")) == 0x89B9
  {
    assert UpdateByte(0xFFFF, 0x30) == 0xD7A3;
    assert UpdateByte(0xD7A3, 0x30) == 0x2EC9;
    assert UpdateByte(0x2EC9, 0x30) == 0x3AFF;
    assert UpdateByte(0x3AFF, 0x32) == 0x7E08;
    assert UpdateByte(0x7E08, 0x30) == 0xA10A;
    assert UpdateByte(0xA10A, 0x31) == 0x89B9;
  }

  /** The headers of object 26 and of the GUI inside it. */
  lemma MerchantHeadersRegister()
    ensures Update(0x89B9, Encode("2656")) == 0x5450
    ensures Update(0x5450, Encode("0014")) == 0x483B
  {
    assert UpdateByte(0x89B9, 0x32) == 0xAFB0;
    assert UpdateByte(0xAFB0, 0x36) == 0xA290;
    assert UpdateByte(0xA290, 0x35) == 0x635E;
    assert UpdateByte(0x635E, 0x36) == 0x5450;
    assert UpdateByte(0x5450, 0x30) == 0x7C22;
    assert UpdateByte(0x7C22, 0x30) == 0xAB48;
    assert UpdateByte(0xAB48, 0x31) == 0x6AF3;
    assert UpdateByte(0x6AF3, 0x34) == 0x483B;
  }

  /** The first half of the GUI. */
  lemma GuiFrontRegister()
    ensures Update(0x483B, Encode("br.gov.")) == 0xA0A0
  {
    assert UpdateByte(0x483B, 0x62) == 0xBE28;
    assert UpdateByte(0xBE28, 0x72) == 0x30C0;
    assert UpdateByte(0x30C0, 0x2E) == 0x33FF;
    assert UpdateByte(0x33FF, 0x67) == 0xE571;
    assert UpdateByte(0xE571, 0x6F) == 0x41C2;
    assert UpdateByte(0x41C2, 0x76) == 0x84B4;
    assert UpdateByte(0x84B4, 0x2E) == 0xA0A0;
  }

  /** The second half of the GUI, then the header of the key. */
  lemma GuiBackRegister()
    ensures Update(0xA0A0, Encode("bcb.pix")) == 0x3848
    ensures Update(0x3848, Encode("0125")) == 0xC65B
  {
    assert UpdateByte(0xA0A0, 0x62) == 0x590E;
    assert UpdateByte(0x590E, 0x63) == 0x9919;
    assert UpdateByte(0x9919, 0x62) == 0x4774;
    assert UpdateByte(0x4774, 0x2E) == 0x898F;
    assert UpdateByte(0x898F, 0x70) == 0xF136;
    assert UpdateByte(0xF136, 0x69) == 0x34B1;
    assert UpdateByte(0x34B1, 0x78) == 0x3848;
    assert UpdateByte(0x3848, 0x30) == 0xC908;
    assert UpdateByte(0xC908, 0x31) == 0x6617;
    assert UpdateByte(0x6617, 0x32) == 0x0D71;
    assert UpdateByte(0x0D71, 0x35) == 0xC65B;
  }

  /** The example key, first piece. */
  lemma KeyWordRegister()
    ensures Update(0xC65B, Encode("example")) == 0x9FF0
  {
    assert UpdateByte(0xC65B, 0x65) == 0xDE89;
    assert UpdateByte(0xDE89, 0x78) == 0x5C2C;
    assert UpdateByte(0x5C2C, 0x61) == 0xCBFE;
    assert UpdateByte(0xCBFE, 0x6D) == 0x2B2C;
    assert UpdateByte(0x2B2C, 0x70) == 0xC79E;
    assert UpdateByte(0xC79E, 0x6C) == 0x9A81;
    assert UpdateByte(0x9A81, 0x65) == 0x9FF0;
  }

  /** The example key, second piece. */
  lemma KeyDigitsRegister()
    ensures Update(0x9FF0, Encode("123456")) == 0x1415
  {
    assert UpdateByte(0x9FF0, 0x31) == 0xA424;
    assert UpdateByte(0xA424, 0x32) == 0xC77F;
    assert UpdateByte(0xC77F, 0x33) == 0xD09B;
    assert UpdateByte(0xD09B, 0x34) == 0x26AA;
    assert UpdateByte(0x26AA, 0x35) == 0x8852;
    assert UpdateByte(0x8852, 0x36) == 0x1415;
  }

  /** The example key, third piece. */
  lemma KeyDomainRegister()
    ensures Update(0x1415, Encode("@example")) == 0x7123
  {
    assert UpdateByte(0x1415, 0x40) == 0x0F71;
    assert UpdateByte(0x0F71, 0x65) == 0xBCEC;
    assert UpdateByte(0xBCEC, 0x78) == 0x75C8;
    assert UpdateByte(0x75C8, 0x61) == 0x9AB5;
    assert UpdateByte(0x9AB5, 0x6D) == 0x2AF8;
    assert UpdateByte(0x2AF8, 0x70) == 0x03BF;
    assert UpdateByte(0x03BF, 0x6C) == 0x2249;
    assert UpdateByte(0x2249, 0x65) == 0x7123;
  }

  /** The example key, last piece. */
  lemma KeyEndRegister()
    ensures Update(0x7123, Encode(".com")) == 0x1A67
  {
    assert UpdateByte(0x7123, 0x2E) == 0x881A;
    assert UpdateByte(0x881A, 0x63) == 0x5645;
    assert UpdateByte(0x5645, 0x6F) == 0xE27A;
    assert UpdateByte(0xE27A, 0x6D) == 0x1A67;
  }

  /** The description object, `0205Teste`. */
  lemma DescriptionRegister()
    ensures Update(0x1A67, Encode("0205")) == 0x89B8
    ensures Update(0x89B8, Encode("Teste")) == 0xFEDB
  {
    assert UpdateByte(0x1A67, 0x30) == 0xE228;
    assert UpdateByte(0xE228, 0x32) == 0xE37D;
    assert UpdateByte(0xE37D, 0x30) == 0x861E;
    assert UpdateByte(0x861E, 0x35) == 0x89B8;
    assert UpdateByte(0x89B8, 0x54) == 0xA2D0;
    assert UpdateByte(0xA2D0, 0x65) == 0x79AB;
    assert UpdateByte(0x79AB, 0x73) == 0x0A4A;
    assert UpdateByte(0x0A4A, 0x74) == 0xD559;
    assert UpdateByte(0xD559, 0x65) == 0xFEDB;
  }

  /** Object 52, `52040000`. */
  lemma CategoryRegister()
    ensures Update(0xFEDB, Encode("5204")) == 0xE059
    ensures Update(0xE059, Encode("0000")) == 0x9E3F
  {
    assert UpdateByte(0xFEDB, 0x35) == 0xB327;
    assert UpdateByte(0xB327, 0x32) == 0xA6A9;
    assert UpdateByte(0xA6A9, 0x30) == 0x4A7F;
    assert UpdateByte(0x4A7F, 0x34) == 0xE059;
    assert UpdateByte(0xE059, 0x30) == 0x927D;
    assert UpdateByte(0x927D, 0x30) == 0xE8A8;
    assert UpdateByte(0xE8A8, 0x30) == 0xE275;
    assert UpdateByte(0xE275, 0x30) == 0x9E3F;
  }

  /** Object 53, `5303986`. */
  lemma CurrencyRegister()
    ensures Update(0x9E3F, Encode("5303")) == 0x82AD
    ensures Update(0x82AD, Encode("986")) == 0xBF85
  {
    assert UpdateByte(0x9E3F, 0x35) == 0x3B81;
    assert UpdateByte(0x3B81, 0x33) == 0x0008;
    assert UpdateByte(0x0008, 0x30) == 0x3E53;
    assert UpdateByte(0x3E53, 0x33) == 0x82AD;
    assert UpdateByte(0x82AD, 0x39) == 0xBBB0;
    assert UpdateByte(0xBBB0, 0x38) == 0x11EB;
    assert UpdateByte(0x11EB, 0x36) == 0xBF85;
  }

  /** Object 58, `5802BR`, then the header of object 59. */
  lemma CountryRegister()
    ensures Update(0xBF85, Encode("5802")) == 0x1AB9
    ensures Update(0x1AB9, Encode("BR")) == 0xCB53
    ensures Update(0xCB53, Encode("5907")) == 0x229C
  {
    assert UpdateByte(0xBF85, 0x35) == 0xB5C2;
    assert UpdateByte(0xB5C2, 0x38) == 0x8225;
    assert UpdateByte(0x8225, 0x30) == 0xA299;
    assert UpdateByte(0xA299, 0x32) == 0x1AB9;
    assert UpdateByte(0x1AB9, 0x42) == 0x62FD;
    assert UpdateByte(0x62FD, 0x52) == 0xCB53;
    assert UpdateByte(0xCB53, 0x35) == 0x5DD1;
    assert UpdateByte(0x5DD1, 0x39) == 0xFD22;
    assert UpdateByte(0xFD22, 0x30) == 0x2AE1;
    assert UpdateByte(0x2AE1, 0x37) == 0x229C;
  }

  /** The receiver name, then the header of object 60. */
  lemma NameRegister()
    ensures Update(0x229C, Encode("Weslley")) == 0x3447
    ensures Update(0x3447, Encode("6009")) == 0x121F
  {
    assert UpdateByte(0x229C, 0x57) == 0xB232;
    assert UpdateByte(0xB232, 0x65) == 0x899A;
    assert UpdateByte(0x899A, 0x73) == 0xD455;
    assert UpdateByte(0xD455, 0x6C) == 0x73D3;
    assert UpdateByte(0x73D3, 0x6C) == 0x30DE;
    assert UpdateByte(0x30DE, 0x65) == 0xD450;
    assert UpdateByte(0xD450, 0x79) == 0x3447;
    assert UpdateByte(0x3447, 0x36) == 0x6742;
    assert UpdateByte(0x6742, 0x30) == 0x6812;
    assert UpdateByte(0x6812, 0x30) == 0xC9FD;
    assert UpdateByte(0xC9FD, 0x39) == 0x121F;
  }

  /** The receiver city. */
  lemma CityRegister()
    ensures Update(0x121F, Encode("Sao Paulo")) == 0x4CBE
  {
    assert UpdateByte(0x121F, 0x53) == 0x47E5;
    assert UpdateByte(0x47E5, 0x61) == 0xA1A4;
    assert UpdateByte(0xA1A4, 0x6F) == 0x9C82;
    assert UpdateByte(0x9C82, 0x20) == 0xE457;
    assert UpdateByte(0xE457, 0x50) == 0xB05F;
    assert UpdateByte(0xB05F, 0x61) == 0x845C;
    assert UpdateByte(0x845C, 0x75) == 0xA33E;
    assert UpdateByte(0xA33E, 0x6C) == 0x16A3;
    assert UpdateByte(0x16A3, 0x6F) == 0x4CBE;
  }

  /** Object 62, `62070503***`. */
  lemma AdditionalDataRegister()
    ensures Update(0x4CBE, Encode("6207")) == 0x27C4
    ensures Update(0x27C4, Encode("0503")) == 0x9D4D
    ensures Update(0x9D4D, Encode("***")) == 0x6CFA
  {
    assert UpdateByte(0x4CBE, 0x36) == 0x61DD;
    assert UpdateByte(0x61DD, 0x32) == 0xB796;
    assert UpdateByte(0xB796, 0x30) == 0x776F;
    assert UpdateByte(0x776F, 0x37) == 0x27C4;
    assert UpdateByte(0x27C4, 0x30) == 0xA6D6;
    assert UpdateByte(0xA6D6, 0x35) == 0x65DA;
    assert UpdateByte(0x65DA, 0x30) == 0xD050;
    assert UpdateByte(0xD050, 0x33) == 0x9D4D;
    assert UpdateByte(0x9D4D, 0x2A) == 0x9A3C;
    assert UpdateByte(0x9A3C, 0x2A) == 0x9BDB;
    assert UpdateByte(0x9BDB, 0x2A) == 0x6CFA;
  }

  /** The CRC header `6304`. */
  lemma CrcHeaderRegister()
    ensures Update(0x6CFA, Encode("6304")) == 0xD6B4
  {
    assert UpdateByte(0x6CFA, 0x36) == 0x01BF;
    assert UpdateByte(0x01BF, 0x33) == 0xA911;
    assert UpdateByte(0xA911, 0x30) == 0x0390;
    assert UpdateByte(0x0390, 0x34) == 0xD6B4;
  }

  /** Object 54 of the amount 100.00. */
  lemma AmountHundredRegister()
    ensures Update(0xBF85, Encode("5406")) == 0x2F5C
    ensures Update(0x2F5C, Encode("100.00")) == 0x8A38
  {
    assert UpdateByte(0xBF85, 0x35) == 0xB5C2;
    assert UpdateByte(0xB5C2, 0x34) == 0x43A9;
    assert UpdateByte(0x43A9, 0x30) == 0xE7F4;
    assert UpdateByte(0xE7F4, 0x36) == 0x2F5C;
    assert UpdateByte(0x2F5C, 0x31) == 0xAFFF;
    assert UpdateByte(0xAFFF, 0x30) == 0x8D56;
    assert UpdateByte(0x8D56, 0x30) == 0x2076;
    assert UpdateByte(0x2076, 0x2E) == 0x97CE;
    assert UpdateByte(0x97CE, 0x30) == 0x0B0D;
    assert UpdateByte(0x0B0D, 0x30) == 0x8A38;
  }

  /** Object 58, `5802BR`, then the header of object 59 (after the amount 100.00). */
  lemma CountryHundredRegister()
    ensures Update(0x8A38, Encode("5802")) == 0x36BB
    ensures Update(0x36BB, Encode("BR")) == 0xA89A
    ensures Update(0xA89A, Encode("5907")) == 0x58F4
  {
    assert UpdateByte(0x8A38, 0x35) == 0x6E34;
    assert UpdateByte(0x6E34, 0x38) == 0x0E33;
    assert UpdateByte(0x0E33, 0x30) == 0xE49D;
    assert UpdateByte(0xE49D, 0x32) == 0x36BB;
    assert UpdateByte(0x36BB, 0x42) == 0x8513;
    assert UpdateByte(0x8513, 0x52) == 0xA89A;
    assert UpdateByte(0xA89A, 0x35) == 0xC814;
    assert UpdateByte(0xC814, 0x39) == 0xEB3E;
    assert UpdateByte(0xEB3E, 0x30) == 0x4416;
    assert UpdateByte(0x4416, 0x37) == 0x58F4;
  }

  /** The receiver name, then the header of object 60 (after the amount 100.00). */
  lemma NameHundredRegister()
    ensures Update(0x58F4, Encode("Weslley")) == 0x1132
    ensures Update(0x1132, Encode("6009")) == 0xAAEC
  {
    assert UpdateByte(0x58F4, 0x57) == 0x05EF;
    assert UpdateByte(0x05EF, 0x65) == 0x83A6;
    assert UpdateByte(0x83A6, 0x73) == 0x491F;
    assert UpdateByte(0x491F, 0x6C) == 0x6BC7;
    assert UpdateByte(0x6BC7, 0x6C) == 0xB7E7;
    assert UpdateByte(0xB7E7, 0x65) == 0x0C3F;
    assert UpdateByte(0x0C3F, 0x79) == 0x1132;
    assert UpdateByte(0x1132, 0x36) == 0x6685;
    assert UpdateByte(0x6685, 0x30) == 0xBF33;
    assert UpdateByte(0xBF33, 0x30) == 0x5367;
    assert UpdateByte(0x5367, 0x39) == 0xAAEC;
  }

  /** The receiver city (after the amount 100.00). */
  lemma CityHundredRegister()
    ensures Update(0xAAEC, Encode("Sao Paulo")) == 0xAB09
  {
    assert UpdateByte(0xAAEC, 0x53) == 0x9236;
    assert UpdateByte(0x9236, 0x61) == 0xE97C;
    assert UpdateByte(0xE97C, 0x6F) == 0x8D4E;
    assert UpdateByte(0x8D4E, 0x20) == 0x2A47;
    assert UpdateByte(0x2A47, 0x50) == 0x98DD;
    assert UpdateByte(0x98DD, 0x61) == 0xA336;
    assert UpdateByte(0xA336, 0x75) == 0x9DBB;
    assert UpdateByte(0x9DBB, 0x6C) == 0x443E;
    assert UpdateByte(0x443E, 0x6F) == 0xAB09;
  }

  /** Object 62, `62070503***` (after the amount 100.00). */
  lemma AdditionalDataHundredRegister()
    ensures Update(0xAB09, Encode("6207")) == 0x896C
    ensures Update(0x896C, Encode("0503")) == 0xC15C
    ensures Update(0xC15C, Encode("***")) == 0x7717
  {
    assert UpdateByte(0xAB09, 0x36) == 0x5B14;
    assert UpdateByte(0x5B14, 0x32) == 0xE98F;
    assert UpdateByte(0xE98F, 0x30) == 0xD554;
    assert UpdateByte(0xD554, 0x37) == 0x896C;
    assert UpdateByte(0x896C, 0x30) == 0x5AF2;
    assert UpdateByte(0x5AF2, 0x35) == 0x6F49;
    assert UpdateByte(0x6F49, 0x30) == 0xE21A;
    assert UpdateByte(0xE21A, 0x33) == 0xC15C;
    assert UpdateByte(0xC15C, 0x2A) == 0x1045;
    assert UpdateByte(0x1045, 0x2A) == 0xD219;
    assert UpdateByte(0xD219, 0x2A) == 0x7717;
  }

  /** The CRC header `6304` (after the amount 100.00). */
  lemma CrcHeaderHundredRegister()
    ensures Update(0x7717, Encode("6304")) == 0x316C
  {
    assert UpdateByte(0x7717, 0x36) == 0x4FE5;
    assert UpdateByte(0x4FE5, 0x33) == 0x5A1B;
    assert UpdateByte(0x5A1B, 0x30) == 0xD6EC;
    assert UpdateByte(0xD6EC, 0x34) == 0x316C;
  }

  /** Object 54 of the amount 22.00. */
  lemma AmountTwentyTwoRegister()
    ensures Update(0xBF85, Encode("5405")) == 0x1F3F
    ensures Update(0x1F3F, Encode("22.00")) == 0xBE49
  {
    assert UpdateByte(0xBF85, 0x35) == 0xB5C2;
    assert UpdateByte(0xB5C2, 0x34) == 0x43A9;
    assert UpdateByte(0x43A9, 0x30) == 0xE7F4;
    assert UpdateByte(0xE7F4, 0x35) == 0x1F3F;
    assert UpdateByte(0x1F3F, 0x32) == 0xCACF;
    assert UpdateByte(0xCACF, 0x32) == 0xA117;
    assert UpdateByte(0xA117, 0x2E) == 0x7767;
    assert UpdateByte(0x7767, 0x30) == 0x5F23;
    assert UpdateByte(0x5F23, 0x30) == 0xBE49;
  }

  /** Object 58, `5802BR`, then the header of object 59 (after the amount 22.00). */
  lemma CountryTwentyTwoRegister()
    ensures Update(0xBE49, Encode("5802")) == 0x3F9B
    ensures Update(0x3F9B, Encode("BR")) == 0x3660
    ensures Update(0x3660, Encode("5907")) == 0x18A2
  {
    assert UpdateByte(0xBE49, 0x35) == 0x69E3;
    assert UpdateByte(0x69E3, 0x38) == 0xA9D4;
    assert UpdateByte(0xA9D4, 0x30) == 0xC690;
    assert UpdateByte(0xC690, 0x32) == 0x3F9B;
    assert UpdateByte(0x3F9B, 0x42) == 0x343A;
    assert UpdateByte(0x343A, 0x52) == 0x3660;
    assert UpdateByte(0x3660, 0x35) == 0x5063;
    assert UpdateByte(0x5063, 0x39) == 0x9E8F;
    assert UpdateByte(0x9E8F, 0x30) == 0xDB24;
    assert UpdateByte(0xDB24, 0x37) == 0x18A2;
  }

  /** The receiver name, then the header of object 60 (after the amount 22.00). */
  lemma NameTwentyTwoRegister()
    ensures Update(0x18A2, Encode("Weslley")) == 0x31AB
    ensures Update(0x31AB, Encode("6009")) == 0x7B0A
  {
    assert UpdateByte(0x18A2, 0x57) == 0x1B2B;
    assert UpdateByte(0x1B2B, 0x65) == 0xB459;
    assert UpdateByte(0xB459, 0x73) == 0xF0AB;
    assert UpdateByte(0xF0AB, 0x6C) == 0xE935;
    assert UpdateByte(0xE935, 0x6C) == 0xF42D;
    assert UpdateByte(0xF42D, 0x65) == 0xBE98;
    assert UpdateByte(0xBE98, 0x79) == 0x31AB;
    assert UpdateByte(0x31AB, 0x36) == 0xDBE7;
    assert UpdateByte(0xDBE7, 0x30) == 0xAB45;
    assert UpdateByte(0xAB45, 0x30) == 0x77D2;
    assert UpdateByte(0x77D2, 0x39) == 0x7B0A;
  }

  /** The receiver city (after the amount 22.00). */
  lemma CityTwentyTwoRegister()
    ensures Update(0x7B0A, Encode("Sao Paulo")) == 0x034D
  {
    assert UpdateByte(0x7B0A, 0x53) == 0xAF6A;
    assert UpdateByte(0xAF6A, 0x61) == 0x5282;
    assert UpdateByte(0x5282, 0x6F) == 0x65FE;
    assert UpdateByte(0x65FE, 0x20) == 0xE661;
    assert UpdateByte(0xE661, 0x50) == 0xA61D;
    assert UpdateByte(0xA61D, 0x61) == 0xB4AB;
    assert UpdateByte(0xB4AB, 0x75) == 0x626D;
    assert UpdateByte(0x626D, 0x6C) == 0x8CCE;
    assert UpdateByte(0x8CCE, 0x6F) == 0x034D;
  }

  /** Object 62, `62070503***` (after the amount 22.00). */
  lemma AdditionalDataTwentyTwoRegister()
    ensures Update(0x034D, Encode("6207")) == 0x27B4
    ensures Update(0x27B4, Encode("0503")) == 0x4545
    ensures Update(0x4545, Encode("***")) == 0x2966
  {
    assert UpdateByte(0x034D, 0x36) == 0x2BF6;
    assert UpdateByte(0x2BF6, 0x32) == 0x7518;
    assert UpdateByte(0x7518, 0x30) == 0x0061;
    assert UpdateByte(0x0061, 0x37) == 0x27B4;
    assert UpdateByte(0x27B4, 0x30) == 0xD6D6;
    assert UpdateByte(0xD6D6, 0x35) == 0x1B4D;
    assert UpdateByte(0x1B4D, 0x30) == 0xD809;
    assert UpdateByte(0xD809, 0x33) == 0x4545;
    assert UpdateByte(0x4545, 0x2A) == 0xD849;
    assert UpdateByte(0xD849, 0x2A) == 0x865D;
    assert UpdateByte(0x865D, 0x2A) == 0x2966;
  }

  /** The CRC header `6304` (after the amount 22.00). */
  lemma CrcHeaderTwentyTwoRegister()
    ensures Update(0x2966, Encode("6304")) == 0x0935
  {
    assert UpdateByte(0x2966, 0x36) == 0x85DE;
    assert UpdateByte(0x85DE, 0x33) == 0x191D;
    assert UpdateByte(0x191D, 0x30) == 0xA84B;
    assert UpdateByte(0xA84B, 0x34) == 0x0935;
  }

  // ---------------------------------------------------------------------------
  // The codes
  // ---------------------------------------------------------------------------

  /** A zero fills the one missing place of a three-digit text. */
  lemma PadThreeDigits(t: string)
    requires |t| == 3
    ensures PadStart(t, 4, '0') == ['0'] + t
  {
    assert Repeat('0', 1) == ['0'];
  }

  /** A payload whose register ends at 0xD6B4 is closed by `D6B4`. */
  lemma ChecksumTextD6B4(data: string)
    requires Update(Initial, Encode(data)) == 0xD6B4
    ensures ChecksumText(data) == "D6B4"
  {
    assert NatToString(0xD6B4, 16) == "d6b4";
  }

  /** A payload whose register ends at 0x316C is closed by `316C`. */
  lemma ChecksumText316C(data: string)
    requires Update(Initial, Encode(data)) == 0x316C
    ensures ChecksumText(data) == "316C"
  {
    assert NatToString(0x316C, 16) == "316c";
  }

  /** A payload whose register ends at 0x0935 is closed by `935` as written. */
  lemma ChecksumText0935(data: string)
    requires Update(Initial, Encode(data)) == 0x0935
    ensures ChecksumText(data) == "935"
  {
    assert NatToString(0x0935, 16) == "935";
  }

  /** ... and by `0935` once padded. */
  lemma ChecksumTexts0935(data: string)
    requires Update(Initial, Encode(data)) == 0x0935
    ensures ChecksumText(data) == "935" && PaddedChecksumText(data) == "0935"
  {
    ChecksumText0935(data);
    PadThreeDigits("935");
  }

  /** The objects 58, 59, 60 and 62 of the default data, header and value. */
  lemma TrailingObjectTexts(f: Fields)
    requires f.receiverCountryCode == "BR" && f.receiverName == "Weslley"
    requires f.receiverCity == "Sao Paulo" && f.identifier == "***"
    ensures GetEvm(58, f.receiverCountryCode) == "5802" + "BR"
    ensures GetEvm(59, f.receiverName) == "5907" + "Weslley"
    ensures GetEvm(60, f.receiverCity) == "6009" + "Sao Paulo"
    ensures GetEvm(62, AdditionalDataFields(f)) == "6207" + ("0503" + "***")
  {
    ObjectText(58, f.receiverCountryCode, "5802");
    ObjectText(59, f.receiverName, "5907");
    ObjectText(60, f.receiverCity, "6009");
    ObjectText(5, f.identifier, "0503");
    GetEvmLength(5, f.identifier);
    ObjectText(62, AdditionalDataFields(f), "6207");
  }

  /** The objects 00, 52 and 53, header and value. */
  lemma FixedObjectTexts()
    ensures GetEvm(0, PayloadFormatIndicator) == "0002" + "01"
    ensures GetEvm(52, MerchantCategoryCode) == "5204" + "0000"
    ensures GetEvm(53, CurrencyCode) == "5303" + "986"
  {
    ObjectText(0, PayloadFormatIndicator, "0002");
    ObjectText(52, MerchantCategoryCode, "5204");
    ObjectText(53, CurrencyCode, "5303");
  }

  /** Object 26 of the default data, header and the three template objects. */
  lemma MerchantObjectText(f: Fields)
    requires f.key == ExampleKey && f.description == Some("Teste")
    ensures GetEvm(26, MerchantInformation(f)) == "2656" + (("0014" + Gui) + ("0125" + f.key) + ("0205" + "Teste"))
  {
    MerchantObjectTexts(f);
    ObjectText(26, MerchantInformation(f), "2656");
  }

  /** A payload is the texts of its objects, in order, then `6304`. */
  lemma PayloadPieces(f: Fields, t0: string, t26: string, t52: string, t53: string, t54: string,
                      t58: string, t59: string, t60: string, t62: string)
    requires GetEvm(0, PayloadFormatIndicator) == t0 && GetEvm(26, MerchantInformation(f)) == t26
    requires GetEvm(52, MerchantCategoryCode) == t52 && GetEvm(53, CurrencyCode) == t53
    requires GetEvm(54, AmountText(f.amount)) == t54 && GetEvm(58, f.receiverCountryCode) == t58
    requires GetEvm(59, f.receiverName) == t59 && GetEvm(60, f.receiverCity) == t60
    requires GetEvm(62, AdditionalDataFields(f)) == t62
    ensures PayloadBody(f) == t0 + t26 + t52 + t53 + t54 + t58 + t59 + t60 + t62 + "6304"
  {
  }

  /** The payload of the test suite's first expected code, object by object,
      up to and including `6304`; without an amount, object 54 is empty. */
  const DefaultPayload: string :=
    ("0002" + "01")
    + ("2656" + (("0014" + Gui) + ("0125" + ExampleKey) + ("0205" + "Teste")))
    + ("5204" + "0000")
    + ("5303" + "986")
    + ""
    + ("5802" + "BR")
    + ("5907" + "Weslley")
    + ("6009" + "Sao Paulo")
    + ("6207" + ("0503" + "***"))
    + "6304"

  /** The payload of the second expected code: object 54 holds `100.00`. */
  const HundredPayload: string :=
    ("0002" + "01")
    + ("2656" + (("0014" + Gui) + ("0125" + ExampleKey) + ("0205" + "Teste")))
    + ("5204" + "0000")
    + ("5303" + "986")
    + ("5406" + "100.00")
    + ("5802" + "BR")
    + ("5907" + "Weslley")
    + ("6009" + "Sao Paulo")
    + ("6207" + ("0503" + "***"))
    + "6304"

  /** The payload of the data with an amount of 22.00 reais. */
  const TwentyTwoPayload: string :=
    ("0002" + "01")
    + ("2656" + (("0014" + Gui) + ("0125" + ExampleKey) + ("0205" + "Teste")))
    + ("5204" + "0000")
    + ("5303" + "986")
    + ("5405" + "22.00")
    + ("5802" + "BR")
    + ("5907" + "Weslley")
    + ("6009" + "Sao Paulo")
    + ("6207" + ("0503" + "***"))
    + "6304"

  lemma DefaultPayloadText()
    ensures PayloadBody(ExampleFields(None)) == DefaultPayload
  {
    var f := ExampleFields(None);
    FixedObjectTexts();
    MerchantObjectText(f);
    TrailingObjectTexts(f);
    GetEvmOmitsEmpty(54);
    PayloadPieces(f, "0002" + "01", "2656" + (("0014" + Gui) + ("0125" + ExampleKey) + ("0205" + "Teste")),
      "5204" + "0000", "5303" + "986", "", "5802" + "BR", "5907" + "Weslley", "6009" + "Sao Paulo",
      "6207" + ("0503" + "***"));
  }

  /** Object 54 of the amount 100.00 reais. */
  lemma HundredObjectText()
    ensures GetEvm(54, AmountText(Some(10000))) == "5406" + "100.00"
  {
    HundredText();
    ObjectText(54, AmountText(Some(10000)), "5406");
  }

  lemma HundredPayloadText()
    ensures PayloadBody(ExampleFields(Some(10000))) == HundredPayload
  {
    var f := ExampleFields(Some(10000));
    FixedObjectTexts();
    MerchantObjectText(f);
    TrailingObjectTexts(f);
    HundredObjectText();
    PayloadPieces(f, "0002" + "01", "2656" + (("0014" + Gui) + ("0125" + ExampleKey) + ("0205" + "Teste")),
      "5204" + "0000", "5303" + "986", "5406" + "100.00", "5802" + "BR", "5907" + "Weslley", "6009" + "Sao Paulo",
      "6207" + ("0503" + "***"));
  }

  /** Object 54 of the amount 22.00 reais. */
  lemma TwentyTwoObjectText()
    ensures GetEvm(54, AmountText(Some(2200))) == "5405" + "22.00"
  {
    TwentyTwoText();
    ObjectText(54, AmountText(Some(2200)), "5405");
  }

  lemma TwentyTwoPayloadText()
    ensures PayloadBody(ExampleFields(Some(2200))) == TwentyTwoPayload
  {
    var f := ExampleFields(Some(2200));
    FixedObjectTexts();
    MerchantObjectText(f);
    TrailingObjectTexts(f);
    TwentyTwoObjectText();
    PayloadPieces(f, "0002" + "01", "2656" + (("0014" + Gui) + ("0125" + ExampleKey) + ("0205" + "Teste")),
      "5204" + "0000", "5303" + "986", "5405" + "22.00", "5802" + "BR", "5907" + "Weslley", "6009" + "Sao Paulo",
      "6207" + ("0503" + "***"));
  }

  /** The first expected code of the test suite: `defaultData` builds, and its
      code is its payload closed by the checksum `D6B4`. */
  lemma DefaultCode(v: Validators)
    requires AcceptsExample(v)
    ensures Construct(ExampleData(None), v) == Success(ExampleFields(None))
    ensures ToBRCode(ExampleFields(None)) == DefaultPayload + "D6B4"
  {
    ExampleConstructs(v, None);
    DefaultPayloadRegister();
    ChecksumTextD6B4(PayloadBody(ExampleFields(None)));
    DefaultPayloadText();
  }

  /** The second expected code: with `amount: 100` the payload carries
      `5406100.00` and closes with `316C`. */
  lemma HundredCode(v: Validators)
    requires AcceptsExample(v)
    ensures Construct(ExampleData(Some(10000)), v) == Success(ExampleFields(Some(10000)))
    ensures ToBRCode(ExampleFields(Some(10000))) == HundredPayload + "316C"
  {
    ExampleConstructs(v, Some(10000));
    HundredPayloadRegister();
    ChecksumText316C(PayloadBody(ExampleFields(Some(10000))));
    HundredPayloadText();
  }

  /** With 22.00 reais the code ends in the three characters `935`; padded, in `0935`. */
  lemma TwentyTwoCode()
    ensures ToBRCode(ExampleFields(Some(2200))) == TwentyTwoPayload + "935"
    ensures PaddedToBRCode(ExampleFields(Some(2200))) == TwentyTwoPayload + "0935"
  {
    TwentyTwoPayloadRegister();
    ChecksumTexts0935(PayloadBody(ExampleFields(Some(2200))));
    TwentyTwoPayloadText();
  }

  /** The payload of the data with 22.00 reais: its checksum, 0x0935, is below
      0x1000. */
  lemma ShortChecksumTexts()
    ensures var p := PayloadBody(ExampleFields(Some(2200)));
      && Checksum(Encode(p)) == 0x0935
      && ChecksumText(p) == "935"
      && PaddedChecksumText(p) == "0935"
  {
    TwentyTwoPayloadRegister();
    ChecksumTexts0935(PayloadBody(ExampleFields(Some(2200))));
  }

  lemma ShortChecksumLengths()
    ensures var f := ExampleFields(Some(2200));
      |MerchantInformation(f)| == 56 && |AmountText(f.amount)| == 5
  {
    MerchantObjectTexts(ExampleFields(Some(2200)));
    TwentyTwoText();
  }

  /** Valid data whose code, as written, no reader can take apart: the default
      data with an amount of 22.00 builds, but `toBRCode` closes it with the
      three characters `935` after announcing four, so the objects do not
      read. Padded to `0935`, the same code reads back object by object. */
  lemma ShortChecksumExample(v: Validators)
    requires AcceptsExample(v)
    ensures var f := ExampleFields(Some(2200));
      && Construct(ExampleData(Some(2200)), v) == Success(f)
      && ChecksumText(PayloadBody(f)) == "935"
      && DecodeObjects(ToBRCode(f)) == None
      && PaddedChecksumText(PayloadBody(f)) == "0935"
      && DecodeObjects(PaddedToBRCode(f)) == Some(TopLevelObjects(f) + [DataObject(63, "0935")])
  {
    var f := ExampleFields(Some(2200));
    ExampleConstructs(v, Some(2200));
    ShortChecksumTexts();
    ShortChecksumLengths();
    CodeDecodesIffChecksumHasFourDigits(f, v);
    PaddedCodeDecodes(f, v);
  }
}
