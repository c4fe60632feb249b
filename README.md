# PIX BR Code builder, modelled in Dafny

This project models the `BRCode` class of `src/controllers/brCodePIX/index.ts`. The class builds the
"BR Code" text of a static PIX payment request (the Brazilian instant-payment system), and it works in two halves.

- **Validating construction.** The constructor trims the string fields of its input. It then passes
  them, one at a time, to throwing private setters in this order: name, city, country code,
  identifier, description, amount, key. The key type is stored just before the key is checked. The first
  rule that fails throws its own message. In the source a finished object cannot be changed, because every
  setter is private and `toBRCode` only reads; in the model that guarantee is carried by the `Fields` value
  `Construct` returns, which is immutable.
- **Serialisation.** `toBRCode` writes the fields as data objects in the layout of the EMV QR Code
  Specification for Payment Systems (Merchant-Presented Mode): a two-digit ID, a two-digit length and the
  value. Objects with an empty value are dropped. The payload ends with the literal `6304` (ID 63, length 04) and then
  `crc16ccitt` of the payload in upper-case hexadecimal. That checksum, CRC-16/CCITT-FALSE, is the one section 4.7.2 of
  that specification prescribes.

The modules:

| module | file | models |
|---|---|---|
| `Wrappers` | `wrappers.dfy` | `Option` (JavaScript `undefined`) and `Result` (a thrown error) |
| `JsStrings` | `js_strings.dfy` | `trim`, `Number.prototype.toString(radix)`, `padStart`, `toFixed(2)` on whole cents, `toUpperCase` |
| `Utf8` | `utf8.dfy` | `Buffer.from(string)`: the UTF-8 bytes the `crc` package hashes |
| `Crc16` | `crc16.dfy` | CRC-16/CCITT-FALSE over `bv16` (polynomial 0x1021, preset 0xFFFF, no reflection, no final XOR) |
| `PixValidation` | `pix_validation.dfy` | key-type dispatch, the setters' rules and messages, and `Construct`, which returns the first error or the stored fields |
| `PixEncoding` | `pix_encoding.dfy` | `padTwoZeros`, `getEVM`, the two getters, `toBRCode`; a reader of the data-object format (`DecodeObjects`) as the partner of every layout fact |
| `PixBRCode` | `pix_brcode.dfy` | the class itself: its fields, one method per setter, the constructor as `Create`, and `ToBRCode` |
| `PixExamples` | `pix_examples.dfy` | the inputs of `index.spec.ts` that the constructor refuses or accepts |
| `PixExampleCodes` | `pix_example_codes.dfy` | the two codes `index.spec.ts` expects, worked out down to the CRC register, and a third input whose code no reader can take apart |

The `validator` package is not part of this model. Its four predicates (`isEmail`, `isMobilePhone` in strict mode,
`isTaxID(…, "pt-BR")`, `isISO31661Alpha2`) are the fields of a `Validators` value that every operation takes as a
parameter. The test cases name the verdicts they rely on as hypotheses. Amounts are whole numbers of cents
(`amount: 100` in the tests is `Some(10000)`).

The model keeps one more quirk of the source as written. `padTwoZeros` pads but never truncates. A template
(ID 26) of 100 characters or more therefore gets a three-digit length. Valid data reaches 180 characters, with a
77-character key and a 77-character description (`PixEncoding.TemplateUpTo180`, `PixEncoding.LongObjectHeader`).

## Model

| member | source | states |
|---|---|---|
| PixValidation.ReceiverNameRule | src/controllers/brCodePIX/index.ts:93-101 | the name is accepted exactly when it is non-empty and at most 25 characters (25 itself passes); empty gives "not set", longer than 25 gives "too long" |
| PixValidation.ReceiverCityRule | src/controllers/brCodePIX/index.ts:103-111 | the same for the city with bound 15 |
| PixValidation.CountryCodeRule | src/controllers/brCodePIX/index.ts:113-124 | empty gives "not set"; otherwise a length other than 2 gives "must be 2 characters"; otherwise a code the ISO 3166-1 alpha-2 validator refuses gives "invalid"; accepted exactly when two characters and valid |
| PixValidation.IdentifierRule | src/controllers/brCodePIX/index.ts:126-133 | accepted exactly when non-empty and at most 25 characters, with the two errors apart |
| PixValidation.DescriptionRule | src/controllers/brCodePIX/index.ts:135-140 | absent, empty or up to 77 characters is accepted; anything longer is refused with the description error only |
| PixValidation.AmountRule | src/controllers/brCodePIX/index.ts:142-147 | absent, zero and positive amounts pass; only a negative amount is refused |
| PixValidation.KeyRule | src/controllers/brCodePIX/index.ts:149-158 | empty gives "not set"; otherwise more than 77 characters gives "too long"; otherwise a key the type's validator refuses gives "invalid for type"; accepted exactly when set, at most 77 and valid |
| PixValidation.KeyMatchesType | src/controllers/brCodePIX/index.ts:5-12 | an e-mail key is judged by `isEmail`, a phone key by strict `isMobilePhone`, CPF and CNPJ keys by `isTaxID(…, "pt-BR")`, and a RANDOM key always passes |
| PixValidation.RandomKeyAcceptsAnyBoundedKey | src/controllers/brCodePIX/index.ts:11 | a RANDOM key passes exactly when it is non-empty and at most 77 characters |
| PixValidation.CpfAndCnpjAgree | src/controllers/brCodePIX/index.ts:9-10 | CPF and CNPJ keys get the same verdict for every key |
| PixValidation.MessagesIdentifyRule | src/controllers/brCodePIX/index.ts:93-158 | no two rules throw the same message |
| PixValidation.MessageSignature | src/controllers/brCodePIX/index.ts:93-158 | each message's length and tenth character are those listed in `Signature` |
| PixValidation.SignatureInjective | src/controllers/brCodePIX/index.ts:93-158 | the fourteen (length, tenth character) signatures are pairwise distinct |
| PixValidation.FirstError | src/controllers/brCodePIX/index.ts:53-63 | no error exactly when every check passed; otherwise the error of a failing check with every earlier one passing |
| PixValidation.FirstErrorAt | src/controllers/brCodePIX/index.ts:53-63 | a failing check with only passes before it is the one reported |
| PixValidation.Construct | src/controllers/brCodePIX/index.ts:53-63 | succeeds exactly when every trimmed field obeys its rule, and then stores the trimmed strings, amount, key type and `isUniqueTransaction \|\| false`; a failure is the error of a failing check with every earlier check passing |
| PixValidation.EarliestFailureWins | src/controllers/brCodePIX/index.ts:53-63 | if the checks before position k pass and the one at k fails, construction fails with that error, whatever later fields hold |
| PixValidation.TrimOptional | src/controllers/brCodePIX/index.ts:58 | `description?.trim()`: absent stays absent, and a present description becomes its trimmed text |
| PixValidation.Normalized | src/controllers/brCodePIX/index.ts:54-62 | every string field is the trim of its input and has no whitespace left at either end; the amount and the key type are kept; `isUniqueTransaction` is set exactly when the input says `true` |
| PixValidation.RunSettersIsFirstError | src/controllers/brCodePIX/index.ts:53-63 | running the setters one after the other, stopping at the first throw, is the first-error reading of the checks |
| PixValidation.RunSettersIsConstruct | src/controllers/brCodePIX/index.ts:53-63 | the straight-line setter sequence on the trimmed input gives `Construct`'s outcome |
| PixBRCode.BRCode.Blank | src/controllers/brCodePIX/index.ts:16-39 | a new object holds no field values yet and keeps the validators it is given |
| PixBRCode.BRCode.SetReceiverName | src/controllers/brCodePIX/index.ts:93-101 | returns the name rule's verdict; stores the value when it passes, and otherwise changes nothing |
| PixBRCode.BRCode.SetReceiverCity | src/controllers/brCodePIX/index.ts:103-111 | the same for the city |
| PixBRCode.BRCode.SetReceiverCountryCode | src/controllers/brCodePIX/index.ts:113-124 | the same for the country code, with the object's validators |
| PixBRCode.BRCode.SetIdentifier | src/controllers/brCodePIX/index.ts:126-133 | the same for the identifier |
| PixBRCode.BRCode.SetDescription | src/controllers/brCodePIX/index.ts:135-140 | the same for the description |
| PixBRCode.BRCode.SetAmount | src/controllers/brCodePIX/index.ts:142-147 | the same for the amount |
| PixBRCode.BRCode.SetKey | src/controllers/brCodePIX/index.ts:149-158 | the same for the key, checked against the key type already stored |
| PixBRCode.BRCode.RunSettersOn | src/controllers/brCodePIX/index.ts:53-63 | the setter sequence fails exactly when `RunSetters` does, with its error; on success a fresh object holds exactly the given fields |
| PixBRCode.BRCode.Create | src/controllers/brCodePIX/index.ts:53-63 | `new BRCode(data)` throws exactly when `Construct` fails, with the same error; otherwise a fresh object whose state is `Construct`'s fields and obeys every rule |
| PixBRCode.BRCode.ToBRCode | src/controllers/brCodePIX/index.ts:76-91 | returns the serialisation of the current fields and modifies nothing, so repeated calls agree |
| JsStrings.Trim | src/controllers/brCodePIX/index.ts:54-61 | the result is no longer than the input, neither starts nor ends with whitespace, and a string that already does not is returned unchanged |
| JsStrings.TrimIsCleanInfix | src/controllers/brCodePIX/index.ts:54-61 | `trim` returns the infix left after removing whitespace at both ends; everything removed is whitespace and neither end of the result is |
| JsStrings.TrimIdempotent | src/controllers/brCodePIX/index.ts:54-61 | trimming twice is trimming once |
| JsStrings.NatToStringDigits | src/controllers/brCodePIX/index.ts:66 | `toString(radix)` writes lower-case digits of the radix with no leading zero |
| JsStrings.ValueOfNatToString | src/controllers/brCodePIX/index.ts:66 | the digits `toString` writes denote the number |
| JsStrings.NatToStringLength | src/controllers/brCodePIX/index.ts:66 | `toString(radix)` has at most k digits exactly when n < radix^k |
| JsStrings.PadStart | src/controllers/brCodePIX/index.ts:66 | the result has the larger of the two lengths, ends with the input and is filled in front |
| JsStrings.ToFixed2 | src/controllers/brCodePIX/index.ts:82 | a non-negative amount is written as digits, a point and two digits denoting the amount in cents, with no leading zero in the whole part; a negative one is `-` before the text of its magnitude |
| JsStrings.ToUpperCase | src/controllers/brCodePIX/index.ts:90 | same length, no lower-case letter left, every digit value kept |
| JsStrings.ValueOfToUpperCase | src/controllers/brCodePIX/index.ts:90 | upper-casing keeps the number a digit string denotes |
| Utf8.EncodeChar | src/controllers/brCodePIX/index.ts:90 | one code point becomes one to four bytes, a length-marking lead byte then continuation bytes, decoding back to the code point |
| Utf8.Encode | src/controllers/brCodePIX/index.ts:90 | a string becomes one to four bytes per character |
| Utf8.EncodeAppend | src/controllers/brCodePIX/index.ts:90 | encoding distributes over concatenation |
| Utf8.EncodeAscii | src/controllers/brCodePIX/index.ts:90 | an ASCII string encodes to one byte per character, each the character's code |
| Crc16.Checksum | src/controllers/brCodePIX/index.ts:90 | the checksum is a number below 0x10000 |
| Crc16.UpdateAppend | src/controllers/brCodePIX/index.ts:90 | feeding two pieces in turn is feeding their concatenation |
| Crc16.RegisterClearsOnOwnValue | src/controllers/brCodePIX/index.ts:90 | a register fed its own two bytes, high byte first, becomes zero |
| Crc16.CheckValue | src/controllers/brCodePIX/index.ts:90 | the catalogue check value: "123456789" gives 0x29B1 |
| PixEncoding.PadTwoZeros | src/controllers/brCodePIX/index.ts:65-67 | `padTwoZeros(n)` has at least two characters, exactly two when n < 100, and from 10 on is the untruncated decimal |
| PixEncoding.PadTwoZerosDigits | src/controllers/brCodePIX/index.ts:65-67 | `padTwoZeros(n)` is lower-case decimal digits denoting n |
| PixEncoding.PadTwoZerosSingleDigit | src/controllers/brCodePIX/index.ts:65-67 | below 10 it is `0` and the digit |
| PixEncoding.GetEvm | src/controllers/brCodePIX/index.ts:69-74 | the object is empty exactly when its value is, and otherwise at least four characters longer than the value |
| PixEncoding.GetEvmLayout | src/controllers/brCodePIX/index.ts:69-74 | for an ID and length below 100 the object is four characters longer than its value: two digits denoting the ID (its `padTwoZeros`), two digits denoting the length (its `padTwoZeros`), then the value |
| PixEncoding.GetEvmOmitsEmpty | src/controllers/brCodePIX/index.ts:69-74 | an empty or absent value gives the empty string |
| PixEncoding.DecodeEncode | src/controllers/brCodePIX/index.ts:69-74 | a reader of the format recovers every well-formed sequence of objects from their concatenated texts |
| PixEncoding.DecodeEncodeAppend | src/controllers/brCodePIX/index.ts:69-74 | the reader takes well-formed objects off the front of any text and then reads on |
| PixEncoding.MerchantInformation | src/controllers/brCodePIX/index.ts:41-47 | the template is never empty: the GUI object is always written, so it has at least 4 + 14 characters |
| PixEncoding.MerchantInformationIsObjects | src/controllers/brCodePIX/index.ts:41-47 | the template is the objects GUI (00), key (01) and, when non-empty, description (02), in that order |
| PixEncoding.EmptyDescriptionOmitted | src/controllers/brCodePIX/index.ts:45 | an absent or empty description leaves only the GUI and key objects |
| PixEncoding.AdditionalDataFields | src/controllers/brCodePIX/index.ts:49-51 | the template is empty exactly when the identifier is, and otherwise at least four characters longer than it |
| PixEncoding.AdditionalDataFieldsIsObjects | src/controllers/brCodePIX/index.ts:49-51 | the template is the single object 05 holding the identifier, or no object for an empty identifier |
| PixEncoding.MerchantInformationLength | src/controllers/brCodePIX/index.ts:41-47 | the template is 22 characters plus the key, plus 4 and the description when there is one |
| PixEncoding.TemplateUpTo180 | src/controllers/brCodePIX/index.ts:41-47 | valid fields give a template of at most 180 characters, reached by a 77-character key and description |
| PixEncoding.LongObjectHeader | src/controllers/brCodePIX/index.ts:65-67 | a value of 100 characters or more, such as a long template, gets a length of three or more digits, so its object is at least five characters longer than the value |
| PixEncoding.PayloadBodyIsObjects | src/controllers/brCodePIX/index.ts:77-88 | the payload is the objects 00, 26, 52, 53, [54], 58, 59, 60, 62 in this order, then `6304` |
| PixEncoding.AmountText | src/controllers/brCodePIX/index.ts:82 | `_amount?.toFixed(2)`: empty exactly when there is no amount, and otherwise `toFixed(2)` of the amount |
| PixEncoding.PayloadBody | src/controllers/brCodePIX/index.ts:77-88 | the payload ends with `6304` |
| PixEncoding.ToBRCode | src/controllers/brCodePIX/index.ts:76-91 | the code is the payload followed by one to four more characters |
| PixEncoding.AbsentAmountOmitted | src/controllers/brCodePIX/index.ts:82 | without an amount there are eight objects and none has ID 54 |
| PixEncoding.AmountObjectPresent | src/controllers/brCodePIX/index.ts:82 | with an amount there are nine objects, the fifth the amount's `toFixed(2)` under ID 54 |
| PixEncoding.ZeroAmountWritten | src/controllers/brCodePIX/index.ts:82 | an amount of zero is still written, as `5404` and `0.00` |
| PixEncoding.TopLevelWellFormed | src/controllers/brCodePIX/index.ts:77-88 | valid fields whose template and amount are below 100 characters give objects the reader accepts |
| PixEncoding.ValidFieldsBounds | src/controllers/brCodePIX/index.ts:93-158 | stored fields respect every bound the setters enforce, and a stored amount is never negative |
| PixEncoding.ChecksumText | src/controllers/brCodePIX/index.ts:90 | the checksum text has one to four characters, four exactly when the checksum is at least 0x1000 |
| PixEncoding.ChecksumTextDigits | src/controllers/brCodePIX/index.ts:90 | the checksum text is upper-case hexadecimal digits with no leading zero, denoting the checksum |
| PixEncoding.CodeDecodesIffChecksumHasFourDigits | src/controllers/brCodePIX/index.ts:90 | for valid fields whose template and amount are below 100 characters, the code as written reads back as the payload objects and the CRC object when the checksum is at least 0x1000, and does not read at all below that |
| PixEncoding.DecodeWithCrc | src/controllers/brCodePIX/index.ts:87-90 | well-formed objects, `6304` and a text of at most four characters read back exactly when that text has four characters |
| PixEncoding.TruncatedCrcObject | src/controllers/brCodePIX/index.ts:87-90 | `6304` followed by fewer than four characters does not read |
| PixEncoding.PaddedChecksumTextDigits | src/controllers/brCodePIX/index.ts:90 | the padded checksum is always four upper-case hexadecimal digits denoting the checksum, and is the unpadded text whenever that has four digits |
| PixEncoding.PaddedCodeDecodes | src/controllers/brCodePIX/index.ts:90 | for the same fields, with the checksum padded, the code always reads back as the payload objects followed by the CRC object |
| PixExamples.ExampleConstructs | src/controllers/brCodePIX/index.spec.ts:4-12 | the default data, without an amount or with any amount that is not negative, builds and stores exactly that data |
| PixExamples.KeyStageDecides | src/controllers/brCodePIX/index.spec.ts:115-155 | the default data with another key and key type builds exactly when that key passes its setter |
| PixExamples.CnpjKeyAccepted | src/controllers/brCodePIX/index.spec.ts:115-122 | the default data with the CNPJ key of the test builds when the tax-id validator accepts that key |
| PixExamples.CpfKeyAccepted | src/controllers/brCodePIX/index.spec.ts:124-131 | the default data with the CPF key of the test builds when the tax-id validator accepts that key |
| PixExamples.RandomKeyAccepted | src/controllers/brCodePIX/index.spec.ts:132-139 | the default data with the RANDOM key of the test builds, whatever the key validators say |
| PixExamples.EmailKeyAccepted | src/controllers/brCodePIX/index.spec.ts:140-147 | the default data with the e-mail key of the test builds when the e-mail validator accepts that key |
| PixExamples.PhoneKeyAccepted | src/controllers/brCodePIX/index.spec.ts:148-155 | the default data with the phone key of the test builds when the strict phone validator accepts that key |
| PixExamples.NameStageRefuses | src/controllers/brCodePIX/index.ts:53-54 | the default data with a name the name setter refuses fails with that setter's error |
| PixExamples.CityStageRefuses | src/controllers/brCodePIX/index.ts:53-55 | ... a city the city setter refuses, with its error |
| PixExamples.CountryStageRefuses | src/controllers/brCodePIX/index.ts:53-56 | ... a country code the country setter refuses, with its error |
| PixExamples.IdentifierStageRefuses | src/controllers/brCodePIX/index.ts:53-57 | ... an identifier the identifier setter refuses, with its error |
| PixExamples.DescriptionStageRefuses | src/controllers/brCodePIX/index.ts:53-58 | ... a description the description setter refuses, with its error |
| PixExamples.AmountStageRefuses | src/controllers/brCodePIX/index.ts:53-59 | ... an amount the amount setter refuses, with its error |
| PixExamples.KeyStageRefuses | src/controllers/brCodePIX/index.ts:53-61 | ... a key the key setter refuses, with its error |
| PixExamples.LongNameRefused | src/controllers/brCodePIX/index.spec.ts:28-33 | a 28-character name is refused with "Receiver name must be less than 25 characters" |
| PixExamples.MissingNameRefused | src/controllers/brCodePIX/index.spec.ts:34-37 | an empty name is refused with "Receiver name must be set" |
| PixExamples.LongCityRefused | src/controllers/brCodePIX/index.spec.ts:38-43 | an 18-character city is refused with "Receiver city must be less than 15 characters" |
| PixExamples.MissingCityRefused | src/controllers/brCodePIX/index.spec.ts:44-47 | an empty city is refused with "Receiver city must be set" |
| PixExamples.LongCountryRefused | src/controllers/brCodePIX/index.spec.ts:48-53 | `USD` is refused with "Receiver country code must be 2 characters" |
| PixExamples.UnknownCountryRefused | src/controllers/brCodePIX/index.spec.ts:54-59 | `XX`, which the country validator refuses, is refused with "Receiver country code must be a valid country code" |
| PixExamples.MissingCountryRefused | src/controllers/brCodePIX/index.spec.ts:60-65 | an empty country code is refused with "Receiver country code must be set" |
| PixExamples.MissingIdentifierRefused | src/controllers/brCodePIX/index.spec.ts:66-69 | an empty identifier is refused with "Identifier must be set" |
| PixExamples.LongIdentifierRefused | src/controllers/brCodePIX/index.spec.ts:70-75 | a 27-character identifier is refused with "Identifier must be less than 25 characters" |
| PixExamples.LongDescriptionRefused | src/controllers/brCodePIX/index.spec.ts:76-85 | the 78-character description is refused with "Description must be less than 77 characters" |
| PixExamples.NegativeAmountRefused | src/controllers/brCodePIX/index.spec.ts:86-91 | an amount of -100 is refused with "Amount must be greater than 0" |
| PixExamples.MissingKeyRefused | src/controllers/brCodePIX/index.spec.ts:92-95 | an empty key is refused with "Key must be set" |
| PixExamples.LongKeyRefused | src/controllers/brCodePIX/index.spec.ts:96-104 | the 78-character key is refused with "Key must be less than 77 characters" |
| PixExamples.InvalidKeyRefused | src/controllers/brCodePIX/index.spec.ts:105-114 | an e-mail key the e-mail validator refuses is refused with "Key must be a valid key for this key type" |
| PixExampleCodes.DefaultPayloadText | src/controllers/brCodePIX/index.spec.ts:18 | the payload of the default data is the expected code up to `6304`, object by object |
| PixExampleCodes.HundredPayloadText | src/controllers/brCodePIX/index.spec.ts:25 | the same with object 54 holding `100.00` |
| PixExampleCodes.DefaultPayloadRegister | src/controllers/brCodePIX/index.spec.ts:18 | the CRC register after the default payload is 0xD6B4 |
| PixExampleCodes.HundredPayloadRegister | src/controllers/brCodePIX/index.spec.ts:25 | the CRC register after the payload with 100.00 is 0x316C |
| PixExampleCodes.DefaultCode | src/controllers/brCodePIX/index.spec.ts:15-20 | the default data builds, and its code is the expected payload closed by `D6B4` |
| PixExampleCodes.HundredCode | src/controllers/brCodePIX/index.spec.ts:21-27 | with `amount: 100` the data builds and its code is the expected payload closed by `316C` |
| PixExampleCodes.TwentyTwoCode | src/controllers/brCodePIX/index.ts:90 | with 22.00 reais the code ends in `935` as written and in `0935` once padded |
| PixExampleCodes.ShortChecksumExample | src/controllers/brCodePIX/index.ts:90 | the default data with 22.00 builds, yet its code as written does not read; padded, it reads back object by object |

## Left out

- The `validator` package is not part of this model. Its predicates are parameters (`Validators`), and the test cases name the verdicts they rely on.
- The `crc` package's own code is not shown. `Crc16` is the textbook bitwise CRC-16/CCITT-FALSE, checked against the catalogue check value and the two codes of the test suite.
- JavaScript numbers: NaN, infinities, fractional cents, and `toFixed`'s exponential form from 1e21 on are not modelled. The amount is a whole number of cents, and `toFixed(2)` is written out exactly for it.
- `value.length` counts UTF-16 code units in JavaScript; the model counts Unicode scalar values. The two agree on the Basic Multilingual Plane, where every example lies.
- JsStrings.ToUpperCase: upper-cases ASCII letters only, because its only input is hexadecimal digits.
- `isUniqueTransaction` is stored (`|| false`) but never read by `toBRCode`; the model stores it and proves nothing more about it.
- PixBRCode.BRCode.Blank: starts the key type at RANDOM, not at JavaScript's `undefined`. The constructor assigns the real key type before the key setter runs, so no setter ever reads the placeholder.
- Privacy is not modelled. The source's setters and fields are private; the model's setter methods are public, and their only caller is `RunSettersOn`, which `Create` calls. The class fields are public `var`s, so the model does not stop other code from changing a finished `BRCode` object; what is immutable is the `Fields` value `Construct` returns.
- JavaScript truthiness beyond the empty string, an absent value and the number zero is not modelled. The trimmed strings the setters see are never `undefined`.
- `src/@types/brCode/Static.ts` is folded into the `BRCodeStatic` datatype. `src/controllers/brCodePIX/index.spec.ts` is restated as lemmas, with the validator verdicts as hypotheses.

## Findings

| source | as written | input that shows it | evidently intended | confidence | as-written member | corrected member |
|---|---|---|---|---|---|---|
| src/controllers/brCodePIX/index.ts:90 | the checksum is `crc16ccitt(data).toString(16).toUpperCase()`, which has only 1–3 digits when the CRC is below 0x1000, after the header `6304` announced four | the default test data with `amount: 22` (22.00 reais): the payload's CRC is 0x0935, so the code ends in `6304935` | pad the checksum to four digits (`0935`), as the CRC object's length demands | not executed | PixExampleCodes.ShortChecksumExample | PixEncoding.PaddedCodeDecodes |

`PixEncoding.CodeDecodesIffChecksumHasFourDigits` states the general case of the as-written code: it reads back exactly when the
checksum has four digits. `PixEncoding.PaddedToBRCode` is the corrected serialiser, and `PixEncoding.PaddedCodeDecodes` proves that its
code always reads back. `PixBRCode.BRCode.ToBRCode` keeps the source's behaviour.
