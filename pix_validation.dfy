/**
 * The validating half of the PIX BR Code builder (`src/controllers/brCodePIX/index.ts`):
 * the key-type dispatch, the private setters' rules with their messages, and
 * the constructor's order of checks, stated as one function from the input
 * record to either the first error or the validated fields.
 */
module PixValidation {
  import opened Wrappers
  import opened JsStrings

  datatype KeyType = EMAIL | PHONE | CPF | CNPJ | RANDOM

  /** The predicates of the `validator` package the source calls. Their code is
      not part of this model, so every statement below holds for any predicates. */
  datatype Validators = Validators(
    isEmail: string -> bool,
    isMobilePhoneStrict: string -> bool,
    isTaxIdPtBR: string -> bool,
    isISO31661Alpha2: string -> bool)

  /** `keyTypesValidation[keyType](key)`: one validator per key type; CPF and CNPJ
      share the Brazilian tax-id check and RANDOM accepts everything. */
  function KeyMatchesType(keyType: KeyType, key: string, v: Validators): (r: bool)
    ensures keyType == EMAIL ==> (r <==> v.isEmail(key))
    ensures keyType == PHONE ==> (r <==> v.isMobilePhoneStrict(key))
    ensures keyType == CPF || keyType == CNPJ ==> (r <==> v.isTaxIdPtBR(key))
    ensures keyType == RANDOM ==> r
  {
    match keyType
    case EMAIL => v.isEmail(key)
    case PHONE => v.isMobilePhoneStrict(key)
    case CPF => v.isTaxIdPtBR(key)
    case CNPJ => v.isTaxIdPtBR(key)
    case RANDOM => true
  }

  /** The input record `BRCodeStatic`; `amount` is a whole number of cents. */
  datatype BRCodeStatic = BRCodeStatic(
    receiverName: string,
    receiverCity: string,
    receiverCountryCode: string,
    identifier: string,
    key: string,
    keyType: KeyType,
    amount: Option<int>,
    description: Option<string>,
    isUniqueTransaction: Option<bool>)

  /** One constructor per `throw` in the setters. */
  datatype BRCodeError =
    | ReceiverNameNotSet | ReceiverNameTooLong
    | ReceiverCityNotSet | ReceiverCityTooLong
    | CountryCodeNotSet | CountryCodeNotTwoCharacters | CountryCodeInvalid
    | IdentifierNotSet | IdentifierTooLong
    | DescriptionTooLong
    | AmountNegative
    | KeyNotSet | KeyTooLong | KeyInvalidForType

  /** The message of the `Error` each rule throws. */
  function Message(e: BRCodeError): string {
    match e
    case ReceiverNameNotSet => "Receiver name must be set"
    case ReceiverNameTooLong => "Receiver name must be less than 25 characters"
    case ReceiverCityNotSet => "Receiver city must be set"
    case ReceiverCityTooLong => "Receiver city must be less than 15 characters"
    case CountryCodeNotSet => "Receiver country code must be set"
    case CountryCodeNotTwoCharacters => "Receiver country code must be 2 characters"
    case CountryCodeInvalid => "Receiver country code must be a valid country code"
    case IdentifierNotSet => "Identifier must be set"
    case IdentifierTooLong => "Identifier must be less than 25 characters"
    case DescriptionTooLong => "Description must be less than 77 characters"
    case AmountNegative => "Amount must be greater than 0"
    case KeyNotSet => "Key must be set"
    case KeyTooLong => "Key must be less than 77 characters"
    case KeyInvalidForType => "Key must be a valid key for this key type"
  }

  /** Length and tenth character of each message: no two rules share them. */
  function Signature(e: BRCodeError): (int, char) {
    match e
    case ReceiverNameNotSet => (25, 'n')
    case ReceiverNameTooLong => (45, 'n')
    case ReceiverCityNotSet => (25, 'c')
    case ReceiverCityTooLong => (45, 'c')
    case CountryCodeNotSet => (33, 'c')
    case CountryCodeNotTwoCharacters => (42, 'c')
    case CountryCodeInvalid => (50, 'c')
    case IdentifierNotSet => (22, 'r')
    case IdentifierTooLong => (42, 'r')
    case DescriptionTooLong => (43, 'o')
    case AmountNegative => (29, 's')
    case KeyNotSet => (15, 'b')
    case KeyTooLong => (35, 'b')
    case KeyInvalidForType => (41, 'b')
  }

  lemma MessageSignature(e: BRCodeError)
    ensures |Message(e)| > 9 && (|Message(e)|, Message(e)[9]) == Signature(e)
  {
    ReceiverSignatures();
    CountryAndIdentifierSignatures();
    OptionalAndKeySignatures();
  }

  /** The receiver name and city messages. */
  lemma ReceiverSignatures()
    ensures |Message(ReceiverNameNotSet)| > 9 && (|Message(ReceiverNameNotSet)|, Message(ReceiverNameNotSet)[9]) == Signature(ReceiverNameNotSet)
    ensures |Message(ReceiverNameTooLong)| > 9 && (|Message(ReceiverNameTooLong)|, Message(ReceiverNameTooLong)[9]) == Signature(ReceiverNameTooLong)
    ensures |Message(ReceiverCityNotSet)| > 9 && (|Message(ReceiverCityNotSet)|, Message(ReceiverCityNotSet)[9]) == Signature(ReceiverCityNotSet)
    ensures |Message(ReceiverCityTooLong)| > 9 && (|Message(ReceiverCityTooLong)|, Message(ReceiverCityTooLong)[9]) == Signature(ReceiverCityTooLong)
  {
  }

  /** The country code and identifier messages. */
  lemma CountryAndIdentifierSignatures()
    ensures |Message(CountryCodeNotSet)| > 9 && (|Message(CountryCodeNotSet)|, Message(CountryCodeNotSet)[9]) == Signature(CountryCodeNotSet)
    ensures |Message(CountryCodeNotTwoCharacters)| > 9 && (|Message(CountryCodeNotTwoCharacters)|, Message(CountryCodeNotTwoCharacters)[9]) == Signature(CountryCodeNotTwoCharacters)
    ensures |Message(CountryCodeInvalid)| > 9 && (|Message(CountryCodeInvalid)|, Message(CountryCodeInvalid)[9]) == Signature(CountryCodeInvalid)
    ensures |Message(IdentifierNotSet)| > 9 && (|Message(IdentifierNotSet)|, Message(IdentifierNotSet)[9]) == Signature(IdentifierNotSet)
    ensures |Message(IdentifierTooLong)| > 9 && (|Message(IdentifierTooLong)|, Message(IdentifierTooLong)[9]) == Signature(IdentifierTooLong)
  {
  }

  /** The description, amount and key messages. */
  lemma OptionalAndKeySignatures()
    ensures |Message(DescriptionTooLong)| > 9 && (|Message(DescriptionTooLong)|, Message(DescriptionTooLong)[9]) == Signature(DescriptionTooLong)
    ensures |Message(AmountNegative)| > 9 && (|Message(AmountNegative)|, Message(AmountNegative)[9]) == Signature(AmountNegative)
    ensures |Message(KeyNotSet)| > 9 && (|Message(KeyNotSet)|, Message(KeyNotSet)[9]) == Signature(KeyNotSet)
    ensures |Message(KeyTooLong)| > 9 && (|Message(KeyTooLong)|, Message(KeyTooLong)[9]) == Signature(KeyTooLong)
    ensures |Message(KeyInvalidForType)| > 9 && (|Message(KeyInvalidForType)|, Message(KeyInvalidForType)[9]) == Signature(KeyInvalidForType)
  {
  }

  /** No two rules share a signature. */
  lemma SignatureInjective(e1: BRCodeError, e2: BRCodeError)
    ensures Signature(e1) == Signature(e2) ==> e1 == e2
  {
  }

  /** Every rule has its own message, so the message names the rule that failed. */
  lemma MessagesIdentifyRule(e1: BRCodeError, e2: BRCodeError)
    ensures Message(e1) == Message(e2) ==> e1 == e2
  {
    MessageSignature(e1);
    MessageSignature(e2);
    SignatureInjective(e1, e2);
  }

  const MaxReceiverNameLength := 25
  const MaxReceiverCityLength := 15
  const CountryCodeLength := 2
  const MaxIdentifierLength := 25
  const MaxDescriptionLength := 77
  const MaxKeyLength := 77

  // ---------------------------------------------------------------------------
  // The setters' rules, each on the value the constructor passes it
  // ---------------------------------------------------------------------------

  /** `set receiverName`: required, at most 25 characters (the check is `> 25`). */
  function ReceiverNameRule(value: string): (r: Option<BRCodeError>)
    ensures r == None <==> 0 < |value| <= MaxReceiverNameLength
    ensures r == Some(ReceiverNameNotSet) <==> value == []
    ensures r == Some(ReceiverNameTooLong) <==> |value| > MaxReceiverNameLength
  {
    if value == [] then Some(ReceiverNameNotSet)
    else if |value| > MaxReceiverNameLength then Some(ReceiverNameTooLong)
    else None
  }

  /** `set receiverCity`: required, at most 15 characters. */
  function ReceiverCityRule(value: string): (r: Option<BRCodeError>)
    ensures r == None <==> 0 < |value| <= MaxReceiverCityLength
    ensures r == Some(ReceiverCityNotSet) <==> value == []
    ensures r == Some(ReceiverCityTooLong) <==> |value| > MaxReceiverCityLength
  {
    if value == [] then Some(ReceiverCityNotSet)
    else if |value| > MaxReceiverCityLength then Some(ReceiverCityTooLong)
    else None
  }

  /** `set receiverCountryCode`: required, then exactly two characters, then a
      valid ISO 3166-1 alpha-2 code, each failure with its own message. */
  function CountryCodeRule(value: string, v: Validators): (r: Option<BRCodeError>)
    ensures r == None <==> |value| == CountryCodeLength && v.isISO31661Alpha2(value)
    ensures r == Some(CountryCodeNotSet) <==> value == []
    ensures r == Some(CountryCodeNotTwoCharacters) <==> value != [] && |value| != CountryCodeLength
    ensures r == Some(CountryCodeInvalid) <==> |value| == CountryCodeLength && !v.isISO31661Alpha2(value)
  {
    if value == [] then Some(CountryCodeNotSet)
    else if |value| != CountryCodeLength then Some(CountryCodeNotTwoCharacters)
    else if !v.isISO31661Alpha2(value) then Some(CountryCodeInvalid)
    else None
  }

  /** `set identifier`: required, at most 25 characters. */
  function IdentifierRule(value: string): (r: Option<BRCodeError>)
    ensures r == None <==> 0 < |value| <= MaxIdentifierLength
    ensures r == Some(IdentifierNotSet) <==> value == []
    ensures r == Some(IdentifierTooLong) <==> |value| > MaxIdentifierLength
  {
    if value == [] then Some(IdentifierNotSet)
    else if |value| > MaxIdentifierLength then Some(IdentifierTooLong)
    else None
  }

  /** `set description`: optional; when given and non-empty, at most 77 characters. */
  function DescriptionRule(value: Option<string>): (r: Option<BRCodeError>)
    ensures r == None <==> value == None || |value.value| <= MaxDescriptionLength
    ensures r != None ==> r == Some(DescriptionTooLong)
  {
    if value.Some? && value.value != [] && |value.value| > MaxDescriptionLength then Some(DescriptionTooLong)
    else None
  }

  /** `set amount`: optional; only a negative amount is refused (zero is falsy and
      skips the check, and is not negative anyway). */
  function AmountRule(value: Option<int>): (r: Option<BRCodeError>)
    ensures r == None <==> value == None || value.value >= 0
    ensures r != None ==> r == Some(AmountNegative)
  {
    if value.Some? && value.value != 0 && value.value < 0 then Some(AmountNegative)
    else None
  }

  /** `set key`: required, then at most 77 characters, then accepted by the
      validator of the key type, each failure with its own message. */
  function KeyRule(value: string, keyType: KeyType, v: Validators): (r: Option<BRCodeError>)
    ensures r == None <==> 0 < |value| <= MaxKeyLength && KeyMatchesType(keyType, value, v)
    ensures r == Some(KeyNotSet) <==> value == []
    ensures r == Some(KeyTooLong) <==> |value| > MaxKeyLength
    ensures r == Some(KeyInvalidForType) <==>
      0 < |value| <= MaxKeyLength && !KeyMatchesType(keyType, value, v)
  {
    if value == [] then Some(KeyNotSet)
    else if |value| > MaxKeyLength then Some(KeyTooLong)
    else if !KeyMatchesType(keyType, value, v) then Some(KeyInvalidForType)
    else None
  }

  /** A RANDOM key is accepted exactly when it is set and at most 77 characters. */
  lemma RandomKeyAcceptsAnyBoundedKey(key: string, v: Validators)
    ensures KeyRule(key, RANDOM, v) == None <==> 0 < |key| <= MaxKeyLength
  {
  }

  /** CPF and CNPJ keys go through the same check. */
  lemma CpfAndCnpjAgree(key: string, v: Validators)
    ensures KeyRule(key, CPF, v) == KeyRule(key, CNPJ, v)
  {
  }

  // ---------------------------------------------------------------------------
  // The constructor
  // ---------------------------------------------------------------------------

  /** The private fields of a successfully built `BRCode`. */
  datatype Fields = Fields(
    receiverName: string,
    receiverCity: string,
    receiverCountryCode: string,
    identifier: string,
    description: Option<string>,
    amount: Option<int>,
    keyType: KeyType,
    key: string,
    isUniqueTransaction: bool)

  /** `data.description?.trim()`: an absent value stays absent, a present one is trimmed. */
  function TrimOptional(s: Option<string>): (r: Option<string>)
    ensures r.Some? <==> s.Some?
    ensures s.Some? ==> r.value == Trim(s.value)
  {
    match s
    case None => None
    case Some(t) => Some(Trim(t))
  }

  /** What the fields hold once every setter has accepted its value: the trimmed
      strings (which trimming again leaves as they are), the amount and key type
      as given, and `isUniqueTransaction || false`. */
  function Normalized(data: BRCodeStatic): (r: Fields)
    ensures r.receiverName == Trim(data.receiverName) && r.receiverCity == Trim(data.receiverCity)
    ensures r.receiverCountryCode == Trim(data.receiverCountryCode) && r.identifier == Trim(data.identifier)
    ensures r.key == Trim(data.key) && r.description == TrimOptional(data.description)
    ensures r.amount == data.amount && r.keyType == data.keyType
    ensures r.isUniqueTransaction <==> data.isUniqueTransaction == Some(true)
    ensures Trim(r.receiverName) == r.receiverName && Trim(r.receiverCity) == r.receiverCity
    ensures Trim(r.receiverCountryCode) == r.receiverCountryCode && Trim(r.identifier) == r.identifier
    ensures Trim(r.key) == r.key
  {
    Fields(
      Trim(data.receiverName), Trim(data.receiverCity), Trim(data.receiverCountryCode),
      Trim(data.identifier), TrimOptional(data.description), data.amount,
      data.keyType, Trim(data.key), data.isUniqueTransaction.GetOr(false))
  }

  /** The setters' verdicts on candidate field values, in the order the
      constructor calls them: name, city, country, identifier, description,
      amount, key. */
  function FieldChecks(f: Fields, v: Validators): (cs: seq<Option<BRCodeError>>)
    ensures |cs| == 7
  {
    [ ReceiverNameRule(f.receiverName),
      ReceiverCityRule(f.receiverCity),
      CountryCodeRule(f.receiverCountryCode, v),
      IdentifierRule(f.identifier),
      DescriptionRule(f.description),
      AmountRule(f.amount),
      KeyRule(f.key, f.keyType, v) ]
  }

  /** The verdicts on the constructor's (trimmed) arguments. */
  function Checks(data: BRCodeStatic, v: Validators): (cs: seq<Option<BRCodeError>>)
    ensures |cs| == 7
  {
    FieldChecks(Normalized(data), v)
  }

  /** Every stored field obeys its setter's rule. */
  predicate ValidFields(f: Fields, v: Validators) {
    forall k :: 0 <= k < 7 ==> FieldChecks(f, v)[k] == None
  }

  /** The first error in a sequence of verdicts, if any. */
  function FirstError(cs: seq<Option<BRCodeError>>): (r: Option<BRCodeError>)
    ensures r == None <==> forall k :: 0 <= k < |cs| ==> cs[k] == None
    ensures r.Some? ==> exists k :: 0 <= k < |cs| && cs[k] == r && NoneBefore(cs, k)
    decreases |cs|
  {
    if cs == [] then None
    else if cs[0].Some? then
      assert NoneBefore(cs, 0);
      cs[0]
    else
      var r := FirstError(cs[1..]);
      assert forall k :: 0 <= k < |cs| - 1 ==> cs[1..][k] == cs[k + 1];
      if r.Some? then
        var k :| 0 <= k < |cs| - 1 && cs[1..][k] == r && NoneBefore(cs[1..], k);
        assert NoneBefore(cs, k + 1);
        r
      else r
  }

  predicate NoneBefore(cs: seq<Option<BRCodeError>>, k: nat)
    requires k <= |cs|
  {
    forall j :: 0 <= j < k ==> cs[j] == None
  }

  /** The first error is the verdict at the first position that fails. */
  lemma {:induction false} FirstErrorAt(cs: seq<Option<BRCodeError>>, k: nat)
    requires k < |cs| && cs[k].Some? && NoneBefore(cs, k)
    ensures FirstError(cs) == cs[k]
    decreases k
  {
    if k > 0 {
      assert cs[0] == None;
      assert NoneBefore(cs[1..], k - 1) by {
        forall j | 0 <= j < k - 1 ensures cs[1..][j] == None {
          assert cs[1..][j] == cs[j + 1];
        }
      }
      FirstErrorAt(cs[1..], k - 1);
    }
  }

  /** `new BRCode(data)`: the setters run in order on the normalized values and
      the first that throws decides the error; when none throws, the fields are
      the normalized inputs and obey every rule. */
  function Construct(data: BRCodeStatic, v: Validators): (r: Result<Fields, BRCodeError>)
    ensures r.Success? <==> ValidFields(Normalized(data), v)
    ensures r.Success? ==> r.value == Normalized(data)
    ensures r.Failure? ==> exists k :: 0 <= k < 7 && Checks(data, v)[k] == Some(r.error) && NoneBefore(Checks(data, v), k)
  {
    match FirstError(Checks(data, v))
    case Some(e) => Failure(e)
    case None => Success(Normalized(data))
  }

  /** The earliest failing check wins: if the checks before position `k` pass
      and the one at `k` fails with `e`, construction fails with `e`, whatever
      the later fields hold. */
  lemma EarliestFailureWins(data: BRCodeStatic, v: Validators, k: nat, e: BRCodeError)
    requires k < 7 && Checks(data, v)[k] == Some(e)
    requires forall j :: 0 <= j < k ==> Checks(data, v)[j] == None
    ensures Construct(data, v) == Failure(e)
  {
    assert NoneBefore(Checks(data, v), k);
    FirstErrorAt(Checks(data, v), k);
  }

  /** The constructor read as straight-line code over the trimmed values: each
      setter in turn, the first refusal returned at once. */
  function RunSetters(f: Fields, v: Validators): Result<Fields, BRCodeError> {
    if ReceiverNameRule(f.receiverName).Some? then Failure(ReceiverNameRule(f.receiverName).value)
    else if ReceiverCityRule(f.receiverCity).Some? then Failure(ReceiverCityRule(f.receiverCity).value)
    else if CountryCodeRule(f.receiverCountryCode, v).Some? then Failure(CountryCodeRule(f.receiverCountryCode, v).value)
    else if IdentifierRule(f.identifier).Some? then Failure(IdentifierRule(f.identifier).value)
    else if DescriptionRule(f.description).Some? then Failure(DescriptionRule(f.description).value)
    else if AmountRule(f.amount).Some? then Failure(AmountRule(f.amount).value)
    else if KeyRule(f.key, f.keyType, v).Some? then Failure(KeyRule(f.key, f.keyType, v).value)
    else Success(f)
  }

  /** Running the setters one after the other is the first-error reading. */
  lemma RunSettersIsFirstError(f: Fields, v: Validators)
    ensures RunSetters(f, v) == if FirstError(FieldChecks(f, v)).Some? then Failure(FirstError(FieldChecks(f, v)).value) else Success(f)
  {
    var cs := FieldChecks(f, v);
    var k := if cs[0].Some? then 0 else if cs[1].Some? then 1 else if cs[2].Some? then 2
      else if cs[3].Some? then 3 else if cs[4].Some? then 4 else if cs[5].Some? then 5 else 6;
    assert NoneBefore(cs, k);
    if cs[k].Some? {
      FirstErrorAt(cs, k);
    }
  }

  /** The constructor's outcome is that of running its setters in order. */
  lemma RunSettersIsConstruct(data: BRCodeStatic, v: Validators)
    ensures RunSetters(Normalized(data), v) == Construct(data, v)
  {
    RunSettersIsFirstError(Normalized(data), v);
  }
}
