/**
 * The cases of `src/controllers/brCodePIX/index.spec.ts`, stated about the
 * model: the default data the tests start from, the inputs the constructor
 * refuses, with the messages it throws, and the inputs it accepts. The codes
 * the tests expect `toBRCode` to print, and the amount of 22.00 that shows its
 * short checksum text, are in `PixExampleCodes`. The `validator` package is
 * not part of this model, so each case names the verdicts it needs from it as
 * hypotheses. Amounts are in cents.
 */
module PixExamples {
  import opened Wrappers
  import opened JsStrings
  import opened Utf8
  import opened Crc16
  import opened PixValidation
  import opened PixEncoding

  // ---------------------------------------------------------------------------
  // The inputs
  // ---------------------------------------------------------------------------

  const ExampleKey: string := "example123456@example.com"

  /** `defaultData` of the test suite, with the given amount. */
  function ExampleData(amount: Option<int>): BRCodeStatic {
    BRCodeStatic("Weslley", "Sao Paulo", "BR", "***", ExampleKey, EMAIL, amount, Some("Teste"), None)
  }

  /** The fields a `BRCode` built from `ExampleData(amount)` holds. */
  function ExampleFields(amount: Option<int>): Fields {
    Fields("Weslley", "Sao Paulo", "BR", "***", Some("Teste"), amount, EMAIL, ExampleKey, false)
  }

  /** The verdicts of the `validator` package the default data relies on. */
  predicate AcceptsExample(v: Validators) {
    v.isEmail(ExampleKey) && v.isISO31661Alpha2("BR")
  }

  /** Neither end is whitespace, so `trim` keeps the string. */
  predicate Clean(s: string) {
    s != [] ==> !IsJsWhitespace(s[0]) && !IsJsWhitespace(s[|s| - 1])
  }

  lemma TrimKeepsClean(s: string)
    requires Clean(s)
    ensures Trim(s) == s
  {
  }

  /** Data whose strings have no surrounding whitespace is stored as given. */
  lemma NormalizedClean(d: BRCodeStatic)
    requires Clean(d.receiverName) && Clean(d.receiverCity) && Clean(d.receiverCountryCode)
    requires Clean(d.identifier) && Clean(d.key) && (d.description.Some? ==> Clean(d.description.value))
    ensures Normalized(d) == Fields(d.receiverName, d.receiverCity, d.receiverCountryCode, d.identifier,
      d.description, d.amount, d.keyType, d.key, d.isUniqueTransaction.GetOr(false))
  {
    TrimKeepsClean(d.receiverName);
    TrimKeepsClean(d.receiverCity);
    TrimKeepsClean(d.receiverCountryCode);
    TrimKeepsClean(d.identifier);
    TrimKeepsClean(d.key);
    if d.description.Some? {
      TrimKeepsClean(d.description.value);
    }
  }

  /** The strings of the default data have no surrounding whitespace. */
  lemma ExampleStringsClean()
    ensures Clean("Weslley") && Clean("Sao Paulo") && Clean("BR") && Clean("***")
    ensures Clean(ExampleKey) && Clean("Teste")
  {
  }

  /** The default name, city, identifier and description pass their setters,
      and so does the default country for a validator that knows "BR". */
  lemma ExampleRulesPass(v: Validators)
    ensures ReceiverNameRule("Weslley") == None && ReceiverCityRule("Sao Paulo") == None
    ensures IdentifierRule("***") == None && DescriptionRule(Some("Teste")) == None
    ensures v.isISO31661Alpha2("BR") ==> CountryCodeRule("BR", v) == None
  {
  }

  // ---------------------------------------------------------------------------
  // Inputs the constructor accepts
  // ---------------------------------------------------------------------------

  /** The default data, without an amount or with any amount that is not
      negative, builds a `BRCode` holding exactly that data. */
  lemma ExampleConstructs(v: Validators, amount: Option<int>)
    requires AcceptsExample(v) && (amount == None || amount.value >= 0)
    ensures Construct(ExampleData(amount), v) == Success(ExampleFields(amount))
    ensures ValidFields(ExampleFields(amount), v)
  {
    ExampleStringsClean();
    ExampleRulesPass(v);
    NormalizedClean(ExampleData(amount));
  }

  /** "should create with CNPJ key type" and the four like it: a key the
      validator of its type accepts is stored. */
  predicate KeyAccepted(v: Validators, key: string, keyType: KeyType) {
    Construct(ExampleData(None).(key := key, keyType := keyType), v).Success?
  }

  /** The default data with another key and key type is accepted exactly when
      the key passes its setter. */
  lemma KeyStageDecides(v: Validators, key: string, keyType: KeyType)
    requires v.isISO31661Alpha2("BR") && Clean(key)
    ensures KeyAccepted(v, key, keyType) <==> KeyRule(key, keyType, v) == None
  {
    ExampleStringsClean();
    ExampleRulesPass(v);
    var d := ExampleData(None).(key := key, keyType := keyType);
    NormalizedClean(d);
    if KeyRule(key, keyType, v).Some? {
      EarliestFailureWins(d, v, 6, KeyRule(key, keyType, v).value);
    }
  }

  lemma CnpjKeyAccepted(v: Validators)
    requires v.isISO31661Alpha2("BR") && v.isTaxIdPtBR("99336905000102")
    ensures KeyAccepted(v, "99336905000102", CNPJ)
  {
    KeyStageDecides(v, "99336905000102", CNPJ);
  }

  lemma CpfKeyAccepted(v: Validators)
    requires v.isISO31661Alpha2("BR") && v.isTaxIdPtBR("65952998607")
    ensures KeyAccepted(v, "65952998607", CPF)
  {
    KeyStageDecides(v, "65952998607", CPF);
  }

  /** A random key needs no validator at all. */
  lemma RandomKeyAccepted(v: Validators)
    requires v.isISO31661Alpha2("BR")
    ensures KeyAccepted(v, "gfhfghjgfhfghgf", RANDOM)
  {
    RandomKeyAcceptsAnyBoundedKey("gfhfghjgfhfghgf", v);
    KeyStageDecides(v, "gfhfghjgfhfghgf", RANDOM);
  }

  lemma EmailKeyAccepted(v: Validators)
    requires v.isISO31661Alpha2("BR") && v.isEmail("example@example.com")
    ensures KeyAccepted(v, "example@example.com", EMAIL)
  {
    KeyStageDecides(v, "example@example.com", EMAIL);
  }

  lemma PhoneKeyAccepted(v: Validators)
    requires v.isISO31661Alpha2("BR") && v.isMobilePhoneStrict("+5564996474879")
    ensures KeyAccepted(v, "+5564996474879", PHONE)
  {
    KeyStageDecides(v, "+5564996474879", PHONE);
  }

  // ---------------------------------------------------------------------------
  // Inputs the constructor refuses, and the messages it throws
  // ---------------------------------------------------------------------------

  /** The error a refused input produces, and its message. */
  predicate RefusedWith(d: BRCodeStatic, v: Validators, e: BRCodeError, message: string) {
    Construct(d, v) == Failure(e) && Message(e) == message
  }

  /** The messages the test suite expects the constructor to throw. */
  lemma ThrownMessages()
    ensures Message(ReceiverNameTooLong) == "Receiver name must be less than 25 characters"
    ensures Message(ReceiverNameNotSet) == "Receiver name must be set"
    ensures Message(ReceiverCityTooLong) == "Receiver city must be less than 15 characters"
    ensures Message(ReceiverCityNotSet) == "Receiver city must be set"
    ensures Message(CountryCodeNotTwoCharacters) == "Receiver country code must be 2 characters"
    ensures Message(CountryCodeInvalid) == "Receiver country code must be a valid country code"
    ensures Message(CountryCodeNotSet) == "Receiver country code must be set"
    ensures Message(IdentifierNotSet) == "Identifier must be set"
    ensures Message(IdentifierTooLong) == "Identifier must be less than 25 characters"
    ensures Message(DescriptionTooLong) == "Description must be less than 77 characters"
    ensures Message(AmountNegative) == "Amount must be greater than 0"
    ensures Message(KeyNotSet) == "Key must be set"
    ensures Message(KeyTooLong) == "Key must be less than 77 characters"
    ensures Message(KeyInvalidForType) == "Key must be a valid key for this key type"
  {
  }

  /** The default data with another name fails with the name setter's error. */
  lemma NameStageRefuses(v: Validators, name: string, e: BRCodeError)
    requires Clean(name) && ReceiverNameRule(name) == Some(e)
    ensures Construct(ExampleData(None).(receiverName := name), v) == Failure(e)
  {
    var d := ExampleData(None).(receiverName := name);
    ExampleStringsClean();
    NormalizedClean(d);
    EarliestFailureWins(d, v, 0, e);
  }

  /** ... with another city, with the city setter's error. */
  lemma CityStageRefuses(v: Validators, city: string, e: BRCodeError)
    requires Clean(city) && ReceiverCityRule(city) == Some(e)
    ensures Construct(ExampleData(None).(receiverCity := city), v) == Failure(e)
  {
    var d := ExampleData(None).(receiverCity := city);
    ExampleStringsClean();
    ExampleRulesPass(v);
    NormalizedClean(d);
    EarliestFailureWins(d, v, 1, e);
  }

  /** ... with another country code, with the country setter's error. */
  lemma CountryStageRefuses(v: Validators, country: string, e: BRCodeError)
    requires Clean(country) && CountryCodeRule(country, v) == Some(e)
    ensures Construct(ExampleData(None).(receiverCountryCode := country), v) == Failure(e)
  {
    var d := ExampleData(None).(receiverCountryCode := country);
    ExampleStringsClean();
    ExampleRulesPass(v);
    NormalizedClean(d);
    EarliestFailureWins(d, v, 2, e);
  }

  /** ... with another identifier, with the identifier setter's error. */
  lemma IdentifierStageRefuses(v: Validators, identifier: string, e: BRCodeError)
    requires v.isISO31661Alpha2("BR") && Clean(identifier) && IdentifierRule(identifier) == Some(e)
    ensures Construct(ExampleData(None).(identifier := identifier), v) == Failure(e)
  {
    var d := ExampleData(None).(identifier := identifier);
    ExampleStringsClean();
    ExampleRulesPass(v);
    NormalizedClean(d);
    EarliestFailureWins(d, v, 3, e);
  }

  /** ... with another description, with the description setter's error. */
  lemma DescriptionStageRefuses(v: Validators, description: string, e: BRCodeError)
    requires v.isISO31661Alpha2("BR") && Clean(description) && DescriptionRule(Some(description)) == Some(e)
    ensures Construct(ExampleData(None).(description := Some(description)), v) == Failure(e)
  {
    var d := ExampleData(None).(description := Some(description));
    ExampleStringsClean();
    ExampleRulesPass(v);
    NormalizedClean(d);
    EarliestFailureWins(d, v, 4, e);
  }

  /** ... with an amount the amount setter refuses, with its error. */
  lemma AmountStageRefuses(v: Validators, amount: Option<int>, e: BRCodeError)
    requires v.isISO31661Alpha2("BR") && AmountRule(amount) == Some(e)
    ensures Construct(ExampleData(amount), v) == Failure(e)
  {
    var d := ExampleData(amount);
    ExampleStringsClean();
    ExampleRulesPass(v);
    NormalizedClean(d);
    EarliestFailureWins(d, v, 5, e);
  }

  /** ... with a key the key setter refuses, with its error. */
  lemma KeyStageRefuses(v: Validators, key: string, e: BRCodeError)
    requires v.isISO31661Alpha2("BR") && Clean(key) && KeyRule(key, EMAIL, v) == Some(e)
    ensures Construct(ExampleData(None).(key := key), v) == Failure(e)
  {
    var d := ExampleData(None).(key := key);
    ExampleStringsClean();
    ExampleRulesPass(v);
    NormalizedClean(d);
    EarliestFailureWins(d, v, 6, e);
  }

  lemma LongNameRefused(v: Validators)
    ensures RefusedWith(ExampleData(None).(receiverName := "Fulano Ciclano Jose da Silva"), v,
      ReceiverNameTooLong, "Receiver name must be less than 25 characters")
  {
    ThrownMessages();
    NameStageRefuses(v, "Fulano Ciclano Jose da Silva", ReceiverNameTooLong);
  }

  lemma MissingNameRefused(v: Validators)
    ensures RefusedWith(ExampleData(None).(receiverName := ""), v,
      ReceiverNameNotSet, "Receiver name must be set")
  {
    ThrownMessages();
    NameStageRefuses(v, "", ReceiverNameNotSet);
  }

  lemma LongCityRefused(v: Validators)
    ensures RefusedWith(ExampleData(None).(receiverCity := "Fortaleza de Minas"), v,
      ReceiverCityTooLong, "Receiver city must be less than 15 characters")
  {
    ThrownMessages();
    CityStageRefuses(v, "Fortaleza de Minas", ReceiverCityTooLong);
  }

  lemma MissingCityRefused(v: Validators)
    ensures RefusedWith(ExampleData(None).(receiverCity := ""), v,
      ReceiverCityNotSet, "Receiver city must be set")
  {
    ThrownMessages();
    CityStageRefuses(v, "", ReceiverCityNotSet);
  }

  lemma LongCountryRefused(v: Validators)
    ensures RefusedWith(ExampleData(None).(receiverCountryCode := "USD"), v,
      CountryCodeNotTwoCharacters, "Receiver country code must be 2 characters")
  {
    ThrownMessages();
    CountryStageRefuses(v, "USD", CountryCodeNotTwoCharacters);
  }

  lemma UnknownCountryRefused(v: Validators)
    requires !v.isISO31661Alpha2("XX")
    ensures RefusedWith(ExampleData(None).(receiverCountryCode := "XX"), v,
      CountryCodeInvalid, "Receiver country code must be a valid country code")
  {
    ThrownMessages();
    CountryStageRefuses(v, "XX", CountryCodeInvalid);
  }

  lemma MissingCountryRefused(v: Validators)
    ensures RefusedWith(ExampleData(None).(receiverCountryCode := ""), v,
      CountryCodeNotSet, "Receiver country code must be set")
  {
    ThrownMessages();
    CountryStageRefuses(v, "", CountryCodeNotSet);
  }

  lemma MissingIdentifierRefused(v: Validators)
    requires v.isISO31661Alpha2("BR")
    ensures RefusedWith(ExampleData(None).(identifier := ""), v,
      IdentifierNotSet, "Identifier must be set")
  {
    ThrownMessages();
    IdentifierStageRefuses(v, "", IdentifierNotSet);
  }

  lemma LongIdentifierRefused(v: Validators)
    requires v.isISO31661Alpha2("BR")
    ensures RefusedWith(ExampleData(None).(identifier := "long identifier for testing"), v,
      IdentifierTooLong, "Identifier must be less than 25 characters")
  {
    ThrownMessages();
    IdentifierStageRefuses(v, "long identifier for testing", IdentifierTooLong);
  }

  /** The 78-character text the test suite uses for an overlong description and key. */
  const LoremIpsum: string :=
    "Lorem ipsum dolor sit amet, " + "consectetur adipiscing elit. " + "Ut id malesuada biam."

  lemma LoremIpsumFacts()
    ensures |LoremIpsum| == 78 && Clean(LoremIpsum)
  {
    assert LoremIpsum[0] == 'L' && LoremIpsum[77] == '.';
  }

  lemma LongDescriptionRefused(v: Validators)
    requires v.isISO31661Alpha2("BR")
    ensures RefusedWith(ExampleData(None).(description := Some(LoremIpsum)), v,
      DescriptionTooLong, "Description must be less than 77 characters")
  {
    ThrownMessages();
    LoremIpsumFacts();
    DescriptionStageRefuses(v, LoremIpsum, DescriptionTooLong);
  }

  /** An amount of -100 reais. */
  lemma NegativeAmountRefused(v: Validators)
    requires v.isISO31661Alpha2("BR")
    ensures RefusedWith(ExampleData(Some(-10000)), v,
      AmountNegative, "Amount must be greater than 0")
  {
    ThrownMessages();
    AmountStageRefuses(v, Some(-10000), AmountNegative);
  }

  lemma MissingKeyRefused(v: Validators)
    requires v.isISO31661Alpha2("BR")
    ensures RefusedWith(ExampleData(None).(key := ""), v,
      KeyNotSet, "Key must be set")
  {
    ThrownMessages();
    KeyStageRefuses(v, "", KeyNotSet);
  }

  lemma LongKeyRefused(v: Validators)
    requires v.isISO31661Alpha2("BR")
    ensures RefusedWith(ExampleData(None).(key := LoremIpsum), v,
      KeyTooLong, "Key must be less than 77 characters")
  {
    ThrownMessages();
    LoremIpsumFacts();
    KeyStageRefuses(v, LoremIpsum, KeyTooLong);
  }

  lemma InvalidKeyRefused(v: Validators)
    requires v.isISO31661Alpha2("BR") && !v.isEmail("45664564566")
    ensures RefusedWith(ExampleData(None).(key := "45664564566"), v,
      KeyInvalidForType, "Key must be a valid key for this key type")
  {
    ThrownMessages();
    KeyStageRefuses(v, "45664564566", KeyInvalidForType);
  }
}
