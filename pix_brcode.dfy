/**
 * The `BRCode` class of `src/controllers/brCodePIX/index.ts`: private fields
 * assigned one at a time by throwing setters, a constructor that runs the
 * setters in a fixed order, and `toBRCode`, which only reads the fields.
 * A thrown error is an `Option<BRCodeError>` returned by the setter, and the
 * throwing constructor is `Create`, which returns either the error or the object.
 */
module PixBRCode {
  import opened Wrappers
  import opened JsStrings
  import opened PixValidation
  import PixEncoding

  class BRCode {
    var receiverName: string
    var receiverCity: string
    var receiverCountryCode: string
    var identifier: string
    var description: Option<string>
    var amount: Option<int>
    var keyType: KeyType
    var key: string
    var isUniqueTransaction: bool
    /** The `validator` package the setters consult. */
    const validators: Validators

    /** The fields, as the serialiser reads them. */
    function State(): Fields
      reads this
    {
      Fields(receiverName, receiverCity, receiverCountryCode, identifier, description,
        amount, keyType, key, isUniqueTransaction)
    }

    /** Every field holds a value its setter accepted. */
    predicate Valid()
      reads this
    {
      ValidFields(State(), validators)
    }

    /** The object before any setter has run: strings unset, nothing optional given. */
    constructor Blank(keyType: KeyType, validators: Validators)
      ensures State() == Fields("", "", "", "", None, None, keyType, "", false)
      ensures this.validators == validators
    {
      receiverName, receiverCity, receiverCountryCode, identifier := "", "", "", "";
      description, amount := None, None;
      this.keyType, key, isUniqueTransaction := keyType, "", false;
      this.validators := validators;
    }

    /** `set receiverName`: stores the value unless the rule refuses it. */
    method SetReceiverName(value: string) returns (err: Option<BRCodeError>)
      modifies this`receiverName
      ensures err == ReceiverNameRule(value)
      ensures State() == if err == None then old(State()).(receiverName := value) else old(State())
    {
      err := ReceiverNameRule(value);
      if err == None {
        receiverName := value;
      }
    }

    /** `set receiverCity` */
    method SetReceiverCity(value: string) returns (err: Option<BRCodeError>)
      modifies this`receiverCity
      ensures err == ReceiverCityRule(value)
      ensures State() == if err == None then old(State()).(receiverCity := value) else old(State())
    {
      err := ReceiverCityRule(value);
      if err == None {
        receiverCity := value;
      }
    }

    /** `set receiverCountryCode` */
    method SetReceiverCountryCode(value: string) returns (err: Option<BRCodeError>)
      modifies this`receiverCountryCode
      ensures err == CountryCodeRule(value, validators)
      ensures State() == if err == None then old(State()).(receiverCountryCode := value) else old(State())
    {
      err := CountryCodeRule(value, validators);
      if err == None {
        receiverCountryCode := value;
      }
    }

    /** `set identifier` */
    method SetIdentifier(value: string) returns (err: Option<BRCodeError>)
      modifies this`identifier
      ensures err == IdentifierRule(value)
      ensures State() == if err == None then old(State()).(identifier := value) else old(State())
    {
      err := IdentifierRule(value);
      if err == None {
        identifier := value;
      }
    }

    /** `set description` */
    method SetDescription(value: Option<string>) returns (err: Option<BRCodeError>)
      modifies this`description
      ensures err == DescriptionRule(value)
      ensures State() == if err == None then old(State()).(description := value) else old(State())
    {
      err := DescriptionRule(value);
      if err == None {
        description := value;
      }
    }

    /** `set amount` */
    method SetAmount(value: Option<int>) returns (err: Option<BRCodeError>)
      modifies this`amount
      ensures err == AmountRule(value)
      ensures State() == if err == None then old(State()).(amount := value) else old(State())
    {
      err := AmountRule(value);
      if err == None {
        amount := value;
      }
    }

    /** `set key`: checked against the key type already stored. */
    method SetKey(value: string) returns (err: Option<BRCodeError>)
      modifies this`key
      ensures err == KeyRule(value, keyType, validators)
      ensures State() == if err == None then old(State()).(key := value) else old(State())
    {
      err := KeyRule(value, keyType, validators);
      if err == None {
        key := value;
      }
    }

    /** `new BRCode(data)`: trims the strings and hands them to the setters;
        the outcome is `Construct`'s, so every property proved about that holds
        of it. */
    static method Create(data: BRCodeStatic, v: Validators) returns (r: Result<BRCode, BRCodeError>)
      ensures r.Failure? <==> Construct(data, v).Failure?
      ensures r.Failure? ==> r.error == Construct(data, v).error
      ensures r.Success? ==>
        fresh(r.value) && r.value.validators == v && r.value.State() == Construct(data, v).value && r.value.Valid()
    {
      RunSettersIsConstruct(data, v);
      r := RunSettersOn(Normalized(data), v);
    }

    /** The constructor body after trimming: the setters in the order name,
        city, country, identifier, description, amount, key, with the key type
        stored just before the key; the first refusal is thrown at once. */
    static method RunSettersOn(f: Fields, v: Validators) returns (r: Result<BRCode, BRCodeError>)
      ensures r.Failure? <==> RunSetters(f, v).Failure?
      ensures r.Failure? ==> r.error == RunSetters(f, v).error
      ensures r.Success? ==> fresh(r.value) && r.value.validators == v && r.value.State() == f
    {
      var b := new BRCode.Blank(RANDOM, v);
      var err := b.SetReceiverName(f.receiverName);
      if err.Some? {
        return Failure(err.value);
      }
      err := b.SetReceiverCity(f.receiverCity);
      if err.Some? {
        return Failure(err.value);
      }
      err := b.SetReceiverCountryCode(f.receiverCountryCode);
      if err.Some? {
        return Failure(err.value);
      }
      err := b.SetIdentifier(f.identifier);
      if err.Some? {
        return Failure(err.value);
      }
      err := b.SetDescription(f.description);
      if err.Some? {
        return Failure(err.value);
      }
      err := b.SetAmount(f.amount);
      if err.Some? {
        return Failure(err.value);
      }
      b.keyType := f.keyType;
      err := b.SetKey(f.key);
      if err.Some? {
        return Failure(err.value);
      }
      b.isUniqueTransaction := f.isUniqueTransaction;
      return Success(b);
    }

    /** `toBRCode()`: reads the fields and changes none of them, so repeated calls
        return the same code; the code is the serialisation of the fields. */
    method ToBRCode() returns (code: string)
      ensures code == PixEncoding.ToBRCode(State())
    {
      code := PixEncoding.ToBRCode(State());
    }
  }
}
