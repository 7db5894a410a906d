/**
 * The host framework's values that the Lettermint module reads: mail
 * addresses and messages, MIME bodies, the mail exception, the scoped
 * configuration store and the encryptor. Only their observable shape is
 * modelled; the host's own behaviour is not.
 */
module Magento {
  import opened Php

  /** `Magento\Framework\Mail\Address`: an email and an optional display name. */
  datatype Address = Address(email: string, name: Option<string>)

  /** One element of an address list: an `Address` object or any other value, given by its string form. */
  datatype Item = AddressItem(address: Address) | OtherItem(stringForm: string)

  /**
   * A loosely typed address field as the transport finds it: `null`, a single
   * `Address` object, a PHP array of elements, or a scalar given by its string
   * form (whose truthiness is that of the string).
   */
  datatype AddressField =
    | Null
    | Single(address: Address)
    | List(items: seq<Item>)
    | Scalar(stringForm: string)

  /** PHP truthiness of an address field: objects are true, arrays when non-empty. */
  predicate FieldTruthy(f: AddressField) {
    match f
    case Null => false
    case Single(_) => true
    case List(items) => |items| > 0
    case Scalar(s) => Truthy(s)
  }

  /** A part of a multipart MIME body (`Laminas\Mime\Part`): its declared type and raw content. */
  datatype Part = Part(partType: string, rawContent: string)

  /**
   * A message body: a multipart `Laminas\Mime\Message`, a single
   * `Symfony\Component\Mime\Part\TextPart`, or anything else, given by its
   * `(string)` form.
   */
  datatype Body =
    | Multipart(parts: seq<Part>)
    | TextPart(mediaSubtype: string, content: string)
    | OtherBody(stringForm: string)

  /**
   * `EmailMessageInterface` as the transport reads it. The recipient lists
   * hold the arrays the getters return; `null` and `[]` behave alike there.
   */
  datatype Message = Message(
    sender: AddressField,
    toList: seq<Item>,
    ccList: seq<Item>,
    bccList: seq<Item>,
    replyTo: AddressField,
    subject: Option<string>,
    body: Body)

  /**
   * A thrown exception: Magento's `MailException` with its message and the
   * exception it wraps, or any other exception (from the provider client or
   * the encryptor) with its message.
   */
  datatype Exception =
    | MailException(message: string, previous: Option<Exception>)
    | OtherException(message: string)

  /** A call that returns a value or throws. */
  datatype Result<+T> = Success(value: T) | Failure(error: Exception)

  /** The store-scoped configuration: path to stored string; an absent path reads as `null`. */
  type Config = map<string, string>

  /** `ScopeConfigInterface::getValue`. */
  function GetValue(config: Config, path: string): (v: Option<string>)
    ensures v.Some? <==> path in config
    ensures v.Some? ==> v.value == config[path]
  {
    if path in config then Some(config[path]) else None
  }

  /** `ScopeConfigInterface::isSetFlag`: the stored value cast to bool. */
  predicate IsSetFlag(config: Config, path: string) {
    TruthyOpt(GetValue(config, path))
  }

  /** The encryptor as a partial map from cipher text to plain text; decryption throws outside it. */
  type Encryptor = map<string, string>

  /** `EncryptorInterface::decrypt`. */
  function Decrypt(encryptor: Encryptor, cipher: string): (r: Result<string>)
    ensures r.Success? <==> cipher in encryptor
    ensures r.Success? ==> r.value == encryptor[cipher]
  {
    if cipher in encryptor then Success(encryptor[cipher])
    else Failure(OtherException("Unable to decrypt value"))
  }
}
