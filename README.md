# Lettermint transport for Magento 2: a Dafny model

This project models the core of a Magento 2 module that sends the shop's
outgoing email through the Lettermint email API instead of Magento's own
mail transport:

- the **content extractor** (`EmailContentExtractor::extractContent`) turns a
  message body into an `{html, text}` pair. A multipart body is walked part
  by part, the last `text/html` and `text/plain` parts winning. A single text
  part fills the html slot when its subtype is `html` and the text slot
  otherwise. Any other body goes to the text slot by its string form. The
  call fails with "No email body content found" when both slots are falsy.
- the **transport** (`Model\Transport`) holds the attached message. Its
  `sendMessage` checks the enabled flag, then the API token (stored value,
  decryption, decrypted value), then builds the Lettermint client. It maps
  from, to, cc, bcc, reply-to and subject onto the client's email builder,
  then the extracted html and text, then the route. The route is the
  newsletter route when a frame of the call stack belongs to a newsletter
  class, else the transactional route. Last comes `send`. Every exception
  after the client is built is rethrown as one `MailException` wrapping the
  original.
- the **transport switcher** (`Plugin\TransportSwitcher::aroundCreate`)
  hands out the single shared transport, with the message attached, when the
  module is enabled and the factory was given a message. Otherwise it
  defers to the default factory.

PHP truthiness is modelled once, by `Php.Truthy`: `""` and `"0"` are false,
as `empty`, `?:` and `if` treat them. The Lettermint SDK's email builder is a
class that records the calls it receives (`LettermintSdk.EmailBuilder`).
The provider's answer to `send` is an input, as is the configuration store
(a map from path to stored string, an absent path reading as `null`) and the
encryptor (a partial map; decryption throws outside it). The call stack that
newsletter classification inspects is an input too: the class name of each
frame, innermost first.

The code is followed where it differs from the surrounding design: reply-to
recognises only a single `Address` object. A reply-to given as an array is
cast with PHP's array-to-string conversion, so the builder receives
`"Array"` (`LettermintTransport.ReplyToString`). `from`, in contrast, takes
the first element of an array.

Files: `php.dfy` (PHP semantics), `magento.dfy` (host types and
services), `lettermint_sdk.dfy` (the email builder),
`content_extraction.dfy`, `lettermint_transport.dfy`,
`transport_switching.dfy`.

## Model

| member | source | states |
|---|---|---|
| `Php.OrNull` | Service/EmailContentExtractor.php:57-58 | `$s ?: null` is non-null exactly for a truthy string, so a falsy string becomes null, and a non-null result is that string unchanged |
| `ContentExtraction.FoldParts` | Service/EmailContentExtractor.php:17-32 | the loop over parts keeps exactly the two slots `text/html` and `text/plain` |
| `ContentExtraction.BodyVersions` | Service/EmailContentExtractor.php:24-49 | whatever the body's shape, the dispatch leaves exactly the two slots |
| `ContentExtraction.Extract` | Service/EmailContentExtractor.php:52-59 | fails with "No email body content found" iff both slots are falsy; on success each field is null iff its slot is falsy and otherwise the slot unchanged, so at least one field holds truthy content |
| `ContentExtraction.ExtractContent` | Service/EmailContentExtractor.php:15-60 | the imperative loop over parts and the branches return exactly what `Extract` specifies |
| `ContentExtraction.OnlyTextPartsContribute` | Service/EmailContentExtractor.php:27-32 | dropping every part whose type is not exactly `text/html` or `text/plain` leaves the slots unchanged |
| `ContentExtraction.LastPartWins` | Service/EmailContentExtractor.php:29-30 | with several parts of one text type, the last one's raw content ends up in that slot |
| `ContentExtraction.UnmatchedSlotStaysEmpty` | Service/EmailContentExtractor.php:17-20 | a slot no part declares keeps its initial empty string |
| `ContentExtraction.MultipartWithoutTextPartFails` | Service/EmailContentExtractor.php:52-54 | a multipart body without a text/html or text/plain part always fails with the content-missing exception |
| `ContentExtraction.MultipartFieldIsLastPart` | Service/EmailContentExtractor.php:27-59 | on success, the field of a text type is the last such part's content if truthy, else null |
| `ContentExtraction.TextPartExtraction` | Service/EmailContentExtractor.php:35-43 | a single text part goes to html iff its subtype is exactly "html", else to text; the other field is null; falsy content fails |
| `ContentExtraction.OtherBodyExtraction` | Service/EmailContentExtractor.php:44-48 | any other body goes to text by its string form, html stays null; a falsy string form fails |
| `ContentExtraction.HtmlAndPlainParts` | Service/EmailContentExtractor.php:26-32 | an html part "A" and a plain part "B" give `{html: "A", text: "B"}` |
| `LettermintTransport.IsEnabled` | Model/Transport.php:165-171 | the transport is enabled exactly when the flag is stored and its value is truthy; an absent flag, `""` or `"0"` reads as off |
| `LettermintTransport.TransactionalRoute` | Model/Transport.php:193-199 | the stored transactional route, null exactly when none is stored |
| `LettermintTransport.NewsletterRoute` | Model/Transport.php:201-207 | the stored newsletter route, null exactly when none is stored |
| `LettermintTransport.ChosenRouteReadsOwnPath` | Model/Transport.php:147 | the route chosen for a send reads only its own kind's path: changing the other kind's stored route never changes it |
| `LettermintTransport.ApiToken` | Model/Transport.php:173-190 | the token is present exactly when the stored value is truthy and decrypts, and is then the decrypted value; a decryption failure is swallowed into null |
| `LettermintTransport.FramesBeyondLimitIgnored` | Model/Transport.php:216-218 | only the first 20 frames of the backtrace can classify a send as a newsletter |
| `LettermintTransport.FormatAddress` | Model/Transport.php:70 | the formatted address always contains the email; without a truthy name it is the bare email, with one it starts with the name and ends with `>` |
| `LettermintTransport.SenderString` | Model/Transport.php:66-78 | the `from` string of an Address, or of an array whose first element is one, contains that address's email; a non-Address first element is taken raw and a scalar gives its string form |
| `LettermintTransport.ReplyToString` | Model/Transport.php:121-127 | reply-to of an Address is its email alone (the name is dropped, unlike `from`); an array gives `"Array"`, a scalar its string form |
| `LettermintTransport.SenderMapping` | Model/Transport.php:66-80 | `from`: an Address with truthy name gives "Name <email>", otherwise the bare email; an array gives its first element formatted alike or raw; a scalar gives its string form |
| `LettermintTransport.EmailsOf` | Model/Transport.php:84-91 | a recipient list maps element-wise: same length and order, an Address gives its email (name dropped), anything else its string form |
| `LettermintTransport.CollectEmails` | Model/Transport.php:84-91 | the `foreach` builds exactly that element-wise list |
| `LettermintTransport.Delivery` | Model/Transport.php:61-156 | the `try` block never aborts; it succeeds iff content is found and the provider's response is truthy; missing content fails with the content-missing exception after exactly the header calls; found content always ends the calls with `send` |
| `LettermintTransport.Wrap` | Model/Transport.php:161 | the rethrown exception is a MailException with the original as previous, whose message is the prefix "Failed to send email: " followed by the original message |
| `LettermintTransport.SendAttempt` | Model/Transport.php:50-66 | the client is constructed exactly when the flag is set and the token is truthy, with that token; without a client no builder call is made; with no message attached the send aborts exactly when the client was built, before any builder call |
| `LettermintTransport.UnattachedMessageAbortsAfterChecks` | Model/Transport.php:61-66 | with no message attached, an enabled transport with a token builds the client and then aborts on the null message with no builder call |
| `LettermintTransport.CallsFollowFixedOrder` | Model/Transport.php:65-152 | the builder receives from, to, cc, bcc, reply-to, subject, html, text, route, send in this order, each at most once, send only last |
| `LettermintTransport.DisabledTransportFailsFirst` | Model/Transport.php:50-53 | with the flag off the send fails with "not enabled" whatever the token, the provider, or whether a message is attached, and no client or call is made |
| `LettermintTransport.MissingTokenStopsBeforeClient` | Model/Transport.php:55-59 | when enabled, a falsy stored token, a failed decryption or a falsy decrypted token each fail with "not configured" before the client is built, whether or not a message is attached |
| `LettermintTransport.BodylessMessageNeverSent` | Model/Transport.php:136-152 | a message without body content fails with the wrapped content-missing exception and `send` is never called |
| `LettermintTransport.FailuresInsideTryAreWrapped` | Model/Transport.php:157-162 | every failure after the client is built is a MailException "Failed to send email: " + original message with the original as previous; the earlier failures are not wrapped, with or without a message attached |
| `LettermintTransport.SentIffProviderAccepted` | Model/Transport.php:152-156 | the send succeeds iff enabled, token truthy, content found and the provider's response truthy; then `send` was the last call |
| `LettermintTransport.RouteFollowsClassification` | Model/Transport.php:147-150 | a route call is made iff the chosen route is truthy, with that route: the newsletter route for a newsletter caller, else the transactional route |
| `LettermintTransport.Transport.constructor` | Model/Transport.php:23 | a new transport has no message |
| `LettermintTransport.Transport.GetMessage` | Model/Transport.php:34-40 | fails with "No message set" while no message is attached, otherwise returns the attached message |
| `LettermintTransport.Transport.SetMessage` | Model/Transport.php:42-45 | attaches the message, replacing any earlier one |
| `LettermintTransport.Transport.IsNewsletterEmail` | Model/Transport.php:209-228 | true iff a message is attached and one of the first 20 frames has a class name containing "Newsletter" (case-sensitive) |
| `LettermintTransport.Transport.SendMessage` | Model/Transport.php:47-163 | the outcome, client and builder calls are exactly those of `SendAttempt` for the attached message or its absence |
| `LettermintTransport.Transport.TryDeliver` | Model/Transport.php:61-156 | the `try` block on a fresh builder: header calls, extraction, body calls, route, send, and the outcome of the provider's reply |
| `LettermintTransport.AddHeaderCalls` | Model/Transport.php:65-133 | appends exactly the from, to, cc, bcc, reply-to and subject calls |
| `LettermintTransport.AddSender` | Model/Transport.php:66-80 | appends one `from` call for a truthy field and none otherwise |
| `LettermintTransport.AddRecipients` | Model/Transport.php:82-119 | appends one to/cc/bcc call with the element-wise emails for a non-empty list, none for an empty one |
| `LettermintTransport.AddReplyTo` | Model/Transport.php:121-128 | appends one reply-to call for a truthy field: an Address's email, else the field's string form |
| `LettermintTransport.AddSubject` | Model/Transport.php:130-133 | appends the subject call only for a truthy subject |
| `LettermintTransport.AddBodies` | Model/Transport.php:139-144 | appends html then text, each only when the extractor returned it non-null |
| `LettermintTransport.AddRoute` | Model/Transport.php:147-150 | appends the route call only for a truthy route |
| `TransportSwitching.MessageArgument` | Plugin/TransportSwitcher.php:43 | `$data['message'] ?? null` is a message only when `$data` is given and holds one under 'message', and a message stored there is the one returned |
| `TransportSwitching.IsEnabled` | Plugin/TransportSwitcher.php:55-61 | the switcher's enabled check agrees with the transport's own for every configuration, as both read the same flag |
| `TransportSwitching.TransportSwitcher.constructor` | Plugin/TransportSwitcher.php:20-26 | the switcher holds the transport it is given |
| `TransportSwitching.TransportSwitcher.AroundCreate` | Plugin/TransportSwitcher.php:31-53 | disabled: `proceed($data)`, transport untouched; enabled with a message: attaches it to the held transport and returns that instance; enabled without one: `proceed($data)`, untouched; a returned transport passes the transport's own enabled check and has a message |
| `TransportSwitching.LaterCreateReplacesMessage` | Plugin/TransportSwitcher.php:47-48 | two substituted creates return the same instance, which then holds only the later message |
| `TransportSwitching.SubstitutedTransportIsReady` | Plugin/TransportSwitcher.php:43-48 | under the same configuration, a returned transport's `getMessage` succeeds and its `sendMessage` gets past the enabled check |

## Left out

- The network request behind the Lettermint client's `send`: its answer (a truthy or falsy response, or an exception) is an input.
- Construction of the Lettermint client is taken never to throw; had it thrown, the exception would have been wrapped like the others.
- Logging: the warning, error and info log calls have no effect on results.
- Translation of error messages by `__()`: messages are the untranslated texts, with `%1` substituted.
- Store-scope resolution of the configuration: the configuration store is the map for the current store.
- `debug_backtrace` reflection: replaced by the sequence of frame class names given to the call.
- The MIME classes and PHP's `(string)` cast of arbitrary objects: a body or address value that is not one of the recognised classes is represented by its string form.
- PHP's conversion of a warning such as "Array to string conversion" into an exception by the host's error handler: the reply-to of an array is the string `"Array"`, as PHP itself casts it.
- `sendMessage` with no message attached, past the enabled and token checks: the source calls `getFrom()` on null, a PHP `Error` that its `catch (\Exception)` does not catch; the model ends the call as `Aborted` without modelling the `Error` object or its message. The two checks before it behave as with a message attached.
- Dependency injection, plugin registration and the switcher's `$subject` factory; `proceed($data)` is represented by the value `Proceeded(data)`.
- Values under `$data['message']` that are not mail messages, and entries of `$data` other than 'message'.
- Concurrent sends sharing the one transport instance: each call runs to completion before the next.
