/**
 * `Lettermint\Email\Model\Transport`: holds the message to send and, on
 * `sendMessage`, reads the configuration, maps the message's fields onto the
 * Lettermint email builder and sends.
 */
module LettermintTransport {
  import opened Php
  import opened Magento
  import opened LettermintSdk
  import ContentExtraction

  const ConfigPathEnabled := "lettermint_email/general/enabled"
  const ConfigPathApiToken := "lettermint_email/general/api_token"
  const ConfigPathTransactionalRoute := "lettermint_email/routes/transactional_route"
  const ConfigPathNewsletterRoute := "lettermint_email/routes/newsletter_route"

  /** How many frames `debug_backtrace` is asked for. */
  const BacktraceLimit := 20
  const NewsletterMarker := "Newsletter"

  const NoMessageSetMessage := "No message set for Lettermint transport"
  const DisabledMessage := "Lettermint email transport is not enabled."
  const NoTokenMessage := "Lettermint API token is not configured."
  const SendFailedMessage := "Failed to send email via Lettermint."
  const WrapPrefix := "Failed to send email: "

  const NoMessageSet := MailException(NoMessageSetMessage, None)
  const TransportDisabled := MailException(DisabledMessage, None)
  const TokenUnavailable := MailException(NoTokenMessage, None)
  const SendFailed := MailException(SendFailedMessage, None)

  /** The class name of one backtrace frame, when the frame has one. */
  type Frame = Option<string>

  /**
   * How a call of `sendMessage` ends: normally, by throwing an exception, or
   * `Aborted` by a PHP `Error` (a method called on `null`), which is not an
   * `\Exception` and so escapes the `catch`.
   */
  datatype Outcome = Sent | Failed(error: Exception) | Aborted

  /**
   * One call of `sendMessage`: how it ended, the token the Lettermint client
   * was constructed with (`None` when no client was constructed), and the
   * builder calls it made, in order.
   */
  datatype Attempt = Attempt(outcome: Outcome, client: Option<string>, calls: seq<Call>)

  // ---------------------------------------------------------------------------
  // Configuration lookups

  /** `isEnabled`: the flag is stored and its value is truthy; an absent flag reads as off. */
  function IsEnabled(config: Config): (enabled: bool)
    ensures enabled <==> ConfigPathEnabled in config && Truthy(config[ConfigPathEnabled])
  {
    IsSetFlag(config, ConfigPathEnabled)
  }

  /**
   * `getApiToken`: the decrypted token, or null when none is stored, the
   * stored value is falsy, or decryption throws (the exception is swallowed).
   */
  function ApiToken(config: Config, encryptor: Encryptor): (token: Option<string>)
    ensures token.Some? <==>
      TruthyOpt(GetValue(config, ConfigPathApiToken)) &&
      config[ConfigPathApiToken] in encryptor
    ensures token.Some? ==> token.value == encryptor[config[ConfigPathApiToken]]
  {
    var encrypted := GetValue(config, ConfigPathApiToken);
    if !TruthyOpt(encrypted) then None
    else
      match Decrypt(encryptor, encrypted.value)
      case Success(plain) => Some(plain)
      case Failure(_) => None
  }

  /** `getTransactionalRoute`: the stored value, `null` when none is stored. */
  function TransactionalRoute(config: Config): (route: Option<string>)
    ensures route.Some? <==> ConfigPathTransactionalRoute in config
    ensures route.Some? ==> route.value == config[ConfigPathTransactionalRoute]
  {
    GetValue(config, ConfigPathTransactionalRoute)
  }

  /** `getNewsletterRoute`: the stored value, `null` when none is stored. */
  function NewsletterRoute(config: Config): (route: Option<string>)
    ensures route.Some? <==> ConfigPathNewsletterRoute in config
    ensures route.Some? ==> route.value == config[ConfigPathNewsletterRoute]
  {
    GetValue(config, ConfigPathNewsletterRoute)
  }

  /** The route for a send: the newsletter route for a newsletter, else the transactional one. */
  function ChosenRoute(config: Config, newsletter: bool): Option<string> {
    if newsletter then NewsletterRoute(config) else TransactionalRoute(config)
  }

  /**
   * Each kind of send reads only its own route: changing the other kind's
   * stored route never changes the route chosen.
   */
  lemma ChosenRouteReadsOwnPath(config: Config, newsletter: bool, other: string)
    ensures var otherPath := if newsletter then ConfigPathTransactionalRoute else ConfigPathNewsletterRoute;
      ChosenRoute(config[otherPath := other], newsletter) == ChosenRoute(config, newsletter)
  {
  }

  // ---------------------------------------------------------------------------
  // Newsletter classification

  predicate NewsletterFrame(frame: Frame) {
    frame.Some? && Contains(frame.value, NewsletterMarker)
  }

  /** Some frame among the first `BacktraceLimit` has a class name containing "Newsletter". */
  predicate NewsletterCaller(frames: seq<Frame>) {
    exists i :: 0 <= i < |frames| && i < BacktraceLimit && NewsletterFrame(frames[i])
  }

  /** Frames beyond the first `BacktraceLimit` never change the classification. */
  lemma FramesBeyondLimitIgnored(frames: seq<Frame>, deeper: seq<Frame>)
    requires |frames| >= BacktraceLimit
    ensures NewsletterCaller(frames + deeper) == NewsletterCaller(frames)
  {
    if NewsletterCaller(frames + deeper) {
      var i :| 0 <= i < |frames + deeper| && i < BacktraceLimit && NewsletterFrame((frames + deeper)[i]);
      assert NewsletterFrame(frames[i]);
    }
    if NewsletterCaller(frames) {
      var i :| 0 <= i < |frames| && i < BacktraceLimit && NewsletterFrame(frames[i]);
      assert NewsletterFrame((frames + deeper)[i]);
    }
  }

  // ---------------------------------------------------------------------------
  // Address mapping

  /** An `Address` as "Name <email>" when its name is truthy, else its bare email. */
  function FormatAddress(a: Address): (s: string)
    ensures Contains(s, a.email)
    ensures !TruthyOpt(a.name) ==> s == a.email
    ensures TruthyOpt(a.name) ==> |a.name.value| < |s| && s[..|a.name.value|] == a.name.value && s[|s| - 1] == '>'
  {
    if TruthyOpt(a.name) then
      var s := a.name.value + " <" + a.email + ">";
      assert OccursAt(s, a.email, |a.name.value| + 2);
      s
    else
      assert OccursAt(a.email, a.email, 0);
      a.email
  }

  /** The argument of `from(...)`: arrays give their first element, taken raw when it is not an `Address`. */
  function SenderString(f: AddressField): (s: string)
    requires FieldTruthy(f)
    ensures f.Single? ==> Contains(s, f.address.email)
    ensures f.List? && f.items[0].AddressItem? ==> Contains(s, f.items[0].address.email)
    ensures f.List? && f.items[0].OtherItem? ==> s == f.items[0].stringForm
    ensures f.Scalar? ==> s == f.stringForm
  {
    match f
    case Single(a) => FormatAddress(a)
    case List(items) =>
      (match items[0]
       case AddressItem(a) => FormatAddress(a)
       case OtherItem(s) => s)
    case Scalar(s) => s
  }

  /** The `from` mapping for each shape of the field. */
  lemma SenderMapping(f: AddressField)
    requires FieldTruthy(f)
    ensures f.Single? && TruthyOpt(f.address.name) ==>
      SenderString(f) == f.address.name.value + " <" + f.address.email + ">"
    ensures f.Single? && !TruthyOpt(f.address.name) ==> SenderString(f) == f.address.email
    ensures f.List? && f.items[0].AddressItem? ==> SenderString(f) == FormatAddress(f.items[0].address)
    ensures f.List? && f.items[0].OtherItem? ==> SenderString(f) == f.items[0].stringForm
    ensures f.Scalar? ==> SenderString(f) == f.stringForm
  {
  }

  /** What one element of `to`, `cc` or `bcc` contributes: an `Address` its email, anything else its string form. */
  function ItemEmail(item: Item): string {
    match item
    case AddressItem(a) => a.email
    case OtherItem(s) => s
  }

  /** The recipients of a non-empty list, element by element: same length, same order, names dropped. */
  function EmailsOf(items: seq<Item>): (emails: seq<string>)
    ensures |emails| == |items|
    ensures forall i :: 0 <= i < |items| ==>
      emails[i] == if items[i].AddressItem? then items[i].address.email else items[i].stringForm
  {
    seq(|items|, i requires 0 <= i < |items| => ItemEmail(items[i]))
  }

  /** The `foreach` that collects the recipients of `to`, `cc` or `bcc`. */
  method CollectEmails(items: seq<Item>) returns (emails: seq<string>)
    ensures |emails| == |items|
    ensures forall i :: 0 <= i < |items| && items[i].AddressItem? ==>
      emails[i] == items[i].address.email
    ensures forall i :: 0 <= i < |items| && items[i].OtherItem? ==>
      emails[i] == items[i].stringForm
    ensures emails == EmailsOf(items)
  {
    emails := [];
    var i := 0;
    while i < |items|
      invariant 0 <= i <= |items| && |emails| == i
      invariant forall j :: 0 <= j < i ==> emails[j] == ItemEmail(items[j])
    {
      match items[i] {
        case AddressItem(address) => emails := emails + [address.email];
        case OtherItem(s) => emails := emails + [s];
      }
      i := i + 1;
    }
  }

  /** The argument of `replyTo(...)`: only a single `Address` is recognised; an array is cast as PHP casts arrays. */
  function ReplyToString(f: AddressField): (s: string)
    requires FieldTruthy(f)
    ensures f.Single? ==> s == f.address.email
    ensures f.List? ==> s == "Array"
    ensures f.Scalar? ==> s == f.stringForm
  {
    match f
    case Single(a) => a.email
    case List(_) => "Array"
    case Scalar(s) => s
  }

  // ---------------------------------------------------------------------------
  // The calls made on the builder

  function SenderCalls(f: AddressField): (p: seq<Call>)
    ensures Chain(p, 0, 1)
  {
    if FieldTruthy(f) then [From(SenderString(f))] else []
  }

  /** Which of the three recipient lists a `foreach` collects. */
  datatype RecipientList = ToList | CcList | BccList

  function RecipientCall(kind: RecipientList, emails: seq<string>): Call {
    match kind
    case ToList => To(emails)
    case CcList => Cc(emails)
    case BccList => Bcc(emails)
  }

  function RecipientCalls(kind: RecipientList, items: seq<Item>): (p: seq<Call>)
    ensures kind == ToList ==> Chain(p, 1, 2)
    ensures kind == CcList ==> Chain(p, 2, 3)
    ensures kind == BccList ==> Chain(p, 3, 4)
  {
    if |items| > 0 then [RecipientCall(kind, EmailsOf(items))] else []
  }

  function ReplyToCalls(f: AddressField): (p: seq<Call>)
    ensures Chain(p, 4, 5)
  {
    if FieldTruthy(f) then [ReplyTo(ReplyToString(f))] else []
  }

  function SubjectCalls(subject: Option<string>): (p: seq<Call>)
    ensures Chain(p, 5, 6)
  {
    if TruthyOpt(subject) then [Subject(subject.value)] else []
  }

  /** The calls for from, to, cc, bcc, reply-to and subject, in that order; a falsy field makes none. */
  function HeaderCalls(m: Message): seq<Call> {
    SenderCalls(m.sender)
    + RecipientCalls(ToList, m.toList)
    + RecipientCalls(CcList, m.ccList)
    + RecipientCalls(BccList, m.bccList)
    + ReplyToCalls(m.replyTo)
    + SubjectCalls(m.subject)
  }

  /** The calls for the extracted bodies: html, then text, each only when non-null. */
  function BodyCalls(c: ContentExtraction.Content): (p: seq<Call>)
    ensures Chain(p, 6, 8)
  {
    var html := if TruthyOpt(c.html) then [Html(c.html.value)] else [];
    var text := if TruthyOpt(c.text) then [Text(c.text.value)] else [];
    ChainConcat(html, text, 6, 7, 8);
    html + text
  }

  /** The route call, made only for a truthy route. */
  function RouteCalls(route: Option<string>): (p: seq<Call>)
    ensures Chain(p, 8, 9)
  {
    if TruthyOpt(route) then [Route(route.value)] else []
  }

  /** The whole call sequence once the content has been extracted. */
  function DeliveryCalls(m: Message, c: ContentExtraction.Content, route: Option<string>): seq<Call> {
    HeaderCalls(m) + BodyCalls(c) + RouteCalls(route) + [Send]
  }

  /** What the `try` block of `sendMessage` ends with, and the calls it makes. */
  function Delivery(m: Message, config: Config, frames: seq<Frame>, reply: Reply): (r: (Outcome, seq<Call>))
    ensures !r.0.Aborted?
    ensures r.0 == Sent <==> ContentExtraction.Extract(m.body).Success? && reply == Response(true)
    ensures ContentExtraction.Extract(m.body).Failure? ==>
      r == (Failed(ContentExtraction.ContentMissing), HeaderCalls(m))
    ensures ContentExtraction.Extract(m.body).Success? ==> |r.1| > 0 && r.1[|r.1| - 1] == Send
  {
    match ContentExtraction.Extract(m.body)
    case Failure(e) => (Failed(e), HeaderCalls(m))
    case Success(c) =>
      var calls := DeliveryCalls(m, c, ChosenRoute(config, NewsletterCaller(frames)));
      match reply
      case Raised(message) => (Failed(OtherException(message)), calls)
      case Response(truthy) => (if truthy then Sent else Failed(SendFailed), calls)
  }

  /** The `catch`: every exception from the `try` block is rethrown wrapped in one `MailException`. */
  function Wrap(e: Exception): (w: Exception)
    ensures w.MailException? && w.previous == Some(e)
    ensures |WrapPrefix| <= |w.message| && w.message[..|WrapPrefix|] == WrapPrefix
    ensures w.message[|WrapPrefix|..] == e.message
  {
    MailException(WrapPrefix + e.message, Some(e))
  }

  function Caught(o: Outcome): Outcome {
    match o
    case Sent => Sent
    case Failed(e) => Failed(Wrap(e))
    case Aborted => Aborted
  }

  /**
   * `sendMessage` with the attached message, if any. The enabled and token
   * checks do not touch the message; the first statement after the client
   * is built does.
   */
  function SendAttempt(config: Config, encryptor: Encryptor, message: Option<Message>, frames: seq<Frame>, reply: Reply): (a: Attempt)
    ensures a.client.Some? <==> IsEnabled(config) && TruthyOpt(ApiToken(config, encryptor))
    ensures a.client.Some? ==> a.client == ApiToken(config, encryptor)
    ensures a.client.None? ==> a.calls == []
    ensures a.outcome.Aborted? <==> a.client.Some? && message.None?
    ensures message.None? ==> a.calls == []
  {
    if !IsEnabled(config) then Attempt(Failed(TransportDisabled), None, [])
    else
      var token := ApiToken(config, encryptor);
      if !TruthyOpt(token) then Attempt(Failed(TokenUnavailable), None, [])
      else if message.None? then Attempt(Aborted, token, [])
      else
        var d := Delivery(message.value, config, frames, reply);
        Attempt(Caught(d.0), token, d.1)
  }

  // ---------------------------------------------------------------------------
  // Properties of sendMessage

  /** The position of each kind of call in the fixed order `sendMessage` follows. */
  function Rank(c: Call): (k: nat)
    ensures k <= 9
  {
    match c
    case From(_) => 0
    case To(_) => 1
    case Cc(_) => 2
    case Bcc(_) => 3
    case ReplyTo(_) => 4
    case Subject(_) => 5
    case Html(_) => 6
    case Text(_) => 7
    case Route(_) => 8
    case Send => 9
  }

  /** Ranks strictly increase: each kind of call occurs at most once, and in the fixed order. */
  predicate InOrder(calls: seq<Call>) {
    forall i, j :: 0 <= i < j < |calls| ==> Rank(calls[i]) < Rank(calls[j])
  }

  /** Ranks strictly increase along `calls` and stay within `[lo, hi)`. */
  predicate Chain(calls: seq<Call>, lo: nat, hi: nat)
    decreases |calls|
  {
    if calls == [] then lo <= hi
    else lo <= Rank(calls[0]) < hi && Chain(calls[1..], Rank(calls[0]) + 1, hi)
  }

  lemma {:induction false} ChainConcat(a: seq<Call>, b: seq<Call>, lo: nat, mid: nat, hi: nat)
    requires Chain(a, lo, mid) && Chain(b, mid, hi)
    ensures Chain(a + b, lo, hi)
    decreases |a|
  {
    if a == [] {
      assert a + b == b;
    } else {
      assert (a + b)[1..] == a[1..] + b;
      ChainConcat(a[1..], b, Rank(a[0]) + 1, mid, hi);
    }
  }

  lemma {:induction false} ChainInOrder(calls: seq<Call>, lo: nat, hi: nat)
    requires Chain(calls, lo, hi)
    ensures InOrder(calls)
    ensures forall i :: 0 <= i < |calls| ==> lo <= Rank(calls[i]) < hi
    decreases |calls|
  {
    if calls != [] {
      var tail := calls[1..];
      ChainInOrder(tail, Rank(calls[0]) + 1, hi);
      forall i, j | 0 <= i < j < |calls|
        ensures Rank(calls[i]) < Rank(calls[j])
      {
        assert calls[j] == tail[j - 1];
        if i > 0 {
          assert calls[i] == tail[i - 1];
        }
      }
      forall i | 0 <= i < |calls|
        ensures lo <= Rank(calls[i]) < hi
      {
        if i > 0 {
          assert calls[i] == tail[i - 1];
        }
      }
    }
  }

  lemma HeaderCallsChain(m: Message)
    ensures Chain(HeaderCalls(m), 0, 6)
  {
    var p0 := SenderCalls(m.sender);
    var p1 := RecipientCalls(ToList, m.toList);
    var p2 := RecipientCalls(CcList, m.ccList);
    var p3 := RecipientCalls(BccList, m.bccList);
    var p4 := ReplyToCalls(m.replyTo);
    var p5 := SubjectCalls(m.subject);
    ChainConcat(p0, p1, 0, 1, 2);
    ChainConcat(p0 + p1, p2, 0, 2, 3);
    ChainConcat(p0 + p1 + p2, p3, 0, 3, 4);
    ChainConcat(p0 + p1 + p2 + p3, p4, 0, 4, 5);
    ChainConcat(p0 + p1 + p2 + p3 + p4, p5, 0, 5, 6);
  }

  lemma DeliveryCallsChain(m: Message, c: ContentExtraction.Content, route: Option<string>)
    ensures Chain(HeaderCalls(m) + BodyCalls(c), 0, 8)
    ensures Chain(DeliveryCalls(m, c, route), 0, 10)
  {
    HeaderCallsChain(m);
    ChainConcat(HeaderCalls(m), BodyCalls(c), 0, 6, 8);
    ChainConcat(HeaderCalls(m) + BodyCalls(c), RouteCalls(route), 0, 8, 9);
    assert Chain([Send], 9, 10);
    ChainConcat(HeaderCalls(m) + BodyCalls(c) + RouteCalls(route), [Send], 0, 9, 10);
  }

  /** In an ordered sequence, `send` (the highest rank) can only be the last call. */
  lemma SendOnlyLast(calls: seq<Call>)
    requires InOrder(calls)
    ensures Send in calls ==> calls[|calls| - 1] == Send
  {
    if Send in calls {
      var i :| 0 <= i < |calls| && calls[i] == Send;
      assert Rank(calls[i]) <= Rank(calls[|calls| - 1]);
    }
  }

  lemma AttemptCallsChain(config: Config, encryptor: Encryptor, m: Message, frames: seq<Frame>, reply: Reply)
    ensures Chain(SendAttempt(config, encryptor, Some(m), frames, reply).calls, 0, 10)
  {
    var a := SendAttempt(config, encryptor, Some(m), frames, reply);
    if a.client.Some? {
      match ContentExtraction.Extract(m.body)
      case Failure(_) =>
        assert a.calls == HeaderCalls(m) + [];
        HeaderCallsChain(m);
        ChainConcat(HeaderCalls(m), [], 0, 6, 10);
      case Success(c) =>
        DeliveryCallsChain(m, c, ChosenRoute(config, NewsletterCaller(frames)));
    }
  }

  /**
   * Whatever happens, the builder receives from, to, cc, bcc, reply-to,
   * subject, html, text, route and send in this order, each at most once, and
   * `send` only as the last call.
   */
  lemma CallsFollowFixedOrder(config: Config, encryptor: Encryptor, m: Message, frames: seq<Frame>, reply: Reply)
    ensures var a := SendAttempt(config, encryptor, Some(m), frames, reply);
      InOrder(a.calls) && (Send in a.calls ==> a.calls[|a.calls| - 1] == Send)
  {
    var calls := SendAttempt(config, encryptor, Some(m), frames, reply).calls;
    AttemptCallsChain(config, encryptor, m, frames, reply);
    ChainInOrder(calls, 0, 10);
    SendOnlyLast(calls);
  }

  /** With the flag off, `sendMessage` fails first, before any token, client or provider call. */
  lemma DisabledTransportFailsFirst(config: Config, encryptor: Encryptor, message: Option<Message>, frames: seq<Frame>, reply: Reply)
    requires !IsEnabled(config)
    ensures SendAttempt(config, encryptor, message, frames, reply) == Attempt(Failed(TransportDisabled), None, [])
  {
  }

  /**
   * When enabled, a falsy stored token, a token that does not decrypt, or a
   * falsy decrypted token all fail in the same way, before the client is built.
   */
  lemma MissingTokenStopsBeforeClient(config: Config, encryptor: Encryptor, message: Option<Message>, frames: seq<Frame>, reply: Reply)
    requires IsEnabled(config)
    requires
      || !TruthyOpt(GetValue(config, ConfigPathApiToken))
      || Decrypt(encryptor, config[ConfigPathApiToken]).Failure?
      || !Truthy(Decrypt(encryptor, config[ConfigPathApiToken]).value)
    ensures SendAttempt(config, encryptor, message, frames, reply) == Attempt(Failed(TokenUnavailable), None, [])
  {
  }

  /** A message whose body has no content fails, wrapped, and never reaches the provider's `send`. */
  lemma BodylessMessageNeverSent(config: Config, encryptor: Encryptor, m: Message, frames: seq<Frame>, reply: Reply)
    requires ContentExtraction.Extract(m.body).Failure?
    ensures var a := SendAttempt(config, encryptor, Some(m), frames, reply);
      Send !in a.calls && a.outcome.Failed? &&
      (a.client.Some? ==> a.outcome == Failed(Wrap(ContentExtraction.ContentMissing)))
  {
    var a := SendAttempt(config, encryptor, Some(m), frames, reply);
    if a.client.Some? {
      assert a.calls == HeaderCalls(m);
      HeaderCallsChain(m);
      NothingRankedAbove(HeaderCalls(m), 6, Send);
    }
  }

  /**
   * Every failure after the client is built is one `MailException` whose
   * message is the prefix followed by the original message and whose previous
   * exception is the original: the missing content, the falsy response, or
   * the provider's own exception. The failures before it are not wrapped.
   */
  lemma FailuresInsideTryAreWrapped(config: Config, encryptor: Encryptor, message: Option<Message>, frames: seq<Frame>, reply: Reply)
    ensures var a := SendAttempt(config, encryptor, message, frames, reply);
      a.client.Some? && a.outcome.Failed? ==>
        var e := a.outcome.error;
        e.MailException? && e.previous.Some? && e.message == WrapPrefix + e.previous.value.message &&
        (|| e.previous.value == ContentExtraction.ContentMissing
         || e.previous.value == SendFailed
         || (reply.Raised? && e.previous.value == OtherException(reply.message)))
    ensures var a := SendAttempt(config, encryptor, message, frames, reply);
      a.client.None? ==> a.outcome == Failed(TransportDisabled) || a.outcome == Failed(TokenUnavailable)
  {
  }

  /** `sendMessage` succeeds exactly when it is enabled, has a token, finds content and the provider answers truthily. */
  lemma SentIffProviderAccepted(config: Config, encryptor: Encryptor, m: Message, frames: seq<Frame>, reply: Reply)
    ensures var a := SendAttempt(config, encryptor, Some(m), frames, reply);
      a.outcome == Sent <==>
        IsEnabled(config) && TruthyOpt(ApiToken(config, encryptor)) &&
        ContentExtraction.Extract(m.body).Success? && reply == Response(true)
    ensures var a := SendAttempt(config, encryptor, Some(m), frames, reply);
      a.outcome == Sent ==> |a.calls| > 0 && a.calls[|a.calls| - 1] == Send
  {
  }

  /**
   * With no message attached, the enabled and token checks still fail as
   * usual (see the two lemmas above); past them the client is built and the
   * send aborts on the `null` message before any builder call.
   */
  lemma UnattachedMessageAbortsAfterChecks(config: Config, encryptor: Encryptor, frames: seq<Frame>, reply: Reply)
    requires IsEnabled(config) && TruthyOpt(ApiToken(config, encryptor))
    ensures SendAttempt(config, encryptor, None, frames, reply) == Attempt(Aborted, ApiToken(config, encryptor), [])
  {
  }

  /** A sequence ranked below `k` holds no call of rank `k` or more. */
  lemma NothingRankedAbove(calls: seq<Call>, k: nat, c: Call)
    requires Chain(calls, 0, k) && k <= Rank(c)
    ensures c !in calls
  {
    ChainInOrder(calls, 0, k);
  }

  /** A route call can only come from the route step. */
  lemma RouteCallOnlyFromRouteStep(m: Message, c: ContentExtraction.Content, route: Option<string>, r: string)
    ensures Route(r) in DeliveryCalls(m, c, route) <==> Route(r) in RouteCalls(route)
  {
    var before := HeaderCalls(m) + BodyCalls(c);
    DeliveryCallsChain(m, c, route);
    NothingRankedAbove(before, 8, Route(r));
    assert DeliveryCalls(m, c, route) == before + RouteCalls(route) + [Send];
  }

  /**
   * Once the provider is reached, a route call is made exactly when the
   * chosen route is truthy, with that route: the newsletter route for a
   * newsletter caller, the transactional route otherwise.
   */
  lemma RouteFollowsClassification(config: Config, encryptor: Encryptor, m: Message, frames: seq<Frame>, reply: Reply, r: string)
    requires IsEnabled(config) && TruthyOpt(ApiToken(config, encryptor))
    requires ContentExtraction.Extract(m.body).Success?
    ensures var route := if NewsletterCaller(frames) then GetValue(config, ConfigPathNewsletterRoute)
                         else GetValue(config, ConfigPathTransactionalRoute);
      Route(r) in SendAttempt(config, encryptor, Some(m), frames, reply).calls <==> TruthyOpt(route) && r == route.value
  {
    var c := ContentExtraction.Extract(m.body).value;
    var route := ChosenRoute(config, NewsletterCaller(frames));
    assert SendAttempt(config, encryptor, Some(m), frames, reply).calls == DeliveryCalls(m, c, route);
    RouteCallOnlyFromRouteStep(m, c, route, r);
  }

  // ---------------------------------------------------------------------------
  // The transport object

  class Transport {
    /** The attached message; `None` until `setMessage` is called. */
    var message: Option<Message>

    constructor ()
      ensures message == None
    {
      message := None;
    }

    method GetMessage() returns (r: Result<Message>)
      ensures message.None? ==> r == Failure(NoMessageSet)
      ensures message.Some? ==> r == Success(message.value)
    {
      if message.None? {
        return Failure(NoMessageSet);
      }
      r := Success(message.value);
    }

    method SetMessage(m: Message)
      modifies this
      ensures message == Some(m)
    {
      message := Some(m);
    }

    /** `isNewsletterEmail`, with the backtrace given as its frames' class names, innermost first. */
    method IsNewsletterEmail(frames: seq<Frame>) returns (newsletter: bool)
      ensures newsletter <==> message.Some? && NewsletterCaller(frames)
    {
      if message.None? {
        return false;
      }
      var backtrace := if |frames| <= BacktraceLimit then frames else frames[..BacktraceLimit];
      var i := 0;
      while i < |backtrace|
        invariant 0 <= i <= |backtrace|
        invariant forall j :: 0 <= j < i ==> !NewsletterFrame(frames[j])
      {
        var frame := backtrace[i];
        if frame.Some? && Contains(frame.value, NewsletterMarker) {
          assert NewsletterFrame(frames[i]);
          return true;
        }
        i := i + 1;
      }
      return false;
    }

    /** `sendMessage`. */
    method SendMessage(config: Config, encryptor: Encryptor, frames: seq<Frame>, reply: Reply) returns (a: Attempt)
      ensures a == SendAttempt(config, encryptor, message, frames, reply)
    {
      if !IsEnabled(config) {
        return Attempt(Failed(TransportDisabled), None, []);
      }
      var apiToken := ApiToken(config, encryptor);
      if !TruthyOpt(apiToken) {
        return Attempt(Failed(TokenUnavailable), None, []);
      }
      var email := new EmailBuilder(apiToken.value);
      if message.None? {
        return Attempt(Aborted, Some(email.apiToken), []);
      }
      var outcome := TryDeliver(email, config, frames, reply);
      if outcome.Failed? {
        outcome := Failed(Wrap(outcome.error));
      }
      a := Attempt(outcome, Some(email.apiToken), email.calls);
    }

    /** The body of the `try` block, on a fresh builder. */
    method TryDeliver(email: EmailBuilder, config: Config, frames: seq<Frame>, reply: Reply) returns (outcome: Outcome)
      requires message.Some? && email.calls == []
      modifies email
      ensures (outcome, email.calls) == Delivery(message.value, config, frames, reply)
    {
      var m := message.value;
      AddHeaderCalls(email, m);
      assert email.calls == HeaderCalls(m);
      var content := ContentExtraction.ExtractContent(m);
      if content.Failure? {
        return Failed(content.error);
      }
      var c := content.value;
      AddBodies(email, c);
      var newsletter := IsNewsletterEmail(frames);
      var route := if newsletter then NewsletterRoute(config) else TransactionalRoute(config);
      AddRoute(email, route);
      var response := email.SendRequest(reply);
      match response {
        case Raised(message) => outcome := Failed(OtherException(message));
        case Response(truthy) => outcome := if truthy then Sent else Failed(SendFailed);
      }
    }
  }

  /** The from, to, cc, bcc, reply-to and subject steps of `sendMessage`. */
  method AddHeaderCalls(email: EmailBuilder, m: Message)
    modifies email
    ensures email.calls == old(email.calls) + HeaderCalls(m)
  {
    ghost var before := email.calls;
    AddSender(email, m.sender);
    ghost var done := SenderCalls(m.sender);
    AddRecipients(email, ToList, m.toList);
    done := done + RecipientCalls(ToList, m.toList);
    assert email.calls == before + done;
    AddRecipients(email, CcList, m.ccList);
    done := done + RecipientCalls(CcList, m.ccList);
    assert email.calls == before + done;
    AddRecipients(email, BccList, m.bccList);
    done := done + RecipientCalls(BccList, m.bccList);
    assert email.calls == before + done;
    AddReplyTo(email, m.replyTo);
    done := done + ReplyToCalls(m.replyTo);
    assert email.calls == before + done;
    AddSubject(email, m.subject);
    done := done + SubjectCalls(m.subject);
    assert email.calls == before + done;
  }

  method AddSender(email: EmailBuilder, sender: AddressField)
    modifies email
    ensures email.calls == old(email.calls) + SenderCalls(sender)
  {
    if FieldTruthy(sender) {
      email.Add(From(SenderString(sender)));
    }
  }

  method AddRecipients(email: EmailBuilder, kind: RecipientList, items: seq<Item>)
    modifies email
    ensures email.calls == old(email.calls) + RecipientCalls(kind, items)
  {
    if |items| > 0 {
      var emails := CollectEmails(items);
      email.Add(RecipientCall(kind, emails));
    }
  }

  method AddReplyTo(email: EmailBuilder, replyTo: AddressField)
    modifies email
    ensures email.calls == old(email.calls) + ReplyToCalls(replyTo)
  {
    if FieldTruthy(replyTo) {
      email.Add(ReplyTo(ReplyToString(replyTo)));
    }
  }

  method AddSubject(email: EmailBuilder, subject: Option<string>)
    modifies email
    ensures email.calls == old(email.calls) + SubjectCalls(subject)
  {
    if TruthyOpt(subject) {
      email.Add(Subject(subject.value));
    }
  }

  /** The html and text steps of `sendMessage`. */
  method AddBodies(email: EmailBuilder, c: ContentExtraction.Content)
    modifies email
    ensures email.calls == old(email.calls) + BodyCalls(c)
  {
    if TruthyOpt(c.html) {
      email.Add(Html(c.html.value));
    }
    if TruthyOpt(c.text) {
      email.Add(Text(c.text.value));
    }
  }

  method AddRoute(email: EmailBuilder, route: Option<string>)
    modifies email
    ensures email.calls == old(email.calls) + RouteCalls(route)
  {
    if TruthyOpt(route) {
      email.Add(Route(route.value));
    }
  }
}
