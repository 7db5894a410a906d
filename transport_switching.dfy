/**
 * `Lettermint\Email\Plugin\TransportSwitcher`: an around-plugin on the host's
 * transport factory that hands out the one Lettermint transport, with the
 * message attached, instead of the default transport.
 */
module TransportSwitching {
  import opened Php
  import opened Magento
  import LettermintSdk
  import LettermintTransport

  const ConfigPathEnabled := "lettermint_email/general/enabled"

  /** The factory's `$data` argument; only its 'message' entry is read here. */
  type FactoryData = map<string, Option<Message>>

  /** `$data['message'] ?? null`. */
  function MessageArgument(data: Option<FactoryData>): (m: Option<Message>)
    ensures m.Some? ==> data.Some? && "message" in data.value && data.value["message"] == m
    ensures data.Some? && "message" in data.value ==> m == data.value["message"]
  {
    if data.Some? && "message" in data.value then data.value["message"] else None
  }

  /** What `create` returns: the default factory's `proceed($data)`, or the Lettermint transport. */
  datatype Created = Proceeded(data: Option<FactoryData>) | Substituted(transport: LettermintTransport.Transport)

  /** The switcher's `isEnabled`: it reads the same flag as the transport's own check. */
  function IsEnabled(config: Config): (enabled: bool)
    ensures enabled <==> LettermintTransport.IsEnabled(config)
  {
    IsSetFlag(config, ConfigPathEnabled)
  }

  class TransportSwitcher {
    /** The single transport instance every substituted `create` returns. */
    const lettermintTransport: LettermintTransport.Transport

    constructor (lettermintTransport: LettermintTransport.Transport)
      ensures this.lettermintTransport == lettermintTransport
    {
      this.lettermintTransport := lettermintTransport;
    }

    /** `aroundCreate($subject, $proceed, $data)`. */
    method AroundCreate(config: Config, data: Option<FactoryData>) returns (created: Created)
      modifies lettermintTransport
      ensures !IsEnabled(config) ==>
        created == Proceeded(data) && lettermintTransport.message == old(lettermintTransport.message)
      ensures IsEnabled(config) && MessageArgument(data).Some? ==>
        created == Substituted(lettermintTransport) && lettermintTransport.message == MessageArgument(data)
      ensures IsEnabled(config) && MessageArgument(data).None? ==>
        created == Proceeded(data) && lettermintTransport.message == old(lettermintTransport.message)
      ensures created.Substituted? ==>
        LettermintTransport.IsEnabled(config) && created.transport.message.Some?
    {
      if !IsEnabled(config) {
        return Proceeded(data);
      }
      var message := MessageArgument(data);
      if message.Some? {
        lettermintTransport.SetMessage(message.value);
        return Substituted(lettermintTransport);
      }
      return Proceeded(data);
    }
  }

  /**
   * The transport is shared: after two substituted `create` calls, both
   * return the same instance and it holds only the later message.
   */
  method LaterCreateReplacesMessage(switcher: TransportSwitcher, config: Config, first: Message, second: Message)
    returns (r1: Created, r2: Created, got: Result<Message>)
    requires IsEnabled(config)
    modifies switcher.lettermintTransport
    ensures r1 == r2 == Substituted(switcher.lettermintTransport)
    ensures got == Success(second)
  {
    r1 := switcher.AroundCreate(config, Some(map["message" := Some(first)]));
    r2 := switcher.AroundCreate(config, Some(map["message" := Some(second)]));
    got := r2.transport.GetMessage();
  }

  /**
   * Under the same configuration, a transport the switcher returns has a
   * message, so `getMessage` does not throw, and `sendMessage` gets past
   * its enabled check.
   */
  method SubstitutedTransportIsReady(
    switcher: TransportSwitcher, config: Config, encryptor: Encryptor, data: Option<FactoryData>,
    frames: seq<LettermintTransport.Frame>, reply: LettermintSdk.Reply)
    returns (created: Created, got: Option<Result<Message>>, attempt: Option<LettermintTransport.Attempt>)
    modifies switcher.lettermintTransport
    ensures created.Substituted? ==>
      got.Some? && got.value.Success? &&
      attempt.Some? && attempt.value.outcome != LettermintTransport.Failed(LettermintTransport.TransportDisabled)
  {
    created := switcher.AroundCreate(config, data);
    got, attempt := None, None;
    if created.Substituted? {
      var message := created.transport.GetMessage();
      var sent := created.transport.SendMessage(config, encryptor, frames, reply);
      got, attempt := Some(message), Some(sent);
    }
  }
}
