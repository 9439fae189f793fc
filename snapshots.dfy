/** The records the gateway returns for a status poll (`.providersStatus`)
    and for a configuration read (`.configGet`). Timestamps and durations,
    which the gateway sends as floating-point milliseconds, are integers of
    milliseconds here. */
module Snapshots {
  import opened Wrappers
  import opened Json

  /** The linked WhatsApp account (`self` on the wire). */
  datatype WhatsAppSelf = WhatsAppSelf(e164: Option<string>, jid: Option<string>)

  datatype WhatsAppDisconnect = WhatsAppDisconnect(
    at: int,
    status: Option<int>,
    error: Option<string>,
    loggedOut: Option<bool>)

  datatype WhatsAppStatus = WhatsAppStatus(
    configured: bool,
    linked: bool,
    authAgeMs: Option<int>,
    selfIdentity: Option<WhatsAppSelf>,
    running: bool,
    connected: bool,
    lastConnectedAt: Option<int>,
    lastDisconnect: Option<WhatsAppDisconnect>,
    reconnectAttempts: int,
    lastMessageAt: Option<int>,
    lastEventAt: Option<int>,
    lastError: Option<string>)

  datatype TelegramBot = TelegramBot(id: Option<int>, username: Option<string>)

  datatype TelegramWebhook = TelegramWebhook(url: Option<string>, hasCustomCert: Option<bool>)

  datatype TelegramProbe = TelegramProbe(
    ok: bool,
    status: Option<int>,
    error: Option<string>,
    elapsedMs: Option<int>,
    bot: Option<TelegramBot>,
    webhook: Option<TelegramWebhook>)

  datatype TelegramStatus = TelegramStatus(
    configured: bool,
    tokenSource: Option<string>,
    running: bool,
    mode: Option<string>,
    lastStartAt: Option<int>,
    lastStopAt: Option<int>,
    lastError: Option<string>,
    probe: Option<TelegramProbe>,
    lastProbeAt: Option<int>)

  /** One status poll's answer; replaced wholesale by the next successful poll. */
  datatype ProvidersStatusSnapshot = ProvidersStatusSnapshot(
    ts: int,
    whatsapp: WhatsAppStatus,
    telegram: TelegramStatus)

  datatype ConfigIssue = ConfigIssue(path: string, message: string)

  /** The answer to a configuration read. */
  datatype ConfigSnapshot = ConfigSnapshot(
    path: Option<string>,
    fileExists: Option<bool>,  // `exists` on the wire
    raw: Option<string>,
    parsed: Option<Value>,
    valid: Option<bool>,
    config: Option<Object>,
    issues: Option<seq<ConfigIssue>>)
}
