/** The connections store of the macOS client: the last status poll, the
    WhatsApp QR-login exchange, the Telegram form fields and the loaded
    configuration document.

    Every gateway call is an outcome the caller supplies (`Reply`), the
    clock is a `now` parameter in milliseconds, and the requests the store
    issues are recorded in `sent`. A call runs to completion before the
    next one starts; a busy flag found already set stands for a call that
    is still in flight, and the guarded call then does nothing. */
module Store {
  import opened Wrappers
  import opened Json
  import opened Snapshots
  import opened TelegramConfig

  /** The gateway methods the store calls. */
  datatype Method = ProvidersStatus | WebLoginStart | WebLoginWait | WebLogout
                  | TelegramLogout | ConfigGet | ConfigSet

  /** One request as handed to the gateway connection: the method, its
      parameters and the transport timeout in milliseconds. */
  datatype Request = Request(call: Method, params: Option<Object>, timeoutMs: int)

  datatype LoginStartResult = LoginStartResult(qrDataUrl: Option<string>, message: string)
  datatype LoginWaitResult = LoginWaitResult(connected: bool, message: string)
  datatype WhatsAppLogoutResult = WhatsAppLogoutResult(cleared: bool)
  datatype TelegramLogoutResult = TelegramLogoutResult(cleared: bool, envToken: Option<bool>)

  /** The outcome of serialising the root: the UTF-8 text, an error thrown
      by the serialiser, or bytes that are not UTF-8. */
  datatype SerializeResult = Serialized(raw: string) | SerializeFailed(message: string) | NotUtf8

  const StatusPollTimeoutMs := 8000
  const LoginStartTimeoutMs := 30000

  function StatusRequest(probe: bool): Request {
    Request(ProvidersStatus, Some(map["probe" := JBool(probe), "timeoutMs" := JInt(StatusPollTimeoutMs)]), 12000)
  }

  function LoginStartRequest(force: bool): Request {
    Request(WebLoginStart, Some(map["force" := JBool(force), "timeoutMs" := JInt(LoginStartTimeoutMs)]), 35000)
  }

  function LoginWaitRequest(timeoutMs: int): Request {
    Request(WebLoginWait, Some(map["timeoutMs" := JInt(timeoutMs)]), timeoutMs + 5000)
  }

  const WhatsAppLogoutRequest := Request(WebLogout, None, 15000)
  const TelegramLogoutRequest := Request(TelegramLogout, None, 15000)
  const ConfigGetRequest := Request(ConfigGet, None, 10000)

  function ConfigSetRequest(raw: string): Request {
    Request(ConfigSet, Some(map["raw" := JString(raw)]), 10000)
  }

  const ConfigInvalidText := "Config invalid; fix it in ~/.clawdis/clawdis.json."
  const SavedText := "Saved to ~/.clawdis/clawdis.json."
  const EncodeFailedText := "Failed to encode config."
  const WhatsAppClearedText := "Logged out and cleared credentials."
  const WhatsAppNoSessionText := "No WhatsApp session found."
  const TelegramEnvTokenText := "Telegram token still set via env; config cleared."
  const TelegramClearedText := "Telegram token cleared."
  const TelegramNoTokenText := "No Telegram token configured."

  /** The result of the last status poll. */
  datatype StatusState = StatusState(
    snapshot: Option<ProvidersStatusSnapshot>,
    lastError: Option<string>,
    lastSuccess: Option<int>)

  /** The QR-login exchange as the settings pane shows it. */
  datatype LoginState = LoginState(
    message: Option<string>,
    qrDataUrl: Option<string>,
    connected: Option<bool>)

  /** The configuration document as last loaded, and the status line. */
  datatype ConfigState = ConfigState(
    status: Option<string>,
    root: Object,
    loaded: bool)

  /** Everything the store holds, as one value. */
  datatype StoreState = StoreState(
    status: StatusState,
    isRefreshing: bool,
    login: LoginState,
    whatsappBusy: bool,
    form: TelegramForm,
    telegramBusy: bool,
    config: ConfigState,
    isSavingConfig: bool,
    polling: bool,
    sent: seq<Request>)

  const Initial := StoreState(
    StatusState(None, None, None), false,
    LoginState(None, None, None), false,
    DefaultForm, false,
    ConfigState(None, map[], false), false,
    false, [])

  /** A status poll's effect on the status fields: a success replaces the
      snapshot wholesale and clears the error, a failure keeps the snapshot
      and records the error. */
  function Refreshed(s: StatusState, now: int, reply: Reply<ProvidersStatusSnapshot>): (r: StatusState)
    ensures reply.Ok? ==> r.snapshot == Some(reply.value) && r.lastError.None? && r.lastSuccess == Some(now)
    ensures reply.Failed? ==> r.snapshot == s.snapshot && r.lastSuccess == s.lastSuccess
    ensures reply.Failed? ==> r.lastError == Some(reply.message)
  {
    match reply
    case Ok(snap) => StatusState(Some(snap), None, Some(now))
    case Failed(message) => s.(lastError := Some(message))
  }

  /** `refresh(probe:)`. */
  function RefreshStep(s: StoreState, probe: bool, now: int, reply: Reply<ProvidersStatusSnapshot>): StoreState
  {
    if s.isRefreshing then s
    else s.(status := Refreshed(s.status, now, reply), sent := s.sent + [StatusRequest(probe)])
  }

  /** The login fields after `.webLoginStart` answers: the new message and
      QR code, or the error text with no QR code; connected is unknown
      either way. */
  function LoginStarted(reply: Reply<LoginStartResult>): (r: LoginState)
    ensures r.connected.None? && r.message.Some?
    ensures reply.Ok? ==> r.message == Some(reply.value.message) && r.qrDataUrl == reply.value.qrDataUrl
    ensures reply.Failed? ==> r.message == Some(reply.message) && r.qrDataUrl.None?
  {
    match reply
    case Ok(result) => LoginState(Some(result.message), result.qrDataUrl, None)
    case Failed(message) => LoginState(Some(message), None, None)
  }

  /** The login fields after `.webLoginWait` answers: a connected session
      drops the QR code, a pending one keeps it, a failure only changes the
      message. */
  function LoginWaited(l: LoginState, reply: Reply<LoginWaitResult>): (r: LoginState)
    ensures r.message.Some?
    ensures reply.Ok? ==> r.message == Some(reply.value.message) && r.connected == Some(reply.value.connected)
    ensures reply.Ok? && reply.value.connected ==> r.qrDataUrl.None?
    ensures reply.Ok? && !reply.value.connected ==> r.qrDataUrl == l.qrDataUrl
    ensures reply.Failed? ==> r == l.(message := Some(reply.message))
  {
    match reply
    case Ok(result) =>
      LoginState(Some(result.message), if result.connected then None else l.qrDataUrl, Some(result.connected))
    case Failed(message) => l.(message := Some(message))
  }

  /** The login fields after `.webLogout` answers: the message says whether
      a session was cleared and the QR code is dropped; a failure only
      changes the message. */
  function LoggedOutWhatsApp(l: LoginState, reply: Reply<WhatsAppLogoutResult>): (r: LoginState)
    ensures r.message.Some? && r.connected == l.connected
    ensures reply.Ok? ==> r.qrDataUrl.None?
    ensures reply.Ok? ==> (r.message == Some(WhatsAppClearedText) <==> reply.value.cleared)
    ensures reply.Ok? ==> (r.message == Some(WhatsAppNoSessionText) <==> !reply.value.cleared)
    ensures reply.Failed? ==> r == l.(message := Some(reply.message))
  {
    match reply
    case Ok(result) =>
      l.(message := Some(if result.cleared then WhatsAppClearedText else WhatsAppNoSessionText), qrDataUrl := None)
    case Failed(message) => l.(message := Some(message))
  }

  /** `startWhatsAppLogin(force:)`: the login request, then a probing poll. */
  function StartLoginStep(s: StoreState, force: bool, reply: Reply<LoginStartResult>,
                          now: int, statusReply: Reply<ProvidersStatusSnapshot>): StoreState
  {
    if s.whatsappBusy then s
    else
      RefreshStep(s.(sent := s.sent + [LoginStartRequest(force)], login := LoginStarted(reply)), true, now, statusReply)
  }

  /** `waitWhatsAppLogin(timeoutMs:)`: the wait request, whose transport
      timeout is five seconds longer than the wait itself, then a probing
      poll. */
  function WaitLoginStep(s: StoreState, timeoutMs: int, reply: Reply<LoginWaitResult>,
                         now: int, statusReply: Reply<ProvidersStatusSnapshot>): StoreState
  {
    if s.whatsappBusy then s
    else
      RefreshStep(s.(sent := s.sent + [LoginWaitRequest(timeoutMs)], login := LoginWaited(s.login, reply)), true, now, statusReply)
  }

  /** `logoutWhatsApp()`: the logout request, then a probing poll. */
  function LogoutWhatsAppStep(s: StoreState, reply: Reply<WhatsAppLogoutResult>,
                              now: int, statusReply: Reply<ProvidersStatusSnapshot>): StoreState
  {
    if s.whatsappBusy then s
    else
      RefreshStep(s.(sent := s.sent + [WhatsAppLogoutRequest], login := LoggedOutWhatsApp(s.login, reply)), true, now, statusReply)
  }

  /** The advisory line a successful load shows: only for a document the
      gateway reports as invalid. */
  function LoadedStatus(snap: ConfigSnapshot): (r: Option<string>)
    ensures r.Some? <==> snap.valid == Some(false)
    ensures r.Some? ==> r.value == ConfigInvalidText
  {
    if snap.valid == Some(false) then Some(ConfigInvalidText) else None
  }

  /** `loadConfig()`: a success replaces the root, marks it loaded and
      refills the form from its Telegram section; a failure only sets the
      status line. */
  function LoadStep(s: StoreState, reply: Reply<ConfigSnapshot>): StoreState
  {
    var s1 := s.(sent := s.sent + [ConfigGetRequest]);
    match reply
    case Ok(snap) =>
      s1.(config := ConfigState(LoadedStatus(snap), snap.config.GetOr(map[]), true), form := ProjectForm(snap.config))
    case Failed(message) => s1.(config := s1.config.(status := Some(message)))
  }

  /** The status line `logoutTelegram()` sets first: a token that still
      comes from the environment wins over whether the config was cleared. */
  function TelegramLogoutText(result: TelegramLogoutResult): (r: string)
    ensures result.envToken == Some(true) ==> r == TelegramEnvTokenText
    ensures result.envToken != Some(true) && result.cleared ==> r == TelegramClearedText
    ensures result.envToken != Some(true) && !result.cleared ==> r == TelegramNoTokenText
  {
    if result.envToken == Some(true) then TelegramEnvTokenText
    else if result.cleared then TelegramClearedText
    else TelegramNoTokenText
  }

  /** The config fields once `.telegramLogout` has answered: after a
      success the status line is set and the config reloaded. */
  function LogoutTelegramAnswered(s: StoreState, reply: Reply<TelegramLogoutResult>,
                                  loadReply: Reply<ConfigSnapshot>): StoreState {
    match reply
    case Ok(result) => LoadStep(s.(config := s.config.(status := Some(TelegramLogoutText(result)))), loadReply)
    case Failed(message) => s.(config := s.config.(status := Some(message)))
  }

  /** `logoutTelegram()`: the logout request, its answer, then a probing poll. */
  function LogoutTelegramStep(s: StoreState, reply: Reply<TelegramLogoutResult>, loadReply: Reply<ConfigSnapshot>,
                              now: int, statusReply: Reply<ProvidersStatusSnapshot>): StoreState
  {
    if s.telegramBusy then s
    else
      var s1 := s.(sent := s.sent + [TelegramLogoutRequest]);
      RefreshStep(LogoutTelegramAnswered(s1, reply, loadReply), true, now, statusReply)
  }

  /** The part of `saveTelegramConfig()` after the merge: serialise the root
      and write it; a written config is followed by a probing poll. */
  function WriteStep(s: StoreState, serialized: SerializeResult, setReply: Reply<()>,
                     now: int, statusReply: Reply<ProvidersStatusSnapshot>): StoreState
  {
    match serialized
    case NotUtf8 => s.(config := s.config.(status := Some(EncodeFailedText)))
    case SerializeFailed(message) => s.(config := s.config.(status := Some(message)))
    case Serialized(raw) =>
      var s1 := s.(sent := s.sent + [ConfigSetRequest(raw)]);
      match setReply
      case Ok(_) =>
        var s2 := RefreshStep(s1.(config := s1.config.(status := Some(SavedText))), true, now, statusReply);
        s2
      case Failed(message) => s1.(config := s1.config.(status := Some(message)))
  }

  /** The state the save merges into: loaded first when nothing was loaded yet. */
  function SaveLoaded(s: StoreState, loadReply: Reply<ConfigSnapshot>): StoreState {
    if s.config.loaded then s else LoadStep(s, loadReply)
  }

  /** The form merged into the root's Telegram section. */
  function FormMerged(s: StoreState): StoreState {
    s.(config := s.config.(root := SavedRoot(s.config.root, s.form)))
  }

  /** `saveTelegramConfig()`: load first when nothing was loaded yet, merge
      the form into the root, then write it. */
  function SaveStep(s: StoreState, loadReply: Reply<ConfigSnapshot>, serialize: Object -> SerializeResult,
                    setReply: Reply<()>, now: int, statusReply: Reply<ProvidersStatusSnapshot>): StoreState
  {
    if s.isSavingConfig then s
    else
      var s3 := FormMerged(SaveLoaded(s, loadReply));
      WriteStep(s3, serialize(s3.config.root), setReply, now, statusReply)
  }

  /** `start()`: a preview never polls, and a running poll is not started twice. */
  function StartStep(s: StoreState, isPreview: bool): StoreState
  {
    if isPreview || s.polling then s else s.(polling := true)
  }

  /** `stop()`. */
  function StopStep(s: StoreState): StoreState
  {
    s.(polling := false)
  }

  lemma RefreshSpec(s: StoreState, probe: bool, now: int, reply: Reply<ProvidersStatusSnapshot>)
    ensures var r := RefreshStep(s, probe, now, reply);
      && (s.isRefreshing ==> r == s)
      && (!s.isRefreshing ==> !r.isRefreshing && r.sent == s.sent + [StatusRequest(probe)])
      && (!s.isRefreshing ==> r.status == Refreshed(s.status, now, reply))
      && (r.login == s.login && r.form == s.form && r.config == s.config && r.polling == s.polling)
      && (r.whatsappBusy == s.whatsappBusy && r.telegramBusy == s.telegramBusy && r.isSavingConfig == s.isSavingConfig)
  {
  }

  lemma StartLoginSpec(s: StoreState, force: bool, reply: Reply<LoginStartResult>,
                          now: int, statusReply: Reply<ProvidersStatusSnapshot>)
    ensures var r := StartLoginStep(s, force, reply, now, statusReply);
      && (s.whatsappBusy ==> r == s)
      && (!s.whatsappBusy ==> !r.whatsappBusy && r.login == LoginStarted(reply))
      && (!s.whatsappBusy ==> |r.sent| > |s.sent| && r.sent[..|s.sent| + 1] == s.sent + [LoginStartRequest(force)])
      && (!s.whatsappBusy ==> r.sent == s.sent + [LoginStartRequest(force)] + (if s.isRefreshing then [] else [StatusRequest(true)]))
      && (!s.whatsappBusy ==> r.status == RefreshStep(s, true, now, statusReply).status)
      && (r.form == s.form && r.config == s.config && r.isRefreshing == s.isRefreshing)
  {
  }

  lemma WaitLoginSpec(s: StoreState, timeoutMs: int, reply: Reply<LoginWaitResult>,
                         now: int, statusReply: Reply<ProvidersStatusSnapshot>)
    ensures var r := WaitLoginStep(s, timeoutMs, reply, now, statusReply);
      && (s.whatsappBusy ==> r == s)
      && (!s.whatsappBusy ==> !r.whatsappBusy && r.login == LoginWaited(s.login, reply))
      && (!s.whatsappBusy ==> |r.sent| > |s.sent| && r.sent[|s.sent|] == LoginWaitRequest(timeoutMs))
      && (!s.whatsappBusy ==> r.sent[|s.sent|].timeoutMs == timeoutMs + 5000)
      && (!s.whatsappBusy ==> r.sent == s.sent + [LoginWaitRequest(timeoutMs)] + (if s.isRefreshing then [] else [StatusRequest(true)]))
      && (!s.whatsappBusy ==> r.status == RefreshStep(s, true, now, statusReply).status)
      && (r.form == s.form && r.config == s.config && r.isRefreshing == s.isRefreshing)
  {
  }

  lemma LogoutWhatsAppSpec(s: StoreState, reply: Reply<WhatsAppLogoutResult>,
                              now: int, statusReply: Reply<ProvidersStatusSnapshot>)
    ensures var r := LogoutWhatsAppStep(s, reply, now, statusReply);
      && (s.whatsappBusy ==> r == s)
      && (!s.whatsappBusy ==> !r.whatsappBusy && r.login == LoggedOutWhatsApp(s.login, reply))
      && (!s.whatsappBusy ==> |r.sent| > |s.sent| && r.sent[|s.sent|] == WhatsAppLogoutRequest)
      && (!s.whatsappBusy ==> r.sent == s.sent + [WhatsAppLogoutRequest] + (if s.isRefreshing then [] else [StatusRequest(true)]))
      && (!s.whatsappBusy ==> r.status == RefreshStep(s, true, now, statusReply).status)
      && (r.form == s.form && r.config == s.config && r.isRefreshing == s.isRefreshing)
  {
  }

  /** A load adds one `.configGet` request and touches only the config and
      the form. */
  lemma LoadSpec(s: StoreState, reply: Reply<ConfigSnapshot>)
    ensures var r := LoadStep(s, reply);
      && r.sent == s.sent + [ConfigGetRequest]
      && r == s.(sent := r.sent, config := r.config, form := r.form)
  {
    match reply {
      case Ok(snap) =>
      case Failed(message) =>
    }
  }

  /** A successful load replaces the root (an absent config reads as the
      empty document), marks it loaded and refills the form from it. */
  lemma LoadOkSpec(s: StoreState, snap: ConfigSnapshot)
    ensures var r := LoadStep(s, Ok(snap));
      && r.config == ConfigState(LoadedStatus(snap), snap.config.GetOr(map[]), true)
      && r.form == ProjectForm(snap.config)
  {
  }

  /** A failed load only shows the error: root, loaded flag and form stay. */
  lemma LoadFailedSpec(s: StoreState, message: string)
    ensures var r := LoadStep(s, Failed(message));
      r.config == s.config.(status := Some(message)) && r.form == s.form
  {
  }

  lemma LogoutTelegramSpec(s: StoreState, reply: Reply<TelegramLogoutResult>, loadReply: Reply<ConfigSnapshot>,
                              now: int, statusReply: Reply<ProvidersStatusSnapshot>)
    ensures var r := LogoutTelegramStep(s, reply, loadReply, now, statusReply);
      && (s.telegramBusy ==> r == s)
      && (!s.telegramBusy ==> !r.telegramBusy && r.login == s.login)
      && (!s.telegramBusy ==> |r.sent| > |s.sent| && r.sent[|s.sent|] == TelegramLogoutRequest)
      && (!s.telegramBusy ==> r.sent == s.sent + [TelegramLogoutRequest] + (if reply.Ok? then [ConfigGetRequest] else []) + (if s.isRefreshing then [] else [StatusRequest(true)]))
      && (!s.telegramBusy && reply.Failed? ==> r.config == s.config.(status := Some(reply.message)) && r.form == s.form)
      && (!s.telegramBusy && reply.Ok? ==> r.config == LoadStep(s.(config := s.config.(status := Some(TelegramLogoutText(reply.value)))), loadReply).config)
  {
    if !s.telegramBusy {
      var s1 := s.(sent := s.sent + [TelegramLogoutRequest]);
      var answered := LogoutTelegramAnswered(s1, reply, loadReply);
      if reply.Ok? {
        LoadSpec(s1.(config := s1.config.(status := Some(TelegramLogoutText(reply.value)))), loadReply);
      }
      assert answered.sent == s1.sent + (if reply.Ok? then [ConfigGetRequest] else []);
      RefreshSpec(answered, true, now, statusReply);
    }
  }

  lemma WriteSpec(s: StoreState, serialized: SerializeResult, setReply: Reply<()>,
                     now: int, statusReply: Reply<ProvidersStatusSnapshot>)
    ensures var r := WriteStep(s, serialized, setReply, now, statusReply);
      && (serialized.NotUtf8? ==> r == s.(config := s.config.(status := Some(EncodeFailedText))))
      && (serialized.SerializeFailed? ==> r == s.(config := s.config.(status := Some(serialized.message))))
      && (serialized.Serialized? ==> |r.sent| > |s.sent| && r.sent[|s.sent|] == ConfigSetRequest(serialized.raw))
      && (serialized.Serialized? && setReply.Ok? ==> r.config == s.config.(status := Some(SavedText)))
      && (serialized.Serialized? && setReply.Ok? ==> r.status == RefreshStep(s, true, now, statusReply).status)
      && (serialized.Serialized? && setReply.Ok? ==> r.sent == s.sent + [ConfigSetRequest(serialized.raw)] + (if s.isRefreshing then [] else [StatusRequest(true)]))
      && (serialized.Serialized? && setReply.Failed? ==> r == s.(sent := s.sent + [ConfigSetRequest(serialized.raw)], config := s.config.(status := Some(setReply.message))))
      && (r.form == s.form && r.login == s.login && r.config.root == s.config.root && r.config.loaded == s.config.loaded)
      && (r.isSavingConfig == s.isSavingConfig && r.whatsappBusy == s.whatsappBusy && r.telegramBusy == s.telegramBusy)
  {
  }

  /** A save already under way is not started again. */
  lemma SaveGuard(s: StoreState, loadReply: Reply<ConfigSnapshot>, serialize: Object -> SerializeResult,
                  setReply: Reply<()>, now: int, statusReply: Reply<ProvidersStatusSnapshot>)
    requires s.isSavingConfig
    ensures SaveStep(s, loadReply, serialize, setReply, now, statusReply) == s
  {
  }

  /** A save leaves the root it loaded (or already held) with the form
      merged into its Telegram section, whatever the write's outcome, and
      leaves the form and the login alone. */
  lemma SaveSpec(s: StoreState, loadReply: Reply<ConfigSnapshot>, serialize: Object -> SerializeResult,
                 setReply: Reply<()>, now: int, statusReply: Reply<ProvidersStatusSnapshot>)
    requires !s.isSavingConfig
    ensures var loaded := SaveLoaded(s, loadReply);
      var r := SaveStep(s, loadReply, serialize, setReply, now, statusReply);
      && r.config.root == MergedRoot(loaded.config.root, loaded.form)
      && r.form == loaded.form && r.login == s.login
  {
    var merged := FormMerged(SaveLoaded(s, loadReply));
    WriteSpec(merged, serialize(merged.config.root), setReply, now, statusReply);
  }

  lemma StartSpec(s: StoreState, isPreview: bool)
    ensures var r := StartStep(s, isPreview);
      && (isPreview || s.polling ==> r == s)
      && (r.polling == (s.polling || !isPreview))
      && (r == s.(polling := r.polling))
  {
  }

  lemma StopSpec(s: StoreState)
    ensures var r := StopStep(s);
      && (!r.polling && r == s.(polling := false))
  {
  }

  /** Every call the store answers, with the outcomes of the gateway calls
      it makes. */
  datatype Op =
    | RefreshOp(probe: bool, now: int, reply: Reply<ProvidersStatusSnapshot>)
    | StartLoginOp(force: bool, startReply: Reply<LoginStartResult>, now: int, statusReply: Reply<ProvidersStatusSnapshot>)
    | WaitLoginOp(timeoutMs: int, waitReply: Reply<LoginWaitResult>, now: int, statusReply: Reply<ProvidersStatusSnapshot>)
    | LogoutWhatsAppOp(logoutReply: Reply<WhatsAppLogoutResult>, now: int, statusReply: Reply<ProvidersStatusSnapshot>)
    | LogoutTelegramOp(telegramReply: Reply<TelegramLogoutResult>, loadReply: Reply<ConfigSnapshot>,
                       now: int, statusReply: Reply<ProvidersStatusSnapshot>)
    | LoadConfigOp(configReply: Reply<ConfigSnapshot>)
    | SaveConfigOp(loadReply: Reply<ConfigSnapshot>, serialize: Object -> SerializeResult, setReply: Reply<()>,
                   now: int, statusReply: Reply<ProvidersStatusSnapshot>)
    | EditFormOp(form: TelegramForm)
    | StartOp(isPreview: bool)
    | StopOp

  /** The store after one call; editing the form stands for the settings
      pane writing the bound text fields. */
  function Apply(s: StoreState, op: Op): StoreState {
    match op
    case RefreshOp(probe, now, reply) => RefreshStep(s, probe, now, reply)
    case StartLoginOp(force, reply, now, statusReply) => StartLoginStep(s, force, reply, now, statusReply)
    case WaitLoginOp(timeoutMs, reply, now, statusReply) => WaitLoginStep(s, timeoutMs, reply, now, statusReply)
    case LogoutWhatsAppOp(reply, now, statusReply) => LogoutWhatsAppStep(s, reply, now, statusReply)
    case LogoutTelegramOp(reply, loadReply, now, statusReply) => LogoutTelegramStep(s, reply, loadReply, now, statusReply)
    case LoadConfigOp(reply) => LoadStep(s, reply)
    case SaveConfigOp(loadReply, serialize, setReply, now, statusReply) =>
      SaveStep(s, loadReply, serialize, setReply, now, statusReply)
    case EditFormOp(form) => s.(form := form)
    case StartOp(isPreview) => StartStep(s, isPreview)
    case StopOp => StopStep(s)
  }

  function Run(s: StoreState, ops: seq<Op>): StoreState
    decreases |ops|
  {
    if ops == [] then s else Run(Apply(s, ops[0]), ops[1..])
  }

  /** No call is in flight. */
  predicate Idle(s: StoreState) {
    !s.isRefreshing && !s.whatsappBusy && !s.telegramBusy && !s.isSavingConfig
  }

  /** A snapshot is held exactly when some poll has succeeded. */
  predicate StatusConsistent(st: StatusState) {
    st.snapshot.Some? <==> st.lastSuccess.Some?
  }

  /** A connected session never shows a QR code. */
  predicate LoginConsistent(l: LoginState) {
    l.connected == Some(true) ==> l.qrDataUrl.None?
  }

  /** A root that was never loaded holds at most the Telegram section a
      save wrote into it. */
  predicate ConfigConsistent(c: ConfigState) {
    !c.loaded ==> c.root.Keys <= {"telegram"}
  }

  predicate Consistent(s: StoreState) {
    StatusConsistent(s.status) && LoginConsistent(s.login) && ConfigConsistent(s.config)
  }

  lemma RefreshedConsistent(st: StatusState, now: int, reply: Reply<ProvidersStatusSnapshot>)
    requires StatusConsistent(st)
    ensures StatusConsistent(Refreshed(st, now, reply))
  {
  }

  /** A failed poll never loses a snapshot, and a held snapshot is only ever
      replaced by a newer answer. */
  lemma RefreshKeepsSnapshot(st: StatusState, now: int, reply: Reply<ProvidersStatusSnapshot>)
    ensures st.snapshot.Some? ==> Refreshed(st, now, reply).snapshot.Some?
    ensures Refreshed(st, now, reply).snapshot in {st.snapshot} + (if reply.Ok? then {Some(reply.value)} else {})
  {
  }

  /** Waiting and logging out never show a QR code that was not already
      shown; only starting a login brings a new one. */
  lemma NoNewQrCode(l: LoginState, wait: Reply<LoginWaitResult>, logout: Reply<WhatsAppLogoutResult>)
    ensures LoginWaited(l, wait).qrDataUrl in {l.qrDataUrl, None}
    ensures LoggedOutWhatsApp(l, logout).qrDataUrl in {l.qrDataUrl, None}
  {
  }

  lemma LoginTransitionsConsistent(l: LoginState, start: Reply<LoginStartResult>,
                                   wait: Reply<LoginWaitResult>, logout: Reply<WhatsAppLogoutResult>)
    requires LoginConsistent(l)
    ensures LoginConsistent(LoginStarted(start))
    ensures LoginConsistent(LoginWaited(l, wait))
    ensures LoginConsistent(LoggedOutWhatsApp(l, logout))
  {
  }

  /** Every call keeps the store consistent and, started with nothing in
      flight, leaves nothing in flight. `isRefreshing` is raised and lowered
      inside a poll; the other busy flags are only checked, never raised,
      so they stay down. */
  lemma ApplyPreserves(s: StoreState, op: Op)
    requires Consistent(s) && Idle(s)
    ensures Consistent(Apply(s, op)) && Idle(Apply(s, op))
  {
    match op
    case RefreshOp(probe, now, reply) =>
      RefreshedConsistent(s.status, now, reply);
    case StartLoginOp(force, reply, now, statusReply) =>
      RefreshedConsistent(s.status, now, statusReply);
      LoginTransitionsConsistent(s.login, reply, Failed(""), Failed(""));
    case WaitLoginOp(timeoutMs, reply, now, statusReply) =>
      RefreshedConsistent(s.status, now, statusReply);
      LoginTransitionsConsistent(s.login, Failed(""), reply, Failed(""));
    case LogoutWhatsAppOp(reply, now, statusReply) =>
      RefreshedConsistent(s.status, now, statusReply);
      LoginTransitionsConsistent(s.login, Failed(""), Failed(""), reply);
    case LogoutTelegramOp(reply, loadReply, now, statusReply) =>
      LogoutTelegramPreserves(s, reply, loadReply, now, statusReply);
    case LoadConfigOp(reply) =>
    case SaveConfigOp(loadReply, serialize, setReply, now, statusReply) =>
      SavePreserves(s, loadReply, serialize, setReply, now, statusReply);
    case EditFormOp(form) =>
    case StartOp(isPreview) =>
    case StopOp =>
  }

  lemma LogoutTelegramPreserves(s: StoreState, reply: Reply<TelegramLogoutResult>, loadReply: Reply<ConfigSnapshot>,
                                now: int, statusReply: Reply<ProvidersStatusSnapshot>)
    requires Consistent(s) && Idle(s)
    ensures var r := LogoutTelegramStep(s, reply, loadReply, now, statusReply);
      Consistent(r) && Idle(r)
  {
    RefreshedConsistent(s.status, now, statusReply);
  }

  lemma LoadPreserves(s: StoreState, reply: Reply<ConfigSnapshot>)
    requires Consistent(s) && Idle(s)
    ensures Consistent(LoadStep(s, reply)) && Idle(LoadStep(s, reply))
  {
    LoadSpec(s, reply);
  }

  lemma MergePreserves(s: StoreState)
    requires Consistent(s) && Idle(s)
    ensures Consistent(FormMerged(s)) && Idle(FormMerged(s))
  {
    var r := FormMerged(s);
    assert r.config.root.Keys <= s.config.root.Keys + {"telegram"};
  }

  lemma WritePreserves(s: StoreState, serialized: SerializeResult, setReply: Reply<()>,
                       now: int, statusReply: Reply<ProvidersStatusSnapshot>)
    requires Consistent(s) && Idle(s)
    ensures var r := WriteStep(s, serialized, setReply, now, statusReply);
      Consistent(r) && Idle(r)
  {
    RefreshedConsistent(s.status, now, statusReply);
    WriteSpec(s, serialized, setReply, now, statusReply);
  }

  lemma SavePreserves(s: StoreState, loadReply: Reply<ConfigSnapshot>, serialize: Object -> SerializeResult,
                      setReply: Reply<()>, now: int, statusReply: Reply<ProvidersStatusSnapshot>)
    requires Consistent(s) && Idle(s)
    ensures var r := SaveStep(s, loadReply, serialize, setReply, now, statusReply);
      Consistent(r) && Idle(r)
  {
    var loaded := SaveLoaded(s, loadReply);
    if !s.config.loaded {
      LoadPreserves(s, loadReply);
    }
    MergePreserves(loaded);
    var merged := FormMerged(loaded);
    WritePreserves(merged, serialize(merged.config.root), setReply, now, statusReply);
  }

  /** Every state the store reaches from its initial state is consistent
      and idle between calls. */
  lemma {:induction false} RunPreserves(s: StoreState, ops: seq<Op>)
    requires Consistent(s) && Idle(s)
    ensures Consistent(Run(s, ops)) && Idle(Run(s, ops))
    decreases |ops|
  {
    if ops != [] {
      ApplyPreserves(s, ops[0]);
      RunPreserves(Apply(s, ops[0]), ops[1..]);
    }
  }

  lemma ReachableConsistent(ops: seq<Op>)
    ensures Consistent(Run(Initial, ops)) && Idle(Run(Initial, ops))
  {
    RunPreserves(Initial, ops);
  }

  /** A successful Telegram logout followed by a successful reload shows the
      reload's line, not the logout's: the logout message is overwritten. */
  lemma TelegramLogoutLineOverwritten(s: StoreState, result: TelegramLogoutResult, snap: ConfigSnapshot,
                                      now: int, statusReply: Reply<ProvidersStatusSnapshot>)
    requires !s.telegramBusy
    ensures LogoutTelegramStep(s, Ok(result), Ok(snap), now, statusReply).config.status == LoadedStatus(snap)
  {
  }

  /** A save whose preliminary load fails still writes: it merges the form
      into the root held before, which was never loaded, so the document
      written holds the Telegram section and nothing else. */
  lemma SaveAfterFailedLoad(s: StoreState, message: string, raw: string,
                            setReply: Reply<()>, now: int, statusReply: Reply<ProvidersStatusSnapshot>)
    requires !s.isSavingConfig && ConfigConsistent(s.config) && !s.config.loaded
    ensures var r := SaveStep(s, Failed(message), root => Serialized(raw), setReply, now, statusReply);
      r.config.root.Keys == {"telegram"}
  {
    SaveSpec(s, Failed(message), root => Serialized(raw), setReply, now, statusReply);
    LoadFailedSpec(s, message);
    var loaded := SaveLoaded(s, Failed(message));
    assert loaded.config.root == s.config.root && loaded.form == s.form;
    MergedRootOfSectionOnly(s.config.root, s.form);
  }

  /** Merging into a root that holds at most the Telegram section leaves a
      root that holds exactly that section. */
  lemma MergedRootOfSectionOnly(root: Object, form: TelegramForm)
    requires root.Keys <= {"telegram"}
    ensures MergedRoot(root, form).Keys == {"telegram"}
  {
    var r := MergedRoot(root, form);
    assert forall k :: k in r.Keys ==> k == "telegram";
  }

  /** The store object. The source's flat fields are grouped as the
      records above: `status` holds `snapshot`, `lastError` and
      `lastSuccess`; `login` holds the three `whatsappLogin…` fields; `form`
      holds the seven `telegram…` form fields; `config` holds
      `configStatus`, `configRoot` and `configLoaded`. */
  class ConnectionsStore {
    var status: StatusState
    var isRefreshing: bool
    var login: LoginState
    var whatsappBusy: bool
    var form: TelegramForm
    var telegramBusy: bool
    var config: ConfigState
    var isSavingConfig: bool
    const isPreview: bool
    /** Whether a polling task exists. */
    var polling: bool
    /** The requests issued so far, oldest first. */
    var sent: seq<Request>

    /** The store's whole state as a value. */
    function State(): StoreState
      reads this
    {
      StoreState(status, isRefreshing, login, whatsappBusy, form, telegramBusy, config, isSavingConfig, polling, sent)
    }

    constructor(isPreview: bool)
      ensures State() == Initial && this.isPreview == isPreview
    {
      this.isPreview := isPreview;
      status, isRefreshing := StatusState(None, None, None), false;
      login, whatsappBusy := LoginState(None, None, None), false;
      form, telegramBusy := DefaultForm, false;
      config, isSavingConfig := ConfigState(None, map[], false), false;
      polling, sent := false, [];
    }

    method Start()
      modifies this
      ensures State() == StartStep(old(State()), isPreview)
    {
      if !isPreview && !polling {
        polling := true;
      }
    }

    method Stop()
      modifies this
      ensures State() == StopStep(old(State()))
    {
      polling := false;
    }

    method Refresh(probe: bool, now: int, reply: Reply<ProvidersStatusSnapshot>)
      modifies this
      ensures State() == RefreshStep(old(State()), probe, now, reply)
    {
      if !isRefreshing {
        isRefreshing := true;
        sent := sent + [StatusRequest(probe)];
        match reply {
          case Ok(snap) =>
            status := status.(snapshot := Some(snap), lastSuccess := Some(now), lastError := None);
          case Failed(message) =>
            status := status.(lastError := Some(message));
        }
        isRefreshing := false;
      }
    }

    method StartWhatsAppLogin(force: bool, reply: Reply<LoginStartResult>,
                              now: int, statusReply: Reply<ProvidersStatusSnapshot>)
      modifies this
      ensures State() == StartLoginStep(old(State()), force, reply, now, statusReply)
    {
      if !whatsappBusy {
        sent := sent + [LoginStartRequest(force)];
        TakeLoginStart(reply);
        Refresh(true, now, statusReply);
      }
    }

    method WaitWhatsAppLogin(timeoutMs: int, reply: Reply<LoginWaitResult>,
                             now: int, statusReply: Reply<ProvidersStatusSnapshot>)
      modifies this
      ensures State() == WaitLoginStep(old(State()), timeoutMs, reply, now, statusReply)
    {
      if !whatsappBusy {
        sent := sent + [LoginWaitRequest(timeoutMs)];
        TakeLoginWait(reply);
        Refresh(true, now, statusReply);
      }
    }

    method LogoutWhatsApp(reply: Reply<WhatsAppLogoutResult>, now: int, statusReply: Reply<ProvidersStatusSnapshot>)
      modifies this
      ensures State() == LogoutWhatsAppStep(old(State()), reply, now, statusReply)
    {
      if !whatsappBusy {
        sent := sent + [WhatsAppLogoutRequest];
        TakeWhatsAppLogout(reply);
        Refresh(true, now, statusReply);
      }
    }

    /** The login fields set from the `.webLoginStart` answer. */
    method TakeLoginStart(reply: Reply<LoginStartResult>)
      modifies this
      ensures State() == old(State()).(login := LoginStarted(reply))
    {
      match reply {
        case Ok(result) =>
          login := login.(message := Some(result.message), qrDataUrl := result.qrDataUrl, connected := None);
        case Failed(message) =>
          login := login.(message := Some(message), qrDataUrl := None, connected := None);
      }
    }

    /** The login fields set from the `.webLoginWait` answer. */
    method TakeLoginWait(reply: Reply<LoginWaitResult>)
      modifies this
      ensures State() == old(State()).(login := LoginWaited(old(login), reply))
    {
      match reply {
        case Ok(result) =>
          login := login.(message := Some(result.message), connected := Some(result.connected));
          if result.connected {
            login := login.(qrDataUrl := None);
          }
        case Failed(message) =>
          login := login.(message := Some(message));
      }
    }

    /** The login fields set from the `.webLogout` answer. */
    method TakeWhatsAppLogout(reply: Reply<WhatsAppLogoutResult>)
      modifies this
      ensures State() == old(State()).(login := LoggedOutWhatsApp(old(login), reply))
    {
      match reply {
        case Ok(result) =>
          login := login.(message := Some(if result.cleared then WhatsAppClearedText else WhatsAppNoSessionText));
          login := login.(qrDataUrl := None);
        case Failed(message) =>
          login := login.(message := Some(message));
      }
    }

    method LogoutTelegram(reply: Reply<TelegramLogoutResult>, loadReply: Reply<ConfigSnapshot>,
                          now: int, statusReply: Reply<ProvidersStatusSnapshot>)
      modifies this
      ensures State() == LogoutTelegramStep(old(State()), reply, loadReply, now, statusReply)
    {
      if !telegramBusy {
        sent := sent + [TelegramLogoutRequest];
        AnswerTelegramLogout(reply, loadReply);
        Refresh(true, now, statusReply);
      }
    }

    /** The status line and reload that follow the `.telegramLogout`
        answer. */
    method AnswerTelegramLogout(reply: Reply<TelegramLogoutResult>, loadReply: Reply<ConfigSnapshot>)
      modifies this
      ensures State() == LogoutTelegramAnswered(old(State()), reply, loadReply)
    {
      match reply {
        case Ok(result) =>
          if result.envToken == Some(true) {
            config := config.(status := Some(TelegramEnvTokenText));
          } else {
            config := config.(status := Some(if result.cleared then TelegramClearedText else TelegramNoTokenText));
          }
          LoadConfig(loadReply);
        case Failed(message) =>
          config := config.(status := Some(message));
      }
    }

    method LoadConfig(reply: Reply<ConfigSnapshot>)
      modifies this
      ensures State() == LoadStep(old(State()), reply)
    {
      sent := sent + [ConfigGetRequest];
      match reply {
        case Ok(snap) =>
          config := config.(status := if snap.valid == Some(false) then Some(ConfigInvalidText) else None);
          config := config.(root := snap.config.GetOr(map[]), loaded := true);
          form := ProjectForm(snap.config);
        case Failed(message) =>
          config := config.(status := Some(message));
      }
    }

    method SaveTelegramConfig(loadReply: Reply<ConfigSnapshot>, serialize: Object -> SerializeResult,
                              setReply: Reply<()>, now: int, statusReply: Reply<ProvidersStatusSnapshot>)
      modifies this
      ensures State() == SaveStep(old(State()), loadReply, serialize, setReply, now, statusReply)
    {
      if !isSavingConfig {
        if !config.loaded {
          LoadConfig(loadReply);
        }
        MergeForm();
        WriteConfig(serialize, setReply, now, statusReply);
      }
    }

    /** The merge step of `saveTelegramConfig()`: the form's fields written
        into the root's Telegram section. */
    method MergeForm()
      modifies this
      ensures State() == FormMerged(old(State()))
    {
      ghost var before := State();
      var root := MergeIntoRoot(config.root, form);
      config := config.(root := root);
      assert State() == before.(config := before.config.(root := root));
    }

    /** The write step of `saveTelegramConfig()`: serialise the root, send
        `.configSet`, then poll on success. */
    method WriteConfig(serialize: Object -> SerializeResult, setReply: Reply<()>,
                       now: int, statusReply: Reply<ProvidersStatusSnapshot>)
      modifies this
      ensures State() == WriteStep(old(State()), serialize(old(State()).config.root), setReply, now, statusReply)
    {
      match serialize(config.root) {
        case NotUtf8 =>
          config := config.(status := Some(EncodeFailedText));
        case SerializeFailed(message) =>
          config := config.(status := Some(message));
        case Serialized(raw) =>
          sent := sent + [ConfigSetRequest(raw)];
          match setReply {
            case Ok(_) =>
              config := config.(status := Some(SavedText));
              Refresh(true, now, statusReply);
            case Failed(message) =>
              config := config.(status := Some(message));
          }
      }
    }
  }
}
