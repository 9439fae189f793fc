/** The settings pane's reading of the store: the coloured dot and the
    one-word summary of each provider, the detail line under it, whether
    the Telegram token field is locked, and the split of a QR data URL into
    its header and payload. Every rule reads the last status snapshot. */
module Settings {
  import opened Wrappers
  import opened Text
  import opened Snapshots

  /** The colours the provider dot can take. */
  datatype Tint = Secondary | Red | Green | Orange

  const CheckingText := "Checking\U{2026}"
  const NotLinkedText := "Not linked"
  const ConnectedText := "Connected"
  const RunningText := "Running"
  const LinkedText := "Linked"
  const NotConfiguredText := "Not configured"
  const ConfiguredText := "Configured"

  /** The separator between detail lines. */
  const Separator := " \U{00B7} "

  /** `whatsAppTint`: red for an unlinked account, orange for a linked,
      disconnected account with an error, green for any other linked
      account. */
  function WhatsAppTint(snapshot: Option<ProvidersStatusSnapshot>): (t: Tint)
    ensures t == Secondary <==> snapshot.None?
    ensures snapshot.Some? ==> (t == Red <==> !snapshot.value.whatsapp.linked)
    ensures snapshot.Some? ==> (t == Orange <==>
      var w := snapshot.value.whatsapp; w.linked && !w.connected && w.lastError.Some?)
  {
    match snapshot
    case None => Secondary
    case Some(snap) =>
      var w := snap.whatsapp;
      if !w.linked then Red
      else if w.connected then Green
      else if w.lastError.Some? then Orange
      else Green
  }

  /** `telegramTint`: green while the bot runs, orange for a configured bot
      that is not running and reports an error, grey otherwise; never red. */
  function TelegramTint(snapshot: Option<ProvidersStatusSnapshot>): (t: Tint)
    ensures t != Red
    ensures t == Green <==> snapshot.Some? && snapshot.value.telegram.configured && snapshot.value.telegram.running
    ensures t == Orange <==>
      snapshot.Some? && (var g := snapshot.value.telegram; g.configured && !g.running && g.lastError.Some?)
  {
    match snapshot
    case None => Secondary
    case Some(snap) =>
      var g := snap.telegram;
      if !g.configured then Secondary
      else if g.running then Green
      else if g.lastError.Some? then Orange
      else Secondary
  }

  /** `whatsAppSummary`: the first of not linked, connected and running
      that holds, else linked. */
  function WhatsAppSummary(snapshot: Option<ProvidersStatusSnapshot>): (r: string)
    ensures r == CheckingText <==> snapshot.None?
    ensures r == NotLinkedText <==> snapshot.Some? && !snapshot.value.whatsapp.linked
    ensures r == ConnectedText <==>
      snapshot.Some? && snapshot.value.whatsapp.linked && snapshot.value.whatsapp.connected
    ensures r == RunningText <==>
      snapshot.Some? && (var w := snapshot.value.whatsapp; w.linked && !w.connected && w.running)
    ensures r == LinkedText <==>
      snapshot.Some? && (var w := snapshot.value.whatsapp; w.linked && !w.connected && !w.running)
  {
    match snapshot
    case None => CheckingText
    case Some(snap) =>
      var w := snap.whatsapp;
      if !w.linked then NotLinkedText
      else if w.connected then ConnectedText
      else if w.running then RunningText
      else LinkedText
  }

  /** `telegramSummary`: not configured, running, or configured. */
  function TelegramSummary(snapshot: Option<ProvidersStatusSnapshot>): (r: string)
    ensures r == CheckingText <==> snapshot.None?
    ensures r == NotConfiguredText <==> snapshot.Some? && !snapshot.value.telegram.configured
    ensures r == RunningText <==>
      snapshot.Some? && snapshot.value.telegram.configured && snapshot.value.telegram.running
    ensures r == ConfiguredText <==>
      snapshot.Some? && snapshot.value.telegram.configured && !snapshot.value.telegram.running
  {
    match snapshot
    case None => CheckingText
    case Some(snap) =>
      var g := snap.telegram;
      if !g.configured then NotConfiguredText
      else if g.running then RunningText
      else ConfiguredText
  }

  /** The WhatsApp dot and label agree: grey exactly while checking, red
      exactly when not linked, green when connected, and an orange dot only
      ever beside "Running" or "Linked". A linked, disconnected account with
      no error is green. */
  lemma WhatsAppTintMatchesSummary(snapshot: Option<ProvidersStatusSnapshot>)
    ensures var t, r := WhatsAppTint(snapshot), WhatsAppSummary(snapshot);
      && (t == Secondary <==> r == CheckingText)
      && (t == Red <==> r == NotLinkedText)
      && (r == ConnectedText ==> t == Green)
      && (t == Orange ==> r == RunningText || r == LinkedText)
      && (r == LinkedText && snapshot.value.whatsapp.lastError.None? ==> t == Green)
  {
  }

  /** The Telegram dot and label agree: green exactly beside "Running", and
      orange only beside "Configured". */
  lemma TelegramTintMatchesSummary(snapshot: Option<ProvidersStatusSnapshot>)
    ensures var t, r := TelegramTint(snapshot), TelegramSummary(snapshot);
      && (t == Green <==> r == RunningText)
      && (t == Orange ==> r == ConfiguredText)
      && (r == CheckingText || r == NotConfiguredText ==> t == Secondary)
  {
  }

  /** `isTelegramTokenLocked`: the token comes from the environment. */
  function TokenLocked(snapshot: Option<ProvidersStatusSnapshot>): (locked: bool)
    ensures locked <==> snapshot.Some? && snapshot.value.telegram.tokenSource == Some("env")
    ensures snapshot.None? ==> !locked
  {
    match snapshot
    case None => false
    case Some(snap) => snap.telegram.tokenSource == Some("env")
  }

  /** The collected lines after the step for one candidate line: appended
      when it applies. */
  function WithLine(lines: seq<string>, line: Option<string>): seq<string> {
    if line.Some? then lines + [line.value] else lines
  }

  /** Some collected line begins with `prefix`. */
  predicate HasLine(lines: seq<string>, prefix: string) {
    exists line :: line in lines && StartsWith(line, prefix)
  }

  lemma HasLineConcat(a: seq<string>, b: seq<string>, prefix: string)
    ensures HasLine(a + b, prefix) <==> HasLine(a, prefix) || HasLine(b, prefix)
  {
    if HasLine(a + b, prefix) {
      var line :| line in a + b && StartsWith(line, prefix);
      assert line in a || line in b;
    }
    if HasLine(b, prefix) {
      var line :| line in b && StartsWith(line, prefix);
      assert line in a + b;
    }
    if HasLine(a, prefix) {
      var line :| line in a && StartsWith(line, prefix);
      assert line in a + b;
    }
  }

  /** A line built from a fixed head begins with that head. */
  lemma StartsWithHead(head: string, rest: string)
    ensures StartsWith(head + rest, head)
  {
    assert (head + rest)[..|head|] == head;
  }

  /** The candidate line applies and begins with `prefix`. */
  predicate Begins(line: Option<string>, prefix: string) {
    line.Some? && StartsWith(line.value, prefix)
  }

  /** Whenever the candidate line applies, it begins with `head`. */
  predicate HeadIs(line: Option<string>, head: string) {
    line.Some? ==> StartsWith(line.value, head)
  }

  /** A line whose head differs from `prefix` at position `i` does not
      begin with `prefix`. */
  lemma HeadsExclude(line: Option<string>, head: string, prefix: string, i: nat)
    requires HeadIs(line, head) && i < |head| && i < |prefix| && head[i] != prefix[i]
    ensures !Begins(line, prefix)
  {
    if line.Some? {
      assert line.value[..|head|][i] == line.value[i];
    }
  }

  lemma HasLineWith(lines: seq<string>, line: Option<string>, prefix: string)
    ensures HasLine(WithLine(lines, line), prefix) <==> HasLine(lines, prefix) || Begins(line, prefix)
  {
    if line.Some? {
      HasLineConcat(lines, [line.value], prefix);
      assert HasLine([line.value], prefix) <==> StartsWith(line.value, prefix) by {
        if StartsWith(line.value, prefix) {
          assert line.value in [line.value];
        }
      }
    }
  }

  /** An appended line never displaces the first one. */
  lemma WithLineKeepsFirst(lines: seq<string>, line: Option<string>)
    requires lines != []
    ensures WithLine(lines, line) != [] && WithLine(lines, line)[0] == lines[0]
  {
  }

  /** What a details builder shows: nothing for no lines, otherwise the
      lines joined by the middle-dot separator. */
  function DetailsText(lines: seq<string>): (r: Option<string>)
    ensures r.None? <==> lines == []
    ensures |lines| == 1 ==> r == Some(lines[0])
    ensures |lines| >= 2 ==>
      r == Some(Join(lines[..|lines| - 1], Separator) + Separator + lines[|lines| - 1])
  {
    if lines == [] then None
    else
      if |lines| >= 2 then
        JoinSnoc(lines[..|lines| - 1], lines[|lines| - 1], Separator);
        assert lines[..|lines| - 1] + [lines[|lines| - 1]] == lines;
        Some(Join(lines, Separator))
      else Some(Join(lines, Separator))
  }

  /** The account line: the phone number when known, else the JID. */
  function IdentityLine(w: WhatsAppStatus): Option<string> {
    match w.selfIdentity
    case None => None
    case Some(id) =>
      if id.e164.Some? then Some("Linked as " + id.e164.value)
      else if id.jid.Some? then Some("Linked as " + id.jid.value)
      else None
  }

  function AuthAgeLine(w: WhatsAppStatus, msToAge: int -> string): Option<string> {
    if w.authAgeMs.Some? then Some("Auth age " + msToAge(w.authAgeMs.value)) else None
  }

  function LastConnectLine(w: WhatsAppStatus, relativeAge: int -> string): Option<string> {
    if w.lastConnectedAt.Some? then Some("Last connect " + relativeAge(w.lastConnectedAt.value)) else None
  }

  /** The disconnect line: status code (or "status unknown"), error (or
      "disconnect") and when it happened. */
  function DisconnectLine(w: WhatsAppStatus, relativeAge: int -> string): Option<string> {
    match w.lastDisconnect
    case None => None
    case Some(d) =>
      var code := if d.status.Some? then "status " + IntToString(d.status.value) else "status unknown";
      var err := d.error.GetOr("disconnect");
      Some("Last disconnect " + (code + Separator + err + Separator + relativeAge(d.at)))
  }

  function ReconnectLine(w: WhatsAppStatus): Option<string> {
    if w.reconnectAttempts > 0 then Some("Reconnect attempts " + IntToString(w.reconnectAttempts)) else None
  }

  function LastMessageLine(w: WhatsAppStatus, relativeAge: int -> string): Option<string> {
    if w.lastMessageAt.Some? then Some("Last message " + relativeAge(w.lastMessageAt.value)) else None
  }

  /** An error line, only for a non-empty error. */
  function ErrorLine(lastError: Option<string>): Option<string> {
    if lastError.Some? && lastError.value != "" then Some("Error: " + lastError.value) else None
  }

  /** The WhatsApp detail lines, in display order: every candidate line
      that applies, so at most seven. */
  function WhatsAppLines(w: WhatsAppStatus, msToAge: int -> string, relativeAge: int -> string): (r: seq<string>)
    ensures |r| <= 7
  {
    var identified := WithLine([], IdentityLine(w));
    var aged := WithLine(identified, AuthAgeLine(w, msToAge));
    var connected := WithLine(aged, LastConnectLine(w, relativeAge));
    var disconnected := WithLine(connected, DisconnectLine(w, relativeAge));
    var reconnected := WithLine(disconnected, ReconnectLine(w));
    var messaged := WithLine(reconnected, LastMessageLine(w, relativeAge));
    WithLine(messaged, ErrorLine(w.lastError))
  }

  function TokenSourceLine(g: TelegramStatus): Option<string> {
    if g.tokenSource.Some? then Some("Token source: " + g.tokenSource.value) else None
  }

  function ModeLine(g: TelegramStatus): Option<string> {
    if g.mode.Some? then Some("Mode: " + g.mode.value) else None
  }

  /** The bot line, for a probe that succeeded and named the bot. */
  function BotLine(probe: Option<TelegramProbe>): Option<string> {
    if probe.Some? && probe.value.ok && probe.value.bot.Some? && probe.value.bot.value.username.Some?
    then Some("Bot: @" + probe.value.bot.value.username.value)
    else None
  }

  /** The webhook line, for a probe that succeeded and reported a
      non-empty webhook URL. */
  function WebhookLine(probe: Option<TelegramProbe>): Option<string> {
    if probe.Some? && probe.value.ok && probe.value.webhook.Some? && probe.value.webhook.value.url.Some?
       && probe.value.webhook.value.url.value != ""
    then Some("Webhook: " + probe.value.webhook.value.url.value)
    else None
  }

  /** The failure line, for a probe that did not succeed: its HTTP status,
      or "unknown". */
  function ProbeFailedLine(probe: Option<TelegramProbe>): Option<string> {
    if probe.Some? && !probe.value.ok then
      Some("Probe failed (" + ((if probe.value.status.Some? then IntToString(probe.value.status.value) else "unknown") + ")"))
    else None
  }

  function LastProbeLine(g: TelegramStatus, relativeAge: int -> string): Option<string> {
    if g.lastProbeAt.Some? then Some("Last probe " + relativeAge(g.lastProbeAt.value)) else None
  }

  /** The Telegram detail lines, in display order. The probe gives either
      the bot and webhook lines or the failure line, never both, so there
      are at most six. */
  function TelegramLines(g: TelegramStatus, relativeAge: int -> string): (r: seq<string>)
    ensures |r| <= 6
  {
    var sourced := WithLine([], TokenSourceLine(g));
    var moded := WithLine(sourced, ModeLine(g));
    var probed := WithLine(WithLine(WithLine(moded, BotLine(g.probe)), WebhookLine(g.probe)), ProbeFailedLine(g.probe));
    var dated := WithLine(probed, LastProbeLine(g, relativeAge));
    WithLine(dated, ErrorLine(g.lastError))
  }

  /** Every WhatsApp candidate line begins with its own fixed head. */
  lemma WhatsAppHeads(w: WhatsAppStatus, msToAge: int -> string, relativeAge: int -> string)
    ensures HeadIs(IdentityLine(w), "Linked as ") && HeadIs(AuthAgeLine(w, msToAge), "Auth age ")
    ensures HeadIs(LastConnectLine(w, relativeAge), "Last connect ")
    ensures HeadIs(DisconnectLine(w, relativeAge), "Last disconnect ")
    ensures HeadIs(ReconnectLine(w), "Reconnect attempts ")
    ensures HeadIs(LastMessageLine(w, relativeAge), "Last message ") && HeadIs(ErrorLine(w.lastError), "Error: ")
  {
    WhatsAppFirstHeads(w, msToAge, relativeAge);
    WhatsAppLaterHeads(w, relativeAge);
  }

  lemma WhatsAppFirstHeads(w: WhatsAppStatus, msToAge: int -> string, relativeAge: int -> string)
    ensures HeadIs(IdentityLine(w), "Linked as ") && HeadIs(AuthAgeLine(w, msToAge), "Auth age ")
    ensures HeadIs(LastConnectLine(w, relativeAge), "Last connect ")
  {
    if w.selfIdentity.Some? {
      var id := w.selfIdentity.value;
      StartsWithHead("Linked as ", if id.e164.Some? then id.e164.value else id.jid.GetOr(""));
    }
    StartsWithHead("Auth age ", if w.authAgeMs.Some? then msToAge(w.authAgeMs.value) else "");
    StartsWithHead("Last connect ", if w.lastConnectedAt.Some? then relativeAge(w.lastConnectedAt.value) else "");
  }

  lemma WhatsAppLaterHeads(w: WhatsAppStatus, relativeAge: int -> string)
    ensures HeadIs(DisconnectLine(w, relativeAge), "Last disconnect ")
    ensures HeadIs(ReconnectLine(w), "Reconnect attempts ")
    ensures HeadIs(LastMessageLine(w, relativeAge), "Last message ") && HeadIs(ErrorLine(w.lastError), "Error: ")
  {
    if w.lastDisconnect.Some? {
      var d := w.lastDisconnect.value;
      var code := if d.status.Some? then "status " + IntToString(d.status.value) else "status unknown";
      StartsWithHead("Last disconnect ", code + Separator + d.error.GetOr("disconnect") + Separator + relativeAge(d.at));
    }
    StartsWithHead("Reconnect attempts ", IntToString(w.reconnectAttempts));
    StartsWithHead("Last message ", if w.lastMessageAt.Some? then relativeAge(w.lastMessageAt.value) else "");
    StartsWithHead("Error: ", w.lastError.GetOr(""));
  }

  /** Some WhatsApp detail line begins with `prefix` exactly when one of the
      candidate lines applies and begins with it. */
  lemma WhatsAppHasLine(w: WhatsAppStatus, msToAge: int -> string, relativeAge: int -> string, prefix: string)
    ensures HasLine(WhatsAppLines(w, msToAge, relativeAge), prefix) <==>
      Begins(IdentityLine(w), prefix) || Begins(AuthAgeLine(w, msToAge), prefix)
      || Begins(LastConnectLine(w, relativeAge), prefix) || Begins(DisconnectLine(w, relativeAge), prefix)
      || Begins(ReconnectLine(w), prefix) || Begins(LastMessageLine(w, relativeAge), prefix)
      || Begins(ErrorLine(w.lastError), prefix)
  {
    var identified := WithLine([], IdentityLine(w));
    var aged := WithLine(identified, AuthAgeLine(w, msToAge));
    var connected := WithLine(aged, LastConnectLine(w, relativeAge));
    var disconnected := WithLine(connected, DisconnectLine(w, relativeAge));
    var reconnected := WithLine(disconnected, ReconnectLine(w));
    var messaged := WithLine(reconnected, LastMessageLine(w, relativeAge));
    HasLineWith([], IdentityLine(w), prefix);
    HasLineWith(identified, AuthAgeLine(w, msToAge), prefix);
    HasLineWith(aged, LastConnectLine(w, relativeAge), prefix);
    HasLineWith(connected, DisconnectLine(w, relativeAge), prefix);
    HasLineWith(disconnected, ReconnectLine(w), prefix);
    HasLineWith(reconnected, LastMessageLine(w, relativeAge), prefix);
    HasLineWith(messaged, ErrorLine(w.lastError), prefix);
  }

  /** The reconnect line is shown exactly when there were reconnect
      attempts. */
  lemma WhatsAppReconnectShown(w: WhatsAppStatus, msToAge: int -> string, relativeAge: int -> string)
    ensures HasLine(WhatsAppLines(w, msToAge, relativeAge), "Reconnect attempts ") <==> w.reconnectAttempts > 0
  {
    var p := "Reconnect attempts ";
    WhatsAppHasLine(w, msToAge, relativeAge, p);
    WhatsAppHeads(w, msToAge, relativeAge);
    HeadsExclude(IdentityLine(w), "Linked as ", p, 0);
    HeadsExclude(AuthAgeLine(w, msToAge), "Auth age ", p, 0);
    HeadsExclude(LastConnectLine(w, relativeAge), "Last connect ", p, 0);
    HeadsExclude(DisconnectLine(w, relativeAge), "Last disconnect ", p, 0);
    HeadsExclude(LastMessageLine(w, relativeAge), "Last message ", p, 0);
    HeadsExclude(ErrorLine(w.lastError), "Error: ", p, 0);
  }

  /** The error line is shown exactly when the error is present and not
      empty. */
  lemma WhatsAppErrorShown(w: WhatsAppStatus, msToAge: int -> string, relativeAge: int -> string)
    ensures HasLine(WhatsAppLines(w, msToAge, relativeAge), "Error: ") <==> w.lastError.Some? && w.lastError.value != ""
  {
    var p := "Error: ";
    WhatsAppHasLine(w, msToAge, relativeAge, p);
    WhatsAppHeads(w, msToAge, relativeAge);
    HeadsExclude(IdentityLine(w), "Linked as ", p, 0);
    HeadsExclude(AuthAgeLine(w, msToAge), "Auth age ", p, 0);
    HeadsExclude(LastConnectLine(w, relativeAge), "Last connect ", p, 0);
    HeadsExclude(DisconnectLine(w, relativeAge), "Last disconnect ", p, 0);
    HeadsExclude(ReconnectLine(w), "Reconnect attempts ", p, 0);
    HeadsExclude(LastMessageLine(w, relativeAge), "Last message ", p, 0);
  }

  /** The account line comes first, names the phone number in preference
      to the JID, and is left out when neither is known. */
  lemma WhatsAppIdentityFirst(w: WhatsAppStatus, msToAge: int -> string, relativeAge: int -> string)
    ensures var lines := WhatsAppLines(w, msToAge, relativeAge);
      match w.selfIdentity
      case Some(WhatsAppSelf(Some(e164), _)) => lines != [] && lines[0] == "Linked as " + e164
      case Some(WhatsAppSelf(None, Some(jid))) => lines != [] && lines[0] == "Linked as " + jid
      case _ => !HasLine(lines, "Linked as ")
  {
    var identified := WithLine([], IdentityLine(w));
    if IdentityLine(w).Some? {
      var aged := WithLine(identified, AuthAgeLine(w, msToAge));
      var connected := WithLine(aged, LastConnectLine(w, relativeAge));
      var disconnected := WithLine(connected, DisconnectLine(w, relativeAge));
      var reconnected := WithLine(disconnected, ReconnectLine(w));
      var messaged := WithLine(reconnected, LastMessageLine(w, relativeAge));
      WithLineKeepsFirst(identified, AuthAgeLine(w, msToAge));
      WithLineKeepsFirst(aged, LastConnectLine(w, relativeAge));
      WithLineKeepsFirst(connected, DisconnectLine(w, relativeAge));
      WithLineKeepsFirst(disconnected, ReconnectLine(w));
      WithLineKeepsFirst(reconnected, LastMessageLine(w, relativeAge));
      WithLineKeepsFirst(messaged, ErrorLine(w.lastError));
    } else {
      var p := "Linked as ";
      WhatsAppHasLine(w, msToAge, relativeAge, p);
      WhatsAppHeads(w, msToAge, relativeAge);
      HeadsExclude(AuthAgeLine(w, msToAge), "Auth age ", p, 0);
      HeadsExclude(LastConnectLine(w, relativeAge), "Last connect ", p, 1);
      HeadsExclude(DisconnectLine(w, relativeAge), "Last disconnect ", p, 1);
      HeadsExclude(ReconnectLine(w), "Reconnect attempts ", p, 0);
      HeadsExclude(LastMessageLine(w, relativeAge), "Last message ", p, 1);
      HeadsExclude(ErrorLine(w.lastError), "Error: ", p, 0);
    }
  }

  /** Every Telegram candidate line begins with its own fixed head. */
  lemma TelegramHeads(g: TelegramStatus, relativeAge: int -> string)
    ensures HeadIs(TokenSourceLine(g), "Token source: ") && HeadIs(ModeLine(g), "Mode: ")
    ensures HeadIs(BotLine(g.probe), "Bot: @") && HeadIs(WebhookLine(g.probe), "Webhook: ")
    ensures HeadIs(ProbeFailedLine(g.probe), "Probe failed (")
    ensures HeadIs(LastProbeLine(g, relativeAge), "Last probe ") && HeadIs(ErrorLine(g.lastError), "Error: ")
  {
    StartsWithHead("Token source: ", g.tokenSource.GetOr(""));
    StartsWithHead("Mode: ", g.mode.GetOr(""));
    if BotLine(g.probe).Some? {
      StartsWithHead("Bot: @", g.probe.value.bot.value.username.value);
    }
    if WebhookLine(g.probe).Some? {
      StartsWithHead("Webhook: ", g.probe.value.webhook.value.url.value);
    }
    if ProbeFailedLine(g.probe).Some? {
      var status := g.probe.value.status;
      StartsWithHead("Probe failed (", (if status.Some? then IntToString(status.value) else "unknown") + ")");
    }
    StartsWithHead("Last probe ", if g.lastProbeAt.Some? then relativeAge(g.lastProbeAt.value) else "");
    StartsWithHead("Error: ", g.lastError.GetOr(""));
  }

  /** Some Telegram detail line begins with `prefix` exactly when one of the
      candidate lines applies and begins with it. */
  lemma TelegramHasLine(g: TelegramStatus, relativeAge: int -> string, prefix: string)
    ensures HasLine(TelegramLines(g, relativeAge), prefix) <==>
      Begins(TokenSourceLine(g), prefix) || Begins(ModeLine(g), prefix)
      || Begins(BotLine(g.probe), prefix) || Begins(WebhookLine(g.probe), prefix)
      || Begins(ProbeFailedLine(g.probe), prefix) || Begins(LastProbeLine(g, relativeAge), prefix)
      || Begins(ErrorLine(g.lastError), prefix)
  {
    var sourced := WithLine([], TokenSourceLine(g));
    var moded := WithLine(sourced, ModeLine(g));
    var botted := WithLine(moded, BotLine(g.probe));
    var hooked := WithLine(botted, WebhookLine(g.probe));
    var probed := WithLine(hooked, ProbeFailedLine(g.probe));
    var dated := WithLine(probed, LastProbeLine(g, relativeAge));
    HasLineWith([], TokenSourceLine(g), prefix);
    HasLineWith(sourced, ModeLine(g), prefix);
    HasLineWith(moded, BotLine(g.probe), prefix);
    HasLineWith(botted, WebhookLine(g.probe), prefix);
    HasLineWith(hooked, ProbeFailedLine(g.probe), prefix);
    HasLineWith(probed, LastProbeLine(g, relativeAge), prefix);
    HasLineWith(dated, ErrorLine(g.lastError), prefix);
  }

  /** After a successful probe the bot line is shown exactly when the bot
      has a username and the webhook line exactly when its URL is not
      empty; a failed probe shows the failure line instead of both. */
  lemma TelegramProbeShown(g: TelegramStatus, relativeAge: int -> string)
    ensures var lines := TelegramLines(g, relativeAge);
      && (HasLine(lines, "Bot: @") <==>
           g.probe.Some? && g.probe.value.ok && g.probe.value.bot.Some? && g.probe.value.bot.value.username.Some?)
      && (HasLine(lines, "Webhook: ") <==>
           g.probe.Some? && g.probe.value.ok && g.probe.value.webhook.Some?
           && g.probe.value.webhook.value.url.Some? && g.probe.value.webhook.value.url.value != "")
      && (HasLine(lines, "Probe failed (") <==> g.probe.Some? && !g.probe.value.ok)
  {
    TelegramHeads(g, relativeAge);
    var p := "Bot: @";
    TelegramHasLine(g, relativeAge, p);
    HeadsExclude(TokenSourceLine(g), "Token source: ", p, 0);
    HeadsExclude(ModeLine(g), "Mode: ", p, 0);
    HeadsExclude(WebhookLine(g.probe), "Webhook: ", p, 0);
    HeadsExclude(ProbeFailedLine(g.probe), "Probe failed (", p, 0);
    HeadsExclude(LastProbeLine(g, relativeAge), "Last probe ", p, 0);
    HeadsExclude(ErrorLine(g.lastError), "Error: ", p, 0);
    p := "Webhook: ";
    TelegramHasLine(g, relativeAge, p);
    HeadsExclude(TokenSourceLine(g), "Token source: ", p, 0);
    HeadsExclude(ModeLine(g), "Mode: ", p, 0);
    HeadsExclude(BotLine(g.probe), "Bot: @", p, 0);
    HeadsExclude(ProbeFailedLine(g.probe), "Probe failed (", p, 0);
    HeadsExclude(LastProbeLine(g, relativeAge), "Last probe ", p, 0);
    HeadsExclude(ErrorLine(g.lastError), "Error: ", p, 0);
    p := "Probe failed (";
    TelegramHasLine(g, relativeAge, p);
    HeadsExclude(TokenSourceLine(g), "Token source: ", p, 0);
    HeadsExclude(ModeLine(g), "Mode: ", p, 0);
    HeadsExclude(BotLine(g.probe), "Bot: @", p, 0);
    HeadsExclude(WebhookLine(g.probe), "Webhook: ", p, 0);
    HeadsExclude(LastProbeLine(g, relativeAge), "Last probe ", p, 0);
    HeadsExclude(ErrorLine(g.lastError), "Error: ", p, 0);
  }

  /** A failed probe without an HTTP status reads "unknown". */
  lemma ProbeFailedUnknown(probe: TelegramProbe)
    requires !probe.ok && probe.status.None?
    ensures ProbeFailedLine(Some(probe)) == Some("Probe failed (unknown)")
  {
    assert "Probe failed (" + ("unknown" + ")") == "Probe failed (unknown)";
  }

  /** A failed probe that answered with a status code shows that code in
      parentheses, rendered as Swift renders an `Int`. */
  lemma ProbeFailedStatus(probe: TelegramProbe, c: int)
    requires !probe.ok && probe.status == Some(c)
    ensures ProbeFailedLine(Some(probe)) == Some("Probe failed (" + IntToString(c) + ")")
  {
    assert "Probe failed (" + (IntToString(c) + ")") == "Probe failed (" + IntToString(c) + ")";
  }

  /** The error line is shown exactly when the error is present and not
      empty. */
  lemma TelegramErrorShown(g: TelegramStatus, relativeAge: int -> string)
    ensures HasLine(TelegramLines(g, relativeAge), "Error: ") <==> g.lastError.Some? && g.lastError.value != ""
  {
    var p := "Error: ";
    TelegramHasLine(g, relativeAge, p);
    TelegramHeads(g, relativeAge);
    HeadsExclude(TokenSourceLine(g), "Token source: ", p, 0);
    HeadsExclude(ModeLine(g), "Mode: ", p, 0);
    HeadsExclude(BotLine(g.probe), "Bot: @", p, 0);
    HeadsExclude(WebhookLine(g.probe), "Webhook: ", p, 0);
    HeadsExclude(ProbeFailedLine(g.probe), "Probe failed (", p, 0);
    HeadsExclude(LastProbeLine(g, relativeAge), "Last probe ", p, 0);
  }

  /** `whatsAppDetails`: collects the applicable lines one by one and joins
      them; nothing without a snapshot or without lines. */
  method WhatsAppDetails(snapshot: Option<ProvidersStatusSnapshot>, msToAge: int -> string, relativeAge: int -> string)
    returns (r: Option<string>)
    ensures snapshot.None? ==> r.None?
    ensures snapshot.Some? ==> r == DetailsText(WhatsAppLines(snapshot.value.whatsapp, msToAge, relativeAge))
  {
    if snapshot.None? {
      return None;
    }
    var w := snapshot.value.whatsapp;
    var lines: seq<string> := [];
    ghost var expected: seq<string> := [];
    var identity := if w.selfIdentity.Some? && w.selfIdentity.value.e164.Some? then w.selfIdentity.value.e164
                    else if w.selfIdentity.Some? then w.selfIdentity.value.jid
                    else None;
    if identity.Some? {
      lines := lines + ["Linked as " + identity.value];
    }
    expected := WithLine(expected, IdentityLine(w));
    assert lines == expected;
    if w.authAgeMs.Some? {
      lines := lines + ["Auth age " + msToAge(w.authAgeMs.value)];
    }
    expected := WithLine(expected, AuthAgeLine(w, msToAge));
    assert lines == expected;
    if w.lastConnectedAt.Some? {
      lines := lines + ["Last connect " + relativeAge(w.lastConnectedAt.value)];
    }
    expected := WithLine(expected, LastConnectLine(w, relativeAge));
    assert lines == expected;
    if w.lastDisconnect.Some? {
      var disconnect := w.lastDisconnect.value;
      var when := relativeAge(disconnect.at);
      var code := if disconnect.status.Some? then "status " + IntToString(disconnect.status.value) else "status unknown";
      var err := if disconnect.error.Some? then disconnect.error.value else "disconnect";
      lines := lines + ["Last disconnect " + (code + Separator + err + Separator + when)];
    }
    expected := WithLine(expected, DisconnectLine(w, relativeAge));
    assert lines == expected;
    if w.reconnectAttempts > 0 {
      lines := lines + ["Reconnect attempts " + IntToString(w.reconnectAttempts)];
    }
    expected := WithLine(expected, ReconnectLine(w));
    assert lines == expected;
    if w.lastMessageAt.Some? {
      lines := lines + ["Last message " + relativeAge(w.lastMessageAt.value)];
    }
    expected := WithLine(expected, LastMessageLine(w, relativeAge));
    assert lines == expected;
    if w.lastError.Some? && w.lastError.value != "" {
      lines := lines + ["Error: " + w.lastError.value];
    }
    expected := WithLine(expected, ErrorLine(w.lastError));
    assert lines == expected;
    assert lines == WhatsAppLines(w, msToAge, relativeAge);
    r := DetailsText(lines);
  }

  /** `telegramDetails`: the same for the Telegram bot. */
  method TelegramDetails(snapshot: Option<ProvidersStatusSnapshot>, relativeAge: int -> string)
    returns (r: Option<string>)
    ensures snapshot.None? ==> r.None?
    ensures snapshot.Some? ==> r == DetailsText(TelegramLines(snapshot.value.telegram, relativeAge))
  {
    if snapshot.None? {
      return None;
    }
    var g := snapshot.value.telegram;
    var lines: seq<string> := [];
    ghost var expected: seq<string> := [];
    if g.tokenSource.Some? {
      lines := lines + ["Token source: " + g.tokenSource.value];
    }
    expected := WithLine(expected, TokenSourceLine(g));
    assert lines == expected;
    if g.mode.Some? {
      lines := lines + ["Mode: " + g.mode.value];
    }
    expected := WithLine(expected, ModeLine(g));
    assert lines == expected;
    if g.probe.Some? {
      var probe := g.probe.value;
      if probe.ok {
        if probe.bot.Some? && probe.bot.value.username.Some? {
          lines := lines + ["Bot: @" + probe.bot.value.username.value];
        }
        if probe.webhook.Some? && probe.webhook.value.url.Some? && probe.webhook.value.url.value != "" {
          lines := lines + ["Webhook: " + probe.webhook.value.url.value];
        }
      } else {
        var code := if probe.status.Some? then IntToString(probe.status.value) else "unknown";
        lines := lines + ["Probe failed (" + (code + ")")];
      }
    }
    expected := WithLine(expected, BotLine(g.probe));
    expected := WithLine(expected, WebhookLine(g.probe));
    expected := WithLine(expected, ProbeFailedLine(g.probe));
    assert lines == expected;
    if g.lastProbeAt.Some? {
      lines := lines + ["Last probe " + relativeAge(g.lastProbeAt.value)];
    }
    expected := WithLine(expected, LastProbeLine(g, relativeAge));
    assert lines == expected;
    if g.lastError.Some? && g.lastError.value != "" {
      lines := lines + ["Error: " + g.lastError.value];
    }
    expected := WithLine(expected, ErrorLine(g.lastError));
    assert lines == expected;
    assert lines == TelegramLines(g, relativeAge);
    r := DetailsText(lines);
  }

  /** The payload `qrImage` hands to the base64 decoder: the text after the
      first comma of the data URL, provided the header before that comma
      mentions "base64"; nothing otherwise. */
  function QrPayload(dataUrl: string): (r: Option<string>)
    ensures ',' !in dataUrl ==> r.None?
    ensures r.Some? ==>
      && |r.value| < |dataUrl|
      && var header := dataUrl[..|dataUrl| - |r.value| - 1];
         dataUrl == header + "," + r.value && ',' !in header && Contains(header, "base64")
  {
    match FirstIndexOf(dataUrl, ',')
    case None => None
    case Some(comma) =>
      if Contains(dataUrl[..comma], "base64") then
        assert dataUrl == dataUrl[..comma] + "," + dataUrl[comma + 1..];
        Some(dataUrl[comma + 1..])
      else None
  }

  /** A comma-free header joined to a payload by a comma: the payload comes
      back whole, commas and all, exactly when the header mentions
      "base64". */
  lemma QrPayloadOf(header: string, payload: string)
    requires ',' !in header
    ensures QrPayload(header + "," + payload) == if Contains(header, "base64") then Some(payload) else None
  {
    var s := header + "," + payload;
    assert s[|header|] == ',';
    var comma := FirstIndexOf(s, ',');
    assert s[..|header|] == header;
    assert forall k :: 0 <= k < |header| ==> s[k] == header[k];
    assert ',' in s[..|header| + 1];
    assert s[|header| + 1..] == payload;
  }
}
