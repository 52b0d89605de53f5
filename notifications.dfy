/** The notification service of the subscription tracker (app/services/notification_service.py):
    the three push channels, the dispatch between them, and the scheduled check that renews
    lapsed recurring subscriptions and sends one reminder message. The HTTP replies are
    parameters; the model records which requests would be made and branches on the replies. */
module Notifications {
  import opened Wrappers
  import opened Text
  import opened Calendar
  import opened Subscriptions
  import opened SubscriptionStore
  import opened Settings

  const UnknownType: string := "未知的通知类型: "
  const SendFailed: string := "发送通知失败: "
  const TelegramUnconfigured: string := "通知未配置，缺少Bot Token或Chat ID"
  const TelegramApiError: string := "Telegram API错误: "
  const UnknownError: string := "未知错误"
  const TokenCredentialsMissing: string := "缺少 Corp ID 或 Corp Secret"
  const TokenFetchFailed: string := "获取token失败: "
  const WecomUnconfigured: string := "通知未配置，缺少Corp ID、Corp Secret或Agent ID"
  const TokenUnavailable: string := "获取企业微信访问令牌失败: "
  const NotifyxUnconfigured: string := "通知未配置，缺少Token"
  const NoContent: string := "无内容"
  const NotifyxDescription: string := "订阅管理系统通知"
  const Paragraph: string := "\n\n"

  /** `config.get(first) or config.get(second, '')` */
  function Prefer(config: Config, first: string, second: string): (v: string)
    ensures Setting(config, first) != "" ==> v == config[first]
    ensures Setting(config, first) == "" ==> v == Setting(config, second)
    ensures v != "" <==> Setting(config, first) != "" || Setting(config, second) != ""
  {
    if Setting(config, first) != "" then config[first] else Setting(config, second)
  }

  /** `f"{value}"` of a possibly missing JSON field. */
  function ShowField(v: Option<string>): string { if v.Some? then v.value else "None" }
  function ShowCode(v: Option<int>): string { if v.Some? then IntToString(v.value) else "None" }

  function CodeError(errcode: Option<int>, errmsg: Option<string>): string
  {
    "错误码: " + ShowCode(errcode) + ", 错误信息: " + ShowField(errmsg)
  }

  /** The message of the ValueError `int(text)` raises. */
  function IntLiteralError(text: string): string
  {
    "invalid literal for int() with base 10: '" + text + "'"
  }

  // ---------------------------------------------------------------------------
  // Requests and replies
  // ---------------------------------------------------------------------------

  datatype Payload =
    | TelegramMessage(chatId: string, text: string, parseMode: string)
    | WecomText(touser: string, msgtype: string, agentid: int, content: string)
    | NotifyxMessage(title: string, content: string, description: string)

  datatype HttpCall = Get(url: string) | PostJson(url: string, payload: Payload)

  /** `(success, error_msg)` together with the HTTP requests made on the way. */
  datatype Delivery = Delivery(success: bool, error: string, calls: seq<HttpCall>)

  /** The replies: an exception from `requests`/`.json()`, or the JSON fields read. */
  datatype TelegramReply = TelegramRaised(message: string) | TelegramAnswer(ok: bool, description: Option<string>)
  datatype TokenReply =
    | TokenRaised(message: string)
    | TokenAnswer(httpOk: bool, status: int, errcode: Option<int>, errmsg: Option<string>, accessToken: Option<string>)
  datatype WecomReply = WecomRaised(message: string) | WecomAnswer(errcode: Option<int>, errmsg: Option<string>)
  /** `shown` is `f"{data}"`, the printed reply dictionary. */
  datatype NotifyxReply = NotifyxRaised(message: string) | NotifyxAnswer(status: Option<string>, shown: string)
  datatype Replies = Replies(telegram: TelegramReply, token: TokenReply, wecom: WecomReply, notifyx: NotifyxReply)

  // ---------------------------------------------------------------------------
  // Telegram
  // ---------------------------------------------------------------------------

  function TelegramUrl(botToken: string): string
  {
    "https://api.telegram.org/bot" + botToken + "/sendMessage"
  }

  /** `send_telegram_notification` (lines 30-67). */
  function SendTelegram(message: string, config: Config, reply: TelegramReply): (d: Delivery)
    ensures var token, chat := Prefer(config, "TG_BOT_TOKEN", "TELEGRAM_BOT_TOKEN"), Prefer(config, "TG_CHAT_ID", "TELEGRAM_CHAT_ID");
      && (token == "" || chat == "" <==> d.calls == [])
      && (d.calls == [] ==> d == Delivery(false, TelegramUnconfigured, []))
      && (d.calls != [] ==> d.calls == [PostJson(TelegramUrl(token), TelegramMessage(chat, message, "Markdown"))])
    ensures d.success <==> d.calls != [] && reply.TelegramAnswer? && reply.ok
    ensures d.success ==> d.error == ""
    ensures !d.success && d.calls != [] && reply.TelegramAnswer? ==>
      d.error == TelegramApiError + reply.description.GetOr(UnknownError)
  {
    var token := Prefer(config, "TG_BOT_TOKEN", "TELEGRAM_BOT_TOKEN");
    var chat := Prefer(config, "TG_CHAT_ID", "TELEGRAM_CHAT_ID");
    if token == "" || chat == "" then Delivery(false, TelegramUnconfigured, [])
    else
      var calls := [PostJson(TelegramUrl(token), TelegramMessage(chat, message, "Markdown"))];
      match reply
      case TelegramRaised(m) => Delivery(false, SendFailed + m, calls)
      case TelegramAnswer(ok, description) =>
        if ok then Delivery(true, "", calls)
        else Delivery(false, TelegramApiError + description.GetOr(UnknownError), calls)
  }

  // ---------------------------------------------------------------------------
  // WeCom
  // ---------------------------------------------------------------------------

  function TokenUrl(corpId: string, corpSecret: string): string
  {
    "https://qyapi.weixin.qq.com/cgi-bin/gettoken?corpid=" + corpId + "&corpsecret=" + corpSecret
  }

  function WecomSendUrl(accessToken: string): string
  {
    "https://qyapi.weixin.qq.com/cgi-bin/message/send?access_token=" + accessToken
  }

  /** `(access_token, error)` with the requests made. */
  datatype Fetched = Fetched(token: Option<string>, error: string, calls: seq<HttpCall>)

  /** `get_wecom_access_token(config)` (lines 69-93). */
  function WecomAccessToken(config: Config, reply: TokenReply): (f: Fetched)
    ensures Setting(config, "WECOM_CORP_ID") == "" || Setting(config, "WECOM_CORP_SECRET") == "" ==>
      f == Fetched(None, TokenCredentialsMissing, [])
    ensures Setting(config, "WECOM_CORP_ID") != "" && Setting(config, "WECOM_CORP_SECRET") != "" ==>
      f.calls == [Get(TokenUrl(config["WECOM_CORP_ID"], config["WECOM_CORP_SECRET"]))]
    ensures f.token.Some? <==> f.calls != [] && reply.TokenAnswer? && reply.httpOk && reply.errcode == Some(0) && reply.accessToken.Some?
    ensures f.token.Some? ==> f.token == reply.accessToken && f.error == ""
  {
    var corpId, corpSecret := Setting(config, "WECOM_CORP_ID"), Setting(config, "WECOM_CORP_SECRET");
    if corpId == "" || corpSecret == "" then Fetched(None, TokenCredentialsMissing, [])
    else
      var calls := [Get(TokenUrl(corpId, corpSecret))];
      match reply
      case TokenRaised(m) => Fetched(None, TokenFetchFailed + m, calls)
      case TokenAnswer(httpOk, status, errcode, errmsg, accessToken) =>
        if !httpOk then Fetched(None, "HTTP错误 " + IntToString(status), calls)
        else if errcode != Some(0) then Fetched(None, CodeError(errcode, errmsg), calls)
        else Fetched(accessToken, "", calls)
  }

  /** Line 122: every '*' dropped, then each "\n\n" found scanning left to right becomes "\n". */
  function WecomContent(message: string): string
  {
    ReplaceAll(RemoveChar(message, '*'), Paragraph, "\n")
  }

  /** A message without markup and without blank lines is sent as it is. */
  lemma WecomContentPlain(message: string)
    requires '*' !in message
    requires forall i :: 0 <= i <= |message| - 2 ==> !OccursAt(message, Paragraph, i)
    ensures WecomContent(message) == message
  {
    RemoveCharAbsent(message, '*');
    ReplaceAllAbsent(message, Paragraph, "\n");
  }

  /** The replacement does not rescan its own output: three newlines keep a blank line. */
  lemma WecomContentThreeNewlines()
    ensures WecomContent("a\n\n\nb") == "a\n\nb"
  {
    var s := "a\n\n\nb";
    RemoveCharAbsent(s, '*');
    assert !OccursAt(s, Paragraph, 0);
    assert ReplaceAll(s, Paragraph, "\n") == "a" + ReplaceAll(s[1..], Paragraph, "\n");
    assert OccursAt(s[1..], Paragraph, 0);
    assert s[1..][2..] == "\nb";
    assert !OccursAt("\nb", Paragraph, 0);
    assert ReplaceAll("\nb", Paragraph, "\n") == "\n" + ReplaceAll("b", Paragraph, "\n");
  }

  /** `send_wecom_notification` (lines 95-139). */
  function SendWecom(message: string, config: Config, tokenReply: TokenReply, reply: WecomReply): (d: Delivery)
    ensures Setting(config, "WECOM_CORP_ID") == "" || Setting(config, "WECOM_CORP_SECRET") == "" || Setting(config, "WECOM_AGENT_ID") == "" ==>
      d == Delivery(false, WecomUnconfigured, [])
    ensures d.success ==>
      var f := WecomAccessToken(config, tokenReply);
      && f.token.Some? && f.token.value != ""
      && ParseInt(config["WECOM_AGENT_ID"]).Some?
      && d.calls == f.calls + [PostJson(WecomSendUrl(f.token.value),
           WecomText(if "WECOM_TO_USER" in config then config["WECOM_TO_USER"] else "@all", "text",
                     ParseInt(config["WECOM_AGENT_ID"]).value, WecomContent(message)))]
    ensures d.success <==> |d.calls| == 2 && reply.WecomAnswer? && reply.errcode == Some(0)
  {
    var agent := Setting(config, "WECOM_AGENT_ID");
    if Setting(config, "WECOM_CORP_ID") == "" || Setting(config, "WECOM_CORP_SECRET") == "" || agent == "" then
      Delivery(false, WecomUnconfigured, [])
    else
      var f := WecomAccessToken(config, tokenReply);
      if f.token.None? || f.token.value == "" then Delivery(false, TokenUnavailable + f.error, f.calls)
      else match ParseInt(agent)
        case None => Delivery(false, SendFailed + IntLiteralError(agent), f.calls)
        case Some(agentid) =>
          var touser := if "WECOM_TO_USER" in config then config["WECOM_TO_USER"] else "@all";
          var calls := f.calls + [PostJson(WecomSendUrl(f.token.value), WecomText(touser, "text", agentid, WecomContent(message)))];
          match reply
          case WecomRaised(m) => Delivery(false, SendFailed + m, calls)
          case WecomAnswer(errcode, errmsg) =>
            if errcode != Some(0) then Delivery(false, CodeError(errcode, errmsg), calls)
            else Delivery(true, "", calls)
  }

  // ---------------------------------------------------------------------------
  // NotifyX
  // ---------------------------------------------------------------------------

  /** Lines 159-161: the text before the first blank line, without '*', as the title; the
      text after it as the content, or "无内容" when there is no blank line. */
  function NotifyxParts(message: string): (p: (string, string))
    ensures '*' !in p.0
    ensures (forall i :: 0 <= i <= |message| - 2 ==> !OccursAt(message, Paragraph, i)) ==>
      p == (RemoveChar(message, '*'), NoContent)
    ensures !(forall i :: 0 <= i <= |message| - 2 ==> !OccursAt(message, Paragraph, i)) ==>
      exists head :: message == head + Paragraph + p.1 && p.0 == RemoveChar(head, '*')
                     && forall i :: 0 <= i < |head| ==> !OccursAt(message, Paragraph, i)
  {
    match SplitOnce(message, Paragraph)
    case None => (RemoveChar(message, '*'), NoContent)
    case Some((head, rest)) => (RemoveChar(head, '*'), rest)
  }

  function NotifyxUrl(token: string): string
  {
    "https://www.notifyx.cn/api/v1/send/" + token
  }

  /** `send_notifyx_notification` (lines 141-188). */
  function SendNotifyx(message: string, config: Config, reply: NotifyxReply): (d: Delivery)
    ensures var token := Prefer(config, "NOTIFYX_TOKEN", "NOTIFYX_API_KEY");
      && (token == "" <==> d.calls == [])
      && (token == "" ==> d == Delivery(false, NotifyxUnconfigured, []))
      && (token != "" ==>
            d.calls == [PostJson(NotifyxUrl(token), NotifyxMessage(NotifyxParts(message).0, NotifyxParts(message).1, NotifyxDescription))])
    ensures d.success <==> d.calls != [] && reply.NotifyxAnswer? && reply.status == Some("queued")
    ensures !d.success && d.calls != [] && reply.NotifyxAnswer? ==> d.error == reply.shown
  {
    var token := Prefer(config, "NOTIFYX_TOKEN", "NOTIFYX_API_KEY");
    if token == "" then Delivery(false, NotifyxUnconfigured, [])
    else
      var (title, content) := NotifyxParts(message);
      var calls := [PostJson(NotifyxUrl(token), NotifyxMessage(title, content, NotifyxDescription))];
      match reply
      case NotifyxRaised(m) => Delivery(false, SendFailed + m, calls)
      case NotifyxAnswer(status, shown) =>
        if status == Some("queued") then Delivery(true, "", calls) else Delivery(false, shown, calls)
  }

  // ---------------------------------------------------------------------------
  // Dispatch
  // ---------------------------------------------------------------------------

  /** `config.get('NOTIFICATION_TYPE', 'telegram')` */
  function Channel(config: Config): string
  {
    if "NOTIFICATION_TYPE" in config then config["NOTIFICATION_TYPE"] else "telegram"
  }

  /** `send_notification(message, config)` (lines 9-28): whichever channel is named, and no
      request at all for a name it does not know. */
  function SendNotification(message: string, config: Config, replies: Replies): (d: Delivery)
    ensures Channel(config) == "telegram" ==> d == SendTelegram(message, config, replies.telegram)
    ensures Channel(config) == "wecom" ==> d == SendWecom(message, config, replies.token, replies.wecom)
    ensures Channel(config) == "notifyx" ==> d == SendNotifyx(message, config, replies.notifyx)
    ensures Channel(config) !in {"telegram", "wecom", "notifyx"} ==> d == Delivery(false, UnknownType + Channel(config), [])
    ensures "NOTIFICATION_TYPE" !in config ==> d == SendTelegram(message, config, replies.telegram)
  {
    var kind := Channel(config);
    if kind == "telegram" then SendTelegram(message, config, replies.telegram)
    else if kind == "wecom" then SendWecom(message, config, replies.token, replies.wecom)
    else if kind == "notifyx" then SendNotifyx(message, config, replies.notifyx)
    else Delivery(false, UnknownType + kind, [])
  }

  /** At most one request is made before the reply decides the outcome, except on WeCom,
      which first fetches a token; and nothing is sent without credentials. */
  lemma DeliveryCallCount(message: string, config: Config, replies: Replies)
    ensures |SendNotification(message, config, replies).calls| <= 2
    ensures Channel(config) != "wecom" ==> |SendNotification(message, config, replies).calls| <= 1
  {
  }

  // ---------------------------------------------------------------------------
  // The scheduled check
  // ---------------------------------------------------------------------------

  /** A subscription to remind about, with its remaining days. */
  datatype Reminder = Reminder(sub: Subscription, days: int)

  /** What the check decides for one subscription: the renewed record to write back, and the
      reminder to include. */
  datatype Verdict = Verdict(renewed: Option<Subscription>, reminder: Option<Reminder>)

  /** The AttributeError of `None.replace` when a renewal finds no start date. */
  const NoStartDate: string := "'NoneType' object has no attribute 'replace'"

  predicate Renewable(s: Subscription)
  {
    s.periodValue != 0 && s.periodUnit != "" && s.recurring
  }

  function Renewed(s: Subscription, iso: string): Subscription
  {
    s.(expiryDate := Some(iso))
  }

  /** Lines 203-241 on one subscription, or the exception they raise. */
  function Judge(s: Subscription, now: DateTime): Result<Verdict, string>
  {
    if !s.isActive then Ok(Verdict(None, None))
    else
      match DaysRemaining(s, now)
      case Err(m) => Err(m)
      case Ok(days) =>
        if days < 0 && Renewable(s) then
          match ExpiryOf(s, now)
          case NoStart => Err(NoStartDate)
          case Raises(m) => Err(m)
          case Expires(iso) =>
            var u := Renewed(s, iso);
            match DaysRemaining(u, now)
            case Err(m) => Err(m)
            case Ok(later) => Ok(Verdict(Some(u), if later <= s.reminderDays then Some(Reminder(u, later)) else None))
        else if 0 <= days <= s.reminderDays then Ok(Verdict(None, Some(Reminder(s, days))))
        else Ok(Verdict(None, None))
  }

  /** The selection rules: inactive subscriptions are skipped; one due within its reminder
      window is reminded; a lapsed recurring one is renewed and reminded only if its new
      expiry falls within the window; any other lapsed one is left alone. A reminder never
      exceeds the window, and after a forward-moving renewal it is never negative. */
  lemma JudgeMeaning(s: Subscription, now: DateTime)
    ensures var r := Judge(s, now);
      && (!s.isActive ==> r == Ok(Verdict(None, None)))
      && (s.isActive && DaysRemaining(s, now).Err? ==> r == Err(DaysRemaining(s, now).error))
      && (s.isActive && DaysRemaining(s, now).Ok? && 0 <= DaysRemaining(s, now).value <= s.reminderDays ==>
            r == Ok(Verdict(None, Some(Reminder(s, DaysRemaining(s, now).value)))))
      && (s.isActive && DaysRemaining(s, now).Ok? && DaysRemaining(s, now).value < 0 && !Renewable(s) ==>
            r == Ok(Verdict(None, None)))
    ensures var r := Judge(s, now);
      r.Ok? && r.value.renewed.Some? ==>
      && s.isActive && Renewable(s) && DaysRemaining(s, now).Ok? && DaysRemaining(s, now).value < 0
      && ExpiryOf(s, now).Expires?
      && r.value.renewed == Some(Renewed(s, ExpiryOf(s, now).iso))
      && var later := DaysRemaining(r.value.renewed.value, now);
         later.Ok? && (r.value.reminder.Some? <==> later.value <= s.reminderDays)
         && (r.value.reminder.Some? ==> r.value.reminder.value == Reminder(r.value.renewed.value, later.value))
    ensures var r := Judge(s, now);
      r.Ok? && r.value.reminder.Some? ==> r.value.reminder.value.days <= s.reminderDays
    ensures var r := Judge(s, now);
      r.Ok? && r.value.reminder.Some? && IsKnownUnit(s.periodUnit) && s.periodValue > 0 ==>
      r.value.reminder.value.days >= 0
  {
    JudgeWithoutRenewal(s, now);
    JudgeRenewal(s, now);
    JudgeWithinWindow(s, now);
    JudgeNotNegative(s, now);
  }

  lemma JudgeWithoutRenewal(s: Subscription, now: DateTime)
    ensures var r := Judge(s, now);
      && (!s.isActive ==> r == Ok(Verdict(None, None)))
      && (s.isActive && DaysRemaining(s, now).Err? ==> r == Err(DaysRemaining(s, now).error))
      && (s.isActive && DaysRemaining(s, now).Ok? && 0 <= DaysRemaining(s, now).value <= s.reminderDays ==>
            r == Ok(Verdict(None, Some(Reminder(s, DaysRemaining(s, now).value)))))
      && (s.isActive && DaysRemaining(s, now).Ok? && DaysRemaining(s, now).value < 0 && !Renewable(s) ==>
            r == Ok(Verdict(None, None)))
  {
  }

  lemma JudgeRenewal(s: Subscription, now: DateTime)
    ensures var r := Judge(s, now);
      r.Ok? && r.value.renewed.Some? ==>
      && s.isActive && Renewable(s) && DaysRemaining(s, now).Ok? && DaysRemaining(s, now).value < 0
      && ExpiryOf(s, now).Expires?
      && r.value.renewed == Some(Renewed(s, ExpiryOf(s, now).iso))
      && var later := DaysRemaining(r.value.renewed.value, now);
         later.Ok? && (r.value.reminder.Some? <==> later.value <= s.reminderDays)
         && (r.value.reminder.Some? ==> r.value.reminder.value == Reminder(r.value.renewed.value, later.value))
  {
  }

  lemma JudgeWithinWindow(s: Subscription, now: DateTime)
    ensures var r := Judge(s, now);
      r.Ok? && r.value.reminder.Some? ==> r.value.reminder.value.days <= s.reminderDays
  {
  }

  lemma JudgeNotNegative(s: Subscription, now: DateTime)
    ensures var r := Judge(s, now);
      r.Ok? && r.value.reminder.Some? && IsKnownUnit(s.periodUnit) && s.periodValue > 0 ==>
      r.value.reminder.value.days >= 0
  {
    var r := Judge(s, now);
    if r.Ok? && r.value.reminder.Some? && r.value.renewed.Some? && IsKnownUnit(s.periodUnit) && s.periodValue > 0 {
      CalculatedExpiryIsNotPast(s, now);
    }
  }

  function Listed<T>(o: Option<T>): seq<T>
  {
    if o.Some? then [o.value] else []
  }

  /** The two lists the selection loop builds, in input order, or the first exception. */
  datatype Selection = Selection(reminders: seq<Reminder>, renewals: seq<Subscription>)

  /** One verdict in front of the rest of the selection; the first exception wins. */
  function Prepend(verdict: Result<Verdict, string>, rest: Result<Selection, string>): Result<Selection, string>
  {
    match verdict
    case Err(m) => Err(m)
    case Ok(v) =>
      match rest
      case Err(m) => Err(m)
      case Ok(more) => Ok(Selection(Listed(v.reminder) + more.reminders, Listed(v.renewed) + more.renewals))
  }

  function Select(xs: seq<Subscription>, now: DateTime): Result<Selection, string>
  {
    if |xs| == 0 then Ok(Selection([], [])) else Prepend(Judge(xs[0], now), Select(xs[1..], now))
  }

  /** Every reminder is of an active subscription and within its reminder window, and there is
      at most one reminder and one renewal per subscription. */
  lemma {:induction false} SelectedAreDue(xs: seq<Subscription>, now: DateTime)
    requires Select(xs, now).Ok?
    ensures forall r :: r in Select(xs, now).value.reminders ==> r.sub.isActive && r.days <= r.sub.reminderDays
    ensures forall u :: u in Select(xs, now).value.renewals ==> u.isActive && Renewable(u)
    ensures |Select(xs, now).value.reminders| <= |xs| && |Select(xs, now).value.renewals| <= |xs|
  {
    if |xs| > 0 {
      JudgeMeaning(xs[0], now);
      SelectedAreDue(xs[1..], now);
    }
  }

  /** The update request `to_dict()` makes of a record: every key present. */
  function RequestOf(s: Subscription): Request
  {
    Request(s.name, Some(s.customType), Some(s.notes), s.startDate, Some(s.periodValue), Some(s.periodUnit),
      Some(s.reminderDays), Some(s.isActive), Some(s.amount), Some(s.paymentMethod), Some(s.recurring))
  }

  /** Writing a renewal back through `update_subscription` recomputes the same expiry, so the
      stored record is the renewed one with a new update time. */
  lemma RenewalWritesRenewed(s: Subscription, now: DateTime)
    requires ValidDateTime(now) && Truthy(s.startDate) && ExpiryOf(s, now).Expires?
    ensures Revised(s, RequestOf(Renewed(s, ExpiryOf(s, now).iso)), now)
         == Ok(Renewed(s, ExpiryOf(s, now).iso).(updatedAt := FormatIso(now)))
  {
    var u := Renewed(s, ExpiryOf(s, now).iso);
    assert Patched(s, RequestOf(u)) == s;
  }

  /** The file after the renewal loop of lines 244-248. */
  function Replay(saved: seq<Subscription>, renewals: seq<Subscription>, now: DateTime): (r: seq<Subscription>)
    requires forall i :: 0 <= i < |saved| ==> Identified(saved[i])
    requires ValidDateTime(now)
    ensures forall i :: 0 <= i < |r| ==> Identified(r[i])
  {
    if |renewals| == 0 then saved
    else
      var last := renewals[|renewals| - 1];
      AfterUpdate(Replay(saved, renewals[..|renewals| - 1], now), last.id, RequestOf(last), now)
  }

  // ---------------------------------------------------------------------------
  // The reminder message
  // ---------------------------------------------------------------------------

  const ReminderHeader: string := "*订阅到期提醒*\n\n"
  const ReminderTitle: string := "订阅到期提醒"
  const TodayMark: char := '⚠'

  /** The unit names of line 264; others are shown as they are. */
  function UnitWord(unit: string): (w: string)
    ensures unit !in {"day", "month", "year"} ==> w == unit
  {
    if unit == "day" then "天" else if unit == "month" then "月" else if unit == "year" then "年" else unit
  }

  function PeriodInfo(s: Subscription): (p: string)
    ensures p == "" <==> s.periodValue == 0 || s.periodUnit == ""
  {
    if s.periodValue != 0 && s.periodUnit != "" then
      "(周期: " + IntToString(s.periodValue) + " " + UnitWord(s.periodUnit) + ")"
    else ""
  }

  /** `showAmount` stands for Python's printing of the float amount. */
  function AmountInfo(s: Subscription, showAmount: real -> string): (a: string)
    ensures a == "" <==> s.amount <= 0.0
  {
    if s.amount > 0.0 then "💰 ￥" + showAmount(s.amount) else ""
  }

  function TypeText(s: Subscription): string
  {
    if s.customType != "" then s.customType else OtherType
  }

  /** The first line of an entry (lines 272-275). */
  function Headline(r: Reminder, showAmount: real -> string): string
  {
    var s := r.sub;
    var shown := "*" + ShowField(s.name) + "* (" + TypeText(s) + ") " + PeriodInfo(s);
    if r.days == 0 then "⚠️ " + shown + " 今天到期！ " + AmountInfo(s, showAmount) + "\n"
    else "📅 " + shown + " 将在 " + IntToString(r.days) + " 天后到期 " + AmountInfo(s, showAmount) + "\n"
  }

  function NotesLine(s: Subscription): (n: string)
    ensures n == "" <==> s.notes == ""
  {
    if s.notes != "" then "备注: " + s.notes + "\n" else ""
  }

  /** One entry of lines 257-280: headline, notes line, blank line. */
  function Entry(r: Reminder, showAmount: real -> string): string
  {
    Headline(r, showAmount) + NotesLine(r.sub) + "\n"
  }

  /** An entry opens with the warning sign exactly when the subscription expires today, and
      ends its headline (and notes line, if any) with a blank line. */
  lemma EntryShape(r: Reminder, showAmount: real -> string)
    ensures var e := Entry(r, showAmount); |e| >= 2 && e[|e| - 2..] == Paragraph
    ensures Entry(r, showAmount)[0] == TodayMark <==> r.days == 0
  {
    var h, n := Headline(r, showAmount), NotesLine(r.sub);
    var e := h + n + "\n";
    assert h[|h| - 1] == '\n';
    if n == "" {
      assert e[|e| - 2..] == [h[|h| - 1], '\n'];
    } else {
      assert n[|n| - 1] == '\n';
      assert e[|e| - 2..] == [n[|n| - 1], '\n'];
    }
    assert e[0] == h[0];
  }

  function Entries(rs: seq<Reminder>, showAmount: real -> string): string
  {
    if |rs| == 0 then "" else Entries(rs[..|rs| - 1], showAmount) + Entry(rs[|rs| - 1], showAmount)
  }

  function ReminderMessage(rs: seq<Reminder>, showAmount: real -> string): string
  {
    ReminderHeader + Entries(rs, showAmount)
  }

  /** One more reminder appends exactly its entry: entries follow the reminders' order. */
  lemma MessageAppends(rs: seq<Reminder>, r: Reminder, showAmount: real -> string)
    ensures ReminderMessage(rs + [r], showAmount) == ReminderMessage(rs, showAmount) + Entry(r, showAmount)
  {
    assert (rs + [r])[..|rs|] == rs;
  }

  lemma MessagePrefix(rs: seq<Reminder>, i: nat, showAmount: real -> string)
    requires i < |rs|
    ensures ReminderMessage(rs[..i + 1], showAmount) == ReminderMessage(rs[..i], showAmount) + Entry(rs[i], showAmount)
  {
    var p := rs[..i + 1];
    assert p[..i] == rs[..i];
    assert p[i] == rs[i];
    assert |p| == i + 1;
  }

  /** On NotifyX the header becomes the title and everything after it the content. */
  lemma NotifyxSplitsHeader(body: string)
    ensures NotifyxParts(ReminderHeader + body) == (ReminderTitle, body)
  {
    var head := "*" + ReminderTitle + "*";
    var m := head + Paragraph + body;
    assert ReminderHeader + body == m;
    assert OccursAt(m, Paragraph, 8);
    forall i | 0 <= i < 8
      ensures !OccursAt(m, Paragraph, i)
    {
      assert m[i] == head[i];
    }
    var split := SplitOnce(m, Paragraph);
    var (a, b) := split.value;
    assert OccursAt(m, Paragraph, |a|) by {
      assert m[|a|..|a| + 2] == Paragraph;
    }
    assert |a| == 8;
    assert a == head by {
      assert m[..8] == head;
    }
    assert b == body by {
      assert m[10..] == body;
    }
    TitleWithoutStars();
  }

  lemma TitleWithoutStars()
    ensures RemoveChar("*" + ReminderTitle + "*", '*') == ReminderTitle
  {
    var star, title := "*", ReminderTitle;
    assert star + title + star == star + (title + star);
    RemoveCharAppend(star, title + star, '*');
    RemoveCharAppend(title, star, '*');
    assert RemoveChar(star, '*') == "";
    assert '*' !in title;
    RemoveCharAbsent(title, '*');
  }

  lemma NotifyxSplitsReminder(rs: seq<Reminder>, showAmount: real -> string)
    ensures NotifyxParts(ReminderMessage(rs, showAmount)) == (ReminderTitle, Entries(rs, showAmount))
  {
    NotifyxSplitsHeader(Entries(rs, showAmount));
  }

  lemma AppendThree(m: string, a: string, b: string, c: string)
    ensures m + a + b + c == m + (a + b + c)
  {
  }

  /** The `message +=` loop of lines 254-280. */
  method BuildMessage(rs: seq<Reminder>, showAmount: real -> string) returns (message: string)
    ensures message == ReminderMessage(rs, showAmount)
  {
    message := ReminderHeader;
    var i := 0;
    while i < |rs|
      invariant 0 <= i <= |rs|
      invariant message == ReminderMessage(rs[..i], showAmount)
    {
      MessagePrefix(rs, i, showAmount);
      ghost var before := message;
      var headline, notes := Headline(rs[i], showAmount), NotesLine(rs[i].sub);
      message := message + headline;
      message := message + notes;
      message := message + "\n";
      AppendThree(before, headline, notes, "\n");
      i := i + 1;
    }
    assert rs[..i] == rs;
  }

  /** The body of the selection loop (lines 204-241) for one subscription: the imperative form
      that `SelectDue` runs, renewing through `CalculateExpiryDate`; `Judge` is its specification. */
  method Examine(s: Subscription, now: DateTime) returns (r: Result<Verdict, string>)
    ensures r == Judge(s, now)
  {
    if !s.isActive {
      return Ok(Verdict(None, None));
    }
    var days := DaysRemaining(s, now);
    if days.Err? {
      return Err(days.error);
    }
    if days.value < 0 && Renewable(s) {
      var expiry := CalculateExpiryDate(s, now);
      if expiry.NoStart? {
        return Err(NoStartDate);
      }
      if expiry.Raises? {
        return Err(expiry.error);
      }
      var u := Renewed(s, expiry.iso);
      var later := DaysRemaining(u, now);
      if later.Err? {
        return Err(later.error);
      }
      r := Ok(Verdict(Some(u), if later.value <= s.reminderDays then Some(Reminder(u, later.value)) else None));
    } else if 0 <= days.value <= s.reminderDays {
      r := Ok(Verdict(None, Some(Reminder(s, days.value))));
    } else {
      r := Ok(Verdict(None, None));
    }
  }

  /** The lists gathered so far followed by what the rest of the loop would gather. */
  function Combine(reminders: seq<Reminder>, renewals: seq<Subscription>, rest: Result<Selection, string>): Result<Selection, string>
  {
    match rest
    case Err(m) => Err(m)
    case Ok(more) => Ok(Selection(reminders + more.reminders, renewals + more.renewals))
  }

  lemma CombineEmpty(r: Result<Selection, string>)
    ensures Combine([], [], r) == r
  {
    if r.Ok? {
      assert [] + r.value.reminders == r.value.reminders;
      assert [] + r.value.renewals == r.value.renewals;
    }
  }

  /** Moving one verdict from the rest of the loop into the lists gathered so far. */
  lemma CombinePrepend(reminders: seq<Reminder>, renewals: seq<Subscription>, verdict: Result<Verdict, string>,
                       rest: Result<Selection, string>)
    ensures verdict.Err? ==> Combine(reminders, renewals, Prepend(verdict, rest)) == Err(verdict.error)
    ensures verdict.Ok? ==>
      Combine(reminders, renewals, Prepend(verdict, rest))
      == Combine(reminders + Listed(verdict.value.reminder), renewals + Listed(verdict.value.renewed), rest)
  {
    if verdict.Ok? && rest.Ok? {
      var v, more := verdict.value, rest.value;
      assert reminders + (Listed(v.reminder) + more.reminders) == reminders + Listed(v.reminder) + more.reminders;
      assert renewals + (Listed(v.renewed) + more.renewals) == renewals + Listed(v.renewed) + more.renewals;
    }
  }

  /** The selection loop of lines 203-241, appending to the reminder and renewal lists. */
  method SelectDue(xs: seq<Subscription>, now: DateTime) returns (r: Result<Selection, string>)
    ensures r == Select(xs, now)
  {
    var reminders: seq<Reminder> := [];
    var renewals: seq<Subscription> := [];
    var i := 0;
    assert xs[i..] == xs;
    CombineEmpty(Select(xs, now));
    while i < |xs|
      invariant 0 <= i <= |xs|
      invariant Select(xs, now) == Combine(reminders, renewals, Select(xs[i..], now))
    {
      assert xs[i..][1..] == xs[i + 1..];
      CombinePrepend(reminders, renewals, Judge(xs[i], now), Select(xs[i + 1..], now));
      var verdict := Examine(xs[i], now);
      if verdict.Err? {
        return Err(verdict.error);
      }
      reminders := reminders + Listed(verdict.value.reminder);
      renewals := renewals + Listed(verdict.value.renewed);
      i := i + 1;
    }
    assert xs[i..] == [];
    assert reminders + [] == reminders && renewals + [] == renewals;
    r := Ok(Selection(reminders, renewals));
  }

  /** The message sent and what came of sending it. */
  datatype Sent = Sent(message: string, delivery: Delivery)

  /** The write-back loop of lines 243-248: each renewal is saved through `update_subscription`
      in turn. */
  method ApplyRenewals(store: SubscriptionStore, renewals: seq<Subscription>, now: DateTime)
    requires store.Valid() && ValidDateTime(now)
    modifies store
    ensures store.Valid()
    ensures store.saved == Replay(old(store.saved), renewals, now)
  {
    var k := 0;
    while k < |renewals|
      invariant 0 <= k <= |renewals|
      invariant store.Valid()
      invariant store.saved == Replay(old(store.saved), renewals[..k], now)
    {
      assert renewals[..k + 1][..k] == renewals[..k];
      var ignored := store.UpdateSubscription(renewals[k].id, RequestOf(renewals[k]), now);
      k := k + 1;
    }
    assert renewals[..k] == renewals;
  }

  /** Lines 250-288: nothing is sent without reminders; otherwise the message is built and
      sent on the configured channel. */
  method Notify(reminders: seq<Reminder>, config: Config, replies: Replies, showAmount: real -> string)
    returns (sent: Option<Sent>)
    ensures reminders == [] <==> sent.None?
    ensures sent.Some? ==>
      sent.value.message == ReminderMessage(reminders, showAmount)
      && sent.value.delivery == SendNotification(sent.value.message, config, replies)
  {
    if |reminders| > 0 {
      var message := BuildMessage(reminders, showAmount);
      var delivery := SendNotification(message, config, replies);
      sent := Some(Sent(message, delivery));
    } else {
      sent := None;
    }
  }

  /** `check_expiring_subscriptions()` (lines 190-294) over the store, with the clock, the
      configuration and the channel replies as parameters. */
  method CheckExpiringSubscriptions(store: SubscriptionStore, config: Config, now: DateTime, replies: Replies,
                                    showAmount: real -> string)
    returns (ok: bool, sent: Option<Sent>)
    requires store.Valid() && ValidDateTime(now)
    modifies store
    ensures store.Valid()
    ensures ok <==> Select(old(store.Loaded()), now).Ok?
    ensures !ok ==> store.saved == old(store.saved) && sent.None?
    ensures ok ==>
      var chosen := Select(old(store.Loaded()), now).value;
      && store.saved == Replay(old(store.saved), chosen.renewals, now)
      && (chosen.reminders == [] <==> sent.None?)
      && (sent.Some? ==>
            sent.value.message == ReminderMessage(chosen.reminders, showAmount)
            && sent.value.delivery == SendNotification(sent.value.message, config, replies))
  {
    var xs := store.Loaded();
    var chosen := SelectDue(xs, now);
    if chosen.Err? {
      return false, None;
    }
    ApplyRenewals(store, chosen.value.renewals, now);
    sent := Notify(chosen.value.reminders, config, replies, showAmount);
    ok := true;
  }
}
