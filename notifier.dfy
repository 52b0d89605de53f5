/** The notifier's business logic (src/services/notifier.js): the two-step callback
    registration, the legacy one-step create, partial updates, the read-only projection,
    sending a notification and the two webhook handlers. The module-level `db`, `crypto` and
    `wechat` singletons are the fields of a `Service` object; uuid codes, random IVs, the clock
    and every reply from WeChat are parameters. */
module Notifier {
  import opened Wrappers
  import opened Text
  import Hex
  import SC = SecretCipher
  import CT = ConfigTable
  import WC = WeChatClient

  const DefaultEncryptionKey: string := "default-key-for-development-only"
  const EncodingKeyLength: nat := 43

  const CallbackParamsIncomplete: string := "回调配置参数不完整"
  const BadKeyLength: string := "EncodingAESKey必须是43位字符"
  const CallbackUpdated: string := "回调配置已更新"
  const ParamsIncomplete: string := "参数不完整"
  const NoCallbackConfig: string := "回调配置不存在，请先生成回调URL"
  const CallbackNeedsSecrets: string := "启用回调时必须提供回调Token和EncodingAESKey"
  const ConfigUpdated: string := "配置已更新"
  const UnknownCode: string := "无效的code，未找到配置"
  const UpdateSucceeded: string := "配置更新成功"
  const CallbackDisabled: string := "回调未启用或配置不存在"
  const CallbackConfigIncomplete: string := "回调配置不完整"

  // ---------------------------------------------------------------------------
  // JavaScript values
  // ---------------------------------------------------------------------------

  /** A string argument is truthy when present and not empty. */
  predicate Truthy(v: Option<string>) { v.Some? && v.value != "" }

  /** A numeric argument is truthy when present and not 0. */
  predicate TruthyInt(v: Option<int>) { v.Some? && v.value != 0 }

  /** An array is always truthy; a string only when not empty. */
  predicate TruthyRecipients(v: Option<WC.Recipients>)
  {
    v.Some? && (v.value.Ids? || v.value.text != "")
  }

  /** `description || ''` */
  function Described(d: Option<string>): string { d.GetOr("") }

  /** `Array.isArray(touser) ? touser.join('|') : touser` */
  function FormatTouser(t: WC.Recipients): string
  {
    match t
    case Ids(ids) => Join(ids, "|")
    case Plain(text) => text
  }

  /** The stored recipient string reads back, split on '|', as the list it was made from. */
  lemma FormatTouserSplits(t: WC.Recipients)
    requires t.Ids? ==> |t.ids| >= 1 && forall k :: 0 <= k < |t.ids| ==> '|' !in t.ids[k]
    requires t.Plain? ==> '|' !in t.text
    ensures Split(FormatTouser(t), '|') == if t.Ids? then t.ids else [t.text]
  {
    if t.Ids? {
      SplitJoin(t.ids, '|');
    } else {
      SplitNoSeparator(t.text, '|');
    }
  }

  function CallbackUrl(code: string): string { "/api/callback/" + code }
  function NotifyUrl(code: string): string { "/api/notify/" + code }

  /** The text sent by `sendNotification`: the title on its own line, when there is one. */
  function ComposeMessage(title: Option<string>, content: string): (m: string)
    ensures !Truthy(title) ==> m == content
    ensures Truthy(title) ==> |m| == |title.value| + 1 + |content| && StartsWith(m, title.value)
  {
    if Truthy(title) then title.value + "\n" + content else content
  }

  /** A single-line title is recovered by splitting the message at its first line break. */
  lemma ComposeMessageSplits(title: string, content: string)
    requires title != "" && '\n' !in title
    ensures SplitOnce(ComposeMessage(Some(title), content), "\n") == Some((title, content))
  {
    var m := ComposeMessage(Some(title), content);
    assert OccursAt(m, "\n", |title|) by {
      assert m[|title|..|title| + 1] == "\n";
    }
    var r := SplitOnce(m, "\n");
    assert r.Some?;
    var (a, b) := r.value;
    assert m == a + "\n" + b;
    assert m[|a|] == '\n';
    assert forall i :: 0 <= i < |title| ==> m[i] == title[i] && m[i] != '\n';
    assert |a| == |title|;
    assert a == m[..|title|] == title;
    assert b == m[|title| + 1..] == content;
  }

  // ---------------------------------------------------------------------------
  // Requests and answers
  // ---------------------------------------------------------------------------

  /** The body of phase-1 registration. */
  datatype CallbackRequest = CallbackRequest(corpid: Option<string>, callbackToken: Option<string>,
                                             encodingAesKey: Option<string>)

  datatype Registration = Registration(code: string, callbackUrl: string, message: Option<string>)

  /** The body of phase-2 completion. */
  datatype CompletionRequest = CompletionRequest(code: Option<string>, corpsecret: Option<string>,
                                                 agentid: Option<int>, touser: Option<WC.Recipients>,
                                                 description: Option<string>)

  datatype Completion = Completion(code: string, apiUrl: string, callbackUrl: string)

  /** The body of the legacy one-step create; `callbackEnabled` is its truthiness. */
  datatype LegacyRequest = LegacyRequest(corpid: Option<string>, corpsecret: Option<string>,
                                         agentid: Option<int>, touser: Option<WC.Recipients>,
                                         description: Option<string>, callbackToken: Option<string>,
                                         encodingAesKey: Option<string>, callbackEnabled: bool)

  datatype Created = Created(code: string, apiUrl: string, message: Option<string>, callbackUrl: Option<string>)

  /** The body of a partial update. For `description` and `callbackToken` the outer None is
      `undefined` and `Some(None)` is `null`; `callbackEnabled` is None when undefined and
      otherwise the value's truthiness. */
  datatype Patch = Patch(corpid: Option<string>, corpsecret: Option<string>, agentid: Option<int>,
                         touser: Option<WC.Recipients>, description: Option<Option<string>>,
                         callbackToken: Option<Option<string>>, encodingAesKey: Option<string>,
                         callbackEnabled: Option<bool>)

  datatype UpdateAck = UpdateAck(message: string, code: string, callbackUrl: Option<string>)

  /** The projection `getConfiguration` returns. The encrypted secret and key have no field;
      `callbackToken` and `callbackUrl` are present only when the callback flag is set. */
  datatype ConfigView = ConfigView(code: string, corpid: string, agentid: int, touser: seq<string>,
                                   description: Option<string>, callbackEnabled: bool, createdAt: string,
                                   callbackToken: Option<Option<string>>, callbackUrl: Option<string>)

  /** The guard of phase-1 registration, applied before the store is read. */
  function RegistrationError(q: CallbackRequest): (e: Option<string>)
    ensures e.None? <==> Truthy(q.corpid) && Truthy(q.callbackToken) && Truthy(q.encodingAesKey)
                         && Utf16Length(q.encodingAesKey.value) == EncodingKeyLength
    ensures e.Some? && !(Truthy(q.corpid) && Truthy(q.callbackToken) && Truthy(q.encodingAesKey))
            ==> e.value == CallbackParamsIncomplete
    ensures e.Some? && Truthy(q.corpid) && Truthy(q.callbackToken) && Truthy(q.encodingAesKey)
            ==> e.value == BadKeyLength
  {
    if !Truthy(q.corpid) || !Truthy(q.callbackToken) || !Truthy(q.encodingAesKey) then Some(CallbackParamsIncomplete)
    else if Utf16Length(q.encodingAesKey.value) != EncodingKeyLength then Some(BadKeyLength)
    else None
  }

  /** The guard of phase-2 completion. */
  function CompletionError(q: CompletionRequest): (e: Option<string>)
    ensures e.None? <==> Truthy(q.code) && Truthy(q.corpsecret) && TruthyInt(q.agentid) && TruthyRecipients(q.touser)
    ensures e.Some? ==> e.value == ParamsIncomplete
  {
    if !Truthy(q.code) || !Truthy(q.corpsecret) || !TruthyInt(q.agentid) || !TruthyRecipients(q.touser)
    then Some(ParamsIncomplete) else None
  }

  /** The guard of the legacy create: the four required fields, then, when the callback is
      enabled, its token and a key of 43 code units. */
  function LegacyError(q: LegacyRequest): (e: Option<string>)
    ensures e.None? <==>
      (Truthy(q.corpid) && Truthy(q.corpsecret) && TruthyInt(q.agentid) && TruthyRecipients(q.touser)
       && (q.callbackEnabled ==> Truthy(q.callbackToken) && Truthy(q.encodingAesKey)
                                 && Utf16Length(q.encodingAesKey.value) == EncodingKeyLength))
    ensures !(Truthy(q.corpid) && Truthy(q.corpsecret) && TruthyInt(q.agentid) && TruthyRecipients(q.touser))
            ==> e == Some(ParamsIncomplete)
    ensures !q.callbackEnabled ==> e.None? || e == Some(ParamsIncomplete)
  {
    if !Truthy(q.corpid) || !Truthy(q.corpsecret) || !TruthyInt(q.agentid) || !TruthyRecipients(q.touser)
    then Some(ParamsIncomplete)
    else if q.callbackEnabled && (!Truthy(q.callbackToken) || !Truthy(q.encodingAesKey)) then Some(CallbackNeedsSecrets)
    else if q.callbackEnabled && Utf16Length(q.encodingAesKey.value) != EncodingKeyLength then Some(BadKeyLength)
    else None
  }

  /** `crypto.encrypt(text)` once it is known to succeed. */
  function Seal(crypto: SC.CryptoService, iv: seq<Hex.byte>, text: string): string
    requires |iv| == SC.IvLength && SC.KeyUsable(crypto.key)
  {
    crypto.Encrypt(iv, text).value
  }

  /** `callback_token || null` */
  function TokenOrNull(t: Option<string>): (r: Option<string>)
    ensures r.Some? <==> Truthy(t)
    ensures r.Some? ==> r == t
  {
    if Truthy(t) then t else None
  }

  /** The values the legacy create writes, for the row with code `code`. */
  function LegacySubmission(q: LegacyRequest, code: string, crypto: SC.CryptoService,
                            ivSecret: seq<Hex.byte>, ivKey: seq<Hex.byte>): (s: CT.Submission)
    requires LegacyError(q).None?
    requires |ivSecret| == SC.IvLength && |ivKey| == SC.IvLength && SC.KeyUsable(crypto.key)
    ensures s.code == code && s.corpid == q.corpid.value && s.agentid == q.agentid.value
    ensures s.touser == FormatTouser(q.touser.value) && s.description == Some(Described(q.description))
    ensures s.callbackToken == TokenOrNull(q.callbackToken)
    ensures s.callbackEnabled == if q.callbackEnabled then 1 else 0
    ensures s.encryptedEncodingAesKey.Some? <==> Truthy(q.encodingAesKey)
  {
    CT.Submission(code, q.corpid.value, Seal(crypto, ivSecret, q.corpsecret.value), q.agentid.value,
                  FormatTouser(q.touser.value), Some(Described(q.description)), TokenOrNull(q.callbackToken),
                  if Truthy(q.encodingAesKey) then Some(Seal(crypto, ivKey, q.encodingAesKey.value)) else None,
                  if q.callbackEnabled then 1 else 0)
  }

  function AllColumnsOf(s: CT.Submission): CT.Change
  {
    CT.AllColumns(s.corpid, s.encryptedCorpsecret, s.agentid, s.touser, s.description,
                  s.callbackToken, s.encryptedEncodingAesKey, s.callbackEnabled)
  }

  /** A partial update encrypts only what it is given. */
  predicate PatchSeals(p: Patch)
  {
    Truthy(p.corpsecret) || Truthy(p.encodingAesKey)
  }

  /** The eight columns `updateConfiguration` writes: corpid, agentid and touser fall back to the
      stored row on a falsy value; description, token and flag only on `undefined`; the secret
      and key are re-encrypted only when given. */
  function Patched(row: CT.Row, p: Patch, crypto: SC.CryptoService,
                   ivSecret: seq<Hex.byte>, ivKey: seq<Hex.byte>): (ch: CT.Change)
    requires |ivSecret| == SC.IvLength && |ivKey| == SC.IvLength
    requires PatchSeals(p) ==> SC.KeyUsable(crypto.key)
    ensures ch.AllColumns?
    ensures ch.corpid == if Truthy(p.corpid) then p.corpid.value else row.corpid
    ensures ch.agentid == if TruthyInt(p.agentid) then p.agentid.value else row.agentid
    ensures ch.touser == if TruthyRecipients(p.touser) then FormatTouser(p.touser.value) else row.touser
    ensures ch.description == if p.description.Some? then p.description.value else row.description
    ensures ch.callbackToken == if p.callbackToken.Some? then p.callbackToken.value else row.callbackToken
    ensures ch.callbackEnabled == if p.callbackEnabled.Some? then (if p.callbackEnabled.value then 1 else 0)
                                  else row.callbackEnabled
    ensures !Truthy(p.corpsecret) ==> ch.encryptedCorpsecret == row.encryptedCorpsecret
    ensures !Truthy(p.encodingAesKey) ==> ch.encryptedEncodingAesKey == row.encryptedEncodingAesKey
    ensures Truthy(p.corpsecret) ==> ch.encryptedCorpsecret == Seal(crypto, ivSecret, p.corpsecret.value)
    ensures Truthy(p.encodingAesKey) ==> ch.encryptedEncodingAesKey == Some(Seal(crypto, ivKey, p.encodingAesKey.value))
  {
    CT.AllColumns(
      if Truthy(p.corpid) then p.corpid.value else row.corpid,
      if Truthy(p.corpsecret) then Seal(crypto, ivSecret, p.corpsecret.value) else row.encryptedCorpsecret,
      if TruthyInt(p.agentid) then p.agentid.value else row.agentid,
      if TruthyRecipients(p.touser) then FormatTouser(p.touser.value) else row.touser,
      if p.description.Some? then p.description.value else row.description,
      if p.callbackToken.Some? then p.callbackToken.value else row.callbackToken,
      if Truthy(p.encodingAesKey) then Some(Seal(crypto, ivKey, p.encodingAesKey.value)) else row.encryptedEncodingAesKey,
      if p.callbackEnabled.Some? then (if p.callbackEnabled.value then 1 else 0) else row.callbackEnabled)
  }

  /** An update that switches a stored callback off still reports its callback URL, because
      the answer tests the new flag OR the stored one. */
  lemma DisablingUpdateReportsCallbackUrl(row: CT.Row, p: Patch)
    requires row.callbackEnabled != 0 && p.callbackEnabled == Some(false)
    ensures AckUrl(row, p, row.code).Some?
  {
  }

  /** The `callbackUrl` of the update's answer. */
  function AckUrl(row: CT.Row, p: Patch, code: string): (u: Option<string>)
    ensures u.Some? <==> p.callbackEnabled == Some(true) || row.callbackEnabled != 0
    ensures u.Some? ==> u.value == CallbackUrl(code)
  {
    if p.callbackEnabled == Some(true) || row.callbackEnabled != 0 then Some(CallbackUrl(code)) else None
  }

  /** The projection of a stored row. */
  function View(row: CT.Row): (v: ConfigView)
    ensures v.code == row.code && v.corpid == row.corpid && v.agentid == row.agentid
    ensures v.touser == Split(row.touser, '|') && v.description == row.description
    ensures v.createdAt == row.createdAt
    ensures v.callbackEnabled <==> row.callbackEnabled == 1
    ensures v.callbackUrl.Some? <==> row.callbackEnabled != 0
    ensures v.callbackToken.Some? <==> row.callbackEnabled != 0
    ensures row.callbackEnabled != 0 ==> v.callbackUrl == Some(CallbackUrl(row.code)) && v.callbackToken == Some(row.callbackToken)
  {
    var callback := row.callbackEnabled != 0;
    ConfigView(row.code, row.corpid, row.agentid, Split(row.touser, '|'), row.description,
               row.callbackEnabled == 1, row.createdAt,
               if callback then Some(row.callbackToken) else None,
               if callback then Some(CallbackUrl(row.code)) else None)
  }

  // ---------------------------------------------------------------------------
  // The webhook handlers' oracle
  // ---------------------------------------------------------------------------

  /** What a WeChatCallbackCrypto is built from. */
  datatype Instance = Instance(token: string, encodingAesKey: string, corpid: string)

  /** The signature parameters of a webhook request. */
  datatype Query = Query(msgSignature: string, timestamp: string, nonce: string)

  /** The answer of `verifyURL`/`decryptMsg`: `{success: true, data}` or
      `{success: false, error, errcode}`. */
  datatype CallbackOutcome = Passed(data: string) | Rejected(error: string, errcode: Option<int>)

  /** The fields `parseXMLMessage` extracts. */
  datatype CallbackMessage = CallbackMessage(fromUserName: string, toUserName: string, msgType: string,
                                             content: string, picUrl: string, msgId: string,
                                             agentId: string, createTime: string)

  /** The callback library: building an instance (which may throw), URL verification, message
      decryption and XML parsing (which may throw). */
  datatype CallbackCrypto = CallbackCrypto(
    build: Instance -> Result<(), string>,
    verifyUrl: (Instance, Query, string) -> CallbackOutcome,
    decryptMsg: (Instance, Query, string) -> CallbackOutcome,
    parse: string -> Result<CallbackMessage, string>)

  /** What a handler answers; it never throws. */
  datatype HandlerResult =
    | Refused(error: string)
    | Forwarded(outcome: CallbackOutcome)
    | Received(message: CallbackMessage)

  function Success(h: HandlerResult): bool
  {
    match h
    case Refused(_) => false
    case Forwarded(o) => o.Passed?
    case Received(_) => true
  }

  /** The steps both handlers share: the row must exist with its callback flag set, carry a
      token and an encrypted key, the key must decrypt and the library instance must build. */
  function Prepare(row: Option<CT.Row>, crypto: SC.CryptoService, cb: CallbackCrypto): (r: Result<Instance, string>)
    ensures (row.None? || row.value.callbackEnabled == 0) ==> r == Err(CallbackDisabled)
    ensures row.Some? && row.value.callbackEnabled != 0
            && (!Truthy(row.value.callbackToken) || !Truthy(row.value.encryptedEncodingAesKey))
            ==> r == Err(CallbackConfigIncomplete)
    ensures r.Ok? ==>
      row.Some? && row.value.callbackEnabled != 0
      && Truthy(row.value.callbackToken) && Truthy(row.value.encryptedEncodingAesKey)
      && crypto.Decrypt(row.value.encryptedEncodingAesKey.value).Ok?
      && r.value == Instance(row.value.callbackToken.value,
                             crypto.Decrypt(row.value.encryptedEncodingAesKey.value).value, row.value.corpid)
      && cb.build(r.value).Ok?
  {
    if row.None? || row.value.callbackEnabled == 0 then Err(CallbackDisabled)
    else if !Truthy(row.value.callbackToken) || !Truthy(row.value.encryptedEncodingAesKey) then Err(CallbackConfigIncomplete)
    else
      var key :- crypto.Decrypt(row.value.encryptedEncodingAesKey.value);
      var inst := Instance(row.value.callbackToken.value, key, row.value.corpid);
      var _ :- cb.build(inst);
      Ok(inst)
  }

  // ---------------------------------------------------------------------------
  // The service
  // ---------------------------------------------------------------------------

  class Service {
    const db: CT.ConfigurationTable
    const crypto: SC.CryptoService
    const wechat: WC.WeChatService

    predicate Valid()
      reads db
    {
      db.Valid()
    }

    /** The module's start-up: an empty table, the cipher keyed from `ENCRYPTION_KEY` (or the
        development default when unset or empty) and a client on the default API base. */
    constructor (encryptionKey: Option<string>, aes: SC.Aes)
      ensures Valid() && fresh(db) && fresh(wechat)
      ensures db.rows == [] && wechat.tokenCache == map[] && wechat.apiBase == WC.DefaultApiBase
      ensures crypto == SC.NewCryptoService(Some(if Truthy(encryptionKey) then encryptionKey.value
                                                 else DefaultEncryptionKey), aes)
    {
      db := new CT.ConfigurationTable();
      crypto := SC.NewCryptoService(Some(if Truthy(encryptionKey) then encryptionKey.value
                                         else DefaultEncryptionKey), aes);
      wechat := new WC.WeChatService(None);
    }

    /** `createCallbackConfiguration`: phase 1. The guard runs before the store is read. A
        callback-enabled row for (corpid, token) is updated in place and keeps its code, and no
        row is added; otherwise a row with the fresh code is written. `found` is the store's
        answer to the lookup, which may be any such row when there are several. */
    method CreateCallbackConfiguration(q: CallbackRequest, found: Option<CT.Row>, freshCode: string,
                                       iv: seq<Hex.byte>, now: string)
      returns (r: Result<Registration, string>)
      requires Valid() && |iv| == SC.IvLength
      requires RegistrationError(q).None? ==>
        CT.AnswersCallback(db.rows, q.corpid.value, q.callbackToken.value, found)
      modifies db
      ensures Valid()
      ensures RegistrationError(q).Some? ==> r == Err(RegistrationError(q).value) && unchanged(db)
      ensures RegistrationError(q).None? && !SC.KeyUsable(crypto.key) ==> r == Err(SC.EncryptFailed) && unchanged(db)
      ensures RegistrationError(q).None? && SC.KeyUsable(crypto.key) ==>
        var corpid, token := q.corpid.value, q.callbackToken.value;
        var sealed := Seal(crypto, iv, q.encodingAesKey.value);
        var existing := found;
        && (existing.Some? ==>
              && r == Ok(Registration(existing.value.code, CallbackUrl(existing.value.code), Some(CallbackUpdated)))
              && db.rows == CT.UpdateWhere(old(db.rows), existing.value.code,
                                           CT.CallbackColumns(corpid, Some(token), Some(sealed)))
              && |db.rows| == |old(db.rows)| && db.nextId == old(db.nextId))
        && (existing.None? ==>
              && r == Ok(Registration(freshCode, CallbackUrl(freshCode), None))
              && db.rows == CT.InsertOrReplace(old(db.rows),
                              CT.CallbackRow(old(db.rows), old(db.nextId), freshCode, corpid, token, sealed, now))
              && db.nextId == old(db.nextId) + 1)
    {
      var e := RegistrationError(q);
      if e.Some? {
        return Err(e.value);
      }
      var corpid, token, key := q.corpid.value, q.callbackToken.value, q.encodingAesKey.value;
      var existing := found;
      var sealed :- crypto.Encrypt(iv, key);
      if existing.Some? {
        var m := existing.value;
        CT.KeepsTripleNeverClashes(db.rows, m, CT.CallbackColumns(corpid, Some(token), Some(sealed)));
        var u := db.UpdateCallbackConfiguration(m.code, corpid, Some(token), Some(sealed));
        return Ok(Registration(m.code, CallbackUrl(m.code), Some(CallbackUpdated)));
      }
      var s := db.SaveCallbackConfiguration(freshCode, corpid, token, sealed, now);
      r := Ok(Registration(freshCode, CallbackUrl(freshCode), None));
    }

    /** `completeConfiguration`: phase 2. An unknown code fails; otherwise the secret, agentid,
        touser and description of that row are written (a missing description as ''). */
    method CompleteConfiguration(q: CompletionRequest, iv: seq<Hex.byte>) returns (r: Result<Completion, string>)
      requires Valid() && |iv| == SC.IvLength
      modifies db
      ensures Valid() && db.nextId == old(db.nextId)
      ensures CompletionError(q).Some? ==> r == Err(ParamsIncomplete) && unchanged(db)
      ensures CompletionError(q).None? ==>
        var code := q.code.value;
        var row := CT.ByCode(old(db.rows), code);
        && (row.None? ==> r == Err(NoCallbackConfig) && unchanged(db))
        && (row.Some? && !SC.KeyUsable(crypto.key) ==> r == Err(SC.EncryptFailed) && unchanged(db))
        && (row.Some? && SC.KeyUsable(crypto.key) ==>
              var ch := CT.CompletionColumns(Seal(crypto, iv, q.corpsecret.value), q.agentid.value,
                                             FormatTouser(q.touser.value), Some(Described(q.description)));
              && (CT.UpdateClashes(old(db.rows), code, ch) ==> r == Err(CT.TripleTaken) && db.rows == old(db.rows))
              && (!CT.UpdateClashes(old(db.rows), code, ch) ==>
                    r == Ok(Completion(code, NotifyUrl(code), CallbackUrl(code)))
                    && db.rows == CT.UpdateWhere(old(db.rows), code, ch)))
    {
      if CompletionError(q).Some? {
        return Err(ParamsIncomplete);
      }
      var code := q.code.value;
      var row := db.GetConfigurationByCode(code);
      if row.None? {
        return Err(NoCallbackConfig);
      }
      var sealed :- crypto.Encrypt(iv, q.corpsecret.value);
      var formatted := FormatTouser(q.touser.value);
      var u := db.CompleteConfiguration(code, sealed, q.agentid.value, formatted, Some(Described(q.description)));
      if u.Err? {
        return Err(u.error);
      }
      r := Ok(Completion(code, NotifyUrl(code), CallbackUrl(code)));
    }

    /** `createConfiguration`, the legacy one-step path. A row equal on (corpid, agentid,
        touser, flag, token-or-null) is updated in place and keeps its code; otherwise a row
        with the fresh code is inserted, which fails on a taken code or triple. */
    method CreateConfiguration(q: LegacyRequest, freshCode: string, ivSecret: seq<Hex.byte>,
                               ivKey: seq<Hex.byte>, now: string) returns (r: Result<Created, string>)
      requires Valid() && |ivSecret| == SC.IvLength && |ivKey| == SC.IvLength
      modifies db
      ensures Valid()
      ensures LegacyError(q).Some? ==> r == Err(LegacyError(q).value) && unchanged(db)
      ensures LegacyError(q).None? && !SC.KeyUsable(crypto.key) ==> r == Err(SC.EncryptFailed) && unchanged(db)
      ensures LegacyError(q).None? && SC.KeyUsable(crypto.key) ==>
        var flag := if q.callbackEnabled then 1 else 0;
        var existing := CT.ByCompleteFields(old(db.rows), q.corpid.value, q.agentid.value,
                                            FormatTouser(q.touser.value), flag, TokenOrNull(q.callbackToken));
        && (existing.Some? ==>
              var code := existing.value.code;
              && r == Ok(Created(code, NotifyUrl(code), Some(ConfigUpdated),
                                 if q.callbackEnabled then Some(CallbackUrl(code)) else None))
              && db.rows == CT.UpdateWhere(old(db.rows), code,
                                           AllColumnsOf(LegacySubmission(q, code, crypto, ivSecret, ivKey)))
              && |db.rows| == |old(db.rows)| && db.nextId == old(db.nextId))
        && (existing.None? ==>
              var clash := CT.InsertClash(old(db.rows), freshCode, q.corpid.value, q.agentid.value, FormatTouser(q.touser.value));
              && (clash.Some? ==> r == Err(clash.value) && db.rows == old(db.rows) && db.nextId == old(db.nextId))
              && (clash.None? ==>
                    && r == Ok(Created(freshCode, NotifyUrl(freshCode), None,
                                       if q.callbackEnabled then Some(CallbackUrl(freshCode)) else None))
                    && db.rows == old(db.rows) + [CT.RowOf(LegacySubmission(q, freshCode, crypto, ivSecret, ivKey),
                                                           old(db.nextId), now)]
                    && db.nextId == old(db.nextId) + 1))
    {
      var e := LegacyError(q);
      if e.Some? {
        return Err(e.value);
      }
      var formatted := FormatTouser(q.touser.value);
      var flag := if q.callbackEnabled then 1 else 0;
      var token := TokenOrNull(q.callbackToken);
      var existing := db.GetConfigurationByCompleteFields(q.corpid.value, q.agentid.value, formatted, flag, token);
      var sealed :- SealLegacy(q, ivSecret, ivKey);
      var (sealedSecret, sealedKey) := sealed;
      if existing.Some? {
        var code := existing.value.code;
        var s := CT.Submission(code, q.corpid.value, sealedSecret, q.agentid.value, formatted,
                               Some(Described(q.description)), token, sealedKey, flag);
        assert s == LegacySubmission(q, code, crypto, ivSecret, ivKey);
        CT.KeepsTripleNeverClashes(db.rows, existing.value, AllColumnsOf(s));
        var u := db.UpdateConfiguration(s);
        return Ok(Created(code, NotifyUrl(code), Some(ConfigUpdated),
                          if q.callbackEnabled then Some(CallbackUrl(code)) else None));
      }
      var s := CT.Submission(freshCode, q.corpid.value, sealedSecret, q.agentid.value, formatted,
                             Some(Described(q.description)), token, sealedKey, flag);
      assert s == LegacySubmission(q, freshCode, crypto, ivSecret, ivKey);
      var saved := db.SaveConfiguration(s, now);
      if saved.Err? {
        return Err(saved.error);
      }
      r := Ok(Created(freshCode, NotifyUrl(freshCode), None,
                      if q.callbackEnabled then Some(CallbackUrl(freshCode)) else None));
    }

    /** The encryptions of `createConfiguration`: the secret always, the key only when given;
        both fail on an unusable key. */
    method SealLegacy(q: LegacyRequest, ivSecret: seq<Hex.byte>, ivKey: seq<Hex.byte>)
      returns (r: Result<(string, Option<string>), string>)
      requires LegacyError(q).None? && |ivSecret| == SC.IvLength && |ivKey| == SC.IvLength
      ensures r.Err? <==> !SC.KeyUsable(crypto.key)
      ensures r.Err? ==> r.error == SC.EncryptFailed
      ensures r.Ok? ==> r.value == (LegacySubmission(q, "", crypto, ivSecret, ivKey).encryptedCorpsecret,
                                    LegacySubmission(q, "", crypto, ivSecret, ivKey).encryptedEncodingAesKey)
    {
      var sealedSecret :- crypto.Encrypt(ivSecret, q.corpsecret.value);
      var sealedKey: Option<string> := None;
      if Truthy(q.encodingAesKey) {
        sealedKey := Some(Seal(crypto, ivKey, q.encodingAesKey.value));
      }
      r := Ok((sealedSecret, sealedKey));
    }

    /** The two encryptions of `updateConfiguration`: the secret and the key are sealed afresh
        only when the patch gives them, and either encryption fails on an unusable key. */
    method SealPatch(row: CT.Row, p: Patch, ivSecret: seq<Hex.byte>, ivKey: seq<Hex.byte>)
      returns (r: Result<(string, Option<string>), string>)
      requires |ivSecret| == SC.IvLength && |ivKey| == SC.IvLength
      ensures r.Err? <==> PatchSeals(p) && !SC.KeyUsable(crypto.key)
      ensures r.Err? ==> r.error == SC.EncryptFailed
      ensures r.Ok? ==> r.value == (Patched(row, p, crypto, ivSecret, ivKey).encryptedCorpsecret,
                                    Patched(row, p, crypto, ivSecret, ivKey).encryptedEncodingAesKey)
    {
      var sealedSecret := row.encryptedCorpsecret;
      if Truthy(p.corpsecret) {
        sealedSecret :- crypto.Encrypt(ivSecret, p.corpsecret.value);
      }
      var sealedKey := row.encryptedEncodingAesKey;
      if Truthy(p.encodingAesKey) {
        var k :- crypto.Encrypt(ivKey, p.encodingAesKey.value);
        sealedKey := Some(k);
      }
      r := Ok((sealedSecret, sealedKey));
    }

    /** `updateConfiguration`: an unknown code fails; otherwise the eight columns of `Patched`
        are written, which fails only on a taken triple. */
    method UpdateConfiguration(code: string, p: Patch, ivSecret: seq<Hex.byte>, ivKey: seq<Hex.byte>)
      returns (r: Result<UpdateAck, string>)
      requires Valid() && |ivSecret| == SC.IvLength && |ivKey| == SC.IvLength
      modifies db
      ensures Valid() && db.nextId == old(db.nextId)
      ensures CT.ByCode(old(db.rows), code).None? ==> r == Err(UnknownCode) && unchanged(db)
      ensures CT.ByCode(old(db.rows), code).Some? ==>
        var row := CT.ByCode(old(db.rows), code).value;
        && (PatchSeals(p) && !SC.KeyUsable(crypto.key) ==> r == Err(SC.EncryptFailed) && unchanged(db))
        && (!PatchSeals(p) || SC.KeyUsable(crypto.key) ==>
              var ch := Patched(row, p, crypto, ivSecret, ivKey);
              && (CT.UpdateClashes(old(db.rows), code, ch) ==> r == Err(CT.TripleTaken) && db.rows == old(db.rows))
              && (!CT.UpdateClashes(old(db.rows), code, ch) ==>
                    r == Ok(UpdateAck(UpdateSucceeded, code, AckUrl(row, p, code)))
                    && db.rows == CT.UpdateWhere(old(db.rows), code, ch)))
    {
      var found := db.GetConfigurationByCode(code);
      if found.None? {
        return Err(UnknownCode);
      }
      var row := found.value;
      var sealed :- SealPatch(row, p, ivSecret, ivKey);
      var (sealedSecret, sealedKey) := sealed;
      var s := CT.Submission(
        code,
        if Truthy(p.corpid) then p.corpid.value else row.corpid,
        sealedSecret,
        if TruthyInt(p.agentid) then p.agentid.value else row.agentid,
        if TruthyRecipients(p.touser) then FormatTouser(p.touser.value) else row.touser,
        if p.description.Some? then p.description.value else row.description,
        if p.callbackToken.Some? then p.callbackToken.value else row.callbackToken,
        sealedKey,
        if p.callbackEnabled.Some? then (if p.callbackEnabled.value then 1 else 0) else row.callbackEnabled);
      assert AllColumnsOf(s) == Patched(row, p, crypto, ivSecret, ivKey);
      var u := db.UpdateConfiguration(s);
      if u.Err? {
        return Err(u.error);
      }
      r := Ok(UpdateAck(UpdateSucceeded, code, AckUrl(row, p, code)));
    }

    /** `getConfiguration`: nothing for an unknown code, else the projection of its row. */
    function GetConfiguration(code: string): (v: Option<ConfigView>)
      reads db
      ensures v.None? <==> forall x :: x in db.rows ==> x.code != code
      ensures v.Some? ==> exists x :: x in db.rows && x.code == code && v.value == View(x)
    {
      var row := CT.ByCode(db.rows, code);
      if row.None? then None else Some(View(row.value))
    }

    /** `sendNotification`: an unknown code fails before anything else happens. Otherwise the
        stored secret is decrypted, a token obtained (from the cache or `tokenReply`), and the
        composed message posted to the stored agentid and touser; a success returns that POST
        with the platform's reply whole. */
    method SendNotification(code: string, title: Option<string>, content: string, now: int, later: int,
                            tokenReply: WC.Reply<WC.TokenPayload>, sendReply: WC.Reply<WC.SendPayload>)
      returns (r: Result<(WC.Post, WC.Reply<WC.SendPayload>), string>)
      requires Valid()
      modifies wechat
      ensures CT.ByCode(db.rows, code).None? ==> r == Err(UnknownCode) && unchanged(wechat)
      ensures CT.ByCode(db.rows, code).Some? ==>
        var row := CT.ByCode(db.rows, code).value;
        var secret := crypto.Decrypt(row.encryptedCorpsecret);
        && (secret.Err? ==> r == Err(secret.error) && unchanged(wechat))
        && (secret.Ok? ==>
              var step := WC.TokenStep(old(wechat.tokenCache), WC.CacheKey(row.corpid, secret.value), now, later, tokenReply);
              && wechat.tokenCache == step.1
              && (step.0.Err? ==> r == Err(step.0.error))
              && (step.0.Ok? ==>
                    var sent := wechat.SendMessage(step.0.value, row.agentid, WC.Plain(row.touser),
                                                   ComposeMessage(title, content), sendReply);
                    && (sent.1.Ok? ==> r == Ok((sent.0, sendReply)))
                    && (sent.1.Err? ==> r == Err(sent.1.error))))
    {
      var config := db.GetConfigurationByCode(code);
      if config.None? {
        return Err(UnknownCode);
      }
      var row := config.value;
      var corpsecret :- crypto.Decrypt(row.encryptedCorpsecret);
      var accessToken, _ := wechat.GetToken(row.corpid, corpsecret, now, later, tokenReply);
      if accessToken.Err? {
        return Err(accessToken.error);
      }
      var message := ComposeMessage(title, content);
      var sent := wechat.SendMessage(accessToken.value, row.agentid, WC.Plain(row.touser), message, sendReply);
      if sent.1.Err? {
        return Err(sent.1.error);
      }
      r := Ok((sent.0, sent.1.value));
    }

    /** `handleCallbackVerification`: the shared guards, then the library's verification
        answer as it is. */
    function HandleCallbackVerification(code: string, q: Query, echoStr: string, cb: CallbackCrypto): (h: HandlerResult)
      reads db
      ensures !h.Received?
      ensures (forall x :: x in db.rows ==> x.code != code) ==> h == Refused(CallbackDisabled)
      ensures h.Refused? <==> Prepare(CT.ByCode(db.rows, code), crypto, cb).Err?
      ensures h.Forwarded? ==> h.outcome == cb.verifyUrl(Prepare(CT.ByCode(db.rows, code), crypto, cb).value, q, echoStr)
    {
      match Prepare(CT.ByCode(db.rows, code), crypto, cb)
      case Err(e) => Refused(e)
      case Ok(inst) => Forwarded(cb.verifyUrl(inst, q, echoStr))
    }

    /** `handleCallbackMessage`: the shared guards, then decryption, whose failure is returned
        unchanged, then parsing, whose exception becomes a refusal. */
    function HandleCallbackMessage(code: string, encryptedData: string, q: Query, cb: CallbackCrypto): (h: HandlerResult)
      reads db
      ensures (forall x :: x in db.rows ==> x.code != code) ==> h == Refused(CallbackDisabled)
      ensures Prepare(CT.ByCode(db.rows, code), crypto, cb).Err? ==> h.Refused?
      ensures h.Forwarded? ==>
        h.outcome.Rejected? && h.outcome == cb.decryptMsg(Prepare(CT.ByCode(db.rows, code), crypto, cb).value, q, encryptedData)
      ensures h.Received? ==>
        var d := cb.decryptMsg(Prepare(CT.ByCode(db.rows, code), crypto, cb).value, q, encryptedData);
        d.Passed? && cb.parse(d.data) == Ok(h.message)
      ensures Success(h) <==> h.Received?
    {
      match Prepare(CT.ByCode(db.rows, code), crypto, cb)
      case Err(e) => Refused(e)
      case Ok(inst) =>
        var d := cb.decryptMsg(inst, q, encryptedData);
        if d.Rejected? then Forwarded(d)
        else
          match cb.parse(d.data)
          case Err(e) => Refused(e)
          case Ok(m) => Received(m)
    }
  }
}
