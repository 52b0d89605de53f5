/** The `configurations` table of the notifier (src/core/database.js) as an in-memory table:
    rows in rowid order, the UNIQUE(code) and UNIQUE(corpid, agentid, touser) constraints,
    and every query and statement the Database class issues. */
module ConfigTable {
  import opened Wrappers
  import opened Text

  /** One row. Columns declared NOT NULL have plain types; the nullable ones are Options. */
  datatype Row = Row(
    id: int,
    code: string,
    corpid: string,
    encryptedCorpsecret: string,
    agentid: int,
    touser: string,
    description: Option<string>,
    callbackToken: Option<string>,
    encryptedEncodingAesKey: Option<string>,
    callbackEnabled: int,
    createdAt: string)

  /** The values `saveConfiguration` inserts and `updateConfiguration` writes: the code and
      the eight other columns of the statement. */
  datatype Submission = Submission(
    code: string,
    corpid: string,
    encryptedCorpsecret: string,
    agentid: int,
    touser: string,
    description: Option<string>,
    callbackToken: Option<string>,
    encryptedEncodingAesKey: Option<string>,
    callbackEnabled: int)

  const CodeTaken: string := "SQLITE_CONSTRAINT: UNIQUE constraint failed: configurations.code"
  const TripleTaken: string :=
    "SQLITE_CONSTRAINT: UNIQUE constraint failed: configurations.corpid, configurations.agentid, configurations.touser"

  // ---------------------------------------------------------------------------
  // Constraints
  // ---------------------------------------------------------------------------

  predicate SameTriple(a: Row, b: Row)
  {
    a.corpid == b.corpid && a.agentid == b.agentid && a.touser == b.touser
  }

  /** Two rows may stand in the table together. */
  predicate Apart(a: Row, b: Row)
  {
    a.id != b.id && a.code != b.code && !SameTriple(a, b)
  }

  /** Rows in increasing rowid order, pairwise apart: the table's constraints. */
  predicate Ordered(rows: seq<Row>)
  {
    forall i, j :: 0 <= i < j < |rows| ==> rows[i].id < rows[j].id && Apart(rows[i], rows[j])
  }

  // ---------------------------------------------------------------------------
  // SQL's three-valued comparison, for the WHERE clauses over the nullable token column
  // ---------------------------------------------------------------------------

  datatype Truth = Yes | No | Unknown

  function SqlAnd(a: Truth, b: Truth): Truth
  {
    if a == No || b == No then No else if a == Yes && b == Yes then Yes else Unknown
  }

  function SqlOr(a: Truth, b: Truth): Truth
  {
    if a == Yes || b == Yes then Yes else if a == No && b == No then No else Unknown
  }

  function Is(b: bool): Truth { if b then Yes else No }

  /** `a = b`, which is unknown when either side is NULL. */
  function SqlEq(a: Option<string>, b: Option<string>): Truth
  {
    if a.None? || b.None? then Unknown else Is(a.value == b.value)
  }

  function SqlIsNull(a: Option<string>): Truth { Is(a.None?) }

  /** WHERE corpid = ? AND agentid = ? AND touser = ? AND callback_enabled = ?
        AND (callback_token = ? OR (callback_token IS NULL AND ? IS NULL)) */
  function CompleteFieldsWhere(r: Row, corpid: string, agentid: int, touser: string,
                               enabled: int, token: Option<string>): Truth
  {
    SqlAnd(SqlAnd(SqlAnd(SqlAnd(Is(r.corpid == corpid), Is(r.agentid == agentid)),
                         Is(r.touser == touser)), Is(r.callbackEnabled == enabled)),
           SqlOr(SqlEq(r.callbackToken, token),
                 SqlAnd(SqlIsNull(r.callbackToken), SqlIsNull(token))))
  }

  /** WHERE corpid = ? AND callback_token = ? AND callback_enabled = 1 */
  function CallbackWhere(r: Row, corpid: string, token: string): Truth
  {
    SqlAnd(SqlAnd(Is(r.corpid == corpid), SqlEq(r.callbackToken, Some(token))),
           Is(r.callbackEnabled == 1))
  }

  /** The full-configuration query selects a row exactly when all five values are equal, the
      token compared as a nullable value: a NULL token matches only a NULL token. */
  lemma CompleteFieldsWhereMeaning(r: Row, corpid: string, agentid: int, touser: string,
                                   enabled: int, token: Option<string>)
    ensures CompleteFieldsWhere(r, corpid, agentid, touser, enabled, token) == Yes <==>
      r.corpid == corpid && r.agentid == agentid && r.touser == touser
      && r.callbackEnabled == enabled && r.callbackToken == token
  {
  }

  /** The callback query never selects a row whose token is NULL. */
  lemma CallbackWhereMeaning(r: Row, corpid: string, token: string)
    ensures CallbackWhere(r, corpid, token) == Yes <==>
      r.corpid == corpid && r.callbackToken == Some(token) && r.callbackEnabled == 1
  {
  }

  // ---------------------------------------------------------------------------
  // Queries: `db.get` yields the first selected row, or undefined
  // ---------------------------------------------------------------------------

  /** The index of the first row that `p` selects. */
  function Find(rows: seq<Row>, p: Row -> bool): (r: Option<nat>)
    ensures r.Some? ==> r.value < |rows| && p(rows[r.value])
    ensures r.Some? ==> forall j :: 0 <= j < r.value ==> !p(rows[j])
    ensures r.None? ==> forall j :: 0 <= j < |rows| ==> !p(rows[j])
  {
    if |rows| == 0 then None
    else if p(rows[0]) then Some(0)
    else
      var t := Find(rows[1..], p);
      assert forall j :: 1 <= j < |rows| ==> rows[j] == rows[1..][j - 1];
      if t.None? then None else Some(t.value + 1)
  }

  function Get(rows: seq<Row>, p: Row -> bool): (r: Option<Row>)
    ensures r.Some? ==> r.value in rows && p(r.value)
    ensures r.None? ==> forall x :: x in rows ==> !p(x)
  {
    var k := Find(rows, p);
    if k.None? then None else Some(rows[k.value])
  }

  function ByCode(rows: seq<Row>, code: string): Option<Row>
  {
    Get(rows, (r: Row) => r.code == code)
  }

  function ByCallback(rows: seq<Row>, corpid: string, token: string): Option<Row>
  {
    Get(rows, (r: Row) => CallbackWhere(r, corpid, token) == Yes)
  }

  /** What `db.get` on the callback query may answer: a query without ORDER BY names no row in
      particular, so any enabled row with this corpid and token, and nothing only when none
      exists. */
  predicate AnswersCallback(rows: seq<Row>, corpid: string, token: string, answer: Option<Row>)
  {
    && (answer.Some? ==> answer.value in rows && answer.value.corpid == corpid
                         && answer.value.callbackToken == Some(token) && answer.value.callbackEnabled == 1)
    && (answer.None? ==> forall x :: x in rows ==>
          !(x.corpid == corpid && x.callbackToken == Some(token) && x.callbackEnabled == 1))
  }

  function ByCompleteFields(rows: seq<Row>, corpid: string, agentid: int, touser: string,
                            enabled: int, token: Option<string>): Option<Row>
  {
    Get(rows, (x: Row) => CompleteFieldsWhere(x, corpid, agentid, touser, enabled, token) == Yes)
  }

  // ---------------------------------------------------------------------------
  // Statements, as functions of the rows before them
  // ---------------------------------------------------------------------------

  /** The constraint an insert of these values would break, if any; `code` is checked first. */
  function InsertClash(rows: seq<Row>, code: string, corpid: string, agentid: int, touser: string): Option<string>
  {
    if exists x :: x in rows && x.code == code then Some(CodeTaken)
    else if exists x :: x in rows && x.corpid == corpid && x.agentid == agentid && x.touser == touser
    then Some(TripleTaken)
    else None
  }

  function RowOf(s: Submission, id: int, createdAt: string): Row
  {
    Row(id, s.code, s.corpid, s.encryptedCorpsecret, s.agentid, s.touser, s.description,
        s.callbackToken, s.encryptedEncodingAesKey, s.callbackEnabled, createdAt)
  }

  /** What an UPDATE ... WHERE code = ? writes into the matching row. */
  datatype Change =
    | AllColumns(corpid: string, encryptedCorpsecret: string, agentid: int, touser: string,
                 description: Option<string>, callbackToken: Option<string>,
                 encryptedEncodingAesKey: Option<string>, callbackEnabled: int)
    | CallbackColumns(corpid: string, callbackToken: Option<string>, encryptedEncodingAesKey: Option<string>)
    | CompletionColumns(encryptedCorpsecret: string, agentid: int, touser: string, description: Option<string>)

  function Changed(r: Row, ch: Change): (c: Row)
    ensures c.id == r.id && c.code == r.code && c.createdAt == r.createdAt
  {
    match ch
    case AllColumns(corpid, secret, agentid, touser, description, token, key, enabled) =>
      r.(corpid := corpid, encryptedCorpsecret := secret, agentid := agentid, touser := touser,
         description := description, callbackToken := token, encryptedEncodingAesKey := key,
         callbackEnabled := enabled)
    case CallbackColumns(corpid, token, key) =>
      r.(corpid := corpid, callbackToken := token, encryptedEncodingAesKey := key)
    case CompletionColumns(secret, agentid, touser, description) =>
      r.(encryptedCorpsecret := secret, agentid := agentid, touser := touser, description := description)
  }

  function UpdateWhere(rows: seq<Row>, code: string, ch: Change): (r: seq<Row>)
    ensures |r| == |rows|
  {
    seq(|rows|, k requires 0 <= k < |rows| => if rows[k].code == code then Changed(rows[k], ch) else rows[k])
  }

  /** An UPDATE fails when the changed row would share its (corpid, agentid, touser) with another row. */
  predicate UpdateClashes(rows: seq<Row>, code: string, ch: Change)
  {
    exists i, j :: 0 <= i < |rows| && 0 <= j < |rows| && rows[i].code == code && rows[j].code != code
                   && SameTriple(Changed(rows[i], ch), rows[j])
  }

  /** A failure-free update keeps the table's constraints. */
  lemma UpdateKeepsOrdered(rows: seq<Row>, code: string, ch: Change)
    requires Ordered(rows)
    requires !UpdateClashes(rows, code, ch)
    ensures Ordered(UpdateWhere(rows, code, ch))
  {
    var u := UpdateWhere(rows, code, ch);
    forall i, j | 0 <= i < j < |u| ensures u[i].id < u[j].id && Apart(u[i], u[j]) {
      assert Apart(rows[i], rows[j]);
      if rows[i].code == code {
        assert rows[j].code != code;
        assert !SameTriple(Changed(rows[i], ch), rows[j]);
      } else if rows[j].code == code {
        assert !SameTriple(Changed(rows[j], ch), rows[i]);
      }
    }
  }

  /** An update that leaves the matching row's (corpid, agentid, touser) as it was cannot
      break the triple constraint. */
  lemma KeepsTripleNeverClashes(rows: seq<Row>, m: Row, ch: Change)
    requires Ordered(rows)
    requires m in rows
    requires SameTriple(Changed(m, ch), m)
    ensures !UpdateClashes(rows, m.code, ch)
  {
    var k :| 0 <= k < |rows| && rows[k] == m;
    forall i, j | 0 <= i < |rows| && 0 <= j < |rows| && rows[i].code == m.code && rows[j].code != m.code
      ensures !SameTriple(Changed(rows[i], ch), rows[j])
    {
      assert rows[i] == rows[k];
    }
  }

  /** An update changes only the row whose code matches: every other row, and the id, code and
      creation time of the matching one, stay as they were; an absent code changes nothing. */
  lemma UpdateTouchesOnlyMatch(rows: seq<Row>, code: string, ch: Change)
    ensures forall k :: 0 <= k < |rows| && rows[k].code != code ==> UpdateWhere(rows, code, ch)[k] == rows[k]
    ensures forall k :: 0 <= k < |rows| ==>
      var (a, b) := (UpdateWhere(rows, code, ch)[k], rows[k]);
      a.id == b.id && a.code == b.code && a.createdAt == b.createdAt
    ensures (forall x :: x in rows ==> x.code != code) ==> UpdateWhere(rows, code, ch) == rows
  {
  }

  /** The row's conflicts for INSERT OR REPLACE: any UNIQUE or PRIMARY KEY column it shares. */
  predicate Conflicts(x: Row, nr: Row)
  {
    !Apart(x, nr)
  }

  /** The rows INSERT OR REPLACE keeps: those that do not conflict with the new row. */
  function Survivors(rows: seq<Row>, nr: Row): (r: seq<Row>)
    ensures forall x :: x in r ==> x in rows && !Conflicts(x, nr)
    ensures forall x :: x in rows && !Conflicts(x, nr) ==> x in r
    ensures |r| <= |rows|
  {
    if |rows| == 0 then []
    else (if Conflicts(rows[0], nr) then [] else [rows[0]]) + Survivors(rows[1..], nr)
  }

  /** INSERT OR REPLACE of `nr`: every conflicting row is deleted, then `nr` is inserted. When
      `nr` reuses the rowid of a row, it takes that row's place in rowid order; a new rowid goes last. */
  function InsertOrReplace(rows: seq<Row>, nr: Row): seq<Row>
  {
    if exists x :: x in rows && x.id == nr.id then ReplaceInPlace(rows, nr)
    else Survivors(rows, nr) + [nr]
  }

  function ReplaceInPlace(rows: seq<Row>, nr: Row): (r: seq<Row>)
    ensures forall x :: x in r ==> x == nr || (x in rows && !Conflicts(x, nr))
  {
    if |rows| == 0 then []
    else
      (if rows[0].id == nr.id then [nr] else if Conflicts(rows[0], nr) then [] else [rows[0]])
      + ReplaceInPlace(rows[1..], nr)
  }

  lemma OrderedTail(rows: seq<Row>)
    requires Ordered(rows) && |rows| > 0
    ensures Ordered(rows[1..])
    ensures forall x :: x in rows[1..] ==> rows[0].id < x.id && Apart(rows[0], x)
  {
    forall x | x in rows[1..] ensures rows[0].id < x.id && Apart(rows[0], x) {
      var k :| 0 <= k < |rows[1..]| && rows[1..][k] == x;
      assert rows[k + 1] == x;
    }
  }

  lemma OrderedCons(h: Row, t: seq<Row>)
    requires Ordered(t)
    requires forall x :: x in t ==> h.id < x.id && Apart(h, x)
    ensures Ordered([h] + t)
  {
    var s := [h] + t;
    forall i, j | 0 <= i < j < |s| ensures s[i].id < s[j].id && Apart(s[i], s[j]) {
      if i == 0 {
        assert s[j] == t[j - 1];
        assert s[j] in t;
      } else {
        assert s[i] == t[i - 1] && s[j] == t[j - 1];
      }
    }
  }

  lemma {:induction false} SurvivorsOrdered(rows: seq<Row>, nr: Row)
    requires Ordered(rows)
    ensures Ordered(Survivors(rows, nr))
  {
    if |rows| > 0 {
      OrderedTail(rows);
      SurvivorsOrdered(rows[1..], nr);
      if !Conflicts(rows[0], nr) {
        OrderedCons(rows[0], Survivors(rows[1..], nr));
      }
    }
  }

  lemma OrderedSnoc(t: seq<Row>, nr: Row)
    requires Ordered(t)
    requires forall x :: x in t ==> x.id < nr.id && Apart(x, nr)
    ensures Ordered(t + [nr])
  {
    var s := t + [nr];
    forall i, j | 0 <= i < j < |s| ensures s[i].id < s[j].id && Apart(s[i], s[j]) {
      assert s[i] == t[i];
      if j < |t| {
        assert s[j] == t[j];
      } else {
        assert t[i] in t;
      }
    }
  }

  /** Replacing in place keeps rowid order and the constraints when the table holds the
      reused rowid. */
  lemma {:induction false} ReplaceInPlaceOrdered(rows: seq<Row>, nr: Row)
    requires Ordered(rows)
    requires exists x :: x in rows && x.id == nr.id
    ensures Ordered(ReplaceInPlace(rows, nr))
    decreases |rows|, 1
  {
    if rows[0].id == nr.id {
      ReplaceHeadOrdered(rows, nr);
    } else {
      ReplaceLaterOrdered(rows, nr);
    }
  }

  /** nr replaces the head; the rest only loses rows, and keeps larger rowids. */
  lemma ReplaceHeadOrdered(rows: seq<Row>, nr: Row)
    requires Ordered(rows) && |rows| > 0 && rows[0].id == nr.id
    ensures Ordered(ReplaceInPlace(rows, nr))
  {
    OrderedTail(rows);
    var t := ReplaceInPlace(rows[1..], nr);
    assert forall x :: x in rows[1..] ==> x.id != nr.id;
    ReplaceWithoutIdIsSurvivors(rows[1..], nr);
    SurvivorsOrdered(rows[1..], nr);
    assert ReplaceInPlace(rows, nr) == [nr] + t;
    OrderedCons(nr, t);
  }

  /** The reused rowid lies further on: the head stays unless it conflicts with nr. */
  lemma {:induction false} ReplaceLaterOrdered(rows: seq<Row>, nr: Row)
    requires Ordered(rows) && |rows| > 0 && rows[0].id != nr.id
    requires exists x :: x in rows && x.id == nr.id
    ensures Ordered(ReplaceInPlace(rows, nr))
    decreases |rows|, 0
  {
    OrderedTail(rows);
    var t := ReplaceInPlace(rows[1..], nr);
    var y :| y in rows && y.id == nr.id;
    assert y in rows[1..];
    ReplaceInPlaceOrdered(rows[1..], nr);
    assert rows[0].id < nr.id;
    if !Conflicts(rows[0], nr) {
      assert ReplaceInPlace(rows, nr) == [rows[0]] + t;
      forall x | x in t ensures rows[0].id < x.id && Apart(rows[0], x) {
        assert x == nr || x in rows[1..];
      }
      OrderedCons(rows[0], t);
    } else {
      assert ReplaceInPlace(rows, nr) == t;
    }
  }

  lemma {:induction false} ReplaceWithoutIdIsSurvivors(rows: seq<Row>, nr: Row)
    requires forall x :: x in rows ==> x.id != nr.id
    ensures ReplaceInPlace(rows, nr) == Survivors(rows, nr)
  {
    if |rows| > 0 {
      assert rows[0] in rows;
      ReplaceWithoutIdIsSurvivors(rows[1..], nr);
    }
  }

  /** INSERT OR REPLACE keeps the constraints: a row with a reused rowid stays in place, a row
      with a fresh rowid larger than all others goes at the end. */
  lemma InsertOrReplaceOrdered(rows: seq<Row>, nr: Row)
    requires Ordered(rows)
    requires (exists x :: x in rows && x.id == nr.id) || forall x :: x in rows ==> x.id < nr.id
    ensures Ordered(InsertOrReplace(rows, nr))
  {
    if exists x :: x in rows && x.id == nr.id {
      ReplaceInPlaceOrdered(rows, nr);
    } else {
      SurvivorsOrdered(rows, nr);
      OrderedSnoc(Survivors(rows, nr), nr);
    }
  }

  /** The row `saveCallbackConfiguration` writes. When a callback-enabled row for
      (corpid, token) exists, the first one keeps its id and created_at and its step-2 columns are
      reset; otherwise a new row gets the next rowid, the current time and a placeholder touser. */
  function CallbackRow(rows: seq<Row>, nextId: int, code: string, corpid: string, token: string,
                       key: string, now: string): (nr: Row)
    ensures nr.callbackEnabled == 1 && nr.code == code && nr.corpid == corpid
    ensures nr.callbackToken == Some(token) && nr.encryptedEncodingAesKey == Some(key)
    ensures nr.encryptedCorpsecret == "" && nr.agentid == 0 && nr.description == Some("")
  {
    match ByCallback(rows, corpid, token)
    case Some(m) => Row(m.id, code, corpid, "", 0, "", Some(""), Some(token), Some(key), 1, m.createdAt)
    case None =>
      Row(nextId, code, corpid, "", 0, "callback_" + code[..if |code| < 8 then |code| else 8],
          Some(""), Some(token), Some(key), 1, now)
  }

  /** The placeholder recipient of a new callback-only row. */
  lemma CallbackRowPlaceholder(rows: seq<Row>, nextId: int, code: string, corpid: string, token: string,
                               key: string, now: string)
    requires ByCallback(rows, corpid, token).None?
    ensures var nr := CallbackRow(rows, nextId, code, corpid, token, key, now);
      nr.id == nextId && nr.createdAt == now
      && StartsWith(nr.touser, "callback_") && StartsWith(code, nr.touser[9..])
      && |nr.touser| == 9 + (if |code| < 8 then |code| else 8)
  {
  }

  /** With a matching enabled row, the written row takes that row's id and creation time, the
      new code and key, and the step-2 reset values. */
  lemma CallbackRowReuses(rows: seq<Row>, nextId: int, code: string, corpid: string, token: string,
                          key: string, now: string)
    requires ByCallback(rows, corpid, token).Some?
    ensures var (m, nr) := (ByCallback(rows, corpid, token).value, CallbackRow(rows, nextId, code, corpid, token, key, now));
      m in rows && nr.id == m.id && nr.createdAt == m.createdAt && nr.touser == ""
      && m.corpid == corpid && m.callbackToken == Some(token) && m.callbackEnabled == 1
  {
    CallbackWhereMeaning(ByCallback(rows, corpid, token).value, corpid, token);
  }

  // ---------------------------------------------------------------------------
  // The Database object
  // ---------------------------------------------------------------------------

  class ConfigurationTable {
    /** The rows, in rowid order. */
    var rows: seq<Row>
    /** The next rowid AUTOINCREMENT hands out; rowids are never reused. */
    var nextId: int

    predicate Valid()
      reads this
    {
      Ordered(rows) && 1 <= nextId && forall x :: x in rows ==> 1 <= x.id < nextId
    }

    /** The table after `init()`: empty. */
    constructor ()
      ensures Valid() && rows == [] && nextId == 1
    {
      rows := [];
      nextId := 1;
    }

    /** `saveConfiguration`: a plain INSERT. It fails, leaving the table as it was, when the
        code or the (corpid, agentid, touser) triple is taken; otherwise the row is appended
        with the next rowid, and that rowid is returned. */
    method SaveConfiguration(s: Submission, now: string) returns (r: Result<int, string>)
      requires Valid()
      modifies this
      ensures Valid()
      ensures var clash := InsertClash(old(rows), s.code, s.corpid, s.agentid, s.touser);
        && (clash.Some? ==> r == Err(clash.value) && rows == old(rows) && nextId == old(nextId))
        && (clash.None? ==> r == Ok(old(nextId)) && rows == old(rows) + [RowOf(s, old(nextId), now)]
                            && nextId == old(nextId) + 1)
    {
      var clash := InsertClash(rows, s.code, s.corpid, s.agentid, s.touser);
      if clash.Some? {
        return Err(clash.value);
      }
      var nr := RowOf(s, nextId, now);
      OrderedSnoc(rows, nr);
      rows := rows + [nr];
      r := Ok(nextId);
      nextId := nextId + 1;
    }

    /** `getConfigurationByCode`: the row with that code, or nothing; absence is not an error. */
    function GetConfigurationByCode(code: string): (r: Option<Row>)
      reads this
      requires Valid()
      ensures r.Some? <==> exists x :: x in rows && x.code == code
      ensures r.Some? ==> r.value in rows && r.value.code == code
      ensures r.Some? ==> forall x :: x in rows && x.code == code ==> x == r.value
    {
      ByCode(rows, code)
    }

    /** `getConfigurationByFields`: the row holding that (corpid, agentid, touser), of which
        there is at most one. */
    function GetConfigurationByFields(corpid: string, agentid: int, touser: string): (r: Option<Row>)
      reads this
      requires Valid()
      ensures r.Some? <==> exists x :: x in rows && x.corpid == corpid && x.agentid == agentid && x.touser == touser
      ensures r.Some? ==> r.value in rows && r.value.corpid == corpid && r.value.agentid == agentid && r.value.touser == touser
      ensures r.Some? ==> forall x :: x in rows && SameTriple(x, r.value) ==> x == r.value
    {
      Get(rows, (x: Row) => x.corpid == corpid && x.agentid == agentid && x.touser == touser)
    }

    /** `getConfigurationByCompleteFields`: the row matching all five values, a NULL token
        matching only a NULL token. */
    function GetConfigurationByCompleteFields(corpid: string, agentid: int, touser: string,
                                              enabled: int, token: Option<string>): (r: Option<Row>)
      reads this
      ensures r.Some? ==> r.value in rows && r.value.corpid == corpid && r.value.agentid == agentid
                          && r.value.touser == touser && r.value.callbackEnabled == enabled
                          && r.value.callbackToken == token
      ensures r.None? ==> forall x :: x in rows ==>
                !(x.corpid == corpid && x.agentid == agentid && x.touser == touser
                  && x.callbackEnabled == enabled && x.callbackToken == token)
    {
      var g := ByCompleteFields(rows, corpid, agentid, touser, enabled, token);
      if g.Some? then
        CompleteFieldsWhereMeaning(g.value, corpid, agentid, touser, enabled, token);
        g
      else
        assert forall x :: x in rows ==>
          !(x.corpid == corpid && x.agentid == agentid && x.touser == touser
            && x.callbackEnabled == enabled && x.callbackToken == token) by {
          forall x | x in rows {
            CompleteFieldsWhereMeaning(x, corpid, agentid, touser, enabled, token);
          }
        }
        g
    }

    /** `getCallbackConfiguration`: one of the answers the query allows, here the first
        callback-enabled row with this corpid and token. */
    function GetCallbackConfiguration(corpid: string, token: string): (r: Option<Row>)
      reads this
      ensures AnswersCallback(rows, corpid, token, r)
    {
      var g := ByCallback(rows, corpid, token);
      if g.Some? then
        CallbackWhereMeaning(g.value, corpid, token);
        g
      else
        assert forall x :: x in rows ==> !(x.corpid == corpid && x.callbackToken == Some(token) && x.callbackEnabled == 1) by {
          forall x | x in rows {
            CallbackWhereMeaning(x, corpid, token);
          }
        }
        g
    }

    /** The UPDATE ... WHERE code = ? statements: the matching row gets the change, or the
        statement fails on the triple constraint and nothing changes. */
    method Update(code: string, ch: Change) returns (r: Result<string, string>)
      requires Valid()
      modifies this`rows
      ensures Valid()
      ensures UpdateClashes(old(rows), code, ch) ==> r == Err(TripleTaken) && rows == old(rows)
      ensures !UpdateClashes(old(rows), code, ch) ==> r == Ok(code) && rows == UpdateWhere(old(rows), code, ch)
    {
      if UpdateClashes(rows, code, ch) {
        return Err(TripleTaken);
      }
      UpdateKeepsOrdered(rows, code, ch);
      rows := UpdateWhere(rows, code, ch);
      r := Ok(code);
    }

    /** `updateConfiguration`: overwrites the eight listed columns of the row with `s.code`. */
    method UpdateConfiguration(s: Submission) returns (r: Result<string, string>)
      requires Valid()
      modifies this`rows
      ensures Valid()
      ensures var ch := AllColumns(s.corpid, s.encryptedCorpsecret, s.agentid, s.touser, s.description,
                                   s.callbackToken, s.encryptedEncodingAesKey, s.callbackEnabled);
        && (UpdateClashes(old(rows), s.code, ch) ==> r == Err(TripleTaken) && rows == old(rows))
        && (!UpdateClashes(old(rows), s.code, ch) ==> r == Ok(s.code) && rows == UpdateWhere(old(rows), s.code, ch))
    {
      r := Update(s.code, AllColumns(s.corpid, s.encryptedCorpsecret, s.agentid, s.touser, s.description,
                                     s.callbackToken, s.encryptedEncodingAesKey, s.callbackEnabled));
    }

    /** `updateCallbackConfiguration`: changes corpid, callback_token and the encrypted key only. */
    method UpdateCallbackConfiguration(code: string, corpid: string, token: Option<string>, key: Option<string>)
      returns (r: Result<string, string>)
      requires Valid()
      modifies this`rows
      ensures Valid()
      ensures var ch := CallbackColumns(corpid, token, key);
        && (UpdateClashes(old(rows), code, ch) ==> r == Err(TripleTaken) && rows == old(rows))
        && (!UpdateClashes(old(rows), code, ch) ==> r == Ok(code) && rows == UpdateWhere(old(rows), code, ch))
    {
      r := Update(code, CallbackColumns(corpid, token, key));
    }

    /** `completeConfiguration`: changes the encrypted secret, agentid, touser and description
        only; the callback token, key and flag are untouched. */
    method CompleteConfiguration(code: string, secret: string, agentid: int, touser: string,
                                 description: Option<string>) returns (r: Result<string, string>)
      requires Valid()
      modifies this`rows
      ensures Valid()
      ensures var ch := CompletionColumns(secret, agentid, touser, description);
        && (UpdateClashes(old(rows), code, ch) ==> r == Err(TripleTaken) && rows == old(rows))
        && (!UpdateClashes(old(rows), code, ch) ==> r == Ok(code) && rows == UpdateWhere(old(rows), code, ch))
    {
      r := Update(code, CompletionColumns(secret, agentid, touser, description));
    }

    /** `saveCallbackConfiguration`: the INSERT OR REPLACE ... SELECT ... UNION ALL ... LIMIT 1
        statement, which writes `CallbackRow` and deletes every row it conflicts with. */
    method SaveCallbackConfiguration(code: string, corpid: string, token: string, key: string, now: string)
      returns (r: Result<string, string>)
      requires Valid()
      modifies this
      ensures Valid()
      ensures r == Ok(code)
      ensures var nr := CallbackRow(old(rows), old(nextId), code, corpid, token, key, now);
        rows == InsertOrReplace(old(rows), nr)
        && nextId == if ByCallback(old(rows), corpid, token).Some? then old(nextId) else old(nextId) + 1
    {
      var nr := CallbackRow(rows, nextId, code, corpid, token, key, now);
      var existing := ByCallback(rows, corpid, token);
      if existing.Some? {
        assert existing.value in rows && existing.value.id == nr.id;
      } else {
        assert forall x :: x in rows ==> x.id < nr.id;
      }
      InsertOrReplaceOrdered(rows, nr);
      forall x | x in InsertOrReplace(rows, nr) ensures 1 <= x.id < nextId + 1 {
        if exists y :: y in rows && y.id == nr.id {
          assert x == nr || x in rows;
        } else {
          assert x == nr || x in Survivors(rows, nr);
        }
      }
      rows := InsertOrReplace(rows, nr);
      if existing.None? {
        nextId := nextId + 1;
      }
      r := Ok(code);
    }
  }
}
