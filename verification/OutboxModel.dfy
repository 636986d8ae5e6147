/**
 The durable notification outbox of internal/alerting/notifications.go as a state machine.
 Every SQL transaction is one function from a database to a database; the machine below it
 interleaves those transactions with the claims held by delivery workers and with the clock.
 Times and delays are nanoseconds.
 */
module OutboxModel {
  import opened Basics

  const SECOND: nat := 1_000_000_000
  const MINUTE: nat := 60 * SECOND
  const CLAIM_EXPIRY: nat := 5 * MINUTE
  const MAX_ATTEMPTS: nat := 8

  datatype Channel = Email | Webhook | Zabbix | Sysmon
  datatype Event = Trigger | Recovery
  datatype RowStatus = Pending | Sending | Failed | Sent | Dead

  // What later code reads back out of the stored JSON: whether it decodes, and its rule's
  // notify_recovery flag.
  datatype Payload = Corrupt | Decoded(notifyRecovery: bool)

  // The unique key (alert_id, channel, event); rows are never deleted, so it names the row.
  datatype RowKey = RowKey(alert: nat, channel: Channel, event: Event)
  datatype Row = Row(status: RowStatus, attempts: nat, nextAttempt: nat, updated: nat, payload: Payload)

  datatype AlertStatus = Active | Acknowledged | Resolved

  // History only: how the close decided about recoveries. A start of the program closes alerts of disabled rules
  // without looking at the outbox.
  datatype Closing = NotClosed | ByRule(notifyRecovery: bool) | ByPayload | AtStartup

  // evaluatedAt (the time of the evaluation pass that opened the alert) and closing are history.
  datatype Alert = Alert(rule: Option<nat>, device: nat, status: AlertStatus,
                         evaluatedAt: nat, triggeredAt: nat, closing: Closing)

  datatype Db = Db(alerts: map<nat, Alert>, outbox: map<RowKey, Row>)

  function TriggerKey(a: nat, c: Channel): RowKey { RowKey(a, c, Trigger) }

  function RecoveryKey(a: nat, c: Channel): RowKey { RowKey(a, c, Recovery) }

  predicate IsOpen(alert: Alert) { alert.status != Resolved }

  predicate Waiting(status: RowStatus) { status == Pending || status == Failed }

  predicate Terminal(status: RowStatus) { status == Sent || status == Dead }

  // ---------- delivery ----------

  predicate Claimable(db: Db, now: nat, k: RowKey) {
    && k in db.outbox && k.alert in db.alerts
    && Waiting(db.outbox[k].status) && db.outbox[k].nextAttempt <= now
    && (k.channel == Sysmon || db.outbox[k].attempts < MAX_ATTEMPTS)
    && (k.event == Recovery || IsOpen(db.alerts[k.alert]))
    && !(k.event == Recovery && TriggerKey(k.alert, k.channel) in db.outbox
         && db.outbox[TriggerKey(k.alert, k.channel)].status == Sending)
  }

  function ClaimedRow(row: Row, now: nat): Row {
    if row.payload == Corrupt then row.(status := Dead, attempts := MAX_ATTEMPTS, updated := now)
    else row.(status := Sending, attempts := row.attempts + 1, updated := now)
  }

  function Claim(db: Db, now: nat, k: RowKey): Db {
    if Claimable(db, now, k) then db.(outbox := db.outbox[k := ClaimedRow(db.outbox[k], now)]) else db
  }

  // The fencing token a worker holds: the row and the attempt number it claimed.
  datatype Token = Token(key: RowKey, attempt: nat)

  // The guard of both mark statements: status='sending' AND attempts=$n.
  predicate Current(db: Db, t: Token) {
    t.key in db.outbox && db.outbox[t.key].status == Sending && db.outbox[t.key].attempts == t.attempt
  }

  function MarkSent(db: Db, now: nat, t: Token): Db {
    if !Current(db, t) then db
    else db.(outbox := db.outbox[t.key := db.outbox[t.key].(status := Sent, updated := now)])
  }

  function FailurePolicy(c: Channel, attempts: nat): (RowStatus, nat) {
    var n := if attempts < 1 then 1 else attempts;
    if c == Sysmon then
      var backoff := Pow2(Min(n - 1, 4)) * 5 * SECOND;
      (Failed, if backoff > MINUTE then MINUTE else backoff)
    else
      var backoff := Pow2(Min(n - 1, 8)) * 30 * SECOND;
      (if n >= MAX_ATTEMPTS then Dead else Failed, if backoff > 30 * MINUTE then 30 * MINUTE else backoff)
  }

  // A failed trigger of an alert that closed meanwhile is not retried.
  function FailedStatus(db: Db, t: Token): RowStatus
    requires t.key.alert in db.alerts
  {
    if t.key.event == Trigger && !IsOpen(db.alerts[t.key.alert]) then Dead
    else FailurePolicy(t.key.channel, t.attempt).0
  }

  function MarkFailed(db: Db, now: nat, t: Token): Db {
    if t.key.alert !in db.alerts || !Current(db, t) then db
    else
      var row := db.outbox[t.key].(status := FailedStatus(db, t), updated := now,
                                   nextAttempt := now + FailurePolicy(t.key.channel, t.attempt).1);
      db.(outbox := db.outbox[t.key := row])
  }

  predicate Stale(db: Db, now: nat, k: RowKey)
    requires k in db.outbox
  {
    k.alert in db.alerts && db.outbox[k].status == Sending && db.outbox[k].updated + CLAIM_EXPIRY < now
  }

  function ReclaimedRow(db: Db, now: nat, k: RowKey): Row
    requires k in db.outbox
  {
    if !Stale(db, now, k) then db.outbox[k]
    else
      var dead := k.event == Trigger && !IsOpen(db.alerts[k.alert]);
      db.outbox[k].(status := if dead then Dead else Failed, nextAttempt := now, updated := now)
  }

  function RecoverStale(db: Db, now: nat): Db {
    db.(outbox := map k | k in db.outbox :: ReclaimedRow(db, now, k))
  }

  // ---------- opening and closing ----------

  function FreshRow(now: nat, payload: Payload): Row { Row(Pending, 0, now, now, payload) }

  function OpenAlert(db: Db, now: nat, a: nat, r: nat, device: nat, evaluatedAt: nat,
                     channels: seq<Channel>, payload: Payload): Db
  {
    if a in db.alerts then db
    else
      var added := set c | c in channels :: TriggerKey(a, c);
      Db(db.alerts[a := Alert(Some(r), device, Active, evaluatedAt, now, NotClosed)],
         map k | k in db.outbox.Keys + added :: if k in db.outbox then db.outbox[k] else FreshRow(now, payload))
  }

  function Acknowledge(db: Db, a: nat): Db {
    if a in db.alerts && db.alerts[a].status == Active
    then db.(alerts := db.alerts[a := db.alerts[a].(status := Acknowledged)]) else db
  }

  // Deleting a rule clears rule_id on its alerts (ON DELETE SET NULL).
  function DetachRule(db: Db, r: nat): Db {
    db.(alerts := map a | a in db.alerts ::
      if db.alerts[a].rule == Some(r) then db.alerts[a].(rule := None) else db.alerts[a])
  }

  // Whether the channel gets a recovery: the rule decides while it can still be loaded,
  // afterwards the copy of it inside the trigger's payload.
  predicate Wants(rule: Option<bool>, payload: Payload) {
    if rule.Some? then rule.value else payload.Decoded? && payload.notifyRecovery
  }

  predicate Dispatched(outbox: map<RowKey, Row>, k: RowKey) {
    k in outbox && (outbox[k].status == Sent || outbox[k].status == Sending)
  }

  predicate Recovers(outbox: map<RowKey, Row>, a: nat, rule: Option<bool>, c: Channel) {
    Dispatched(outbox, TriggerKey(a, c)) && Wants(rule, outbox[TriggerKey(a, c)].payload)
  }

  // INSERT ... ON CONFLICT: a row that already exists and was not sent starts over.
  function UpsertedRow(outbox: map<RowKey, Row>, k: RowKey, now: nat): Row {
    if k !in outbox then FreshRow(now, Decoded(true))
    else if outbox[k].status == Sent then outbox[k].(payload := Decoded(true), updated := now)
    else FreshRow(now, Decoded(true))
  }

  function CanceledRow(k: RowKey, row: Row, now: nat, a: nat): Row {
    if k.alert == a && k.event == Trigger && Waiting(row.status) then row.(status := Dead, updated := now) else row
  }

  function RecoveryKeys(outbox: map<RowKey, Row>, a: nat, rule: Option<bool>): set<RowKey> {
    set c: Channel | Recovers(outbox, a, rule, c) :: RecoveryKey(a, c)
  }

  function ClosedOutbox(outbox: map<RowKey, Row>, now: nat, a: nat, rule: Option<bool>): map<RowKey, Row> {
    map k | k in outbox.Keys + RecoveryKeys(outbox, a, rule) ::
      if k in RecoveryKeys(outbox, a, rule) then UpsertedRow(outbox, k, now)
      else CanceledRow(k, outbox[k], now, a)
  }

  // Nothing is left to rebuild the recovery payload from.
  ghost predicate CloseBlocked(outbox: map<RowKey, Row>, a: nat, rule: Option<bool>) {
    rule.None? && exists c :: Dispatched(outbox, TriggerKey(a, c)) && outbox[TriggerKey(a, c)].payload == Corrupt
  }

  function ClosedAlert(alert: Alert, rule: Option<bool>): Alert {
    alert.(status := Resolved, closing := if rule.Some? then ByRule(rule.value) else ByPayload)
  }

  // The one close path. rule is the notify_recovery flag of the alert's rule if that rule exists.
  ghost function CloseAlert(db: Db, now: nat, a: nat, rule: Option<bool>): Result<Db> {
    if a !in db.alerts then Err
    else if !IsOpen(db.alerts[a]) then Ok(db)
    else if CloseBlocked(db.outbox, a, rule) then Err
    else Ok(Db(db.alerts[a := ClosedAlert(db.alerts[a], rule)], ClosedOutbox(db.outbox, now, a, rule)))
  }

  // Whether a close of that kind wants a recovery for a trigger that was sent.
  predicate Promised(closing: Closing, payload: Payload) {
    match closing
    case ByRule(notifyRecovery) => notifyRecovery
    case ByPayload => payload.Decoded? && payload.notifyRecovery
    case _ => false
  }

  // UPDATE alerts SET status='resolved' ... WHERE status IN ('active','acknowledged'), at the start of the program.
  function Retire(db: Db, ids: set<nat>): Db {
    db.(alerts := map a | a in db.alerts ::
      if a in ids && IsOpen(db.alerts[a]) then db.alerts[a].(status := Resolved, closing := AtStartup)
      else db.alerts[a])
  }

  // ---------- the machine ----------

  // issued lists every claim ever handed to a worker, in order.
  datatype State = State(db: Db, now: nat, issued: seq<Token>)

  datatype Step =
    | Tick(elapsed: nat)
    | Opening(alert: nat, rule: nat, device: nat, evaluatedAt: nat, channels: seq<Channel>, payload: Payload)
    | Acknowledging(alert: nat)
    | Closing(alert: nat, notifyRecovery: Option<bool>)
    | Detaching(rule: nat)
    | Retiring(alerts: set<nat>)
    | Claiming(key: RowKey)
    | MarkingSent(token: Token)
    | MarkingFailed(token: Token)
    | Reclaiming

  ghost function Closed(s: State, a: nat, rule: Option<bool>): State {
    var res := CloseAlert(s.db, s.now, a, rule);
    if res.Ok? then s.(db := res.value) else s
  }

  function Claimed(s: State, k: RowKey): State {
    if !Claimable(s.db, s.now, k) then s
    else if s.db.outbox[k].payload == Corrupt then s.(db := Claim(s.db, s.now, k))
    else s.(db := Claim(s.db, s.now, k), issued := s.issued + [Token(k, s.db.outbox[k].attempts + 1)])
  }

  function Recorded(s: State, t: Token, sent: bool): State {
    if t !in s.issued then s
    else s.(db := if sent then MarkSent(s.db, s.now, t) else MarkFailed(s.db, s.now, t))
  }

  // A step that is not enabled, or whose transaction fails, leaves the state alone. A worker may
  // use a token it was issued at any later time, any number of times, or never.
  ghost function Next(s: State, step: Step): State {
    match step
    case Tick(d) => s.(now := s.now + d)
    case Opening(a, r, d, e, cs, p) => s.(db := OpenAlert(s.db, s.now, a, r, d, e, cs, p))
    case Acknowledging(a) => s.(db := Acknowledge(s.db, a))
    case Closing(a, rule) => Closed(s, a, rule)
    case Detaching(r) => s.(db := DetachRule(s.db, r))
    case Retiring(ids) => s.(db := Retire(s.db, ids))
    case Claiming(k) => Claimed(s, k)
    case MarkingSent(t) => Recorded(s, t, true)
    case MarkingFailed(t) => Recorded(s, t, false)
    case Reclaiming => s.(db := RecoverStale(s.db, s.now))
  }

  ghost function Run(s: State, steps: seq<Step>): State
    decreases |steps|
  {
    if steps == [] then s else Run(Next(s, steps[0]), steps[1..])
  }

  ghost function Init(): State { State(Db(map[], map[]), 0, []) }

  // The state after any history.
  ghost function After(history: seq<Step>): State { Run(Init(), history) }
}
