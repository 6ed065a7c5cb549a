/**
 * The server's `/update` handler and the process-wide `appState` it updates: validation of a
 * sample, rate of change of level B, the rapid-rise latch, predictor defaults, the status-change
 * notification, the periodic danger reminder, the persisted record and the cloud mirror.
 *
 * Everything outside the process is a parameter: the predictor's two replies, the outcome of
 * each push, whether the cloud post went through, and the clock readings.
 */
module Server {
  import opened Common
  import opened Notify
  import OfflineQueue

  // ---------------------------------------------------------------- constants

  /** `RAPID_RISE_THRESHOLD` in cm/s when no environment override is given. */
  const RapidRiseThreshold: real := 0.5

  /** Minimum age of the danger timer before another reminder: two minutes, in milliseconds. */
  const ReminderIntervalMs: int := 2 * 60 * 1000

  /** The status reported when the predictor gives no usable answer. */
  const PredictionError: string := "Lỗi dự đoán"

  /** The countdown reported when the predictor gives no usable answer. */
  const NoPredictedTime: real := -1.0

  const TokenNotRegistered: string := "messaging/registration-token-not-registered"
  const InvalidRegistrationToken: string := "messaging/invalid-registration-token"

  // ---------------------------------------------------------------- inputs

  /** A JSON value as far as the `isRaining` check distinguishes them. */
  datatype JsValue = Undefined | Null | Bool(b: bool) | Str(s: string) | Number(x: real)

  /**
   * The body of `POST /update`. The three levels are the results of `parseFloat` (`None` is NaN);
   * `trangThai`/`thongBao` are `None` when falsy; `timeUntilADanger` is `None` when null or undefined.
   */
  datatype UpdateBody = UpdateBody(
    mucNuocA: Option<real>, mucNuocB: Option<real>, luuLuong: Option<real>,
    isRaining: JsValue,
    trangThai: Option<string>, thongBao: Option<string>,
    timeUntilADanger: Option<real>)

  /** What a push attempt ends with: delivered, or an error code from the messaging service. */
  datatype PushOutcome = Sent | SendError(code: string)

  /** The outcomes of everything `/update` waits for outside the process. */
  datatype Replies = Replies(
    statusReply: Option<string>,   // `prediction` of a fulfilled `/predict` call
    timeReply: Option<real>,       // `parseFloat(predicted_seconds)` of a fulfilled `/predict_time`, unless NaN
    rapidPush: PushOutcome,        // the rapid-rise push
    statusPush: PushOutcome,       // the status-change push
    reminderPush: PushOutcome,     // the danger-reminder push
    reminderClock: int,            // `Date.now()` at the reminder check
    cloudPosted: bool,             // whether the post to the cloud mirror went through
    queueClock: int)               // `Date.now()` when a failed post is queued

  /** One call of `/update`: its body, the clock when the sample was accepted, and the replies. */
  datatype Request = Request(body: UpdateBody, now: int, replies: Replies)

  /** Whether Firebase Admin initialised and whether a cloud sync target is configured. */
  datatype Env = Env(firebaseReady: bool, syncConfigured: bool)

  // ---------------------------------------------------------------- state and outputs

  /** The reference sample for the next rate computation. */
  datatype LastSample = LastSample(mucNuocB: Option<real>, luuLuong: Option<real>, timestamp: Option<int>)

  /** The value of `appState`. */
  datatype AppSnapshot = AppSnapshot(
    fcmToken: Option<string>,
    lastSensorData: LastSample,
    lastSentAIStatus: string,
    sentRapidRiseNotification: bool,
    lastDangerAlertTime: Option<int>)

  const InitialState: AppSnapshot :=
    AppSnapshot(None, LastSample(None, None, None), Normal, false, None)

  /** A decoded, valid sample. */
  datatype Sample = Sample(
    mucNuocA: real, mucNuocB: real, luuLuong: real, isRaining: bool,
    trangThai: string, thongBao: string, timeUntilADanger: Option<real>)

  /** The feature vector sent to both predictor endpoints. */
  datatype AiFeatures = AiFeatures(
    mucNuocA: real, mucNuocB: real, luuLuong: real, isRainingNow: int,
    bRateOfChange: real, flowRateOfChange: real, abDiff: real)

  /** The row written to `sensor_data` for an accepted sample. */
  datatype SensorRecord = SensorRecord(
    mucNuocA: real, mucNuocB: real, luuLuong: real,
    trangThai: string, thongBao: string,
    predictedTrangThai: string, timeUntilADanger: Option<string>,
    predictedTimeToA: real, isRaining: bool)

  /** A push handed to the messaging service, and whether it was delivered. */
  datatype Notice =
    | RapidRiseNotice(rate: real, delivered: bool)
    | StatusNotice(reminder: bool, title: string, body: string, delivered: bool)

  datatype Response = BadRequest | Processed(predictionStatus: string, predictionTime: real)

  /** Everything one call of `/update` produces. */
  datatype Outcome = Outcome(
    state: AppSnapshot,
    response: Response,
    features: Option<AiFeatures>,
    notices: seq<Notice>,
    record: Option<SensorRecord>,
    cloud: Option<OfflineQueue.CloudPayload>,  // the payload posted to the cloud mirror
    queued: bool,                              // whether that payload went to the offline queue
    rapidRiseFired: bool,                      // `sendRapidRiseNotification` was called
    statusChanged: bool,                       // the status-change branch was taken
    reminderFired: bool)                       // the danger-reminder branch was taken

  // ---------------------------------------------------------------- decoding and rates

  /** `isRaining` is true only for the boolean `true` or the string "true". */
  function DecodeRain(v: JsValue): bool {
    v == Bool(true) || v == Str("true")
  }

  /** Validation: every level must parse and `isRaining` must be present. */
  function Decode(body: UpdateBody): (r: Option<Sample>)
    ensures r.None? <==>
      body.mucNuocA.None? || body.mucNuocB.None? || body.luuLuong.None? || body.isRaining == Undefined
    ensures r.Some? ==>
      r.value.mucNuocA == body.mucNuocA.value && r.value.mucNuocB == body.mucNuocB.value &&
      r.value.luuLuong == body.luuLuong.value &&
      (r.value.isRaining <==> body.isRaining == Bool(true) || body.isRaining == Str("true"))
  {
    if body.mucNuocA.None? || body.mucNuocB.None? || body.luuLuong.None? || body.isRaining == Undefined then
      None
    else
      Some(Sample(body.mucNuocA.value, body.mucNuocB.value, body.luuLuong.value, DecodeRain(body.isRaining),
                  body.trangThai.GetOr(""), body.thongBao.GetOr(""), body.timeUntilADanger))
  }

  function ElapsedSeconds(since: int, now: int): real {
    ((now - since) as real) / 1000.0
  }

  /**
   * Rate of change per second against the stored sample: zero without a stored timestamp or
   * when no time has passed; a missing stored value counts as the current one.
   */
  function RateOf(current: real, previous: Option<real>, since: Option<int>, now: int): (rate: real)
    ensures since.None? || now <= since.value ==> rate == 0.0
    ensures since.Some? && now > since.value ==>
      rate * ElapsedSeconds(since.value, now) == current - previous.GetOr(current)
  {
    if since.Some? && ElapsedSeconds(since.value, now) > 0.0 then
      (current - previous.GetOr(current)) / ElapsedSeconds(since.value, now)
    else 0.0
  }

  // ---------------------------------------------------------------- pushes

  /** A token is usable when it is present and not empty. */
  predicate HasToken(token: Option<string>) {
    token.Some? && token.value != ""
  }

  predicate InvalidTokenError(outcome: PushOutcome) {
    outcome.SendError? && (outcome.code == TokenNotRegistered || outcome.code == InvalidRegistrationToken)
  }

  /** Whether a push was handed over, whether it was delivered, and the token afterwards. */
  datatype PushResult = PushResult(handed: bool, delivered: bool, token: Option<string>)

  /** `sendPushNotificationInternal` as a value: the token is dropped on an invalid-token error. */
  function Push(firebaseReady: bool, token: Option<string>, outcome: PushOutcome): PushResult {
    var handed := firebaseReady && HasToken(token);
    PushResult(handed, handed && outcome.Sent?,
               if handed && InvalidTokenError(outcome) then None else token)
  }

  /** A push is delivered only when handed over, and the token is cleared only by an invalid-token error. */
  lemma TokenClearing(firebaseReady: bool, token: Option<string>, outcome: PushOutcome)
    ensures var p := Push(firebaseReady, token, outcome);
      (p.delivered <==> firebaseReady && HasToken(token) && outcome.Sent?) &&
      (p.token == token || p.token == None) &&
      (p.token != token <==> firebaseReady && HasToken(token) && InvalidTokenError(outcome))
  {
  }

  /** The notice of a status push (`sendAIStatusNotification`) if it was handed over. */
  function StatusNotices(p: PushResult, reminder: bool, status: string, countdown: real): seq<Notice> {
    if p.handed then [StatusNotice(reminder, NotificationTitle(status), NotificationBody(status, countdown), p.delivered)]
    else []
  }

  // ---------------------------------------------------------------- the stages of /update

  /** The state after one stage of `/update`, the pushes it handed over, and whether it fired. */
  datatype Stage = Stage(state: AppSnapshot, notices: seq<Notice>, fired: bool)

  /** The rapid-rise latch: fire once above the threshold, re-arm only when the rate is not positive. */
  function RapidRiseStage(firebaseReady: bool, s: AppSnapshot, rate: real, outcome: PushOutcome): Stage {
    if rate > RapidRiseThreshold && !s.sentRapidRiseNotification then
      var p := Push(firebaseReady, s.fcmToken, outcome);
      Stage(s.(fcmToken := p.token, sentRapidRiseNotification := true),
            if p.handed then [RapidRiseNotice(rate, p.delivered)] else [], true)
    else if rate <= 0.0 && s.sentRapidRiseNotification then
      Stage(s.(sentRapidRiseNotification := false), [], false)
    else
      Stage(s, [], false)
  }

  function PredictedStatus(reply: Option<string>): string {
    if reply.Some? && reply.value != "" then reply.value else PredictionError
  }

  function PredictedTime(reply: Option<real>): real {
    reply.GetOr(NoPredictedTime)
  }

  /** The status-change notification: only with a token and a status different from the last one sent. */
  function StatusChangeStage(firebaseReady: bool, s: AppSnapshot, status: string, countdown: real,
                             outcome: PushOutcome): Stage
  {
    if HasToken(s.fcmToken) && s.lastSentAIStatus != status then
      var p := Push(firebaseReady, s.fcmToken, outcome);
      Stage(s.(fcmToken := p.token, lastSentAIStatus := status,
               lastDangerAlertTime := if status != Danger then None else s.lastDangerAlertTime),
            StatusNotices(p, false, status, countdown), true)
    else
      Stage(s, [], false)
  }

  /** The danger timer allows a reminder when unset (null or 0) or older than two minutes. */
  predicate ReminderDue(timer: Option<int>, now: int) {
    timer.None? || timer.value == 0 || now - timer.value > ReminderIntervalMs
  }

  /** The periodic danger reminder; the timer restarts at the reminder's clock reading. */
  function ReminderStage(firebaseReady: bool, s: AppSnapshot, status: string, countdown: real,
                         now: int, outcome: PushOutcome): Stage
  {
    if status == Danger && HasToken(s.fcmToken) && ReminderDue(s.lastDangerAlertTime, now) then
      var p := Push(firebaseReady, s.fcmToken, outcome);
      Stage(s.(fcmToken := p.token, lastDangerAlertTime := Some(now)),
            StatusNotices(p, true, status, countdown), true)
    else
      Stage(s, [], false)
  }

  /** The state after the three alert blocks of `/update`, the pushes they handed over, and which fired. */
  datatype Alerts = Alerts(state: AppSnapshot, notices: seq<Notice>,
                           rapidRiseFired: bool, statusChanged: bool, reminderFired: bool)

  /** The rapid-rise, status-change and reminder blocks in order, each on the state the previous left. */
  function AlertStages(firebaseReady: bool, s: AppSnapshot, bRate: real, status: string, time: real,
                       replies: Replies): Alerts
  {
    var rapid := RapidRiseStage(firebaseReady, s, bRate, replies.rapidPush);
    var change := StatusChangeStage(firebaseReady, rapid.state, status, time, replies.statusPush);
    var reminder := ReminderStage(firebaseReady, change.state, status, time, replies.reminderClock,
                                  replies.reminderPush);
    Alerts(reminder.state, rapid.notices + change.notices + reminder.notices,
           rapid.fired, change.fired, reminder.fired)
  }

  /** The countdown text stored with the record: the simulator's countdown when given, else the predicted one. */
  function PersistedCountdown(simulator: Option<real>, predicted: real): Option<string> {
    FormatCountdown(if simulator.Some? then simulator else Some(predicted))
  }

  /** `/update` on a valid sample. */
  function Process(env: Env, s: AppSnapshot, x: Sample, now: int, replies: Replies): Outcome {
    var last := s.lastSensorData;
    var bRate := RateOf(x.mucNuocB, last.mucNuocB, last.timestamp, now);
    var flowRate := RateOf(x.luuLuong, last.luuLuong, last.timestamp, now);
    var features := AiFeatures(x.mucNuocA, x.mucNuocB, x.luuLuong, if x.isRaining then 1 else 0,
                               bRate, flowRate, x.mucNuocB - x.mucNuocA);
    var status := PredictedStatus(replies.statusReply);
    var time := PredictedTime(replies.timeReply);
    var alerts := AlertStages(env.firebaseReady, s, bRate, status, time, replies);
    var record := SensorRecord(x.mucNuocA, x.mucNuocB, x.luuLuong, x.trangThai, x.thongBao, status,
                               PersistedCountdown(x.timeUntilADanger, time), time, x.isRaining);
    var payload := OfflineQueue.CloudPayload(x.mucNuocA, x.mucNuocB, x.luuLuong, x.isRaining,
                                             x.trangThai, x.thongBao, time, status);
    Outcome(alerts.state.(lastSensorData := LastSample(Some(x.mucNuocB), Some(x.luuLuong), Some(now))),
            Processed(status, time), Some(features), alerts.notices, Some(record),
            if env.syncConfigured then Some(payload) else None,
            env.syncConfigured && !replies.cloudPosted,
            alerts.rapidRiseFired, alerts.statusChanged, alerts.reminderFired)
  }

  /** One call of `/update`: a rejected request changes nothing. */
  function Evaluate(env: Env, s: AppSnapshot, req: Request): Outcome {
    match Decode(req.body)
    case None => Outcome(s, BadRequest, None, [], None, None, false, false, false, false)
    case Some(x) => Process(env, s, x, req.now, req.replies)
  }

  // ---------------------------------------------------------------- appState

  class AppState {
    var fcmToken: Option<string>
    var lastSensorData: LastSample
    var lastSentAIStatus: string
    var sentRapidRiseNotification: bool
    var lastDangerAlertTime: Option<int>

    function Snapshot(): AppSnapshot
      reads this
    {
      AppSnapshot(fcmToken, lastSensorData, lastSentAIStatus, sentRapidRiseNotification, lastDangerAlertTime)
    }

    constructor()
      ensures Snapshot() == InitialState
    {
      fcmToken := None;
      lastSensorData := LastSample(None, None, None);
      lastSentAIStatus := Normal;
      sentRapidRiseNotification := false;
      lastDangerAlertTime := None;
    }

    /** `POST /api/register_fcm_token`: a missing or empty token is refused and changes nothing. */
    method RegisterFcmToken(token: Option<string>) returns (accepted: bool)
      modifies this`fcmToken
      ensures accepted <==> HasToken(token)
      ensures fcmToken == if accepted then token else old(fcmToken)
    {
      if !HasToken(token) {
        return false;
      }
      fcmToken := token;
      return true;
    }

    /** `shouldSendAIStatusNotification`: a token is registered and the status differs. */
    function ShouldSendAIStatusNotification(lastStatus: string, currentStatus: string): bool
      reads this`fcmToken
    {
      HasToken(fcmToken) && lastStatus != currentStatus
    }

    /** `sendPushNotificationInternal`: the token is dropped when the service calls it invalid. */
    method SendPushNotificationInternal(firebaseReady: bool, outcome: PushOutcome) returns (delivered: bool)
      modifies this`fcmToken
      ensures var p := Push(firebaseReady, old(fcmToken), outcome);
        delivered == p.delivered && fcmToken == p.token
    {
      if !firebaseReady || !HasToken(fcmToken) {
        return false;
      }
      match outcome
      case Sent =>
        return true;
      case SendError(code) =>
        if code == TokenNotRegistered || code == InvalidRegistrationToken {
          fcmToken := None;
        }
        return false;
    }

    /** `sendAIStatusNotification`: the title and body for the status, pushed when possible. */
    method SendAIStatusNotification(firebaseReady: bool, status: string, countdown: real, reminder: bool,
                                    outcome: PushOutcome) returns (notices: seq<Notice>)
      modifies this`fcmToken
      ensures var p := Push(firebaseReady, old(fcmToken), outcome);
        fcmToken == p.token && notices == StatusNotices(p, reminder, status, countdown)
    {
      notices := [];
      if !firebaseReady {
        return;
      }
      var title := NotificationTitle(status);
      var body := NotificationBody(status, countdown);
      var handed := HasToken(fcmToken);
      var delivered := SendPushNotificationInternal(firebaseReady, outcome);
      if handed {
        notices := [StatusNotice(reminder, title, body, delivered)];
      }
    }

    /** `sendRapidRiseNotification`. */
    method SendRapidRiseNotification(firebaseReady: bool, rate: real, outcome: PushOutcome)
      returns (notices: seq<Notice>)
      modifies this`fcmToken
      ensures var p := Push(firebaseReady, old(fcmToken), outcome);
        fcmToken == p.token && notices == (if p.handed then [RapidRiseNotice(rate, p.delivered)] else [])
    {
      notices := [];
      if !firebaseReady {
        return;
      }
      var handed := HasToken(fcmToken);
      var delivered := SendPushNotificationInternal(firebaseReady, outcome);
      if handed {
        notices := [RapidRiseNotice(rate, delivered)];
      }
    }

    /** The rapid-rise block of `/update`. */
    method CheckRapidRise(firebaseReady: bool, rate: real, outcome: PushOutcome)
      returns (notices: seq<Notice>, fired: bool)
      modifies this`fcmToken, this`sentRapidRiseNotification
      ensures var stage := RapidRiseStage(firebaseReady, old(Snapshot()), rate, outcome);
        Snapshot() == stage.state && notices == stage.notices && fired == stage.fired
    {
      notices, fired := [], false;
      if rate > RapidRiseThreshold && !sentRapidRiseNotification {
        notices := SendRapidRiseNotification(firebaseReady, rate, outcome);
        sentRapidRiseNotification := true;
        fired := true;
      } else if rate <= 0.0 && sentRapidRiseNotification {
        sentRapidRiseNotification := false;
      }
    }

    /** The status-change block of `/update`. */
    method CheckStatusChange(firebaseReady: bool, status: string, countdown: real, outcome: PushOutcome)
      returns (notices: seq<Notice>, fired: bool)
      modifies this`fcmToken, this`lastSentAIStatus, this`lastDangerAlertTime
      ensures var stage := StatusChangeStage(firebaseReady, old(Snapshot()), status, countdown, outcome);
        Snapshot() == stage.state && notices == stage.notices && fired == stage.fired
    {
      notices, fired := [], false;
      if ShouldSendAIStatusNotification(lastSentAIStatus, status) {
        notices := SendAIStatusNotification(firebaseReady, status, countdown, false, outcome);
        lastSentAIStatus := status;
        if status != Danger {
          lastDangerAlertTime := None;
        }
        fired := true;
      }
    }

    /** The danger-reminder block of `/update`; `now` is the clock reading taken at the check. */
    method CheckDangerReminder(firebaseReady: bool, status: string, countdown: real, now: int,
                               outcome: PushOutcome) returns (notices: seq<Notice>, fired: bool)
      modifies this`fcmToken, this`lastDangerAlertTime
      ensures var stage := ReminderStage(firebaseReady, old(Snapshot()), status, countdown, now, outcome);
        Snapshot() == stage.state && notices == stage.notices && fired == stage.fired
    {
      notices, fired := [], false;
      if status == Danger && HasToken(fcmToken) {
        if lastDangerAlertTime.None? || lastDangerAlertTime.value == 0
           || now - lastDangerAlertTime.value > ReminderIntervalMs {
          notices := SendAIStatusNotification(firebaseReady, status, countdown, true, outcome);
          lastDangerAlertTime := Some(now);
          fired := true;
        }
      }
    }

    /** The rate of change of B and of the flow against the stored sample. */
    method RatesOfChange(x: Sample, now: int) returns (bRate: real, flowRate: real)
      ensures bRate == RateOf(x.mucNuocB, lastSensorData.mucNuocB, lastSensorData.timestamp, now)
      ensures flowRate == RateOf(x.luuLuong, lastSensorData.luuLuong, lastSensorData.timestamp, now)
    {
      bRate, flowRate := 0.0, 0.0;
      if lastSensorData.timestamp.Some? {
        var elapsed := ElapsedSeconds(lastSensorData.timestamp.value, now);
        if elapsed > 0.0 {
          var lastB := if lastSensorData.mucNuocB.Some? then lastSensorData.mucNuocB.value else x.mucNuocB;
          var lastFlow := if lastSensorData.luuLuong.Some? then lastSensorData.luuLuong.value else x.luuLuong;
          bRate := (x.mucNuocB - lastB) / elapsed;
          flowRate := (x.luuLuong - lastFlow) / elapsed;
        }
      }
    }

    /** The three alert blocks of `/update`, in order. */
    method RaiseAlerts(firebaseReady: bool, bRate: real, status: string, time: real, replies: Replies)
      returns (notices: seq<Notice>)
      modifies this`fcmToken, this`sentRapidRiseNotification, this`lastSentAIStatus, this`lastDangerAlertTime
      ensures var alerts := AlertStages(firebaseReady, old(Snapshot()), bRate, status, time, replies);
        Snapshot() == alerts.state && notices == alerts.notices
    {
      var rapid, rapidFired := CheckRapidRise(firebaseReady, bRate, replies.rapidPush);
      var change, changed := CheckStatusChange(firebaseReady, status, time, replies.statusPush);
      var reminder, reminded := CheckDangerReminder(firebaseReady, status, time, replies.reminderClock,
                                                    replies.reminderPush);
      notices := rapid + change + reminder;
    }

    /** `/update` once the sample is valid. */
    method Accept(env: Env, x: Sample, now: int, replies: Replies, queue: OfflineQueue.UnsyncedFile)
      returns (response: Response, notices: seq<Notice>, record: Option<SensorRecord>)
      modifies this, queue
      ensures var out := Process(env, old(Snapshot()), x, now, replies);
        Snapshot() == out.state && response == out.response && notices == out.notices &&
        record == out.record &&
        queue.file == (if out.queued then Some(old(queue.file).GetOr([]) + [OfflineQueue.Entry(out.cloud.value, replies.queueClock)])
                       else old(queue.file))
    {
      var bRate, flowRate := RatesOfChange(x, now);
      var current := LastSample(Some(x.mucNuocB), Some(x.luuLuong), Some(now));

      var status := PredictionError;
      var time := NoPredictedTime;
      if replies.statusReply.Some? && replies.statusReply.value != "" {
        status := replies.statusReply.value;
      }
      if replies.timeReply.Some? {
        time := replies.timeReply.value;
      }
      notices := RaiseAlerts(env.firebaseReady, bRate, status, time, replies);

      var countdown := if x.timeUntilADanger.Some? then x.timeUntilADanger else Some(time);
      record := Some(SensorRecord(x.mucNuocA, x.mucNuocB, x.luuLuong, x.trangThai, x.thongBao, status,
                                  FormatCountdown(countdown), time, x.isRaining));

      assert status == PredictedStatus(replies.statusReply) && time == PredictedTime(replies.timeReply);
      MirrorToCloud(env, OfflineQueue.CloudPayload(x.mucNuocA, x.mucNuocB, x.luuLuong, x.isRaining,
                                                   x.trangThai, x.thongBao, time, status), replies, queue);
      lastSensorData := current;
      response := Processed(status, time);
    }

    /** The cloud post; a failed post queues the payload for the next sync pass. */
    static method MirrorToCloud(env: Env, payload: OfflineQueue.CloudPayload, replies: Replies,
                                queue: OfflineQueue.UnsyncedFile)
      modifies queue
      ensures queue.file == (if env.syncConfigured && !replies.cloudPosted
                             then Some(old(queue.file).GetOr([]) + [OfflineQueue.Entry(payload, replies.queueClock)])
                             else old(queue.file))
    {
      if env.syncConfigured && !replies.cloudPosted {
        queue.SaveUnsyncedData(payload, replies.queueClock);
      }
    }

    /** `POST /update`: a request failing validation is answered 400 and changes nothing. */
    method Update(env: Env, req: Request, queue: OfflineQueue.UnsyncedFile)
      returns (response: Response, notices: seq<Notice>, record: Option<SensorRecord>)
      modifies this, queue
      ensures var out := Evaluate(env, old(Snapshot()), req);
        Snapshot() == out.state && response == out.response && notices == out.notices &&
        record == out.record &&
        queue.file == (if out.queued then Some(old(queue.file).GetOr([]) + [OfflineQueue.Entry(out.cloud.value, req.replies.queueClock)])
                       else old(queue.file))
    {
      var body := req.body;
      if body.mucNuocA.None? || body.mucNuocB.None? || body.luuLuong.None? || body.isRaining == Undefined {
        return BadRequest, [], None;
      }
      response, notices, record := Accept(env, Decode(body).value, req.now, req.replies, queue);
    }
  }

  // ---------------------------------------------------------------- one call

  /** A request is refused (400) exactly when validation fails, and then nothing changes. */
  lemma InvalidSampleRejected(env: Env, s: AppSnapshot, req: Request)
    ensures var out := Evaluate(env, s, req);
      (out.response == BadRequest <==>
         req.body.mucNuocA.None? || req.body.mucNuocB.None? || req.body.luuLuong.None? ||
         req.body.isRaining == Undefined) &&
      (out.response == BadRequest ==>
         out.state == s && out.notices == [] && out.record.None? && out.cloud.None? && !out.queued)
  {
  }

  /**
   * The rate is zero without a stored timestamp or without elapsed time, otherwise the change of B
   * over the elapsed seconds; the accepted sample becomes the next reference.
   */
  lemma RateAgainstPrevious(env: Env, s: AppSnapshot, req: Request)
    requires Decode(req.body).Some?
    ensures var out := Evaluate(env, s, req); var x := Decode(req.body).value;
      var since := s.lastSensorData.timestamp;
      out.features.Some? &&
      (since.None? || req.now <= since.value ==>
         out.features.value.bRateOfChange == 0.0 && out.features.value.flowRateOfChange == 0.0) &&
      (since.Some? && req.now > since.value ==>
         out.features.value.bRateOfChange * ElapsedSeconds(since.value, req.now) ==
           x.mucNuocB - s.lastSensorData.mucNuocB.GetOr(x.mucNuocB)) &&
      out.state.lastSensorData == LastSample(Some(x.mucNuocB), Some(x.luuLuong), Some(req.now))
  {
  }

  /** The rate of change of B seen by a valid request. */
  function BRate(s: AppSnapshot, x: Sample, now: int): real {
    RateOf(x.mucNuocB, s.lastSensorData.mucNuocB, s.lastSensorData.timestamp, now)
  }

  /**
   * The rapid-rise latch: it fires only above the threshold with the flag down, and then raises
   * the flag; the flag comes down only on a non-positive rate; while it is up nothing is pushed.
   */
  lemma RapidRiseLatch(env: Env, s: AppSnapshot, req: Request)
    ensures var out := Evaluate(env, s, req);
      (out.rapidRiseFired <==>
         Decode(req.body).Some? && BRate(s, Decode(req.body).value, req.now) > RapidRiseThreshold &&
         !s.sentRapidRiseNotification) &&
      (out.rapidRiseFired ==> out.state.sentRapidRiseNotification) &&
      (!s.sentRapidRiseNotification && out.state.sentRapidRiseNotification ==> out.rapidRiseFired) &&
      (s.sentRapidRiseNotification && !out.state.sentRapidRiseNotification ==>
         Decode(req.body).Some? && BRate(s, Decode(req.body).value, req.now) <= 0.0) &&
      (forall n :: n in out.notices && n.RapidRiseNotice? ==> out.rapidRiseFired)
  {
    match Decode(req.body)
    case None =>
    case Some(x) =>
      var out := Evaluate(env, s, req);
      var status := PredictedStatus(req.replies.statusReply);
      var time := PredictedTime(req.replies.timeReply);
      var rate := BRate(s, x, req.now);
      LatchStages(env.firebaseReady, s, rate, status, time, req.replies);
      assert out.notices == AlertStages(env.firebaseReady, s, rate, status, time, req.replies).notices;
  }

  /** Only the rapid-rise block touches the flag or pushes a rapid-rise notice. */
  lemma LatchStages(firebaseReady: bool, s: AppSnapshot, bRate: real, status: string, time: real,
                    replies: Replies)
    ensures var alerts := AlertStages(firebaseReady, s, bRate, status, time, replies);
      var rapid := RapidRiseStage(firebaseReady, s, bRate, replies.rapidPush);
      alerts.state.sentRapidRiseNotification == rapid.state.sentRapidRiseNotification &&
      alerts.rapidRiseFired == rapid.fired &&
      (forall n :: n in alerts.notices && n.RapidRiseNotice? ==> rapid.fired)
  {
    var rapid := RapidRiseStage(firebaseReady, s, bRate, replies.rapidPush);
    var change := StatusChangeStage(firebaseReady, rapid.state, status, time, replies.statusPush);
    var reminder := ReminderStage(firebaseReady, change.state, status, time, replies.reminderClock,
                                  replies.reminderPush);
    assert forall n :: n in change.notices + reminder.notices ==> n.StatusNotice?;
  }

  /** The status and time fall back to their defaults unless the matching reply is usable, independently. */
  lemma PredictorDefaults(env: Env, s: AppSnapshot, req: Request)
    requires Decode(req.body).Some?
    ensures var out := Evaluate(env, s, req); var r := req.replies;
      out.response.Processed? &&
      out.response.predictionStatus ==
        (if r.statusReply.Some? && r.statusReply.value != "" then r.statusReply.value else PredictionError) &&
      out.response.predictionTime == (if r.timeReply.Some? then r.timeReply.value else NoPredictedTime)
  {
  }

  /**
   * The status-change notification is sent iff a token is still registered at that point (it is
   * lost only if the rapid-rise push just reported it invalid) and the status differs from the
   * last one sent; sending records the status and, unless it is the danger status, stops the
   * danger timer. Without a token nothing about notifications changes.
   */
  lemma StatusChangeRule(env: Env, s: AppSnapshot, req: Request)
    requires Decode(req.body).Some?
    ensures var out := Evaluate(env, s, req); var status := PredictedStatus(req.replies.statusReply);
      (out.statusChanged <==>
         HasToken(s.fcmToken) && s.lastSentAIStatus != status &&
         !(out.rapidRiseFired && env.firebaseReady && InvalidTokenError(req.replies.rapidPush))) &&
      (out.statusChanged ==> out.state.lastSentAIStatus == status) &&
      (out.statusChanged && status != Danger ==> out.state.lastDangerAlertTime.None?) &&
      (!out.statusChanged ==> out.state.lastSentAIStatus == s.lastSentAIStatus) &&
      (!HasToken(s.fcmToken) ==>
         !out.statusChanged && !out.reminderFired && out.notices == [] &&
         out.state.fcmToken == s.fcmToken && out.state.lastDangerAlertTime == s.lastDangerAlertTime)
  {
  }

  /**
   * The danger reminder fires only for the danger status with a token and a due timer, and then
   * restarts the timer at its clock reading; when no earlier push of the call reported the token
   * invalid, those conditions suffice.
   */
  lemma DangerReminderRule(env: Env, s: AppSnapshot, req: Request)
    requires Decode(req.body).Some?
    ensures var out := Evaluate(env, s, req); var status := PredictedStatus(req.replies.statusReply);
      var clock := req.replies.reminderClock;
      (out.reminderFired ==>
         status == Danger && HasToken(s.fcmToken) && ReminderDue(s.lastDangerAlertTime, clock) &&
         out.state.lastDangerAlertTime == Some(clock)) &&
      (status == Danger && HasToken(s.fcmToken) && ReminderDue(s.lastDangerAlertTime, clock) &&
       !InvalidTokenError(req.replies.rapidPush) && !InvalidTokenError(req.replies.statusPush) ==>
         out.reminderFired)
  {
  }

  /** Only a reminder sets the danger timer, to its clock reading; otherwise it stays or is cleared. */
  lemma TimerStep(env: Env, s: AppSnapshot, req: Request)
    ensures var out := Evaluate(env, s, req);
      (out.reminderFired ==> out.state.lastDangerAlertTime == Some(req.replies.reminderClock)) &&
      (!out.reminderFired && out.state.lastDangerAlertTime.Some? ==>
         out.state.lastDangerAlertTime == s.lastDangerAlertTime)
  {
  }

  /** The stored countdown text: the simulator's countdown when sent, else the predicted one; none for negatives. */
  lemma PersistedCountdownChoice(env: Env, s: AppSnapshot, req: Request)
    requires Decode(req.body).Some?
    ensures var out := Evaluate(env, s, req); var sim := req.body.timeUntilADanger;
      var time := PredictedTime(req.replies.timeReply);
      out.record.Some? &&
      (sim.Some? ==> out.record.value.timeUntilADanger == FormatCountdown(sim)) &&
      (sim.None? ==> out.record.value.timeUntilADanger == FormatCountdown(Some(time))) &&
      (out.record.value.timeUntilADanger.None? <==>
         (sim.Some? && sim.value < 0.0) || (sim.None? && time < 0.0)) &&
      (sim.None? && req.replies.timeReply.None? ==> out.record.value.timeUntilADanger.None?)
  {
  }

  /** The danger timer runs only while the last status sent is the danger status. */
  predicate TimerInvariant(s: AppSnapshot) {
    s.lastDangerAlertTime.Some? ==> s.lastSentAIStatus == Danger
  }

  lemma TimerInvariantKept(env: Env, s: AppSnapshot, req: Request)
    requires TimerInvariant(s)
    ensures TimerInvariant(Evaluate(env, s, req).state)
  {
  }

  /**
   * Entering the danger status with a working token pushes twice in the same call: after any
   * rapid-rise push come the status-change alert and, since the timer is not running, the first
   * reminder, with the same title and body.
   */
  lemma EnteringDangerPushesTwice(s: AppSnapshot, bRate: real, time: real, replies: Replies)
    requires TimerInvariant(s) && HasToken(s.fcmToken) && s.lastSentAIStatus != Danger
    requires replies.rapidPush == Sent && replies.statusPush == Sent && replies.reminderPush == Sent
    ensures var alerts := AlertStages(true, s, bRate, Danger, time, replies);
      var body := NotificationBody(Danger, time);
      alerts.statusChanged && alerts.reminderFired &&
      alerts.notices == RapidRiseStage(true, s, bRate, Sent).notices +
        [StatusNotice(false, DangerTitle, body, true), StatusNotice(true, DangerTitle, body, true)]
  {
    var body := NotificationBody(Danger, time);
    var rapid := RapidRiseStage(true, s, bRate, Sent);
    assert rapid.state.fcmToken == s.fcmToken && rapid.state.lastSentAIStatus == s.lastSentAIStatus &&
           rapid.state.lastDangerAlertTime.None?;
    var change := StatusChangeStage(true, rapid.state, Danger, time, Sent);
    assert change.fired && change.notices == [StatusNotice(false, DangerTitle, body, true)];
    assert change.state.fcmToken == s.fcmToken && change.state.lastDangerAlertTime.None?;
    var reminder := ReminderStage(true, change.state, Danger, time, replies.reminderClock, Sent);
    assert reminder.fired && reminder.notices == [StatusNotice(true, DangerTitle, body, true)];
    var alerts := AlertStages(true, s, bRate, Danger, time, replies);
    assert change.notices + reminder.notices ==
      [StatusNotice(false, DangerTitle, body, true), StatusNotice(true, DangerTitle, body, true)];
    assert alerts.notices == rapid.notices + (change.notices + reminder.notices);
  }

  // ---------------------------------------------------------------- runs of calls

  /** The states before and after each of a sequence of `/update` calls. */
  function States(env: Env, s: AppSnapshot, reqs: seq<Request>): (states: seq<AppSnapshot>)
    ensures |states| == |reqs| + 1 && states[0] == s
    decreases |reqs|
  {
    if reqs == [] then [s] else [s] + States(env, Evaluate(env, s, reqs[0]).state, reqs[1..])
  }

  lemma {:induction false} StatesStep(env: Env, s: AppSnapshot, reqs: seq<Request>, k: nat)
    requires k < |reqs|
    ensures States(env, s, reqs)[k + 1] == Evaluate(env, States(env, s, reqs)[k], reqs[k]).state
    decreases k
  {
    if k > 0 {
      StatesStep(env, Evaluate(env, s, reqs[0]).state, reqs[1..], k - 1);
    }
  }

  /** The outcome of the `k`-th call of a run. */
  function OutcomeAt(env: Env, s: AppSnapshot, reqs: seq<Request>, k: nat): Outcome
    requires k < |reqs|
  {
    Evaluate(env, States(env, s, reqs)[k], reqs[k])
  }

  /** Where a flag that was up at `a` and down at `b` came down. */
  lemma {:induction false} FlagComesDown(env: Env, s: AppSnapshot, reqs: seq<Request>, a: nat, b: nat)
    returns (k: nat)
    requires a < b <= |reqs|
    requires States(env, s, reqs)[a].sentRapidRiseNotification
    requires !States(env, s, reqs)[b].sentRapidRiseNotification
    ensures a <= k < b && States(env, s, reqs)[k].sentRapidRiseNotification &&
            !States(env, s, reqs)[k + 1].sentRapidRiseNotification
    decreases b - a
  {
    if States(env, s, reqs)[a + 1].sentRapidRiseNotification {
      k := FlagComesDown(env, s, reqs, a + 1, b);
    } else {
      k := a;
    }
  }

  /** Between two rapid-rise alerts of a run there is a valid sample whose B rate was not positive. */
  lemma {:induction false} RapidRiseRearmsOnlyAfterFall(env: Env, s: AppSnapshot, reqs: seq<Request>, i: nat, j: nat)
    requires i < j < |reqs|
    requires OutcomeAt(env, s, reqs, i).rapidRiseFired && OutcomeAt(env, s, reqs, j).rapidRiseFired
    ensures exists k :: i < k < j && Decode(reqs[k].body).Some? &&
                        BRate(States(env, s, reqs)[k], Decode(reqs[k].body).value, reqs[k].now) <= 0.0
  {
    var states := States(env, s, reqs);
    assert states[i + 1].sentRapidRiseNotification by {
      StatesStep(env, s, reqs, i);
      RapidRiseLatch(env, states[i], reqs[i]);
    }
    assert !states[j].sentRapidRiseNotification by {
      RapidRiseLatch(env, states[j], reqs[j]);
    }
    var k := FlagComesDown(env, s, reqs, i + 1, j);
    assert Decode(reqs[k].body).Some? && BRate(states[k], Decode(reqs[k].body).value, reqs[k].now) <= 0.0 by {
      StatesStep(env, s, reqs, k);
      RapidRiseLatch(env, states[k], reqs[k]);
    }
  }

  /** After a reminder, the danger timer keeps its clock reading until the next reminder, while it runs. */
  lemma {:induction false} TimerHeld(env: Env, s: AppSnapshot, reqs: seq<Request>, i: nat, k: nat)
    requires i < k < |reqs|
    requires OutcomeAt(env, s, reqs, i).reminderFired
    requires forall m :: i < m < k ==> !OutcomeAt(env, s, reqs, m).reminderFired
    requires forall m :: i < m <= k ==> States(env, s, reqs)[m].lastDangerAlertTime.Some?
    ensures States(env, s, reqs)[k].lastDangerAlertTime == Some(reqs[i].replies.reminderClock)
    decreases k - i
  {
    var states := States(env, s, reqs);
    var prev := k - 1;
    StatesStep(env, s, reqs, prev);
    var out := OutcomeAt(env, s, reqs, prev);
    assert states[k] == out.state;
    TimerStep(env, states[prev], reqs[prev]);
    if prev == i {
      assert out.reminderFired;
    } else {
      TimerHeld(env, s, reqs, i, prev);
      assert !out.reminderFired;
    }
  }

  /**
   * Consecutive danger reminders of a run, with the timer running throughout, are more than two
   * minutes apart (unless the first one's clock read 0, which the handler treats as "unset").
   */
  lemma {:induction false} RemindersSpaced(env: Env, s: AppSnapshot, reqs: seq<Request>, i: nat, j: nat)
    requires i < j < |reqs|
    requires OutcomeAt(env, s, reqs, i).reminderFired && OutcomeAt(env, s, reqs, j).reminderFired
    requires forall m :: i < m < j ==> !OutcomeAt(env, s, reqs, m).reminderFired
    requires forall m :: i < m <= j ==> States(env, s, reqs)[m].lastDangerAlertTime.Some?
    ensures reqs[i].replies.reminderClock == 0 ||
            reqs[j].replies.reminderClock - reqs[i].replies.reminderClock > ReminderIntervalMs
  {
    var states := States(env, s, reqs);
    TimerHeld(env, s, reqs, i, j);
    assert Decode(reqs[j].body).Some?;
    DangerReminderRule(env, states[j], reqs[j]);
  }
}
