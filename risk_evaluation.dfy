/** The evaluation handler: fetch the account's history from the login ledger,
    score the attempt, classify it, append the attempt to the ledger and answer
    with the score, the status and the client address. The ledger store is an
    in-memory sequence whose read and write failures are inputs. */
module RiskEvaluation {
  import opened RiskSignals

  datatype Option<T> = None | Some(value: T)

  /** Either a value or the message of the error that replaced it. */
  datatype Result<T> = Ok(value: T) | Err(message: string)

  /** One row of the login ledger as the handler inserts it. The row's hour is
      the hour of the login time the store stamps it with. */
  datatype LoginRecord = LoginRecord(
    userId: string,
    userName: string,
    device: string,
    hour: Hour,
    success: bool,
    status: Status,
    ip: string,
    riskScore: int)

  /** The fields of the request body the handler reads. */
  datatype Request = Request(userId: string, device: string, loginSuccess: bool, userName: string)

  /** The body of a successful answer. */
  datatype Response = Response(score: int, status: Status, ip: string)

  const UnknownIp := "unknown"
  const QueryFailedPrefix := "Database query failed: "
  const InsertFailedPrefix := "Failed to save login history: "

  /** The client address: the forwarded-for header when it is present and not
      empty, "unknown" otherwise. */
  function ClientIp(forwardedFor: Option<string>): (ip: string)
    ensures ip != ""
    ensures forwardedFor == Some(ip) || ip == UnknownIp
    ensures forwardedFor.Some? && forwardedFor.value != "" ==> ip == forwardedFor.value
  {
    if forwardedFor.Some? && forwardedFor.value != "" then forwardedFor.value else UnknownIp
  }

  /** The columns of a row that the history query selects. */
  function AsLog(row: LoginRecord): LoginLog
  {
    LoginLog(row.device, row.hour, row.success)
  }

  /** The rows of one account, most recent first. Rows are stamped with their
      login time when inserted, so newest first is reverse insertion order. */
  function HistoryOf(rows: seq<LoginRecord>, userId: string): (history: seq<LoginLog>)
    ensures |history| <= |rows|
    ensures forall l :: l in history ==> exists row :: row in rows && row.userId == userId && AsLog(row) == l
  {
    if rows == [] then []
    else
      var last := rows[|rows| - 1];
      (if last.userId == userId then [AsLog(last)] else []) + HistoryOf(rows[..|rows| - 1], userId)
  }

  /** Appending a row puts it at the head of its own account's history and
      leaves every other account's history as it was. */
  lemma HistoryAfterAppend(rows: seq<LoginRecord>, row: LoginRecord, userId: string)
    ensures HistoryOf(rows + [row], userId) ==
            if row.userId == userId then [AsLog(row)] + HistoryOf(rows, userId) else HistoryOf(rows, userId)
  {
    assert (rows + [row])[..|rows|] == rows;
  }

  /** The same fact for every account at once. */
  lemma AppendLeavesOtherHistories(rows: seq<LoginRecord>, row: LoginRecord)
    ensures HistoryOf(rows + [row], row.userId) == [AsLog(row)] + HistoryOf(rows, row.userId)
    ensures forall userId :: userId != row.userId ==> HistoryOf(rows + [row], userId) == HistoryOf(rows, userId)
  {
    forall userId
      ensures HistoryOf(rows + [row], userId) ==
              if row.userId == userId then [AsLog(row)] + HistoryOf(rows, userId) else HistoryOf(rows, userId)
    {
      HistoryAfterAppend(rows, row, userId);
    }
  }

  /** A new account's first login is scored against an empty history; once it is
      logged as a success, the same device at the same hour scores 0 (SAFE). */
  lemma {:induction false} SecondLoginSeesFirst(first: LoginRecord, rows: seq<LoginRecord>)
    requires HistoryOf(rows, first.userId) == []
    requires first.success
    ensures RiskScore(first.device, first.hour, HistoryOf(rows, first.userId)) == NewDevicePenalty
    ensures RiskScore(first.device, first.hour, HistoryOf(rows + [first], first.userId)) == 0
    ensures Classify(RiskScore(first.device, first.hour, HistoryOf(rows + [first], first.userId))) == SAFE
  {
    HistoryAfterAppend(rows, first, first.userId);
    var history := HistoryOf(rows + [first], first.userId);
    assert history == [AsLog(first)];
    DevicePenaltyCharacterised(first.device, history);
    SuccessGivesNormalTime(first.hour, history, 0);
  }

  /** The login ledger the handler reads from and appends to. */
  class LoginLedger {
    var rows: seq<LoginRecord>

    constructor (initial: seq<LoginRecord>)
      ensures rows == initial
    {
      rows := initial;
    }

    /** The account's history, most recent first. */
    function History(userId: string): seq<LoginLog>
      reads this
    {
      HistoryOf(rows, userId)
    }

    /** The history query: the account's rows newest first, or the store's error. */
    method FetchHistory(userId: string, queryError: Option<string>) returns (result: Result<seq<LoginLog>>)
      ensures queryError.Some? ==> result == Err(queryError.value)
      ensures queryError.None? ==> result == Ok(History(userId))
    {
      if queryError.Some? {
        result := Err(queryError.value);
      } else {
        result := Ok(HistoryOf(rows, userId));
      }
    }

    /** The insert: appends the row unless the store rejects it. */
    method Insert(row: LoginRecord, insertError: Option<string>) returns (error: Option<string>)
      modifies this
      ensures error == insertError
      ensures rows == if insertError.None? then old(rows) + [row] else old(rows)
    {
      error := insertError;
      if insertError.None? {
        rows := rows + [row];
      }
    }

    /** Scores one login attempt against the account's history, logs it and
        answers. A failed query aborts before anything is scored or logged; a
        failed insert turns the computed answer into an error. */
    method Evaluate(request: Request, forwardedFor: Option<string>, currentHour: Hour,
                    queryError: Option<string>, insertError: Option<string>)
      returns (result: Result<Response>)
      modifies this
      ensures queryError.Some? ==>
                result == Err(QueryFailedPrefix + queryError.value) && rows == old(rows)
      ensures queryError.None? && insertError.Some? ==>
                result == Err(InsertFailedPrefix + insertError.value) && rows == old(rows)
      ensures queryError.None? && insertError.None? ==>
                var score := RiskScore(request.device, currentHour, old(History(request.userId)));
                var status := Classify(score);
                var ip := ClientIp(forwardedFor);
                && result == Ok(Response(score, status, ip))
                && rows == old(rows) + [LoginRecord(request.userId, request.userName, request.device,
                                                    currentHour, request.loginSuccess, status, ip, score)]
      ensures queryError.None? && insertError.None? ==>
                History(request.userId) ==
                  [LoginLog(request.device, currentHour, request.loginSuccess)] + old(History(request.userId))
      ensures forall userId :: userId != request.userId ==> History(userId) == old(History(userId))
    {
      var ip := ClientIp(forwardedFor);

      var fetched := FetchHistory(request.userId, queryError);
      if fetched.Err? {
        return Err(QueryFailedPrefix + fetched.message);
      }
      var history := fetched.value;

      var riskScore := 0;
      if request.device !in KnownDevices(history) {
        riskScore := riskScore + NewDevicePenalty;
      }
      var usualHours := UsualHours(history);
      if |usualHours| > 0 {
        var isNormalTime := IsNormalTime(usualHours, currentHour);
        if !isNormalTime {
          riskScore := riskScore + UnusualTimePenalty;
        }
      }
      var recentFailures := CountRecentFailures(history);
      if recentFailures >= FailureStreakThreshold {
        riskScore := riskScore + FailureStreakPenalty;
      }
      assert riskScore == RiskScore(request.device, currentHour, history);

      var status := SAFE;
      if riskScore >= FraudThreshold {
        status := FRAUD;
      } else if riskScore > SuspiciousThreshold {
        status := SUSPICIOUS;
      }

      var row := LoginRecord(request.userId, request.userName, request.device,
                             currentHour, request.loginSuccess, status, ip, riskScore);
      var error := Insert(row, insertError);
      if error.None? {
        AppendLeavesOtherHistories(old(rows), row);
      }
      if error.Some? {
        return Err(InsertFailedPrefix + error.value);
      }
      result := Ok(Response(riskScore, status, ip));
    }
  }
}
