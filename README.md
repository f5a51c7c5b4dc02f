# Login risk scoring

A Dafny model of the `risk_score` edge function of the IntelliID authentication
system. For one login attempt, the function reads the account's prior login history from the
`login_logs` ledger, newest first. It then adds three penalties:

- device novelty, 40;
- time-of-day deviation, 30;
- a run of three or more failed logins just before now, 50.

It classifies the sum as SAFE, SUSPICIOUS or FRAUD. It appends the attempt,
carrying that score and status, to the ledger. Finally it answers with
`{score, status, ip}`, or with an error message when the store fails.

- `risk_signals.dfy`, module `RiskSignals`: the selected history columns
  (`LoginLog`), the three signal extractors as functions, the score, the
  classifier, the imperative failure-count loop (`CountRecentFailures`), and
  the lemmas that characterise each signal. The penalties, the two-hour window,
  the streak length and the two thresholds are named constants.
- `risk_evaluation.dfy`, module `RiskEvaluation`: the ledger rows
  (`LoginRecord`) and the history query over them (`HistoryOf`). The class
  `LoginLedger` owns the rows as a `seq`. Its `Evaluate` method runs the
  handler's sequence: query, score built step by step, classify, insert,
  answer. Query and insert failures are inputs carrying the store's error
  message.

The ledger holds the rows of all accounts in insertion order. The handler's
insert sets no login time, so the store stamps each row as it is inserted.
Ordering an account's rows by login time, newest first, is therefore reverse
insertion order, and that is what `HistoryOf` returns.

## Model

| member | source | states |
|---|---|---|
| RiskSignals.Successful | supabase/functions/risk_score/index.ts:46-47 | the filter on `success` keeps exactly the successful logs, and never more logs than the history holds |
| RiskSignals.UsualHours | supabase/functions/risk_score/index.ts:56-58 | the usual hours are, position by position, the hours of the successful logs |
| RiskSignals.DevicePenalty | supabase/functions/risk_score/index.ts:46-52 | the device penalty is either 0 or 40 |
| RiskSignals.TimePenalty | supabase/functions/risk_score/index.ts:55-63 | the time penalty is either 0 or 30 |
| RiskSignals.FailureStreak | supabase/functions/risk_score/index.ts:66-70 | the count is a prefix of the newest-first history made only of failures, ended by a success or by the end of the history |
| RiskSignals.StreakPenalty | supabase/functions/risk_score/index.ts:71 | the streak penalty is either 0 or 50 |
| RiskSignals.RiskScore | supabase/functions/risk_score/index.ts:43-71 | the score is at most 120 and is one of 0, 30, 40, 50, 70, 80, 90, 120 |
| RiskSignals.Classify | supabase/functions/risk_score/index.ts:74-76 | FRAUD exactly when the score is at least 70, SUSPICIOUS exactly when it is above 30 and below 70, SAFE exactly when it is at most 30 |
| RiskSignals.CountRecentFailures | supabase/functions/risk_score/index.ts:66-70 | the loop with its early break returns the length of the leading run of failures, ended by a success or by the end of the history, which equals FailureStreak |
| RiskSignals.FailureStreakUnique | supabase/functions/risk_score/index.ts:66-70 | any length whose prefix is all failures and that stops at a success or at the end of the history is the failure count |
| RiskSignals.KnownDevicesMembership | supabase/functions/risk_score/index.ts:46-49 | a device is in the known-device set exactly when some successful log came from it |
| RiskSignals.DevicePenaltyCharacterised | supabase/functions/risk_score/index.ts:46-52 | the penalty is 40 exactly when no successful log has the current device and 0 exactly when one has; failed logs never make a device known |
| RiskSignals.DevicePenaltyWithoutSuccess | supabase/functions/risk_score/index.ts:46-52 | an empty history, or one with only failures, always gives the 40 penalty |
| RiskSignals.SuccessfulEmpty | supabase/functions/risk_score/index.ts:56-60 | there are no usual hours exactly when no logged attempt succeeded |
| RiskSignals.NormalTimeHasWitness | supabase/functions/risk_score/index.ts:56-61 | a usual hour within two hours of now comes from a successful log within two hours of now |
| RiskSignals.SuccessGivesNormalTime | supabase/functions/risk_score/index.ts:56-61 | a successful log within two hours of now makes the time normal |
| RiskSignals.IsNormalTimeCharacterised | supabase/functions/risk_score/index.ts:56-61 | the time is normal exactly when some successful log's hour is within two hours of the current hour |
| RiskSignals.TimePenaltyCharacterised | supabase/functions/risk_score/index.ts:55-63 | without a successful log the time penalty is 0; otherwise it is 30 exactly when every successful log's hour is more than two hours from now |
| RiskSignals.TimePenaltyIsLinear | supabase/functions/risk_score/index.ts:61 | the distance is linear, not circular: hour 23 against a usual hour 1 is penalised |
| RiskSignals.StreakPenaltyCharacterised | supabase/functions/risk_score/index.ts:66-71 | the streak penalty is 50 exactly when the three newest logs all failed; a success among them removes it |
| RiskSignals.ClassifyBoundaries | supabase/functions/risk_score/index.ts:74-76 | 30 is SAFE, 31 and 69 are SUSPICIOUS, 70 is FRAUD |
| RiskSignals.ClassifyBySignalCount | supabase/functions/risk_score/index.ts:43-76 | the time signal alone stays SAFE, the device or streak signal alone is SUSPICIOUS, and any two signals together are FRAUD |
| RiskSignals.ScenarioFirstLogin | supabase/functions/risk_score/index.ts:43-76 | an empty history gives the device penalty only, score 40, SUSPICIOUS |
| RiskSignals.ScenarioKnownPattern | supabase/functions/risk_score/index.ts:43-76 | five successes from device X at hour 14, then X at hour 15: score 0, SAFE |
| RiskSignals.ScenarioFailureStreak | supabase/functions/risk_score/index.ts:43-76 | four newest logs failed, known device and hour: score 50, SUSPICIOUS |
| RiskSignals.ScenarioAllSignals | supabase/functions/risk_score/index.ts:43-76 | unknown device, unusual hour and three failures: score 120, FRAUD |
| RiskEvaluation.ClientIp | supabase/functions/risk_score/index.ts:30 | the address is the forwarded-for header when present and non-empty, otherwise "unknown"; it is never empty |
| RiskEvaluation.HistoryOf | supabase/functions/risk_score/index.ts:34-38 | every log in an account's history comes from a row of that account, and the history is no longer than the ledger |
| RiskEvaluation.HistoryAfterAppend | supabase/functions/risk_score/index.ts:79-87 | an inserted row becomes the head of its own account's history; every other account's history is unchanged |
| RiskEvaluation.SecondLoginSeesFirst | supabase/functions/risk_score/index.ts:34-87 | a first login scores 40 against an empty history; once logged as a success, the same device at the same hour scores 0, SAFE |
| RiskEvaluation.LoginLedger.FetchHistory | supabase/functions/risk_score/index.ts:34-38 | the query returns the account's history newest first, or the store's error |
| RiskEvaluation.LoginLedger.Insert | supabase/functions/risk_score/index.ts:79-87 | the row is appended exactly when the store accepts it |
| RiskEvaluation.LoginLedger.Evaluate | supabase/functions/risk_score/index.ts:29-104 | a failed query gives "Database query failed: " plus the message and appends nothing. A failed insert gives "Failed to save login history: " plus the message, with no score. Otherwise the answer is the score of the pre-append history, its status and the client address, and exactly one row is appended, whatever the status. That row carries the same score and status and becomes the head of the account's history. Earlier rows and other accounts' histories are unchanged |

## Left out

- HTTP serving, the CORS preflight and headers, and the JSON request and response encoding (index.ts:3-6, 14-18, 95-104). The request is a parsed `Request` and the answer a `Result<Response>`. A request body that fails to parse is not modelled.
- Missing request fields. The handler does not validate the body; a missing field reaches the query and the insert as `undefined`. The model's request always has every field.
- Supabase client construction and environment variables (index.ts:23-26). The store is the in-memory `rows` sequence, with query and insert failures given as inputs.
- Clocks and time zones (index.ts:31, 55, 58). The current hour and each row's hour are inputs in 0..23. The inserted row takes the current hour, so any skew between the function's clock and the store's timestamp is not modelled.
- Full timestamps. Rows keep only their hour. Their order comes from insertion order.
- Logging to the console (index.ts:50, 90).
- Two evaluations of the same account running at once, both reading the same history before either appends. This is concurrency; `Evaluate` runs as one atomic step.
- The browser pages: `src/pages/Login.jsx`, `src/pages/Signup.jsx`, `src/pages/Dashboard.jsx`, `src/components/ProtectedRoute.jsx`, `src/App.jsx` and `src/lib/supabaseClient.js`. These are UI, routing and client construction. The login page always sends `login_success: true`; the model keeps `loginSuccess` as a free input.
