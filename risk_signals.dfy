/** The three risk signals of one login attempt, the score they add up to and
    the status the score is classified as. Everything here is a pure function
    of the current attempt and the account's prior history, which is given
    most recent first. */
module RiskSignals {

  /** An hour of the day as the clock reports it (no time-zone normalisation). */
  type Hour = h: int | 0 <= h < 24

  /** The columns of a prior login that the risk calculation selects. */
  datatype LoginLog = LoginLog(device: string, hour: Hour, success: bool)

  datatype Status = SAFE | SUSPICIOUS | FRAUD

  // Policy constants: penalties, windows and thresholds.
  const NewDevicePenalty: nat := 40
  const UnusualTimePenalty: nat := 30
  const FailureStreakPenalty: nat := 50
  const UsualHourWindow: nat := 2
  const FailureStreakThreshold: nat := 3
  const FraudThreshold: int := 70
  const SuspiciousThreshold: int := 30

  /** The successful logs of a history, in their original order. */
  function Successful(history: seq<LoginLog>): (r: seq<LoginLog>)
    ensures |r| <= |history|
    ensures forall l :: l in r <==> l in history && l.success
  {
    if history == [] then []
    else if history[0].success then [history[0]] + Successful(history[1..])
    else Successful(history[1..])
  }

  /** The distinct devices of the successful logs. */
  function KnownDevices(history: seq<LoginLog>): set<string>
  {
    set l | l in Successful(history) :: l.device
  }

  /** The hours of the successful logs, in order, duplicates kept. */
  function UsualHours(history: seq<LoginLog>): (r: seq<Hour>)
    ensures |r| == |Successful(history)|
    ensures forall i :: 0 <= i < |r| ==> r[i] == Successful(history)[i].hour
  {
    HoursOf(Successful(history))
  }

  function HoursOf(logs: seq<LoginLog>): (r: seq<Hour>)
    ensures |r| == |logs|
    ensures forall i :: 0 <= i < |r| ==> r[i] == logs[i].hour
  {
    if logs == [] then [] else [logs[0].hour] + HoursOf(logs[1..])
  }

  function Abs(x: int): nat
  {
    if x < 0 then -x else x
  }

  /** Some usual hour lies within the window of the current hour (linear distance). */
  predicate IsNormalTime(usualHours: seq<Hour>, currentHour: Hour)
  {
    exists i :: 0 <= i < |usualHours| && Abs(usualHours[i] - currentHour) <= UsualHourWindow
  }

  /** Device novelty: a device never seen in a successful login costs 40. */
  function DevicePenalty(device: string, history: seq<LoginLog>): (p: nat)
    ensures p == 0 || p == NewDevicePenalty
  {
    if device in KnownDevices(history) then 0 else NewDevicePenalty
  }

  /** Time-of-day deviation: only judged once there are usual hours. */
  function TimePenalty(currentHour: Hour, history: seq<LoginLog>): (p: nat)
    ensures p == 0 || p == UnusualTimePenalty
  {
    var usualHours := UsualHours(history);
    if |usualHours| > 0 && !IsNormalTime(usualHours, currentHour) then UnusualTimePenalty else 0
  }

  /** The number of failed logins before the most recent success (or the whole
      history when it holds no success). */
  function FailureStreak(history: seq<LoginLog>): (n: nat)
    ensures n <= |history|
    ensures forall i :: 0 <= i < n ==> !history[i].success
    ensures n == |history| || history[n].success
  {
    if history == [] || history[0].success then 0 else 1 + FailureStreak(history[1..])
  }

  function StreakPenalty(history: seq<LoginLog>): (p: nat)
    ensures p == 0 || p == FailureStreakPenalty
  {
    if FailureStreak(history) >= FailureStreakThreshold then FailureStreakPenalty else 0
  }

  /** The risk score of one attempt against the account's prior history. */
  function RiskScore(device: string, currentHour: Hour, history: seq<LoginLog>): (score: nat)
    ensures score <= NewDevicePenalty + UnusualTimePenalty + FailureStreakPenalty
    ensures score in {0, 30, 40, 50, 70, 80, 90, 120}
  {
    DevicePenalty(device, history) + TimePenalty(currentHour, history) + StreakPenalty(history)
  }

  /** The status of a score: FRAUD from 70, SUSPICIOUS above 30, SAFE otherwise. */
  function Classify(score: int): (s: Status)
    ensures s == FRAUD <==> FraudThreshold <= score
    ensures s == SUSPICIOUS <==> SuspiciousThreshold < score < FraudThreshold
    ensures s == SAFE <==> score <= SuspiciousThreshold
  {
    if score >= FraudThreshold then FRAUD
    else if score > SuspiciousThreshold then SUSPICIOUS
    else SAFE
  }

  /** Imperative failure count: walks the history from the most recent log and
      stops at the first success. */
  method CountRecentFailures(history: seq<LoginLog>) returns (recentFailures: nat)
    ensures recentFailures <= |history|
    ensures forall i :: 0 <= i < recentFailures ==> !history[i].success
    ensures recentFailures == |history| || history[recentFailures].success
    ensures recentFailures == FailureStreak(history)
  {
    recentFailures := 0;
    var i := 0;
    while i < |history|
      invariant 0 <= i <= |history|
      invariant recentFailures == i
      invariant forall k :: 0 <= k < i ==> !history[k].success
    {
      if !history[i].success {
        recentFailures := recentFailures + 1;
      } else {
        break;
      }
      i := i + 1;
    }
    FailureStreakUnique(history, recentFailures);
  }

  // ---------------------------------------------------------------------
  // Properties of the signals

  /** The failure count is the only length with the prefix property. */
  lemma {:induction false} FailureStreakUnique(history: seq<LoginLog>, n: nat)
    requires n <= |history|
    requires forall i :: 0 <= i < n ==> !history[i].success
    requires n == |history| || history[n].success
    ensures FailureStreak(history) == n
  {
    if n > 0 {
      FailureStreakUnique(history[1..], n - 1);
    }
  }

  /** A device is known exactly when some successful log came from it. */
  lemma {:induction false} KnownDevicesMembership(device: string, history: seq<LoginLog>)
    ensures device in KnownDevices(history) <==>
            exists i :: 0 <= i < |history| && history[i].success && history[i].device == device
  {
    if device in KnownDevices(history) {
      var l :| l in Successful(history) && l.device == device;
      var i :| 0 <= i < |history| && history[i] == l;
    } else {
      forall i | 0 <= i < |history| && history[i].success
        ensures history[i].device != device
      {
        assert history[i] in Successful(history);
      }
    }
  }

  /** The device penalty is 40 exactly when no successful log shares the device;
      failed logs never make a device known. */
  lemma DevicePenaltyCharacterised(device: string, history: seq<LoginLog>)
    ensures DevicePenalty(device, history) == NewDevicePenalty <==>
            forall i :: 0 <= i < |history| && history[i].success ==> history[i].device != device
    ensures DevicePenalty(device, history) == 0 <==>
            exists i :: 0 <= i < |history| && history[i].success && history[i].device == device
  {
    KnownDevicesMembership(device, history);
  }

  /** A first-ever attempt, or one whose history holds only failures, always pays
      the device penalty. */
  lemma DevicePenaltyWithoutSuccess(device: string, history: seq<LoginLog>)
    requires forall i :: 0 <= i < |history| ==> !history[i].success
    ensures DevicePenalty(device, history) == NewDevicePenalty
  {
    KnownDevicesMembership(device, history);
  }

  /** There are no usual hours exactly when no logged attempt succeeded. */
  lemma {:induction false} SuccessfulEmpty(history: seq<LoginLog>)
    ensures |Successful(history)| == 0 <==> forall i :: 0 <= i < |history| ==> !history[i].success
  {
    if history != [] {
      SuccessfulEmpty(history[1..]);
      assert forall i :: 1 <= i < |history| ==> history[i] == history[1..][i - 1];
    }
  }

  /** A usual hour within the window comes from a successful log within it. */
  lemma NormalTimeHasWitness(currentHour: Hour, history: seq<LoginLog>, j: nat)
    requires j < |UsualHours(history)|
    requires Abs(UsualHours(history)[j] - currentHour) <= UsualHourWindow
    ensures exists i :: 0 <= i < |history| && history[i].success &&
                        Abs(history[i].hour - currentHour) <= UsualHourWindow
  {
    var succ := Successful(history);
    assert succ[j] in succ;
    var i :| 0 <= i < |history| && history[i] == succ[j];
  }

  /** A successful log within the window gives a usual hour within it. */
  lemma SuccessGivesNormalTime(currentHour: Hour, history: seq<LoginLog>, i: nat)
    requires i < |history| && history[i].success
    requires Abs(history[i].hour - currentHour) <= UsualHourWindow
    ensures IsNormalTime(UsualHours(history), currentHour)
  {
    var succ := Successful(history);
    assert history[i] in succ;
    var j :| 0 <= j < |succ| && succ[j] == history[i];
    assert UsualHours(history)[j] == history[i].hour;
  }

  /** Some usual hour is within the window exactly when some successful log is. */
  lemma {:induction false} IsNormalTimeCharacterised(currentHour: Hour, history: seq<LoginLog>)
    ensures IsNormalTime(UsualHours(history), currentHour) <==>
            exists i :: 0 <= i < |history| && history[i].success &&
                        Abs(history[i].hour - currentHour) <= UsualHourWindow
  {
    var usual := UsualHours(history);
    if IsNormalTime(usual, currentHour) {
      var j :| 0 <= j < |usual| && Abs(usual[j] - currentHour) <= UsualHourWindow;
      NormalTimeHasWitness(currentHour, history, j);
    } else if exists i :: 0 <= i < |history| && history[i].success &&
                          Abs(history[i].hour - currentHour) <= UsualHourWindow {
      var i :| 0 <= i < |history| && history[i].success &&
               Abs(history[i].hour - currentHour) <= UsualHourWindow;
      SuccessGivesNormalTime(currentHour, history, i);
    }
  }

  /** The time penalty is 0 without successful history; otherwise it is 30
      exactly when every successful log's hour is more than 2 hours away. */
  lemma TimePenaltyCharacterised(currentHour: Hour, history: seq<LoginLog>)
    ensures (forall i :: 0 <= i < |history| ==> !history[i].success) ==>
            TimePenalty(currentHour, history) == 0
    ensures TimePenalty(currentHour, history) == UnusualTimePenalty <==>
            (exists i :: 0 <= i < |history| && history[i].success) &&
            forall i :: 0 <= i < |history| && history[i].success ==>
                        Abs(history[i].hour - currentHour) > UsualHourWindow
  {
    SuccessfulEmpty(history);
    IsNormalTimeCharacterised(currentHour, history);
  }

  /** Hour distance is linear, not circular: 23 is a deviation from a usual 1. */
  lemma TimePenaltyIsLinear()
    ensures TimePenalty(23, [LoginLog("X", 1, true)]) == UnusualTimePenalty
  {
    var history := [LoginLog("X", 1, true)];
    assert Successful(history) == history;
    IsNormalTimeCharacterised(23, history);
  }

  /** The streak penalty is 50 exactly when the three most recent logs all
      failed; a success anywhere among them removes it. */
  lemma {:induction false} StreakPenaltyCharacterised(history: seq<LoginLog>)
    ensures StreakPenalty(history) == FailureStreakPenalty <==>
            |history| >= 3 && !history[0].success && !history[1].success && !history[2].success
  {
    var n := FailureStreak(history);
    if |history| >= 3 && !history[0].success && !history[1].success && !history[2].success {
      assert n != 0 && n != 1 && n != 2;
    }
  }

  /** Exact classification boundaries. */
  lemma ClassifyBoundaries()
    ensures Classify(30) == SAFE && Classify(31) == SUSPICIOUS
    ensures Classify(69) == SUSPICIOUS && Classify(70) == FRAUD
  {
  }

  /** One signal alone: the time signal stays SAFE, the others are SUSPICIOUS;
      any two signals together are FRAUD. */
  lemma ClassifyBySignalCount(device: string, currentHour: Hour, history: seq<LoginLog>)
    ensures var d, t, s := DevicePenalty(device, history), TimePenalty(currentHour, history), StreakPenalty(history);
            var status := Classify(RiskScore(device, currentHour, history));
            (d == 0 && s == 0 ==> status == SAFE) &&
            ((d != 0) != (s != 0) && t == 0 ==> status == SUSPICIOUS) &&
            ((d != 0 && t != 0) || (d != 0 && s != 0) || (t != 0 && s != 0) ==> status == FRAUD)
  {
  }

  // ---------------------------------------------------------------------
  // Worked scenarios

  /** An account with no history: device penalty only, score 40, SUSPICIOUS. */
  lemma ScenarioFirstLogin(device: string, currentHour: Hour)
    ensures DevicePenalty(device, []) == NewDevicePenalty
    ensures TimePenalty(currentHour, []) == 0 && StreakPenalty([]) == 0
    ensures RiskScore(device, currentHour, []) == 40
    ensures Classify(RiskScore(device, currentHour, [])) == SUSPICIOUS
  {
  }

  /** Five successful logins from device X at hour 14; an attempt from X at 15 is SAFE. */
  lemma ScenarioKnownPattern()
    ensures var history := seq(5, _ => LoginLog("X", 14, true));
            RiskScore("X", 15, history) == 0 && Classify(RiskScore("X", 15, history)) == SAFE
  {
    var history := seq(5, _ => LoginLog("X", 14, true));
    assert history[0].success && history[0].device == "X";
    DevicePenaltyCharacterised("X", history);
    IsNormalTimeCharacterised(15, history);
  }

  /** Four recent failures before a known device and hour: score 50, SUSPICIOUS. */
  lemma ScenarioFailureStreak()
    ensures var history := seq(4, _ => LoginLog("X", 14, false)) + [LoginLog("X", 14, true)];
            RiskScore("X", 14, history) == 50 && Classify(RiskScore("X", 14, history)) == SUSPICIOUS
  {
    var history := seq(4, _ => LoginLog("X", 14, false)) + [LoginLog("X", 14, true)];
    assert history[4].success && history[4].device == "X";
    DevicePenaltyCharacterised("X", history);
    IsNormalTimeCharacterised(14, history);
    StreakPenaltyCharacterised(history);
  }

  /** Unknown device, unusual hour and a three-failure streak: score 120, FRAUD. */
  lemma ScenarioAllSignals()
    ensures var history := seq(3, _ => LoginLog("X", 14, false)) + [LoginLog("X", 14, true)];
            RiskScore("Y", 2, history) == 120 && Classify(RiskScore("Y", 2, history)) == FRAUD
  {
    var history := seq(3, _ => LoginLog("X", 14, false)) + [LoginLog("X", 14, true)];
    DevicePenaltyCharacterised("Y", history);
    TimePenaltyCharacterised(2, history);
    assert history[3].success;
    StreakPenaltyCharacterised(history);
  }
}
