/** The CloudWatch alarm service (pkg/monitoring): alarm validation, the
    PutMetricAlarm input assembled from an alarm, and the mapping of alarm
    states and comparison operators.

    The CloudWatch client is an oracle: `put` gives the error text a
    PutMetricAlarm call returns, if any, and the answer of DescribeAlarms is
    a parameter. */
module Alarms {
  import opened Wrappers

  type AlarmState = string

  const AlarmStateOK: AlarmState := "OK"
  const AlarmStateAlarm: AlarmState := "ALARM"
  const AlarmStateUnknown: AlarmState := "UNKNOWN"

  const GreaterThanThreshold := "GreaterThanThreshold"
  const GreaterThanOrEqualToThreshold := "GreaterThanOrEqualToThreshold"
  const LessThanThreshold := "LessThanThreshold"
  const LessThanOrEqualToThreshold := "LessThanOrEqualToThreshold"

  const StatisticAverage := "Average"

  /** Nanoseconds per second: a time.Duration counts nanoseconds. */
  const Second := 1_000_000_000

  const NameRequired := "alarm name is required"
  const MetricNameRequired := "metric name is required"
  const PeriodTooShort := "period must be at least 60 seconds"
  const EvaluationPeriodsTooFew := "evaluation periods must be at least 1"
  const CreateFailedPrefix := "failed to create CloudWatch alarm: "
  const StateFailedPrefix := "failed to get CloudWatch alarm state: "
  const NotFoundPrefix := "alarm not found: "

  /** An action run when the alarm fires (its payload is not modelled). */
  datatype AlarmAction = AlarmAction(kind: string, target: string)

  /** An alarm; `period` is a duration in nanoseconds and the threshold is
      carried through unchanged. */
  datatype Alarm = Alarm(
    name: string,
    description: string,
    metricName: string,
    namespace: string,
    comparisonOperator: string,
    threshold: real,
    period: int,
    evaluationPeriods: int,
    actions: seq<AlarmAction>,
    labels: map<string, string>)

  datatype Dimension = Dimension(name: string, value: string)

  datatype PutMetricAlarmInput = PutMetricAlarmInput(
    alarmName: string,
    alarmDescription: string,
    metricName: string,
    namespace: string,
    period: int,
    evaluationPeriods: int,
    threshold: real,
    comparisonOperator: string,
    statistic: string,
    alarmActions: seq<string>,
    dimensions: seq<Dimension>)

  /** Go's int32(x) conversion of an int: two's-complement wrap-around. */
  function Int32(x: int): (r: int)
    ensures -0x8000_0000 <= r < 0x8000_0000
    ensures (r - x) % 0x1_0000_0000 == 0
    ensures -0x8000_0000 <= x < 0x8000_0000 ==> r == x
  {
    var m := x % 0x1_0000_0000;
    if m >= 0x8000_0000 then m - 0x1_0000_0000 else m
  }

  /** The checks CreateAlarm makes before calling CloudWatch, in order. */
  function Validate(alarm: Alarm): (err: Option<string>)
    ensures err.None? <==>
      alarm.name != "" && alarm.metricName != "" && alarm.period >= 60 * Second && alarm.evaluationPeriods >= 1
    ensures alarm.name == "" ==> err == Some(NameRequired)
    ensures alarm.name != "" && alarm.metricName == "" ==> err == Some(MetricNameRequired)
    ensures alarm.name != "" && alarm.metricName != "" && alarm.period < 60 * Second ==> err == Some(PeriodTooShort)
    ensures alarm.name != "" && alarm.metricName != "" && alarm.period >= 60 * Second && alarm.evaluationPeriods < 1 ==>
      err == Some(EvaluationPeriodsTooFew)
  {
    if alarm.name == "" then Some(NameRequired)
    else if alarm.metricName == "" then Some(MetricNameRequired)
    else if alarm.period < 60 * Second then Some(PeriodTooShort)
    else if alarm.evaluationPeriods < 1 then Some(EvaluationPeriodsTooFew)
    else None
  }

  /** convertComparisonOperator: each of the four operators maps to its
      namesake, anything else to GreaterThanThreshold. */
  function ConvertComparisonOperator(op: string): (r: string)
    ensures r in {GreaterThanThreshold, GreaterThanOrEqualToThreshold, LessThanThreshold, LessThanOrEqualToThreshold}
    ensures op in {GreaterThanThreshold, GreaterThanOrEqualToThreshold, LessThanThreshold, LessThanOrEqualToThreshold} ==> r == op
    ensures op !in {GreaterThanThreshold, GreaterThanOrEqualToThreshold, LessThanThreshold, LessThanOrEqualToThreshold} ==>
      r == GreaterThanThreshold
  {
    if op == GreaterThanThreshold then GreaterThanThreshold
    else if op == GreaterThanOrEqualToThreshold then GreaterThanOrEqualToThreshold
    else if op == LessThanThreshold then LessThanThreshold
    else if op == LessThanOrEqualToThreshold then LessThanOrEqualToThreshold
    else GreaterThanThreshold
  }

  /** Converting twice changes nothing. */
  lemma ConvertIdempotent(op: string)
    ensures ConvertComparisonOperator(ConvertComparisonOperator(op)) == ConvertComparisonOperator(op)
  {
  }

  /** The targets of the `sns` actions, in their order. */
  function SnsTargets(actions: seq<AlarmAction>): (ts: seq<string>)
    ensures |ts| <= |actions|
  {
    if actions == [] then []
    else
      var prefix := actions[..|actions| - 1];
      var last := actions[|actions| - 1];
      SnsTargets(prefix) + (if last.kind == "sns" then [last.target] else [])
  }

  /** No sns action gives no target; only sns actions give one target each. */
  lemma {:induction false} SnsTargetsCount(actions: seq<AlarmAction>)
    ensures (forall i :: 0 <= i < |actions| ==> actions[i].kind != "sns") ==> SnsTargets(actions) == []
    ensures (forall i :: 0 <= i < |actions| ==> actions[i].kind == "sns") ==> |SnsTargets(actions)| == |actions|
  {
    if actions != [] {
      var prefix := actions[..|actions| - 1];
      SnsTargetsCount(prefix);
      assert forall i :: 0 <= i < |prefix| ==> prefix[i] == actions[i];
    }
  }

  /** Keeping the sns targets distributes over concatenation, so their
      relative order is kept. */
  lemma {:induction false} SnsTargetsAppend(xs: seq<AlarmAction>, ys: seq<AlarmAction>)
    ensures SnsTargets(xs + ys) == SnsTargets(xs) + SnsTargets(ys)
    decreases |ys|
  {
    if ys == [] {
      assert xs + ys == xs;
    } else {
      var zs := xs + ys;
      var init, last := ys[..|ys| - 1], ys[|ys| - 1];
      var kept := if last.kind == "sns" then [last.target] else [];
      assert zs[..|zs| - 1] == xs + init;
      assert zs[|zs| - 1] == last;
      assert SnsTargets(zs) == SnsTargets(xs + init) + kept;
      assert SnsTargets(ys) == SnsTargets(init) + kept;
      SnsTargetsAppend(xs, init);
    }
  }

  /** Every kept target comes from an sns action. */
  lemma {:induction false} SnsTargetsFromSns(actions: seq<AlarmAction>, t: string)
    requires t in SnsTargets(actions)
    ensures AlarmAction("sns", t) in actions
  {
    var prefix := actions[..|actions| - 1];
    var last := actions[|actions| - 1];
    if t in SnsTargets(prefix) {
      SnsTargetsFromSns(prefix, t);
      assert forall a :: a in prefix ==> a in actions;
    } else {
      assert last == AlarmAction("sns", t);
    }
  }

  /** Every sns action's target is kept. */
  lemma SnsTargetKept(actions: seq<AlarmAction>, i: int)
    requires 0 <= i < |actions| && actions[i].kind == "sns"
    ensures actions[i].target in SnsTargets(actions)
  {
    var before, one, after := actions[..i], [actions[i]], actions[i + 1..];
    assert actions == before + one + after;
    SnsTargetsAppend(before + one, after);
    SnsTargetsAppend(before, one);
    assert one[..0] == [];
    assert SnsTargets(one) == [actions[i].target];
  }

  /** The dimensions the labels give: one per label. */
  function LabelDimensions(labels: map<string, string>): set<Dimension> {
    set k | k in labels :: Dimension(k, labels[k])
  }

  /** The AlarmActions loop: the sns targets, appended in order. */
  method CollectActions(actions: seq<AlarmAction>) returns (targets: seq<string>)
    ensures targets == SnsTargets(actions)
  {
    targets := [];
    var i := 0;
    while i < |actions|
      invariant 0 <= i <= |actions|
      invariant targets == SnsTargets(actions[..i])
    {
      assert actions[..i + 1][..i] == actions[..i];
      if actions[i].kind == "sns" {
        targets := targets + [actions[i].target];
      }
      i := i + 1;
    }
    assert actions[..|actions|] == actions;
  }

  /** The Dimensions loop: one dimension per label, in the map's iteration
      order, which is unspecified. */
  method CollectDimensions(labels: map<string, string>) returns (dims: seq<Dimension>)
    ensures |dims| == |labels|
    ensures forall d :: d in dims <==> d in LabelDimensions(labels)
  {
    dims := [];
    var remaining := labels.Keys;
    while remaining != {}
      invariant remaining <= labels.Keys
      invariant |dims| + |remaining| == |labels.Keys|
      invariant forall d :: d in dims <==> d.name in labels.Keys - remaining && d.value == labels[d.name]
      decreases |remaining|
    {
      var k :| k in remaining;
      dims := dims + [Dimension(k, labels[k])];
      remaining := remaining - {k};
    }
    assert |labels| == |labels.Keys|;
  }

  /** The input CreateAlarm sends for a valid alarm. The dimensions are
      determined only as a set. */
  ghost predicate Describes(input: PutMetricAlarmInput, alarm: Alarm) {
    && input.alarmName == alarm.name
    && input.alarmDescription == alarm.description
    && input.metricName == alarm.metricName
    && input.namespace == alarm.namespace
    && input.period == alarm.period / Second
    && input.evaluationPeriods == Int32(alarm.evaluationPeriods)
    && input.threshold == alarm.threshold
    && input.comparisonOperator == ConvertComparisonOperator(alarm.comparisonOperator)
    && input.statistic == StatisticAverage
    && input.alarmActions == SnsTargets(alarm.actions)
    && |input.dimensions| == |alarm.labels|
    && (forall d :: d in input.dimensions <==> d in LabelDimensions(alarm.labels))
  }

  /** The error a PutMetricAlarm answer gives CreateAlarm. */
  function CreateError(answer: Option<string>): Option<string> {
    if answer.Some? then Some(CreateFailedPrefix + answer.value) else None
  }

  class Service {
    const put: PutMetricAlarmInput -> Option<string>
    /** The PutMetricAlarm calls made so far. */
    var requests: seq<PutMetricAlarmInput>

    constructor (put: PutMetricAlarmInput -> Option<string>)
      ensures this.put == put && requests == []
    {
      this.put := put;
      requests := [];
    }

    /** CreateAlarm: an invalid alarm is refused before CloudWatch is
        called; a valid one is sent once, as an input that describes it,
        and the call's error is wrapped. */
    method CreateAlarm(alarm: Alarm) returns (err: Option<string>)
      modifies this
      ensures Validate(alarm).Some? ==> err == Validate(alarm) && requests == old(requests)
      ensures Validate(alarm).None? ==>
        && |requests| == |old(requests)| + 1
        && requests[..|old(requests)|] == old(requests)
        && Describes(requests[|old(requests)|], alarm)
        && err == CreateError(put(requests[|old(requests)|]))
    {
      err := Validate(alarm);
      if err.Some? {
        return;
      }
      var actions := CollectActions(alarm.actions);
      var dims := CollectDimensions(alarm.labels);
      var input := PutMetricAlarmInput(
        alarm.name, alarm.description, alarm.metricName, alarm.namespace,
        alarm.period / Second, Int32(alarm.evaluationPeriods), alarm.threshold,
        ConvertComparisonOperator(alarm.comparisonOperator), StatisticAverage,
        actions, dims);
      requests := requests + [input];
      err := CreateError(put(input));
    }

    /** UpdateAlarm is CreateAlarm. */
    method UpdateAlarm(alarm: Alarm) returns (err: Option<string>)
      modifies this
      ensures Validate(alarm).Some? ==> err == Validate(alarm) && requests == old(requests)
      ensures Validate(alarm).None? ==>
        && |requests| == |old(requests)| + 1
        && requests[..|old(requests)|] == old(requests)
        && Describes(requests[|old(requests)|], alarm)
        && err == CreateError(put(requests[|old(requests)|]))
    {
      err := CreateAlarm(alarm);
    }
  }

  /** GetAlarmState, given DescribeAlarms' answer: the error text, or the
      state values of the alarms found. */
  function GetAlarmState(described: Result<seq<string>, string>, alarmName: string): (r: (AlarmState, Option<string>))
    ensures r.0 in {AlarmStateOK, AlarmStateAlarm, AlarmStateUnknown}
    ensures described.Failure? ==> r == (AlarmStateUnknown, Some(StateFailedPrefix + described.error))
    ensures described.Success? && described.value == [] ==> r == (AlarmStateUnknown, Some(NotFoundPrefix + alarmName))
    ensures r.1.None? <==> described.Success? && described.value != []
    ensures r.1.None? ==>
      (r.0 == AlarmStateOK <==> described.value[0] == "OK")
      && (r.0 == AlarmStateAlarm <==> described.value[0] == "ALARM")
  {
    match described
    case Failure(e) => (AlarmStateUnknown, Some(StateFailedPrefix + e))
    case Success(states) =>
      if states == [] then (AlarmStateUnknown, Some(NotFoundPrefix + alarmName))
      else if states[0] == "OK" then (AlarmStateOK, None)
      else if states[0] == "ALARM" then (AlarmStateAlarm, None)
      else (AlarmStateUnknown, None)
  }

  /** Only the first alarm described decides the state. */
  lemma FirstAlarmDecides(states: seq<string>, more: seq<string>, alarmName: string)
    requires states != []
    ensures GetAlarmState(Success(states + more), alarmName) == GetAlarmState(Success(states), alarmName)
  {
    assert (states + more)[0] == states[0];
  }
}
