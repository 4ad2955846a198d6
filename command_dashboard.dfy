/**
 * The command-centre dashboard (command/dashboard.tsx): the overall crowd
 * level over the density samples, the dashboard's own team-message feed,
 * and the desk through which an officer answers an alert.
 */
module CommandDashboard {
  import opened Wrappers
  import opened Text
  import opened Density

  // ---------------------------------------------------------------- overall crowd level

  datatype CrowdLevel = LowLevel | MediumLevel | HighLevel | CriticalLevel

  function LevelRank(l: CrowdLevel): nat {
    match l
    case LowLevel => 0
    case MediumLevel => 1
    case HighLevel => 2
    case CriticalLevel => 3
  }

  /** Every point is counted under exactly one intensity, so the high and medium counts fit in the total. */
  lemma {:induction false} CountsFit(points: seq<DensityPoint>)
    ensures Count(points, High) + Count(points, Medium) + Count(points, Low) == |points|
    ensures Count(points, High) + Count(points, Medium) <= |points|
  {
    if points != [] {
      CountsFit(points[..|points| - 1]);
    }
  }

  /**
   * The level for `high` high and `medium` medium points out of `total`.
   * The source compares percentages in floating point; the body compares
   * the same ratios by integer cross-multiplication.
   */
  function LevelOfCounts(high: nat, medium: nat, total: nat): (r: CrowdLevel)
    ensures total == 0 ==> r == LowLevel
    ensures total > 0 ==>
      var hp := (high as real / total as real) * 100.0;
      var mp := (medium as real / total as real) * 100.0;
      && (r == CriticalLevel <==> hp > 25.0)
      && (r == HighLevel <==> hp <= 25.0 && (hp > 15.0 || mp > 40.0))
      && (r == MediumLevel <==> hp <= 15.0 && mp <= 40.0 && mp > 20.0)
      && (r == LowLevel <==> hp <= 15.0 && mp <= 20.0)
  {
    if total == 0 then LowLevel
    else
      PercentAbove(high, total, 25);
      PercentAbove(high, total, 15);
      PercentAbove(medium, total, 40);
      PercentAbove(medium, total, 20);
      if 100 * high > 25 * total then CriticalLevel
      else if 100 * high > 15 * total || 100 * medium > 40 * total then HighLevel
      else if 100 * medium > 20 * total then MediumLevel
      else LowLevel
  }

  /** `(count / total) * 100 > bound` exactly when `100 * count > bound * total`. */
  lemma PercentAbove(count: nat, total: nat, bound: nat)
    requires total > 0
    ensures (count as real / total as real) * 100.0 > bound as real <==> 100 * count > bound * total
  {
    var t := total as real;
    var q := count as real / t;
    assert q * t == count as real;
    assert (q * 100.0) * t == 100.0 * (count as real);
    if q * 100.0 > bound as real {
      assert (q * 100.0) * t > (bound as real) * t;
    } else {
      assert (q * 100.0) * t <= (bound as real) * t;
    }
  }

  /**
   * `getCurrentOverallCrowdLevel`: Low without points; otherwise decided by
   * the percentages of high and of medium points among all of them.
   */
  function OverallLevel(points: seq<DensityPoint>): (r: CrowdLevel)
    ensures points == [] ==> r == LowLevel
    ensures points != [] ==>
      var hp := (Count(points, High) as real / |points| as real) * 100.0;
      var mp := (Count(points, Medium) as real / |points| as real) * 100.0;
      && (r == CriticalLevel <==> hp > 25.0)
      && (r == HighLevel <==> hp <= 25.0 && (hp > 15.0 || mp > 40.0))
      && (r == MediumLevel <==> hp <= 15.0 && mp <= 40.0 && mp > 20.0)
      && (r == LowLevel <==> hp <= 15.0 && mp <= 20.0)
  {
    LevelOfCounts(Count(points, High), Count(points, Medium), |points|)
  }

  /** Turning a low point into a medium or high one never lowers the level. */
  lemma RaisingALowPointNeverLowers(high: nat, medium: nat, total: nat)
    requires high + medium < total
    ensures LevelRank(LevelOfCounts(high, medium, total)) <= LevelRank(LevelOfCounts(high, medium + 1, total))
    ensures LevelRank(LevelOfCounts(high, medium, total)) <= LevelRank(LevelOfCounts(high + 1, medium, total))
  {
  }

  /** Turning one low sample of the dashboard into a medium or high one never lowers the overall level. */
  lemma RaisingALowSampleNeverLowers(points: seq<DensityPoint>, k: nat, i: Intensity)
    requires k < |points| && points[k].intensity == Low && i != Low
    ensures LevelRank(OverallLevel(points)) <= LevelRank(OverallLevel(points[k := points[k].(intensity := i)]))
  {
    var q := points[k].(intensity := i);
    CountUpdate(points, k, q, High);
    CountUpdate(points, k, q, Medium);
    CountUpdate(points, k, q, Low);
    CountsFit(points);
    RaisingALowPointNeverLowers(Count(points, High), Count(points, Medium), |points|);
  }

  /**
   * Turning a medium point into a high one can lower the level: out of 100
   * points, 41 medium is High but 1 high and 40 medium is only Medium.
   */
  lemma MediumToHighCanLower()
    ensures LevelOfCounts(0, 41, 100) == HighLevel
    ensures LevelOfCounts(1, 40, 100) == MediumLevel
  {
  }

  // ---------------------------------------------------------------- team-message feed

  datatype FeedMessage = FeedMessage(id: int, user: string, message: string, timestamp: int, kind: string)

  /** The three messages the feed starts with, two, five and eight minutes old. */
  function InitialMessages(now: int): seq<FeedMessage> {
    [ FeedMessage(1, "Security Team Alpha",
        "Crowd movement detected at Main Ghat. Deploying additional units.", now - 2 * 60000, "security"),
      FeedMessage(2, "Medical Unit 3",
        "Patient stabilized and transferred to base hospital.", now - 5 * 60000, "medical"),
      FeedMessage(3, "Drone Operator 1",
        "AeroRover-X2 reporting normal patrol status in Sector 4.", now - 8 * 60000, "drone") ]
  }

  /** Ids are 1 to the number of messages, each used once. */
  predicate IdsAreCount(messages: seq<FeedMessage>) {
    && (forall i :: 0 <= i < |messages| ==> 1 <= messages[i].id <= |messages|)
    && (forall i, j :: 0 <= i < j < |messages| ==> messages[i].id != messages[j].id)
  }

  /** The component-local feed of the command dashboard. */
  class CommandFeed {
    var messages: seq<FeedMessage>
    var draft: string

    ghost predicate Valid()
      reads this
    {
      IdsAreCount(messages)
    }

    constructor (now: int)
      ensures Valid()
      ensures messages == InitialMessages(now) && draft == ""
    {
      messages := InitialMessages(now);
      draft := "";
    }

    method Edit(text: string)
      modifies this
      ensures draft == text && messages == old(messages)
    {
      draft := text;
    }

    /**
     * `sendMessage`: a blank draft changes nothing; otherwise the untrimmed
     * draft is prepended as message `length + 1` from the command centre and
     * the draft is cleared.
     */
    method Send(now: int)
      requires Valid()
      modifies this
      ensures Valid()
      ensures Trim(old(draft)) == "" ==> messages == old(messages) && draft == old(draft)
      ensures Trim(old(draft)) != "" ==>
        messages == [FeedMessage(|old(messages)| + 1, "Command Center", old(draft), now, "command")] + old(messages)
        && draft == ""
    {
      if Trim(draft) != "" {
        var m := FeedMessage(|messages| + 1, "Command Center", draft, now, "command");
        messages := [m] + messages;
        draft := "";
      }
    }
  }

  // ---------------------------------------------------------------- alert responses

  datatype MockAlert = MockAlert(
    id: string, alertType: string, priority: string, description: string,
    lat: real, lng: real, timestamp: int, status: string)

  /**
   * The alerts the dashboard shows, three, seven and twelve minutes old: all
   * still active, each with its own id (responses are keyed by it), newest first.
   */
  function MockAlerts(now: int): (r: seq<MockAlert>)
    ensures |r| == 3
    ensures forall i :: 0 <= i < |r| ==> r[i].status == "active" && now - r[i].timestamp >= 3 * 60000
    ensures forall i, j :: 0 <= i < j < |r| ==> r[i].id != r[j].id && r[j].timestamp < r[i].timestamp
    ensures r[0].priority == "high" && r[2].priority == "high" && r[1].priority == "medium"
  {
    [ MockAlert("alert_001", "medical", "high", "Cardiac incident reported at Main Ghat Area",
                23.1815, 75.7804, now - 3 * 60000, "active"),
      MockAlert("alert_002", "crowd", "medium", "Overcrowding detected at Bridge Junction",
                23.1823, 75.7798, now - 7 * 60000, "active"),
      MockAlert("alert_003", "missing_person", "high", "Child separated from family near Temple Complex",
                23.1810, 75.7812, now - 12 * 60000, "active") ]
  }

  datatype AlertResponse = AlertResponse(
    id: string, alertId: string, message: string, timestamp: int,
    responderId: string, responderName: string)

  /**
   * The response recorded for `alertId` at `now`, from the dashboard's fixed
   * officer (so `user?.employeeId || 'CMD001'` is always "CMD001").
   */
  function ResponseFor(alertId: string, text: string, now: int): (r: AlertResponse)
    ensures r.alertId == alertId && r.message == text && r.timestamp == now
    ensures StartsWith(r.id, "response_")
    ensures r.responderId == "CMD001" && r.responderName == "Command Administrator"
  {
    AlertResponse("response_" + IntToString(now), alertId, text, now, "CMD001", "Command Administrator")
  }

  const MedicalTemplate: string :=
    "Medical team has been dispatched to your location. Please remain calm and stay where you are. Help is on the way."
  const CrowdTemplate: string :=
    "We are aware of the crowd situation. Please follow alternate routes and maintain distance. Additional security deployed."
  const MissingPersonTemplate: string :=
    "Security team is actively searching for the missing person. Please check nearby help desks and stay in the area."
  const GeneralTemplate: string :=
    "Your alert has been received. Our team is responding to the situation."

  /** `getResponseTemplate`: the canned reply for a medical, crowd or missing-person alert, else the general one. */
  function ResponseTemplate(alertType: string): (r: string)
    ensures alertType == "medical" ==> r == MedicalTemplate
    ensures alertType == "crowd" ==> r == CrowdTemplate
    ensures alertType == "missing_person" ==> r == MissingPersonTemplate
    ensures alertType != "medical" && alertType != "crowd" && alertType != "missing_person" ==>
      r == GeneralTemplate
  {
    if alertType == "medical" then MedicalTemplate
    else if alertType == "crowd" then CrowdTemplate
    else if alertType == "missing_person" then MissingPersonTemplate
    else GeneralTemplate
  }

  /**
   * The response desk: the recorded responses keyed by alert id, the open
   * response dialog and its text.
   */
  class ResponseDesk {
    var responses: map<string, AlertResponse>
    var modal: Option<MockAlert>
    var text: string
    var isSubmitting: bool

    /**
     * The dialog is only ever open for an alert without a response, because
     * the Respond button of an answered alert is disabled.
     */
    ghost predicate Valid()
      reads this
    {
      modal.Some? ==> modal.value.id !in responses
    }

    constructor ()
      ensures Valid()
      ensures responses == map[] && modal == None && text == "" && !isSubmitting
    {
      responses, modal, text, isSubmitting := map[], None, "", false;
    }

    /** The Respond button: disabled once the alert has a response, else it opens an empty dialog. */
    method Respond(alert: MockAlert)
      requires Valid()
      modifies this
      ensures Valid()
      ensures alert.id in old(responses) ==> modal == old(modal) && text == old(text)
      ensures alert.id !in old(responses) ==> modal == Some(alert) && text == ""
      ensures responses == old(responses) && isSubmitting == old(isSubmitting)
    {
      if alert.id !in responses {
        modal := Some(alert);
        text := "";
      }
    }

    /** The close button of the dialog. */
    method Close()
      requires Valid()
      modifies this
      ensures Valid()
      ensures modal == None && responses == old(responses) && text == old(text)
      ensures isSubmitting == old(isSubmitting)
    {
      modal := None;
    }

    method Edit(t: string)
      requires Valid()
      modifies this
      ensures Valid()
      ensures text == t && modal == old(modal) && responses == old(responses)
      ensures isSubmitting == old(isSubmitting)
    {
      text := t;
    }

    /** "Use Template": the dialog's text becomes the template for the alert's type. */
    method UseTemplate()
      requires Valid() && modal.Some?
      modifies this
      ensures Valid()
      ensures modal == old(modal) && responses == old(responses) && isSubmitting == old(isSubmitting)
      ensures modal.Some? && text == ResponseTemplate(modal.value.alertType)
    {
      text := ResponseTemplate(modal.value.alertType);
    }

    /**
     * `handleSubmitResponse`: a blank text changes nothing; otherwise the
     * response is stored under the alert's id, the dialog closes and its
     * text is cleared. Since the dialog only opens for an unanswered alert,
     * this adds a key and never replaces an earlier response.
     */
    method Submit(now: int)
      requires Valid() && modal.Some?
      modifies this
      ensures Valid()
      ensures Trim(old(text)) == "" ==>
        responses == old(responses) && modal == old(modal) && text == old(text)
        && isSubmitting == old(isSubmitting)
      ensures Trim(old(text)) != "" ==>
        responses == old(responses)[old(modal).value.id := ResponseFor(old(modal).value.id, old(text), now)]
        && modal == None && text == "" && !isSubmitting
      ensures Trim(old(text)) != "" ==>
        old(modal).value.id !in old(responses) && responses.Keys == old(responses).Keys + {old(modal).value.id}
    {
      if Trim(text) == "" {
        return;
      }
      isSubmitting := true;
      var alertId := modal.value.id;
      responses := responses[alertId := ResponseFor(alertId, text, now)];
      modal := None;
      text := "";
      isSubmitting := false;
    }
  }
}
