/**
 * Where messages go: the registry of output classes keyed by
 * `(message_type, output_name)`, the dot-padded timesheet lines of the
 * report outputs, and the Slack message chosen for a pipeline schedule's
 * status. Template rendering, printing and the Slack client are not
 * modelled; the formatting of hours (`'{:.1f}'`) is a parameter.
 */
module Outputs {
  import opened Wrappers
  import opened Text

  // ----- the registry ------------------------------------------------------

  /** The output classes the module declares. */
  datatype OutputClass =
    | BaseTextOutput | ConsoleTextOutput | SlackTextOutput
    | BaseReportOutput | ConsoleReportOutput | SlackReportOutput
    | ConsoleSchedulesStatusOutput | SlackSchedulesStatusOutput
  {
    /** The class attribute `message_type`, inherited by the subclasses. */
    function MessageType(): string {
      match this
      case BaseTextOutput | ConsoleTextOutput | SlackTextOutput => "text"
      case BaseReportOutput | ConsoleReportOutput | SlackReportOutput => "report"
      case ConsoleSchedulesStatusOutput | SlackSchedulesStatusOutput => "schedule_status"
    }

    /** The class attribute `output_name`. */
    function OutputName(): string {
      match this
      case BaseTextOutput | BaseReportOutput => "none"
      case ConsoleTextOutput | ConsoleReportOutput | ConsoleSchedulesStatusOutput => "console"
      case SlackTextOutput | SlackReportOutput | SlackSchedulesStatusOutput => "slack"
    }

    function Key(): (string, string) { (MessageType(), OutputName()) }
  }

  /** The `@register_output` decorations, in the order the module runs them. */
  const Declared: seq<OutputClass> := [
    BaseTextOutput, ConsoleTextOutput, SlackTextOutput,
    BaseReportOutput, ConsoleReportOutput, SlackReportOutput,
    ConsoleSchedulesStatusOutput, SlackSchedulesStatusOutput]

  /** `ALL_OUTPUTS` after registering `cs` in order. */
  function Registrations(cs: seq<OutputClass>): map<(string, string), OutputClass> {
    if cs == [] then map[]
    else
      var n := |cs| - 1;
      Registrations(cs[..n])[cs[n].Key() := cs[n]]
  }

  /**
   * A key is registered exactly when some class has it, and it maps to the
   * last class registered under it: a later registration overwrites.
   */
  lemma {:induction false} RegistrationsLast(cs: seq<OutputClass>, key: (string, string)) returns (i: nat)
    requires key in Registrations(cs)
    ensures i < |cs| && cs[i].Key() == key && Registrations(cs)[key] == cs[i]
    ensures forall j :: i < j < |cs| ==> cs[j].Key() != key
  {
    var n := |cs| - 1;
    if cs[n].Key() == key {
      i := n;
    } else {
      i := RegistrationsLast(cs[..n], key);
      assert cs[..n][i] == cs[i];
    }
  }

  lemma {:induction false} RegistrationsHave(cs: seq<OutputClass>, i: nat)
    requires i < |cs|
    ensures cs[i].Key() in Registrations(cs)
  {
    var n := |cs| - 1;
    if i < n {
      RegistrationsHave(cs[..n], i);
      assert cs[..n][i] == cs[i];
    }
  }

  /** After the module loads, every declared class is found under its own key, and nothing else is registered. */
  lemma DeclaredOutputs()
    ensures forall c :: c in Declared ==> c.Key() in Registrations(Declared) && Registrations(Declared)[c.Key()] == c
    ensures forall key :: key in Registrations(Declared) ==> exists c :: c in Declared && c.Key() == key
  {
    forall c | c in Declared
      ensures c.Key() in Registrations(Declared) && Registrations(Declared)[c.Key()] == c
    {
      var k :| 0 <= k < |Declared| && Declared[k] == c;
      RegistrationsHave(Declared, k);
      var i := RegistrationsLast(Declared, c.Key());
      assert Declared[i] == c by {
        forall x, y | x in Declared && y in Declared && x.Key() == y.Key() ensures x == y { }
      }
    }
    forall key | key in Registrations(Declared) ensures exists c :: c in Declared && c.Key() == key {
      var i := RegistrationsLast(Declared, key);
      assert Declared[i] in Declared;
    }
  }

  /** The module-level dict `ALL_OUTPUTS`. */
  class OutputRegistry {
    var outputs: map<(string, string), OutputClass>

    /** Loading the module: every declared class registers itself in turn. */
    constructor()
      ensures outputs == Registrations(Declared)
    {
      outputs := map[];
      new;
      for i := 0 to |Declared|
        invariant outputs == Registrations(Declared[..i])
      {
        assert Declared[..i + 1][..i] == Declared[..i];
        var _ := Register(Declared[i]);
      }
      assert Declared[..|Declared|] == Declared;
    }

    /** `register_output`: stores the class under its key, replacing any earlier one. */
    method Register(c: OutputClass) returns (r: OutputClass)
      modifies this
      ensures outputs == old(outputs)[c.Key() := c]
      ensures r == c
    {
      outputs := outputs[c.Key() := c];
      r := c;
    }

    /**
     * `get_output`: the class registered under the pair, or KeyError. The
     * code returns a fresh instance of that class; the output classes hold
     * no state, so the class stands for its instance.
     */
    method GetOutput(messageType: string, outputName: string) returns (r: Result<OutputClass>)
      ensures (messageType, outputName) in outputs ==> r == Ok(outputs[(messageType, outputName)])
      ensures (messageType, outputName) !in outputs ==> r.Err? && r.error.KeyMissing?
    {
      if (messageType, outputName) in outputs {
        r := Ok(outputs[(messageType, outputName)]);
      } else {
        r := Err(KeyMissing(messageType + "/" + outputName));
      }
    }
  }

  // ----- the timesheet report ----------------------------------------------

  /** A row of the report query: a profile name and its summed hours. */
  datatype ReportUser = ReportUser(name: string, totalHours: real)

  /** `max(len(u.name) for u in users)`. */
  function MaxNameLen(users: seq<ReportUser>): (m: nat)
    requires users != []
    ensures forall k :: 0 <= k < |users| ==> |users[k].name| <= m
    ensures exists k :: 0 <= k < |users| && |users[k].name| == m
  {
    if |users| == 1 then |users[0].name|
    else
      var rest := MaxNameLen(users[1..]);
      assert forall k :: 1 <= k < |users| ==> users[k] == users[1..][k - 1];
      if |users[0].name| >= rest then |users[0].name| else rest
  }

  /** `name + '.' * (max_name + 3 - len(name)) + '{:.1f}h'.format(hours)`. */
  function Line(u: ReportUser, maxName: nat, hoursText: real -> string): string
    requires |u.name| <= maxName
  {
    u.name + Repeat('.', maxName + 3 - |u.name|) + hoursText(u.totalHours) + "h"
  }

  /** The loop filling `formatted`. */
  method FormatLines(users: seq<ReportUser>, hoursText: real -> string) returns (formatted: seq<string>)
    requires users != []
    ensures |formatted| == |users|
    ensures forall k :: 0 <= k < |users| ==> formatted[k] == Line(users[k], MaxNameLen(users), hoursText)
  {
    var maxName := MaxNameLen(users);
    formatted := [];
    for k := 0 to |users|
      invariant |formatted| == k
      invariant forall j :: 0 <= j < k ==> formatted[j] == Line(users[j], maxName, hoursText)
    {
      var dots := Repeat('.', maxName + 3 - |users[k].name|);
      formatted := formatted + [users[k].name + dots + hoursText(users[k].totalHours) + "h"];
    }
  }

  /**
   * Every line starts with its user's name followed by dots up to the same
   * column, three past the longest name, so at least three dots; the hours
   * start in that column.
   */
  lemma LinesAligned(users: seq<ReportUser>, hoursText: real -> string, k: nat)
    requires k < |users|
    ensures var m, u := MaxNameLen(users), users[k];
      var line := Line(u, m, hoursText);
      |line| >= m + 3
      && line[..|u.name|] == u.name
      && (forall i :: |u.name| <= i < m + 3 ==> line[i] == '.')
      && m + 3 - |u.name| >= 3
      && line[m + 3..] == hoursText(u.totalHours) + "h"
  {
    var m, u := MaxNameLen(users), users[k];
    var dots := Repeat('.', m + 3 - |u.name|);
    var line := Line(u, m, hoursText);
    assert line == u.name + dots + (hoursText(u.totalHours) + "h");
    forall i | |u.name| <= i < m + 3 ensures line[i] == '.' {
      assert line[i] == dots[i - |u.name|];
    }
  }

  /** `format_message`'s two outcomes: the lines handed to the template, or the fixed text. */
  datatype ReportMessage = NoWorklogs | Rendered(lines: seq<string>, fromDate: int, toDate: int)

  function NoWorklogsText(): string { "No worklogs available" }

  /** `BaseReportOutput.format_message`, up to the template. */
  method FormatMessage(users: seq<ReportUser>, fromDate: int, toDate: int, hoursText: real -> string)
    returns (r: ReportMessage)
    ensures users == [] <==> r == NoWorklogs
    ensures users != [] ==> r.lines == seq(|users|, k requires 0 <= k < |users| => Line(users[k], MaxNameLen(users), hoursText))
    ensures r.Rendered? ==> r.fromDate == fromDate && r.toDate == toDate
  {
    if users == [] {
      return NoWorklogs;
    }
    var formatted := FormatLines(users, hoursText);
    r := Rendered(formatted, fromDate, toDate);
  }

  /** The two report lines of the console report example. */
  lemma ReportLinesExample(a: real, b: real, hoursText: real -> string)
    requires hoursText(a) == "0.2" && hoursText(b) == "2.0"
    ensures var users := [ReportUser("John Smith", a), ReportUser("Vasya Pupkin", b)];
      Line(users[0], MaxNameLen(users), hoursText) == "John Smith.....0.2h"
      && Line(users[1], MaxNameLen(users), hoursText) == "Vasya Pupkin...2.0h"
  {
    var users := [ReportUser("John Smith", a), ReportUser("Vasya Pupkin", b)];
    assert MaxNameLen(users[1..]) == 12;
    assert MaxNameLen(users) == 12;
    assert Repeat('.', 5) == ".....";
    assert Repeat('.', 3) == "...";
  }

  // ----- the scheduled-tests status ----------------------------------------------

  datatype Pipeline = Pipeline(id: nat, status: string)

  /** A pipeline schedule; an absent, null or empty `last_pipeline` is None. */
  datatype Schedule = Schedule(updatedAt: string, lastPipeline: Option<Pipeline>)

  /** The one attachment of the Slack message. */
  datatype Attachment = Attachment(fallback: string, title: string, text: string, color: string)

  /** The colour, title and caption for a pipeline status, for the three statuses that send a message. */
  function StatusStyle(status: string): Option<(string, string, string)> {
    if status == "failed" then Some(("danger", "Scheduled tests have failed", "FAILED"))
    else if status == "success" then Some(("good", "Scheduled tests have passed successfully", "SUCCESS"))
    else if status == "running" then Some(("#439FE0", "Scheduled tests are still running", "RUNNING"))
    else None
  }

  /** `send_slack_message`'s attachment. */
  function StatusAttachment(p: Pipeline, color: string, title: string, caption: string, projectUrl: string): Attachment {
    var id := NatToString(p.id);
    Attachment(title, title, "<" + projectUrl + "/pipelines/" + id + "|Pipeline #" + id + "> - " + caption, color)
  }

  /**
   * `SlackSchedulesStatusOutput.send_message`: the attachment sent for the
   * first schedule's last pipeline, or None when nothing is sent.
   */
  function SlackStatusMessage(schedules: seq<Schedule>, projectUrl: Option<string>): Option<Attachment> {
    if schedules == [] || schedules[0].lastPipeline.None? then None
    else
      var p := schedules[0].lastPipeline.value;
      match StatusStyle(p.status)
      case None => None
      case Some((color, title, caption)) => Some(StatusAttachment(p, color, title, caption, projectUrl.GetOr("")))
  }

  /** A message is sent exactly when the first schedule has a last pipeline whose status is failed, success or running. */
  lemma SlackStatusSent(schedules: seq<Schedule>, projectUrl: Option<string>)
    ensures SlackStatusMessage(schedules, projectUrl).Some? <==>
      schedules != [] && schedules[0].lastPipeline.Some?
      && schedules[0].lastPipeline.value.status in ["failed", "success", "running"]
  {
  }

  /** Only the first schedule counts. */
  lemma SlackStatusFirstOnly(schedules: seq<Schedule>, projectUrl: Option<string>)
    requires schedules != []
    ensures SlackStatusMessage(schedules, projectUrl) == SlackStatusMessage(schedules[..1], projectUrl)
  {
    assert schedules[..1][0] == schedules[0];
  }

  lemma UpperFailed() ensures Upper("failed") == "FAILED" { }

  lemma UpperSuccess() ensures Upper("success") == "SUCCESS" { }

  lemma UpperRunning() ensures Upper("running") == "RUNNING" { }

  /**
   * The message's fallback is its title, and its text links the pipeline
   * and ends with the status in capitals.
   */
  lemma SlackStatusText(schedules: seq<Schedule>, projectUrl: Option<string>)
    requires SlackStatusMessage(schedules, projectUrl).Some?
    ensures var p, a := schedules[0].lastPipeline.value, SlackStatusMessage(schedules, projectUrl).value;
      a.fallback == a.title
      && a.text == "<" + projectUrl.GetOr("") + "/pipelines/" + NatToString(p.id) + "|Pipeline #"
           + NatToString(p.id) + "> - " + Upper(p.status)
  {
    var s := schedules[0].lastPipeline.value.status;
    if s == "failed" {
      UpperFailed();
    } else if s == "success" {
      UpperSuccess();
    } else {
      UpperRunning();
    }
  }
}
