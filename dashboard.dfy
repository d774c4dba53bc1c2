/**
 * The dashboard page script (static/js/main.js): the 60-sample drowsiness
 * chart and the single-bar eye-closure chart, the 100-entry log panel, the
 * status text fields with their transient "changed" flag, and the
 * `DetectionSystem` object that turns the server's start/stop answers into
 * page state (active flag, buttons, video source, polling interval).
 *
 * The variables of the `DOMContentLoaded` closure become the fields of one
 * `Page` object; DOM elements the script null-checks are `Option`s or
 * nullable references. Server answers arrive as parameters: `None` is a
 * failed `fetch` or an unreadable body.
 */
module Dashboard {
  import opened Wrappers
  import opened Text
  import opened Window
  import Backend

  const MaxDataPoints: nat := 60
  const MaxLogItems: nat := 100

  /** What `setInterval` returns: a positive id, so a stored one is always truthy. */
  type TimerId = n: nat | n > 0 witness 1

  /** The Chart.js line chart's `labels` and `datasets[0].data`. */
  class LineChart {
    var labels: seq<string>
    var data: seq<int>

    constructor()
      ensures labels == [] && data == []
    {
      labels := [];
      data := [];
    }
  }

  /** The Chart.js bar chart's `labels` and `datasets[0].data`. */
  class BarChart {
    var labels: seq<string>
    var data: seq<int>

    constructor()
      ensures labels == ["Last 60 Seconds"] && data == [0]
    {
      labels := ["Last 60 Seconds"];
      data := [0];
    }
  }

  /** One child of `#logsContent`: its class and its text. */
  datatype LogItem = LogItem(className: string, text: string)

  /** The `div` `addLog` appends: styled by its kind, the message behind the bracketed time. */
  function MakeLogItem(message: string, kind: string, time: string): (r: LogItem)
    ensures |r.className| == 13 + |kind| && r.className[..13] == "log-item log-" && r.className[13..] == kind
    ensures |r.text| == |time| + 3 + |message|
    ensures r.text[0] == '[' && r.text[1..|time| + 1] == time && r.text[|time| + 1..|time| + 3] == "] "
    ensures r.text[|time| + 3..] == message
  {
    LogItem("log-item log-" + kind, "[" + time + "] " + message)
  }

  /** `addLog` on the log panel, when the page has one. */
  function Logged(content: Option<seq<LogItem>>, item: LogItem): (r: Option<seq<LogItem>>)
    ensures r.Some? <==> content.Some?
    ensures r.Some? ==> 0 < |r.value| <= MaxLogItems && r.value[|r.value| - 1] == item
  {
    match content
    case None => None
    case Some(items) => Some(Keep(items + [item], MaxLogItems))
  }

  /** A status text element: its `textContent` and whether it carries the `changed` class. */
  datatype StatusField = StatusField(text: string, changed: bool)

  /** A value handed to `updateStatusValue`: a string or a number. */
  datatype StatusValue = Str(s: string) | Num(n: int)

  /** `value.toString()`, which is also what assigning it to `textContent` stores. */
  function Show(v: StatusValue): string
  {
    match v
    case Str(s) => s
    case Num(n) => IntToString(n)
  }

  class Page {
    var drowsinessChart: LineChart?
    var eyeClosureChart: BarChart?
    var statusUpdateInterval: Option<TimerId>
    /** The ids of the `setInterval` timers still running. */
    var activeIntervals: set<TimerId>
    var isVideoActive: bool
    var currentSessionId: Option<string>
    var logsContent: Option<seq<LogItem>>
    var statusFields: map<string, StatusField>

    ghost predicate Valid()
      reads this, drowsinessChart, eyeClosureChart
    {
      && (drowsinessChart != null ==> |drowsinessChart.labels| == |drowsinessChart.data| <= MaxDataPoints)
      && (eyeClosureChart != null ==> |eyeClosureChart.data| == 1)
      && (logsContent.Some? ==> |logsContent.value| <= MaxLogItems)
    }

    /** Page start-up: `initializeCharts` creates each chart whose canvas exists. */
    constructor(hasDrowsinessCanvas: bool, hasEyeClosureCanvas: bool, hasLogsPanel: bool, fields: map<string, StatusField>)
      ensures Valid()
      ensures (drowsinessChart != null) == hasDrowsinessCanvas && (eyeClosureChart != null) == hasEyeClosureCanvas
      ensures drowsinessChart != null ==> fresh(drowsinessChart) && drowsinessChart.labels == [] && drowsinessChart.data == []
      ensures eyeClosureChart != null ==> fresh(eyeClosureChart) && eyeClosureChart.data == [0]
      ensures statusUpdateInterval == None && activeIntervals == {} && !isVideoActive && currentSessionId == None
      ensures logsContent == (if hasLogsPanel then Some([]) else None) && statusFields == fields
    {
      drowsinessChart := null;
      eyeClosureChart := null;
      if hasDrowsinessCanvas {
        drowsinessChart := new LineChart();
      }
      if hasEyeClosureCanvas {
        eyeClosureChart := new BarChart();
      }
      statusUpdateInterval := None;
      activeIntervals := {};
      isVideoActive := false;
      currentSessionId := None;
      logsContent := if hasLogsPanel then Some([]) else None;
      statusFields := fields;
    }

    /**
     * `updateCharts`: push the sample and its label, shift both once the line
     * chart holds more than 60; overwrite the single bar.
     */
    method UpdateCharts(drowsiness: int, eyesClosed: int, timeLabel: string)
      requires Valid()
      modifies drowsinessChart, eyeClosureChart
      ensures Valid()
      ensures drowsinessChart != null ==>
        && drowsinessChart.labels == Slide(old(drowsinessChart.labels), timeLabel, MaxDataPoints)
        && drowsinessChart.data == Slide(old(drowsinessChart.data), drowsiness, MaxDataPoints)
      ensures eyeClosureChart != null ==>
        eyeClosureChart.data == [eyesClosed] && eyeClosureChart.labels == old(eyeClosureChart.labels)
    {
      var line := drowsinessChart;
      if line != null {
        line.labels := line.labels + [timeLabel];
        line.data := line.data + [drowsiness];
        if |line.labels| > MaxDataPoints {
          line.labels := line.labels[1..];
          line.data := line.data[1..];
        }
      }
      var bar := eyeClosureChart;
      if bar != null {
        bar.data := bar.data[0 := eyesClosed];
      }
    }

    /** `addLog`: append an item, then remove first children while there are more than 100. */
    method AddLog(message: string, kind: string, time: string)
      modifies this`logsContent
      ensures logsContent == Logged(old(logsContent), MakeLogItem(message, kind, time))
    {
      if logsContent.None? {
        return;
      }
      var items := logsContent.value + [MakeLogItem(message, kind, time)];
      ghost var all := items;
      while |items| > MaxLogItems
        invariant |items| >= MaxLogItems || items == all
        invariant items == all[|all| - |items|..]
        decreases |items|
      {
        items := items[1..];
      }
      logsContent := Some(items);
    }

    /**
     * `updateStatusValue`: write the text of an existing element and add the
     * `changed` class exactly when the text differs from before; `flagged`
     * says whether the class was added (and its removal scheduled).
     */
    method UpdateStatusValue(id: string, value: StatusValue) returns (flagged: bool)
      modifies this`statusFields
      ensures flagged <==> id in old(statusFields) && old(statusFields)[id].text != Show(value)
      ensures id !in old(statusFields) ==> statusFields == old(statusFields)
      ensures id in old(statusFields) ==>
        statusFields == old(statusFields)[id := StatusField(Show(value), old(statusFields)[id].changed || flagged)]
    {
      flagged := false;
      if id in statusFields {
        var field := statusFields[id];
        var oldText := field.text;
        field := field.(text := Show(value));
        if oldText != Show(value) {
          field := field.(changed := true);
          flagged := true;
        }
        statusFields := statusFields[id := field];
      }
    }

    /** The timeout callback `updateStatusValue` schedules: drop the `changed` class. */
    method ClearChanged(id: string)
      modifies this`statusFields
      ensures statusFields == if id in old(statusFields) then old(statusFields)[id := old(statusFields)[id].(changed := false)] else old(statusFields)
    {
      if id in statusFields {
        statusFields := statusFields[id := statusFields[id].(changed := false)];
      }
    }
  }

  /**
   * Whatever sequence of polls reaches the line chart, the plotted series is
   * the last 60 samples and the labels are the last 60 labels: after 61 polls
   * from an empty chart the first sample is the one gone.
   */
  lemma ChartWindow(labels: seq<string>, samples: seq<int>)
    ensures SlideAll([], labels, MaxDataPoints) == Keep(labels, MaxDataPoints)
    ensures SlideAll([], samples, MaxDataPoints) == Keep(samples, MaxDataPoints)
    ensures |labels| == |samples| ==> |SlideAll([], labels, MaxDataPoints)| == |SlideAll([], samples, MaxDataPoints)|
  {
    SlideAllKeeps([], labels, MaxDataPoints);
    SlideAllKeeps([], samples, MaxDataPoints);
    assert [] + labels == labels;
    assert [] + samples == samples;
  }

  /** The JSON answer of `/start_detection`. */
  datatype StartJson = StartJson(status: string, sessionId: Option<string>, message: Option<string>)

  /** The JSON answer of `/stop_detection`. */
  datatype StopJson = StopJson(status: string, message: Option<string>)

  predicate StartAccepted(status: string)
  {
    status == "started" || status == "already_running"
  }

  predicate StopAccepted(status: string)
  {
    status == "stopped" || status == "not_running"
  }

  /** `data.message || 'Unknown error'`: a missing or empty message reads as unknown. */
  function FailureReason(message: Option<string>): (r: string)
    ensures r != ""
    ensures message.Some? && message.value != "" ==> r == message.value
    ensures !(message.Some? && message.value != "") ==> r == "Unknown error"
  {
    if message.Some? && message.value != "" then message.value else "Unknown error"
  }

  /**
   * The JSON `/start_detection` sends for each of the server's answers. The
   * page accepts exactly the answers that are not errors, and reports an
   * error with the server's own message.
   */
  function StartAnswer(reply: Backend.StartReply): (j: StartJson)
    ensures StartAccepted(j.status) <==> !reply.StartError?
    ensures reply.Started? ==> j.sessionId == Some(reply.sessionId)
    ensures reply.StartError? && reply.message != "" ==> FailureReason(j.message) == reply.message
  {
    match reply
    case Started(id) => StartJson("started", Some(id), None)
    case AlreadyRunning => StartJson("already_running", None, None)
    case StartError(m) => StartJson("error", None, Some(m))
  }

  /** The JSON `/stop_detection` sends; the page accepts both of the server's answers. */
  function StopAnswer(reply: Backend.StopReply): (j: StopJson)
    ensures StopAccepted(j.status)
    ensures j.status == "stopped" <==> reply.Stopped?
  {
    match reply
    case Stopped => StopJson("stopped", None)
    case NotRunning => StopJson("not_running", None)
  }

  /** `if (button) button.disabled = v`. */
  function SetDisabled(button: Option<bool>, v: bool): Option<bool>
  {
    if button.Some? then Some(v) else None
  }

  class DetectionSystem {
    var isActive: bool
    /** The `src` of `#videoFeed`, `None` when the page has no such element. */
    var videoFeed: Option<string>
    /** The `disabled` flag of `#startButton`, `None` when the page has none. */
    var startButton: Option<bool>
    /** The `disabled` flag of `#stopButton`, `None` when the page has none. */
    var stopButton: Option<bool>
    const page: Page

    constructor(page: Page, videoFeed: Option<string>, startButton: Option<bool>, stopButton: Option<bool>)
      ensures this.page == page && !isActive
      ensures this.videoFeed == videoFeed && this.startButton == startButton && this.stopButton == stopButton
    {
      this.page := page;
      isActive := false;
      this.videoFeed := videoFeed;
      this.startButton := startButton;
      this.stopButton := stopButton;
    }

    /** `startVideoFeed`: point the image at the stream, with `Date.now()` as cache-buster. */
    method StartVideoFeed(now: nat)
      modifies this`videoFeed
      ensures videoFeed == if old(videoFeed).Some? then Some("/video_feed?t=" + NatToString(now)) else None
    {
      if videoFeed.Some? {
        videoFeed := Some("/video_feed?t=" + NatToString(now));
      }
    }

    /** `stopVideoFeed`: clear the image source. */
    method StopVideoFeed()
      modifies this`videoFeed
      ensures videoFeed == if old(videoFeed).Some? then Some("") else None
    {
      if videoFeed.Some? {
        videoFeed := Some("");
      }
    }

    /** `startStatusUpdates`: install a one-second polling timer with the id `setInterval` returns. */
    method StartStatusUpdates(timerId: TimerId)
      modifies page`statusUpdateInterval, page`activeIntervals
      ensures page.statusUpdateInterval == Some(timerId)
      ensures page.activeIntervals == old(page.activeIntervals) + {timerId}
    {
      page.statusUpdateInterval := Some(timerId);
      page.activeIntervals := page.activeIntervals + {timerId};
    }

    /** `stopStatusUpdates`: cancel the recorded timer, if any, and forget it. */
    method StopStatusUpdates()
      modifies page`statusUpdateInterval, page`activeIntervals
      ensures page.statusUpdateInterval == None
      ensures page.activeIntervals ==
        if old(page.statusUpdateInterval).Some? then old(page.activeIntervals) - {old(page.statusUpdateInterval).value}
        else old(page.activeIntervals)
    {
      if page.statusUpdateInterval.Some? {
        page.activeIntervals := page.activeIntervals - {page.statusUpdateInterval.value};
        page.statusUpdateInterval := None;
      }
    }

    /** `startDetection`, given what `fetch('/start_detection')` produced. */
    method StartDetection(reply: Option<StartJson>, now: nat, timerId: TimerId, time: string)
      requires page.Valid()
      modifies this, page
      ensures page.Valid()
      ensures reply.Some? && StartAccepted(reply.value.status) ==>
        && isActive && page.isVideoActive && page.currentSessionId == reply.value.sessionId
        && startButton == SetDisabled(old(startButton), true) && stopButton == SetDisabled(old(stopButton), false)
        && videoFeed == (if old(videoFeed).Some? then Some("/video_feed?t=" + NatToString(now)) else None)
        && page.statusUpdateInterval == Some(timerId) && page.activeIntervals == old(page.activeIntervals) + {timerId}
        && page.logsContent == Logged(old(page.logsContent), MakeLogItem("Detection system started", "info", time))
      ensures !(reply.Some? && StartAccepted(reply.value.status)) ==>
        && isActive == old(isActive) && startButton == old(startButton) && stopButton == old(stopButton)
        && videoFeed == old(videoFeed) && page.isVideoActive == old(page.isVideoActive)
        && page.currentSessionId == old(page.currentSessionId)
        && page.statusUpdateInterval == old(page.statusUpdateInterval) && page.activeIntervals == old(page.activeIntervals)
        && page.logsContent == Logged(old(page.logsContent),
             if reply.None? then MakeLogItem("Failed to start detection", "error", time)
             else MakeLogItem("Failed to start detection: " + FailureReason(reply.value.message), "error", time))
      ensures page.statusFields == old(page.statusFields)
      ensures page.drowsinessChart == old(page.drowsinessChart) && page.eyeClosureChart == old(page.eyeClosureChart)
    {
      if reply.None? {
        page.AddLog("Failed to start detection", "error", time);
        return;
      }
      var data := reply.value;
      if StartAccepted(data.status) {
        isActive := true;
        page.currentSessionId := data.sessionId;
        StartVideoFeed(now);
        StartStatusUpdates(timerId);
        page.AddLog("Detection system started", "info", time);
        startButton := SetDisabled(startButton, true);
        stopButton := SetDisabled(stopButton, false);
        page.isVideoActive := true;
      } else {
        page.AddLog("Failed to start detection: " + FailureReason(data.message), "error", time);
      }
    }

    /** `stopDetection`, given what `fetch('/stop_detection')` produced. */
    method StopDetection(reply: Option<StopJson>, time: string)
      requires page.Valid()
      modifies this, page
      ensures page.Valid()
      ensures reply.Some? && StopAccepted(reply.value.status) ==>
        && !isActive && !page.isVideoActive
        && startButton == SetDisabled(old(startButton), false) && stopButton == SetDisabled(old(stopButton), true)
        && videoFeed == (if old(videoFeed).Some? then Some("") else None)
        && page.statusUpdateInterval == None
        && page.activeIntervals ==
             (if old(page.statusUpdateInterval).Some? then old(page.activeIntervals) - {old(page.statusUpdateInterval).value}
              else old(page.activeIntervals))
        && page.logsContent == Logged(old(page.logsContent), MakeLogItem("Detection system stopped", "info", time))
      ensures !(reply.Some? && StopAccepted(reply.value.status)) ==>
        && isActive == old(isActive) && startButton == old(startButton) && stopButton == old(stopButton)
        && videoFeed == old(videoFeed) && page.isVideoActive == old(page.isVideoActive)
        && page.statusUpdateInterval == old(page.statusUpdateInterval) && page.activeIntervals == old(page.activeIntervals)
        && page.logsContent == Logged(old(page.logsContent),
             if reply.None? then MakeLogItem("Failed to stop detection", "error", time)
             else MakeLogItem("Failed to stop detection: " + FailureReason(reply.value.message), "error", time))
      ensures page.currentSessionId == old(page.currentSessionId) && page.statusFields == old(page.statusFields)
      ensures page.drowsinessChart == old(page.drowsinessChart) && page.eyeClosureChart == old(page.eyeClosureChart)
    {
      if reply.None? {
        page.AddLog("Failed to stop detection", "error", time);
        return;
      }
      var data := reply.value;
      if StopAccepted(data.status) {
        isActive := false;
        StopVideoFeed();
        StopStatusUpdates();
        page.AddLog("Detection system stopped", "info", time);
        startButton := SetDisabled(startButton, false);
        stopButton := SetDisabled(stopButton, true);
        page.isVideoActive := false;
      } else {
        page.AddLog("Failed to stop detection: " + FailureReason(data.message), "error", time);
      }
    }
  }

  /** A second `stopStatusUpdates` changes nothing. */
  method StopStatusUpdatesTwice(d: DetectionSystem)
    modifies d.page
    ensures d.page.statusUpdateInterval == None
    ensures d.page.activeIntervals ==
      if old(d.page.statusUpdateInterval).Some? then old(d.page.activeIntervals) - {old(d.page.statusUpdateInterval).value}
      else old(d.page.activeIntervals)
  {
    d.StopStatusUpdates();
    ghost var once := d.page.activeIntervals;
    d.StopStatusUpdates();
    assert d.page.activeIntervals == once;
  }

  /**
   * An accepted start while polling is already on installs a second timer
   * without clearing the first, and a later stop clears only the second: the
   * first keeps polling.
   */
  method RestartKeepsOldTimer(d: DetectionSystem, first: TimerId, second: TimerId, time: string)
    requires d.page.Valid() && first != second
    modifies d, d.page
    ensures first in d.page.activeIntervals && second !in d.page.activeIntervals
    ensures d.page.statusUpdateInterval == None && !d.isActive
  {
    d.StartDetection(Some(StartJson("started", Some("20240101_120000"), None)), 0, first, time);
    d.StartDetection(Some(StartJson("already_running", None, None)), 1, second, time);
    d.StopDetection(Some(StopJson("stopped", None)), time);
  }
}
