/** The `AnalyticsManager` of `src/js/analytics.js`: the payloads it hands
    to Google Analytics' `gtag` function and the scroll-depth listener that
    reports each new quarter of the page the visitor reaches. The `gtag`
    global is a `Gtag` object that logs what it receives; the page's title
    and address are passed in. */
module Analytics {
  import opened Records

  /** A value of an event parameter. */
  datatype Value = Str(s: string) | Num(n: int) | Bool(b: bool)

  /** JavaScript truthiness of a parameter value. */
  predicate ValueTruthy(v: Value)
  {
    match v
    case Str(s) => s != ""
    case Num(n) => n != 0
    case Bool(b) => b
  }

  /** An event's parameter object; key order is not modelled. */
  type Params = map<string, Value>

  /** One call `gtag('event', action, params)`. */
  datatype GtagEvent = GtagEvent(action: string, params: Params)

  /** `document.title` and `window.location.href` at the time of a call. */
  datatype Page = Page(title: string, location: string)

  /** The measurement ID the manager is built with. */
  const GaId: string := "G-P49MEVNXDW"

  /** Parameter names. */
  const CategoryKey := "event_category"
  const LabelKey := "event_label"
  const ValueKey := "value"
  const CallerLabelKey := "label"
  const AreaKey := "subject_area"
  const InteractionKey := "interaction_type"
  const PageTitleKey := "page_title"
  const PageLocationKey := "page_location"
  const EngagementTimeKey := "engagement_time_msec"
  const ContentTypeKey := "content_type"

  /** The page's `gtag` function, as the log of the events it was given. */
  class Gtag {
    var sent: seq<GtagEvent>

    constructor ()
      ensures sent == []
    {
      sent := [];
    }

    method Send(e: GtagEvent)
      modifies this
      ensures sent == old(sent) + [e]
    {
      sent := sent + [e];
    }
  }

  // ---------------------------------------------------------------------
  // Payloads
  // ---------------------------------------------------------------------

  /** The payload `trackEvent` sends: the defaults `event_category`,
      `event_label` and `value`, then the caller's parameters spread over
      them. A caller key always wins; a default shows through only when the
      caller left its key out, so a falsy `value` the caller passed is sent
      as given: the spread puts it back over the `|| 0` default. */
  function TrackEventPayload(parameters: Params): (payload: Params)
    ensures payload.Keys == parameters.Keys + {CategoryKey, LabelKey, ValueKey}
    ensures forall key :: key in parameters ==> payload[key] == parameters[key]
    ensures CategoryKey !in parameters ==> payload[CategoryKey] == Str("engagement")
    ensures LabelKey !in parameters ==>
      payload[LabelKey] == if CallerLabelKey in parameters && ValueTruthy(parameters[CallerLabelKey]) then parameters[CallerLabelKey] else Str("")
    ensures ValueKey !in parameters ==> payload[ValueKey] == Num(0)
  {
    var eventLabel := if CallerLabelKey in parameters && ValueTruthy(parameters[CallerLabelKey]) then parameters[CallerLabelKey] else Str("");
    var eventValue := if ValueKey in parameters && ValueTruthy(parameters[ValueKey]) then parameters[ValueKey] else Num(0);
    map[CategoryKey := Str("engagement"), LabelKey := eventLabel, ValueKey := eventValue] + parameters
  }

  /** The defaults are only a fallback: a payload that already carries all
      three default keys goes through `trackEvent`'s merge unchanged. */
  lemma PayloadMergeIdempotent(parameters: Params)
    ensures TrackEventPayload(TrackEventPayload(parameters)) == TrackEventPayload(parameters)
  {
    var payload := TrackEventPayload(parameters);
    assert TrackEventPayload(payload).Keys == payload.Keys;
  }

  /** `trackSubjectAreaEngagement`'s `eventData`: the area, the kind of
      interaction and the page, plus `engagement_time_msec` when a truthy
      duration was given (a missing or zero duration leaves it out). */
  function EngagementData(area: string, action: string, duration: Option<int>, page: Page): (data: Params)
    ensures data.Keys ==
      {AreaKey, InteractionKey, PageTitleKey, PageLocationKey}
      + (if duration.Some? && duration.value != 0 then {EngagementTimeKey} else {})
    ensures data[AreaKey] == Str(area) && data[InteractionKey] == Str(action)
    ensures data[PageTitleKey] == Str(page.title) && data[PageLocationKey] == Str(page.location)
    ensures EngagementTimeKey in data ==> data[EngagementTimeKey] == Num(duration.value)
  {
    var base := map[AreaKey := Str(area), InteractionKey := Str(action),
                     PageTitleKey := Str(page.title), PageLocationKey := Str(page.location)];
    if duration.Some? && duration.value != 0 then base[EngagementTimeKey := Num(duration.value)] else base
  }

  /** What an engagement event finally carries once `trackEvent` merged it:
      every default (none of them is an engagement key), the area and the
      interaction, and the duration exactly when it was truthy. */
  lemma EngagementPayload(area: string, action: string, duration: Option<int>, page: Page)
    ensures var payload := TrackEventPayload(EngagementData(area, action, duration, page));
      && payload[CategoryKey] == Str("engagement")
      && payload[LabelKey] == Str("")
      && payload[ValueKey] == Num(0)
      && payload[AreaKey] == Str(area)
      && payload[InteractionKey] == Str(action)
      && (EngagementTimeKey in payload <==> duration.Some? && duration.value != 0)
      && (EngagementTimeKey in payload ==> payload[EngagementTimeKey] == Num(duration.value))
  {
  }

  /** `trackContentView`'s parameters; the page title names the area and the
      kind of content. */
  function ContentViewData(area: string, contentType: string): (data: Params)
    ensures data.Keys == {AreaKey, ContentTypeKey, PageTitleKey}
    ensures data[PageTitleKey] == Str(area + " - " + contentType)
    ensures data[AreaKey] == Str(area) && data[ContentTypeKey] == Str(contentType)
  {
    map[AreaKey := Str(area), ContentTypeKey := Str(contentType), PageTitleKey := Str(area + " - " + contentType)]
  }

  /** The event `trackSubjectAreaEngagement` sends. */
  function EngagementEvent(area: string, action: string, duration: Option<int>, page: Page): GtagEvent
  {
    GtagEvent("subject_area_engagement", TrackEventPayload(EngagementData(area, action, duration, page)))
  }

  /** The event `trackContentView` sends. */
  function ContentViewEvent(area: string, contentType: string): GtagEvent
  {
    GtagEvent("content_view", TrackEventPayload(ContentViewData(area, contentType)))
  }

  /** `trackFormSubmission`'s parameters. */
  function FormSubmissionData(formType: string, success: bool): (data: Params)
    ensures data.Keys == {"form_type", "success"}
    ensures data["form_type"] == Str(formType) && data["success"] == Bool(success)
  {
    map["form_type" := Str(formType), "success" := Bool(success)]
  }

  /** `trackResumeDownload`'s parameters. */
  const ResumeDownloadData: Params :=
    map["file_name" := Str("vincent_virovac_resume.pdf"), "file_type" := Str("resume")]

  // ---------------------------------------------------------------------
  // Scroll depth
  // ---------------------------------------------------------------------

  /** The listener's test on a rounded percent: deeper than `maxScroll` and
      a multiple of 25. (JavaScript's `%` truncates, but whether the
      remainder is zero does not depend on the rounding direction.) */
  predicate Fires(maxScroll: int, percent: int)
  {
    percent > maxScroll && percent % 25 == 0
  }

  /** The listener's `maxScroll` after it was handed `percents`, starting
      from 0. */
  function ScrollMax(percents: seq<int>): int
  {
    if percents == [] then 0
    else
      var before := ScrollMax(percents[..|percents| - 1]);
      var p := percents[|percents| - 1];
      if Fires(before, p) then p else before
  }

  /** The depths the listener reports for `percents`, in order. */
  function Milestones(percents: seq<int>): seq<int>
  {
    if percents == [] then []
    else
      var prefix := percents[..|percents| - 1];
      var p := percents[|percents| - 1];
      Milestones(prefix) + (if Fires(ScrollMax(prefix), p) then [p] else [])
  }

  /** One more percent, unfolded. */
  lemma ScrollSnoc(percents: seq<int>, p: int)
    ensures ScrollMax(percents + [p]) == if Fires(ScrollMax(percents), p) then p else ScrollMax(percents)
    ensures Milestones(percents + [p]) == Milestones(percents) + (if Fires(ScrollMax(percents), p) then [p] else [])
  {
    assert (percents + [p])[..|percents|] == percents;
  }

  /** The reported depths are positive multiples of 25 in strictly
      increasing order, and `maxScroll` is the last one reported (0 before
      the first). */
  lemma {:induction false} MilestonesIncrease(percents: seq<int>)
    ensures var m := Milestones(percents);
      && (forall i :: 0 <= i < |m| ==> m[i] > 0 && m[i] % 25 == 0)
      && (forall i, j :: 0 <= i < j < |m| ==> m[i] < m[j])
      && ScrollMax(percents) == if m == [] then 0 else m[|m| - 1]
  {
    if percents != [] {
      var prefix, p := percents[..|percents| - 1], percents[|percents| - 1];
      assert percents == prefix + [p];
      MilestonesIncrease(prefix);
      ScrollSnoc(prefix, p);
    }
  }

  /** `maxScroll` never decreases, however many scroll events follow. */
  lemma {:induction false} ScrollMaxMonotone(percents: seq<int>, later: seq<int>)
    ensures ScrollMax(percents) <= ScrollMax(percents + later)
    decreases |later|
  {
    if later != [] {
      var front, p := later[..|later| - 1], later[|later| - 1];
      assert percents + later == (percents + front) + [p];
      ScrollMaxMonotone(percents, front);
      ScrollSnoc(percents + front, p);
    } else {
      assert percents + later == percents;
    }
  }

  /** A percent is reported exactly when it is a positive multiple of 25
      deeper than every depth reported before it. */
  lemma ReportedIffDeeper(percents: seq<int>, p: int)
    ensures var m := Milestones(percents);
      Milestones(percents + [p]) == m + (if p > 0 && p % 25 == 0 && (forall d :: d in m ==> d < p) then [p] else [])
  {
    var m := Milestones(percents);
    MilestonesIncrease(percents);
    ScrollSnoc(percents, p);
    if m != [] {
      var last := m[|m| - 1];
      assert last in m && last > 0;
      forall d | d in m
        ensures d <= last
      {
        var i :| 0 <= i < |m| && m[i] == d;
      }
    }
  }

  /** The event the listener sends for a reported depth. */
  function ScrollEvent(percent: int): (e: GtagEvent)
    ensures e.action == "scroll"
    ensures "scroll_depth" in e.params && e.params["scroll_depth"] == Num(percent)
    ensures CategoryKey in e.params && e.params[CategoryKey] == Str("engagement")
  {
    var params := map["scroll_depth" := Num(percent)];
    assert "scroll_depth" in params;
    GtagEvent("scroll", TrackEventPayload(params))
  }

  // ---------------------------------------------------------------------
  // The manager
  // ---------------------------------------------------------------------

  class AnalyticsManager {
    /** The `gtag` global; null when Google Analytics did not load. */
    const gtag: Gtag?
    /** The `maxScroll` of the listener `trackScrollDepth` installed; None
        while no listener is installed. */
    var maxScroll: Option<int>
    /** The rounded percents that listener has been handed, oldest first. */
    ghost var scrolls: seq<int>

    ghost predicate Valid()
      reads this
    {
      (maxScroll.Some? ==> gtag != null && maxScroll.value == ScrollMax(scrolls))
      && (maxScroll.None? ==> scrolls == [])
    }

    constructor (gtag: Gtag?)
      ensures Valid() && this.gtag == gtag && maxScroll.None?
    {
      this.gtag := gtag;
      maxScroll := None;
      scrolls := [];
    }

    /** `init`: installs the scroll listener, with `maxScroll` at 0, only
        when `gtag` is there. */
    method Init()
      requires Valid()
      modifies this
      ensures Valid()
      ensures gtag == null ==> maxScroll == old(maxScroll) && scrolls == old(scrolls)
      ensures gtag != null ==> maxScroll == Some(0) && scrolls == []
    {
      if gtag != null {
        TrackScrollDepth();
      }
    }

    /** `trackScrollDepth`: a fresh listener whose `maxScroll` starts at 0. */
    method TrackScrollDepth()
      requires gtag != null
      modifies this
      ensures Valid() && maxScroll == Some(0) && scrolls == []
    {
      maxScroll := Some(0);
      scrolls := [];
    }

    /** `trackEvent`: one event with the merged payload, or nothing when
        `gtag` is not there. */
    method TrackEvent(action: string, parameters: Params)
      modifies gtag
      ensures gtag != null ==> gtag.sent == old(gtag.sent) + [GtagEvent(action, TrackEventPayload(parameters))]
    {
      if gtag != null {
        gtag.Send(GtagEvent(action, TrackEventPayload(parameters)));
      }
    }

    /** `debugAnalytics`: a test event carrying the given ISO timestamp, when
        `gtag` is there. */
    method DebugAnalytics(timestamp: string)
      modifies gtag
      ensures gtag != null ==>
        gtag.sent == old(gtag.sent) + [GtagEvent("debug_test", TrackEventPayload(map["debug" := Bool(true), "timestamp" := Str(timestamp)]))]
    {
      if gtag != null {
        TrackEvent("debug_test", map["debug" := Bool(true), "timestamp" := Str(timestamp)]);
      }
    }

    /** `trackSubjectAreaEngagement`; `duration` None is the default `null`. */
    method TrackSubjectAreaEngagement(area: string, action: string, duration: Option<int>, page: Page)
      modifies gtag
      ensures gtag != null ==>
        gtag.sent == old(gtag.sent) + [EngagementEvent(area, action, duration, page)]
    {
      TrackEvent("subject_area_engagement", EngagementData(area, action, duration, page));
    }

    /** `trackContentView`. */
    method TrackContentView(area: string, contentType: string)
      modifies gtag
      ensures gtag != null ==>
        gtag.sent == old(gtag.sent) + [ContentViewEvent(area, contentType)]
    {
      TrackEvent("content_view", ContentViewData(area, contentType));
    }

    /** `trackFormSubmission`; callers that omit `success` pass true. */
    method TrackFormSubmission(formType: string, success: bool)
      modifies gtag
      ensures gtag != null ==>
        gtag.sent == old(gtag.sent) + [GtagEvent("form_submit", TrackEventPayload(FormSubmissionData(formType, success)))]
    {
      TrackEvent("form_submit", FormSubmissionData(formType, success));
    }

    /** `trackResumeDownload`. */
    method TrackResumeDownload()
      modifies gtag
      ensures gtag != null ==>
        gtag.sent == old(gtag.sent) + [GtagEvent("file_download", TrackEventPayload(ResumeDownloadData))]
    {
      TrackEvent("file_download", ResumeDownloadData);
    }

    /** The scroll listener's body, handed the rounded percent of the page
        scrolled. Without an installed listener nothing happens. With one,
        the percent is recorded and an event is sent exactly when the
        percent passes `maxScroll` at a multiple of 25, which then becomes
        the new `maxScroll`. */
    method OnScroll(percent: int)
      requires Valid()
      modifies this, gtag
      ensures Valid()
      ensures old(maxScroll).None? ==> maxScroll.None? && (gtag != null ==> gtag.sent == old(gtag.sent))
      ensures old(maxScroll).Some? ==>
        && scrolls == old(scrolls) + [percent]
        && gtag != null
        && gtag.sent == old(gtag.sent) + (if Fires(old(maxScroll).value, percent) then [ScrollEvent(percent)] else [])
        && Milestones(scrolls) == old(Milestones(scrolls)) + (if Fires(old(maxScroll).value, percent) then [percent] else [])
    {
      if maxScroll.Some? {
        ScrollSnoc(scrolls, percent);
        scrolls := scrolls + [percent];
        if Fires(maxScroll.value, percent) {
          maxScroll := Some(percent);
          TrackEvent("scroll", map["scroll_depth" := Num(percent)]);
        }
      }
    }
  }
}
