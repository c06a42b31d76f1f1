/**
 * The interaction controller of the App component: the typed location, the
 * slider percentage, the published prediction and its details, the
 * animating flag, the completions scheduled with `setTimeout` and the
 * centring commands sent to the map.
 *
 * The pure functions below are the specification of each handler; the
 * class `App` holds the same state in fields and its methods are proved to
 * perform exactly these transitions.
 */
module Controller {
  import opened Wrappers
  import opened Catalog
  import opened Engine

  /**
   * A scheduled completion: the query and the percentage captured when the
   * prediction was requested. Every completion is scheduled 2500 ms ahead, so
   * completions fire in the order they were scheduled.
   */
  datatype Job = Job(query: string, pct: int)

  /** A `setView` command sent to the map: centre and zoom level. */
  datatype View = View(lat: real, lon: real, zoom: int)

  /** The zoom level used to centre the map on a region. */
  const RegionZoom: int := 11

  /**
   * The component's state; `pending` lists the scheduled completions, oldest
   * first, and `catalog` is the region table the handlers read, which no
   * handler changes.
   */
  datatype Ui = Ui(location: string, percentage: int, prediction: real, details: Option<Forecast>,
                   animating: bool, pending: seq<Job>, mapReady: bool, views: seq<View>,
                   catalog: seq<Region>)

  /** The state after the first render, reading the West Java table. */
  const Initial: Ui := Ui("", 10, 0.0, None, false, [], false, [], Regions)

  /**
   * The percentage stays in the slider's range, every scheduled job has a
   * non-empty query and an in-range percentage, and the animation is only
   * shown while some completion is still scheduled to end it.
   */
  predicate Inv(u: Ui) {
    && 0 <= u.percentage <= 40
    && (u.animating ==> u.pending != [])
    && forall j :: j in u.pending ==> j.query != "" && 0 <= j.pct <= 40
  }

  /** The text field's `onChange`: typing never submits or publishes anything. */
  function TypeLocation(u: Ui, s: string): (v: Ui)
    ensures v.location == s && v.percentage == u.percentage
    ensures v.pending == u.pending && v.animating == u.animating
    ensures v.prediction == u.prediction && v.details == u.details
  {
    u.(location := s)
  }

  /** The slider's `onChange`; the range input yields 0 to 40 only. */
  function ChangePercentage(u: Ui, p: int): (v: Ui)
    requires 0 <= p <= 40
    ensures v.percentage == p && v.location == u.location && v.views == u.views
  {
    u.(percentage := p)
  }

  /** The location a submission uses: the override when one is given, else the typed location. */
  function LocationToUse(u: Ui, locOverride: Option<string>): string {
    if locOverride.Some? then locOverride.value else u.location
  }

  /**
   * `performPrediction`: nothing happens for an empty location; otherwise the
   * animation starts, the map is centred on the region when it is found and
   * the map exists, and one completion is scheduled with the location and
   * the current percentage.
   */
  function Submit(u: Ui, locOverride: Option<string>): (v: Ui)
    ensures v.prediction == u.prediction && v.details == u.details
    ensures v.location == u.location && v.percentage == u.percentage
    ensures v.mapReady == u.mapReady && v.catalog == u.catalog
  {
    var loc := LocationToUse(u, locOverride);
    if loc == "" then u
    else
      var found := Lookup(u.catalog, Some(loc));
      u.(animating := true,
         views := if found.Some? && u.mapReady
                  then u.views + [View(found.value.lat, found.value.lon, RegionZoom)]
                  else u.views,
         pending := u.pending + [Job(loc, u.percentage)])
  }

  /** The `mapRegionSelect` handler: the clicked name is written into the field and submitted. */
  function MapSelect(u: Ui, name: string): (v: Ui)
    ensures v.location == name && v.percentage == u.percentage
    ensures v.prediction == u.prediction && v.details == u.details
  {
    Submit(u.(location := name), Some(name))
  }

  /** The oldest scheduled completion fires: it publishes its prediction and stops the animation. */
  function Complete(u: Ui): (v: Ui)
    ensures v.location == u.location && v.percentage == u.percentage
    ensures v.views == u.views && v.mapReady == u.mapReady && v.catalog == u.catalog
    ensures u.pending != [] ==> !v.animating && v.pending == u.pending[1..]
    ensures u.pending != [] ==>
      v.details == Some(Outcome(u.catalog, u.pending[0])) &&
      v.prediction == Outcome(u.catalog, u.pending[0]).value
    ensures u.pending == [] ==> v == u
  {
    if u.pending == [] then u
    else
      var result := Outcome(u.catalog, u.pending[0]);
      u.(prediction := result.value, details := Some(result), animating := false,
         pending := u.pending[1..])
  }

  /** The map instance becomes available (once). */
  function AttachMap(u: Ui): (v: Ui)
    ensures v.mapReady
    ensures v.pending == u.pending && v.views == u.views
    ensures v.prediction == u.prediction && v.details == u.details
  {
    if u.mapReady then u else u.(mapReady := true)
  }

  /** What a completion for `job` publishes, with `catalog` as the region table. */
  function Outcome(catalog: seq<Region>, job: Job): Forecast {
    Assess(Lookup(catalog, Some(job.query)), job.pct as real)
  }

  /** Every scheduled completion fired, oldest first. */
  function Drain(u: Ui): Ui
    decreases |u.pending|
  {
    if u.pending == [] then u else Drain(Complete(u))
  }

  /** The inputs the component reacts to. */
  datatype Event =
    | Typed(text: string)
    | Slid(pct: int)
    | Entered
    | Clicked(name: string)
    | MapLoaded
    | TimerFired

  /** The range input only produces percentages from 0 to 40. */
  predicate EventOk(e: Event) {
    e.Slid? ==> 0 <= e.pct <= 40
  }

  /** One event: no handler changes the region table, and each schedules at most one completion. */
  function Step(u: Ui, e: Event): (v: Ui)
    requires EventOk(e)
    ensures v.catalog == u.catalog
    ensures |v.pending| <= |u.pending| + 1
  {
    match e
    case Typed(s) => TypeLocation(u, s)
    case Slid(p) => ChangePercentage(u, p)
    case Entered => Submit(u, None)
    case Clicked(name) => MapSelect(u, name)
    case MapLoaded => AttachMap(u)
    case TimerFired => Complete(u)
  }

  /**
   * A sequence of events: the region table stays the one of the first state,
   * and at most one completion is scheduled per event.
   */
  function Run(u: Ui, events: seq<Event>): (v: Ui)
    requires forall i :: 0 <= i < |events| ==> EventOk(events[i])
    ensures v.catalog == u.catalog
    ensures |v.pending| <= |u.pending| + |events|
    decreases |events|
  {
    if events == [] then u else Run(Step(u, events[0]), events[1..])
  }

  // ---- Properties ----

  /** Each handler keeps the invariant. */
  lemma StepKeepsInv(u: Ui, e: Event)
    requires Inv(u) && EventOk(e)
    ensures Inv(Step(u, e))
  {
    match e
    case Entered =>
    case Clicked(name) =>
    case TimerFired =>
      if u.pending != [] {
        assert forall j :: j in u.pending[1..] ==> j in u.pending;
      }
    case _ =>
  }

  /** Every reachable state satisfies the invariant: no animation is left without a completion to end it. */
  lemma SubmitKeepsInv(u: Ui, locOverride: Option<string>)
    requires Inv(u)
    ensures Inv(Submit(u, locOverride))
  {
    StepKeepsInv(u, Entered);
    StepKeepsInv(u.(location := LocationToUse(u, locOverride)), Entered);
  }

  lemma CompleteKeepsInv(u: Ui)
    requires Inv(u)
    ensures Inv(Complete(u))
  {
    StepKeepsInv(u, TimerFired);
  }

  lemma {:induction false} RunKeepsInv(u: Ui, events: seq<Event>)
    requires Inv(u)
    requires forall i :: 0 <= i < |events| ==> EventOk(events[i])
    ensures Inv(Run(u, events))
    decreases |events|
  {
    if events != [] {
      StepKeepsInv(u, events[0]);
      RunKeepsInv(Step(u, events[0]), events[1..]);
    }
  }

  lemma InitialInv()
    ensures Inv(Initial)
  {
  }

  /** Submitting with an empty location changes nothing. */
  lemma EmptySubmitIsNoOp(u: Ui, locOverride: Option<string>)
    requires LocationToUse(u, locOverride) == ""
    ensures Submit(u, locOverride) == u
  {
  }

  /**
   * A submission with a location schedules exactly one completion, captured
   * with the current percentage, starts the animation and publishes nothing yet.
   */
  lemma SubmitSchedulesOne(u: Ui, locOverride: Option<string>)
    requires LocationToUse(u, locOverride) != ""
    ensures var v := Submit(u, locOverride);
      && v.animating
      && v.pending == u.pending + [Job(LocationToUse(u, locOverride), u.percentage)]
      && v.prediction == u.prediction && v.details == u.details
      && v.location == u.location && v.percentage == u.percentage && v.mapReady == u.mapReady
  {
  }

  /** The map is centred on the region exactly when the location names a region and the map exists. */
  lemma SubmitCentresMap(u: Ui, locOverride: Option<string>)
    ensures var loc := LocationToUse(u, locOverride);
      var found := Lookup(u.catalog, Some(loc));
      Submit(u, locOverride).views ==
        if loc != "" && found.Some? && u.mapReady
        then u.views + [View(found.value.lat, found.value.lon, RegionZoom)]
        else u.views
  {
  }

  /** A map click overrides whatever was typed, and the clicked name replaces the typed text. */
  lemma MapSelectOverridesTyped(u: Ui, name: string)
    requires name != ""
    ensures var v := MapSelect(u, name);
      && v.location == name && v.animating
      && v.pending == u.pending + [Job(name, u.percentage)]
  {
  }

  /** Moving the slider never schedules or publishes anything. */
  lemma SlideNeverSubmits(u: Ui, p: int)
    requires 0 <= p <= 40
    ensures var v := ChangePercentage(u, p);
      v.pending == u.pending && v.animating == u.animating
      && v.prediction == u.prediction && v.details == u.details
  {
  }

  /**
   * The completion publishes the result for the percentage captured at the
   * submission, even if the slider moved in between.
   */
  lemma CompletionUsesCapturedPercentage(u: Ui, p: int)
    requires u.pending == [] && u.location != "" && 0 <= p <= 40
    ensures var v := Complete(ChangePercentage(Submit(u, None), p));
      && v.details == Some(Outcome(u.catalog, Job(u.location, u.percentage)))
      && v.prediction == Outcome(u.catalog, Job(u.location, u.percentage)).value
      && !v.animating && v.pending == [] && v.percentage == p
  {
  }

  /** Once every scheduled completion has fired, the result of the newest submission is the one shown. */
  lemma {:induction false} DrainPublishesNewest(u: Ui)
    requires u.pending != []
    ensures var v, last := Drain(u), u.pending[|u.pending| - 1];
      && v.pending == [] && !v.animating
      && v.details == Some(Outcome(u.catalog, last)) && v.prediction == Outcome(u.catalog, last).value
      && v.location == u.location && v.percentage == u.percentage && v.views == u.views
    decreases |u.pending|
  {
    var w := Complete(u);
    if w.pending != [] {
      assert w.pending[|w.pending| - 1] == u.pending[|u.pending| - 1];
      DrainPublishesNewest(w);
    }
  }

  /**
   * Two submissions in quick succession: no earlier completion is cancelled,
   * so the first result is shown first, and the animation already stops
   * then, while the second completion is still scheduled; when that fires,
   * the second result replaces the first.
   */
  lemma RapidResubmission(u: Ui, q1: string, q2: string)
    requires u.pending == [] && q1 != "" && q2 != ""
    ensures var v := Submit(Submit(u, Some(q1)), Some(q2));
      && v.animating && v.pending == [Job(q1, u.percentage), Job(q2, u.percentage)]
      && Complete(v).details == Some(Outcome(u.catalog, Job(q1, u.percentage)))
      && !Complete(v).animating && Complete(v).pending == [Job(q2, u.percentage)]
      && Drain(v).details == Some(Outcome(u.catalog, Job(q2, u.percentage)))
  {
    var v := Submit(Submit(u, Some(q1)), Some(q2));
    assert Complete(v).pending == [Job(q2, u.percentage)];
    DrainPublishesNewest(v);
  }

  /** On the West Java table, a completion publishes exactly what the engine predicts for its query. */
  lemma OutcomeOnWestJava(job: Job)
    ensures Outcome(Regions, job) == Predict(Some(job.query), job.pct as real)
  {
  }

  // ---- The component as a stateful object ----

  class App {
    var location: string
    var percentage: int
    var prediction: real
    var forestDetails: Option<Forecast>
    var isAnimating: bool
    var pending: seq<Job>
    var mapReady: bool
    var views: seq<View>
    /** The module-level region table the component closes over. */
    const catalog: seq<Region>

    function Snapshot(): Ui
      reads this
    {
      Ui(location, percentage, prediction, forestDetails, isAnimating, pending, mapReady, views, catalog)
    }

    ghost predicate Valid()
      reads this
    {
      Inv(Snapshot())
    }

    /** The `useState` initial values: empty field, 10 percent, prediction 0, no details. */
    constructor ()
      ensures Valid() && Snapshot() == Initial
    {
      catalog := Regions;
      location, percentage, prediction, forestDetails := "", 10, 0.0, None;
      isAnimating, pending, mapReady, views := false, [], false, [];
    }

    /** The text field's `onChange` setter. */
    method SetLocation(s: string)
      requires Valid()
      modifies this
      ensures Valid() && Snapshot() == TypeLocation(old(Snapshot()), s)
    {
      location := s;
    }

    /** The slider's `onChange` setter. */
    method SetPercentage(p: int)
      requires Valid() && 0 <= p <= 40
      modifies this
      ensures Valid() && Snapshot() == ChangePercentage(old(Snapshot()), p)
    {
      percentage := p;
    }

    /** `performPrediction`; the Enter key and the search button call it without an override. */
    method PerformPrediction(locOverride: Option<string>)
      requires Valid()
      modifies this
      ensures Valid() && Snapshot() == Submit(old(Snapshot()), locOverride)
    {
      ghost var before := Snapshot();
      SubmitKeepsInv(before, locOverride);
      var locToUse := if locOverride.Some? then locOverride.value else location;
      if locToUse == "" {
        return;
      }
      assert locToUse == LocationToUse(before, locOverride);
      isAnimating := true;
      var found := Lookup(catalog, Some(locToUse));
      if found.Some? && mapReady {
        views := views + [View(found.value.lat, found.value.lon, RegionZoom)];
      }
      pending := pending + [Job(locToUse, percentage)];
    }

    /** The `mapRegionSelect` event handler. */
    method MapRegionSelect(name: string)
      requires Valid()
      modifies this
      ensures Valid() && Snapshot() == MapSelect(old(Snapshot()), name)
    {
      location := name;
      PerformPrediction(Some(name));
    }

    /** The oldest timeout fires, if any is scheduled; `fired` says whether one was. */
    method Elapse() returns (fired: bool)
      requires Valid()
      modifies this
      ensures Valid() && Snapshot() == Complete(old(Snapshot()))
      ensures fired <==> old(pending) != []
    {
      ghost var before := Snapshot();
      CompleteKeepsInv(before);
      fired := pending != [];
      if !fired {
        return;
      }
      var job := pending[0];
      pending := pending[1..];
      var result := Outcome(catalog, job);
      prediction := result.value;
      forestDetails := Some(result);
      isAnimating := false;
      assert Snapshot() == Complete(before);
    }

    /** The map instance is stored in its ref once Leaflet has loaded. */
    method MapLoaded()
      requires Valid()
      modifies this
      ensures Valid() && Snapshot() == AttachMap(old(Snapshot()))
    {
      mapReady := true;
    }
  }
}
