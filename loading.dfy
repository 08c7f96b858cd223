/**
 * The `withLoading` higher-order component of src/routes/hoc/with.jsx.
 * Each instance starts loading, schedules one timer on mount, stops loading
 * when it fires, and clears it on unmount. The timer is a "pending" flag and
 * its expiry a method call.
 */
module Loading {
  import opened Wrappers

  /** The delay when `withLoading` is called without one. */
  const DefaultDelayMs := 2000

  /** The `delay` parameter after its default applies. */
  function DelayOrDefault(delay: Option<int>): (r: int)
    ensures delay.None? ==> r == DefaultDelayMs
    ensures delay.Some? ==> r == delay.value
  {
    delay.GetOr(DefaultDelayMs)
  }

  /** What the returned component renders. */
  datatype LoadingView<P> = Spinner(title: Option<string>) | Loaded(props: P)

  /** `props.title`: undefined when the props have no title. */
  function Title(props: map<string, string>): (r: Option<string>)
    ensures r.Some? <==> "title" in props
    ensures r.Some? ==> r.value == props["title"]
  {
    if "title" in props then Some(props["title"]) else None
  }

  class WithLoading {
    /** The delay of the timer, fixed when `withLoading` was called. */
    const delay: int
    var isLoading: bool
    /** The timer set by the mount effect is scheduled and has neither fired nor been cleared. */
    var timerPending: bool
    var mounted: bool

    /** A timer is pending exactly while the instance is mounted and still loading. */
    ghost predicate Valid()
      reads this
    {
      timerPending <==> mounted && isLoading
    }

    /** Mounting an instance of `withLoading(Component, delay)`: `useState(true)`, then the effect schedules its one timer. */
    constructor (delay: Option<int>)
      ensures Valid() && this.delay == DelayOrDefault(delay)
      ensures isLoading && timerPending && mounted
    {
      this.delay := DelayOrDefault(delay);
      isLoading := true;
      timerPending := true;
      mounted := true;
    }

    /** The environment runs the timer's callback, if it is still scheduled: `setIsLoading(false)`. */
    method TimerFires()
      requires Valid()
      modifies this
      ensures Valid() && mounted == old(mounted)
      ensures isLoading == (old(isLoading) && !old(timerPending))
      ensures !timerPending
    {
      if timerPending {
        isLoading := false;
        timerPending := false;
      }
    }

    /** Unmounting runs the cleanup `clearTimeout(timer)`; the loading flag is frozen from then on. */
    method Unmount()
      requires Valid()
      modifies this
      ensures Valid() && !mounted && !timerPending
      ensures isLoading == old(isLoading)
    {
      timerPending := false;
      mounted := false;
    }

    /** The render branch: the title and a spinner while loading, then the wrapped component with every prop. */
    function View(props: map<string, string>): (r: LoadingView<map<string, string>>)
      reads this
      ensures r.Spinner? <==> isLoading
      ensures r.Spinner? ==> r.title == Title(props)
      ensures r.Loaded? ==> r.props == props
    {
      if isLoading then Spinner(Title(props)) else Loaded(props)
    }
  }

  /** The two pages of the demo: one loads, the other is unmounted first and never changes again. */
  method TwoPagesScenario()
  {
    var profile := new WithLoading(Some(2000));
    var dashboard := new WithLoading(Some(3000));
    var defaulted := new WithLoading(None);
    assert defaulted.delay == 2000;
    profile.TimerFires();
    assert profile.View(map["title" := "Profile"]).Loaded?;
    dashboard.Unmount();
    dashboard.TimerFires();
    assert dashboard.View(map["title" := "Dashboard"]) == Spinner(Some("Dashboard"));
    profile.TimerFires();
    assert !profile.isLoading;
  }
}
