/**
 * The redirect sequencer. `handleRedirect` writes the page's texts and button
 * target and, on a classified platform, schedules the first timer; each timer,
 * when it fires, performs one step of the redirect attempt and may schedule
 * further timers. Time is an explicit clock `now` in milliseconds, and the
 * pending `setTimeout` callbacks are a queue of timers ordered by due time
 * (equal due times keep the order in which they were scheduled).
 */
module Sequencer {
  import opened Detector
  import opened StoreUrl

  /** What a pending timer does when it fires. */
  datatype Action =
    | Redirect(platform: Platform)   // the `redirectDelay` timer: `redirectToStore`, then schedule the reveal
    | Fallback(platform: Platform)   // the timer `redirectToStore` schedules: navigate to the plain store URL
    | RevealManual                   // remove `hidden` from the manual buttons

  datatype Timer = Timer(at: int, action: Action)

  const FallbackDelay: nat := 1000
  const RevealDelay: nat := 2000

  // The texts written into the page; only which one is written matters here.
  const IOSStatus: string := "App Store'a yönlendiriliyorsunuz..."
  const IOSButton: string := "App Store'a Git"
  const IOSIcon: string := "🍎"
  const AndroidStatus: string := "Google Play'e yönlendiriliyorsunuz..."
  const AndroidButton: string := "Google Play'e Git"
  const AndroidIcon: string := "▶️"
  const DesktopStatus: string := "Mobil cihazınızdan ziyaret edin"

  // ---------------------------------------------------------------------------
  // The timer queue
  // ---------------------------------------------------------------------------

  predicate Sorted(q: seq<Timer>) {
    forall i, j :: 0 <= i < j < |q| ==> q[i].at <= q[j].at
  }

  /** Where a new timer goes: after every timer due no later than it, before the first one due later. */
  function InsertionPoint(q: seq<Timer>, t: Timer): (n: nat)
    ensures n <= |q|
    ensures forall i :: 0 <= i < n ==> q[i].at <= t.at
    ensures n < |q| ==> t.at < q[n].at
  {
    if q == [] || t.at < q[0].at then 0 else 1 + InsertionPoint(q[1..], t)
  }

  /** `setTimeout`: the new timer goes after every pending timer due no later than it. */
  function Schedule(q: seq<Timer>, t: Timer): (r: seq<Timer>)
    ensures |r| == |q| + 1
  {
    if q == [] || t.at < q[0].at then [t] + q else [q[0]] + Schedule(q[1..], t)
  }

  /** Scheduling puts the new timer at its insertion point and moves nothing else. */
  lemma {:induction false} ScheduleIsInsertion(q: seq<Timer>, t: Timer)
    ensures var n := InsertionPoint(q, t); Schedule(q, t) == q[..n] + [t] + q[n..]
  {
    if q == [] || t.at < q[0].at {
      assert q[..0] + [t] + q[0..] == [t] + q;
    } else {
      var m := InsertionPoint(q[1..], t);
      ScheduleIsInsertion(q[1..], t);
      assert q[1..][..m] == q[1..1 + m] && q[1..][m..] == q[1 + m..];
      assert [q[0]] + q[1..1 + m] == q[..1 + m];
    }
  }

  /** Scheduling adds exactly the new timer to the pending ones. */
  lemma {:induction false} ScheduleIsPermutation(q: seq<Timer>, t: Timer)
    ensures multiset(Schedule(q, t)) == multiset(q) + multiset{t}
  {
    if q == [] || t.at < q[0].at {
    } else {
      ScheduleIsPermutation(q[1..], t);
      assert q == [q[0]] + q[1..];
    }
  }

  /** Scheduling keeps the queue ordered by due time. */
  lemma {:induction false} ScheduleKeepsSorted(q: seq<Timer>, t: Timer)
    requires Sorted(q)
    ensures Sorted(Schedule(q, t))
  {
    var r := Schedule(q, t);
    if q == [] || t.at < q[0].at {
      forall i, j | 0 <= i < j < |r|
        ensures r[i].at <= r[j].at
      {
        assert r[j] == q[j - 1];
        if i > 0 {
          assert r[i] == q[i - 1];
        }
      }
    } else {
      var r' := Schedule(q[1..], t);
      ScheduleKeepsSorted(q[1..], t);
      ScheduleMembers(q[1..], t);
      forall i, j | 0 <= i < j < |r|
        ensures r[i].at <= r[j].at
      {
        assert r[j] == r'[j - 1] && r'[j - 1] in r';
        if i > 0 {
          assert r[i] == r'[i - 1];
        }
      }
    }
  }

  /** Every timer of the new queue was pending before or is the new one. */
  lemma ScheduleMembers(q: seq<Timer>, t: Timer)
    ensures forall x :: x in Schedule(q, t) <==> x in q || x == t
  {
    ScheduleIsPermutation(q, t);
    forall x
      ensures x in Schedule(q, t) <==> x in q || x == t
    {
      assert x in Schedule(q, t) <==> x in multiset(Schedule(q, t));
      assert x in q <==> x in multiset(q);
    }
  }

  // ---------------------------------------------------------------------------
  // The page, as a value
  // ---------------------------------------------------------------------------

  /**
   * What the sequencer writes: the status text, the button label and icon, the
   * button's target, whether the manual buttons are hidden, and the page's
   * location; plus the clock and the pending timers.
   */
  datatype PageState = PageState(
    storeText: string, buttonText: string, buttonIcon: string, storeHref: string,
    manualHidden: bool, location: string, now: int, timers: seq<Timer>)

  /** The pending timers are ordered and none is due before `now`. */
  predicate Pending(now: int, q: seq<Timer>) {
    Sorted(q) && forall i :: 0 <= i < |q| ==> now <= q[i].at
  }

  predicate WellFormed(s: PageState) {
    Pending(s.now, s.timers)
  }

  /** `handleRedirect`, on the page's value. */
  function HandleRedirectStep(cfg: Config, p: Platform, s: PageState): PageState {
    match p
    case IOS =>
      s.(storeText := IOSStatus, buttonText := IOSButton, buttonIcon := IOSIcon, storeHref := cfg.appStoreUrl,
         timers := Schedule(s.timers, Timer(s.now + cfg.redirectDelay, Redirect(IOS))))
    case Android =>
      s.(storeText := AndroidStatus, buttonText := AndroidButton, buttonIcon := AndroidIcon, storeHref := cfg.playStoreUrl,
         timers := Schedule(s.timers, Timer(s.now + cfg.redirectDelay, Redirect(Android))))
    case Unknown =>
      s.(storeText := DesktopStatus, manualHidden := false, storeHref := cfg.playStoreUrl)
  }

  /** `redirectToStore`, on the page's value: navigate, then schedule the fallback. */
  function RedirectToStoreStep(cfg: Config, inApp: bool, s: PageState, p: Platform): PageState {
    s.(location := RedirectTarget(cfg, p, inApp),
       timers := Schedule(s.timers, Timer(s.now + FallbackDelay, Fallback(p))))
  }

  /** What a timer does when it fires; the clock already shows its due time. */
  function Perform(cfg: Config, inApp: bool, s: PageState, a: Action): PageState {
    match a
    case Redirect(p) =>
      var s' := RedirectToStoreStep(cfg, inApp, s, p);
      s'.(timers := Schedule(s'.timers, Timer(s.now + RevealDelay, RevealManual)))
    case Fallback(p) =>
      s.(location := FallbackTarget(cfg, p))
    case RevealManual =>
      s.(manualHidden := false)
  }

  /** The earliest pending timer fires; with none pending nothing happens. */
  function FireStep(cfg: Config, inApp: bool, s: PageState): PageState {
    if s.timers == [] then s
    else
      var t := s.timers[0];
      Perform(cfg, inApp, s.(now := t.at, timers := s.timers[1..]), t.action)
  }

  /** `n` timers fire one after another. */
  function Run(cfg: Config, inApp: bool, s: PageState, n: nat): PageState
    decreases n
  {
    if n == 0 then s else Run(cfg, inApp, FireStep(cfg, inApp, s), n - 1)
  }

  // ---------------------------------------------------------------------------
  // Properties of the sequencer
  // ---------------------------------------------------------------------------

  /** Scheduling a timer due no earlier than `now` keeps the pending timers ordered and none in the past. */
  lemma ScheduleKeepsPending(now: int, q: seq<Timer>, t: Timer)
    requires Pending(now, q) && now <= t.at
    ensures Pending(now, Schedule(q, t))
  {
    ScheduleKeepsSorted(q, t);
    ScheduleMembers(q, t);
    var r := Schedule(q, t);
    forall i | 0 <= i < |r|
      ensures now <= r[i].at
    {
      assert r[i] in r;
    }
  }

  /** Taking the earliest timer off leaves the rest ordered and none due before it. */
  lemma PopKeepsPending(now: int, q: seq<Timer>)
    requires Pending(now, q) && q != []
    ensures Pending(q[0].at, q[1..]) && now <= q[0].at
  {
    forall i | 0 <= i < |q[1..]|
      ensures q[0].at <= q[1..][i].at
    {
      assert q[1..][i] == q[i + 1];
    }
  }

  /** What `handleRedirect` does to the clock, the queue and the location. */
  lemma HandleRedirectQueue(cfg: Config, p: Platform, s: PageState)
    ensures var s' := HandleRedirectStep(cfg, p, s);
      s'.now == s.now && s'.location == s.location &&
      s'.timers == if p == Unknown then s.timers else Schedule(s.timers, Timer(s.now + cfg.redirectDelay, Redirect(p)))
  {
  }

  /** What firing a timer does to the clock and the queue. */
  lemma FireStepQueue(cfg: Config, inApp: bool, s: PageState)
    requires s.timers != []
    ensures var t := s.timers[0];
      var rest := s.timers[1..];
      var s' := FireStep(cfg, inApp, s);
      s'.now == t.at &&
      s'.timers == match t.action
        case Redirect(p) =>
          Schedule(Schedule(rest, Timer(t.at + FallbackDelay, Fallback(p))), Timer(t.at + RevealDelay, RevealManual))
        case _ => rest
  {
  }

  /** `handleRedirect` keeps the queue well formed. */
  lemma HandleRedirectKeepsWellFormed(cfg: Config, p: Platform, s: PageState)
    requires WellFormed(s)
    ensures WellFormed(HandleRedirectStep(cfg, p, s))
  {
    HandleRedirectQueue(cfg, p, s);
    if p != Unknown {
      ScheduleKeepsPending(s.now, s.timers, Timer(s.now + cfg.redirectDelay, Redirect(p)));
    }
  }

  /** Firing a timer keeps the queue well formed and never moves the clock back. */
  lemma FireStepKeepsWellFormed(cfg: Config, inApp: bool, s: PageState)
    requires WellFormed(s)
    ensures WellFormed(FireStep(cfg, inApp, s))
    ensures s.now <= FireStep(cfg, inApp, s).now
  {
    if s.timers != [] {
      var t := s.timers[0];
      PopKeepsPending(s.now, s.timers);
      FireStepQueue(cfg, inApp, s);
      match t.action
      case Redirect(p) =>
        var q := Schedule(s.timers[1..], Timer(t.at + FallbackDelay, Fallback(p)));
        ScheduleKeepsPending(t.at, s.timers[1..], Timer(t.at + FallbackDelay, Fallback(p)));
        ScheduleKeepsPending(t.at, q, Timer(t.at + RevealDelay, RevealManual));
      case Fallback(p) =>
      case RevealManual =>
    }
  }

  /** Once no timer is pending, nothing more happens. */
  lemma {:induction false} RunFromIdle(cfg: Config, inApp: bool, s: PageState, n: nat)
    requires s.timers == []
    ensures Run(cfg, inApp, s, n) == s
    decreases n
  {
    if n > 0 {
      RunFromIdle(cfg, inApp, s, n - 1);
    }
  }

  /** Firing `m` timers and then `k` more is firing `m + k`. */
  lemma {:induction false} RunSplit(cfg: Config, inApp: bool, s: PageState, m: nat, k: nat)
    ensures Run(cfg, inApp, s, m + k) == Run(cfg, inApp, Run(cfg, inApp, s, m), k)
    decreases m
  {
    if m > 0 {
      RunSplit(cfg, inApp, FireStep(cfg, inApp, s), m - 1, k);
    }
  }

  /** On an unclassified platform the manual buttons appear at once, pointing at the Play Store, and nothing is scheduled. */
  lemma UnknownShowsManualButtonsAndStops(cfg: Config, inApp: bool, s: PageState)
    requires s.timers == []
    ensures var s1 := HandleRedirectStep(cfg, Unknown, s);
      !s1.manualHidden && s1.storeHref == cfg.playStoreUrl && s1.storeText == DesktopStatus &&
      s1.timers == [] && s1.location == s.location &&
      s1.buttonText == s.buttonText && s1.buttonIcon == s.buttonIcon
    ensures forall n: nat :: Run(cfg, inApp, HandleRedirectStep(cfg, Unknown, s), n) == HandleRedirectStep(cfg, Unknown, s)
  {
    var s1 := HandleRedirectStep(cfg, Unknown, s);
    forall n: nat
      ensures Run(cfg, inApp, s1, n) == s1
    {
      RunFromIdle(cfg, inApp, s1, n);
    }
  }

  /** On iOS or Android, `handleRedirect` leaves exactly the redirect timer pending, due `redirectDelay` from now. */
  lemma HandleClassified(cfg: Config, p: Platform, s: PageState)
    requires p != Unknown && s.timers == []
    ensures var s1 := HandleRedirectStep(cfg, p, s);
      s1.timers == [Timer(s.now + cfg.redirectDelay, Redirect(p))] &&
      s1.location == s.location && s1.manualHidden == s.manualHidden && s1.storeHref == FallbackTarget(cfg, p)
    ensures var s1 := HandleRedirectStep(cfg, p, s);
      (p == IOS ==> s1.storeHref == cfg.appStoreUrl && s1.storeText == IOSStatus &&
                    s1.buttonText == IOSButton && s1.buttonIcon == IOSIcon) &&
      (p == Android ==> s1.storeHref == cfg.playStoreUrl && s1.storeText == AndroidStatus &&
                        s1.buttonText == AndroidButton && s1.buttonIcon == AndroidIcon)
  {
  }

  /** The status text `handleRedirect` writes tells the three platforms apart. */
  lemma StatusTextIdentifiesPlatform(cfg: Config, p: Platform, q: Platform, s: PageState, t: PageState)
    requires HandleRedirectStep(cfg, p, s).storeText == HandleRedirectStep(cfg, q, t).storeText
    ensures p == q
  {
    assert IOSStatus[0] == 'A' && AndroidStatus[0] == 'G' && DesktopStatus[0] == 'M';
  }

  /** The redirect timer navigates to the resolved target and leaves the fallback and the reveal pending, 1000 ms apart. */
  lemma FireRedirect(cfg: Config, inApp: bool, s: PageState, at: int, p: Platform)
    requires s.timers == [Timer(at, Redirect(p))]
    ensures FireStep(cfg, inApp, s) ==
      s.(now := at, location := RedirectTarget(cfg, p, inApp),
         timers := [Timer(at + 1000, Fallback(p)), Timer(at + 2000, RevealManual)])
  {
    var s0 := s.(now := at, timers := []);
    var f := Timer(at + FallbackDelay, Fallback(p));
    var r := Timer(at + RevealDelay, RevealManual);
    assert Schedule([], f) == [f];
    assert Schedule([f], r) == [f] + Schedule([], r);
  }

  /**
   * On iOS or Android, starting with no timer pending: the first timer is due
   * at `d`, it navigates to the resolved target and schedules two more, at
   * `d + 1000` (navigate to the plain store URL) and `d + 2000` (reveal the
   * manual buttons); after these three nothing is pending. The manual buttons
   * keep their state until the last one.
   */
  lemma ClassifiedTimeline(cfg: Config, p: Platform, inApp: bool, s: PageState)
    requires p != Unknown && s.timers == []
    ensures var d := cfg.redirectDelay;
      var s1 := HandleRedirectStep(cfg, p, s);
      var s2 := FireStep(cfg, inApp, s1);
      var s3 := FireStep(cfg, inApp, s2);
      var s4 := FireStep(cfg, inApp, s3);
      s2.now == s.now + d && s2.location == RedirectTarget(cfg, p, inApp) &&
      s2.timers == [Timer(s.now + d + 1000, Fallback(p)), Timer(s.now + d + 2000, RevealManual)] &&
      s2.manualHidden == s.manualHidden &&
      s3.now == s.now + d + 1000 && s3.location == FallbackTarget(cfg, p) &&
      s3.timers == [Timer(s.now + d + 2000, RevealManual)] && s3.manualHidden == s.manualHidden &&
      s4.now == s.now + d + 2000 && s4.location == FallbackTarget(cfg, p) &&
      s4.timers == [] && !s4.manualHidden
  {
    var s1 := HandleRedirectStep(cfg, p, s);
    HandleClassified(cfg, p, s);
    FireRedirect(cfg, inApp, s1, s.now + cfg.redirectDelay, p);
  }

  /** After the third timer the page is at rest: later steps change nothing. */
  lemma ClassifiedRunSettles(cfg: Config, p: Platform, inApp: bool, s: PageState, n: nat)
    requires p != Unknown && s.timers == [] && n >= 3
    ensures Run(cfg, inApp, HandleRedirectStep(cfg, p, s), n) == Run(cfg, inApp, HandleRedirectStep(cfg, p, s), 3)
  {
    var s1 := HandleRedirectStep(cfg, p, s);
    ClassifiedTimeline(cfg, p, inApp, s);
    var s4 := FireStep(cfg, inApp, FireStep(cfg, inApp, FireStep(cfg, inApp, s1)));
    RunThree(cfg, inApp, s1);
    RunSplit(cfg, inApp, s1, 3, n - 3);
    RunFromIdle(cfg, inApp, s4, n - 3);
  }

  /** The first three runs, one firing at a time. */
  lemma RunThree(cfg: Config, inApp: bool, s: PageState)
    ensures Run(cfg, inApp, s, 1) == FireStep(cfg, inApp, s)
    ensures Run(cfg, inApp, s, 2) == FireStep(cfg, inApp, FireStep(cfg, inApp, s))
    ensures Run(cfg, inApp, s, 3) == FireStep(cfg, inApp, FireStep(cfg, inApp, FireStep(cfg, inApp, s)))
  {
    var s2 := FireStep(cfg, inApp, s);
    var s3 := FireStep(cfg, inApp, s2);
    var s4 := FireStep(cfg, inApp, s3);
    assert Run(cfg, inApp, s4, 0) == s4;
    assert Run(cfg, inApp, s3, 1) == Run(cfg, inApp, s4, 0);
    assert Run(cfg, inApp, s2, 1) == Run(cfg, inApp, s3, 0);
    assert Run(cfg, inApp, s2, 2) == Run(cfg, inApp, s3, 1);
    assert Run(cfg, inApp, s, 1) == Run(cfg, inApp, s2, 0);
  }

  /**
   * Whatever number of timers has fired, the page's location is the one it
   * had, the resolved target, or the plain store URL: never anything else.
   */
  lemma LocationsReached(cfg: Config, p: Platform, inApp: bool, s: PageState, n: nat)
    requires s.timers == []
    ensures var loc := Run(cfg, inApp, HandleRedirectStep(cfg, p, s), n).location;
      loc == s.location || loc == RedirectTarget(cfg, p, inApp) || loc == FallbackTarget(cfg, p)
  {
    var s1 := HandleRedirectStep(cfg, p, s);
    if p == Unknown {
      RunFromIdle(cfg, inApp, s1, n);
    } else {
      ClassifiedTimeline(cfg, p, inApp, s);
      RunThree(cfg, inApp, s1);
      if n >= 3 {
        ClassifiedRunSettles(cfg, p, inApp, s, n);
      }
    }
  }

  // ---------------------------------------------------------------------------
  // The page, as an object the sequencer updates in place
  // ---------------------------------------------------------------------------

  class Page {
    const config: Config
    const browser: Browser
    var storeText: string
    var buttonText: string
    var buttonIcon: string
    var storeHref: string
    var manualHidden: bool
    var location: string
    var now: int
    var timers: seq<Timer>

    function State(): PageState
      reads this
    {
      PageState(storeText, buttonText, buttonIcon, storeHref, manualHidden, location, now, timers)
    }

    predicate Valid()
      reads this
    {
      WellFormed(State())
    }

    /** The page as loaded: its initial texts, target and location, the clock at zero and nothing scheduled. */
    constructor (config: Config, browser: Browser, storeText: string, buttonText: string, buttonIcon: string,
                 storeHref: string, manualHidden: bool, location: string)
      ensures Valid()
      ensures this.config == config && this.browser == browser
      ensures State() == PageState(storeText, buttonText, buttonIcon, storeHref, manualHidden, location, 0, [])
    {
      this.config := config;
      this.browser := browser;
      this.storeText := storeText;
      this.buttonText := buttonText;
      this.buttonIcon := buttonIcon;
      this.storeHref := storeHref;
      this.manualHidden := manualHidden;
      this.location := location;
      this.now := 0;
      this.timers := [];
    }

    /** `handleRedirect`: write the texts and button target for the platform, then schedule the redirect or show the manual buttons. */
    method HandleRedirect()
      requires Valid()
      modifies this
      ensures Valid()
      ensures State() == HandleRedirectStep(config, GetPlatform(browser), old(State()))
    {
      var platform := GetPlatform(browser);
      ghost var before := State();
      HandleRedirectKeepsWellFormed(config, platform, before);
      if platform == IOS {
        storeText := IOSStatus;
        buttonText := IOSButton;
        buttonIcon := IOSIcon;
        storeHref := config.appStoreUrl;
      } else if platform == Android {
        storeText := AndroidStatus;
        buttonText := AndroidButton;
        buttonIcon := AndroidIcon;
        storeHref := config.playStoreUrl;
      } else {
        storeText := DesktopStatus;
        manualHidden := false;
        storeHref := config.playStoreUrl;
        assert State() == HandleRedirectStep(config, platform, before);
        return;
      }
      timers := Schedule(timers, Timer(now + config.redirectDelay, Redirect(platform)));
      assert State() == HandleRedirectStep(config, platform, before);
    }

    /** `redirectToStore`: navigate to the resolved target and schedule the fallback navigation. */
    method RedirectToStore(platform: Platform)
      requires Valid()
      modifies this
      ensures Valid()
      ensures State() == RedirectToStoreStep(config, IsInAppBrowser(browser.ua), old(State()), platform)
    {
      ScheduleKeepsPending(now, timers, Timer(now + FallbackDelay, Fallback(platform)));
      var inApp := IsInAppBrowser(browser.ua);
      var url: string;
      if platform == IOS {
        url := config.appStoreUrl;
        if inApp {
          var appId := ExtractAppId(config.appStoreUrl);
          if appId.Some? {
            url := ItmsPrefix + appId.value;
          }
        }
      } else if platform == Android {
        url := config.playStoreUrl;
        if inApp {
          var packageName := ExtractPackageName(config.playStoreUrl);
          if packageName.Some? {
            url := MarketPrefix + packageName.value;
          }
        }
      } else {
        url := config.playStoreUrl;
      }
      location := url;
      timers := Schedule(timers, Timer(now + FallbackDelay, Fallback(platform)));
    }

    /** The `redirectDelay` callback of `handleRedirect`: `redirectToStore`, then schedule the reveal of the manual buttons. */
    method RedirectCallback(platform: Platform)
      requires Valid()
      modifies this
      ensures Valid()
      ensures State() == Perform(config, IsInAppBrowser(browser.ua), old(State()), Redirect(platform))
    {
      RedirectToStore(platform);
      ScheduleKeepsPending(now, timers, Timer(now + RevealDelay, RevealManual));
      timers := Schedule(timers, Timer(now + RevealDelay, RevealManual));
    }

    /** The 1000 ms callback of `redirectToStore`: navigate to the plain store URL. */
    method FallbackCallback(platform: Platform)
      requires Valid()
      modifies this
      ensures Valid()
      ensures State() == Perform(config, IsInAppBrowser(browser.ua), old(State()), Fallback(platform))
    {
      if platform == IOS {
        location := config.appStoreUrl;
      } else {
        location := config.playStoreUrl;
      }
    }

    /** The 2000 ms callback of `handleRedirect`: show the manual buttons. */
    method RevealCallback()
      requires Valid()
      modifies this
      ensures Valid()
      ensures State() == Perform(config, IsInAppBrowser(browser.ua), old(State()), RevealManual)
    {
      manualHidden := false;
    }

    /** The earliest pending timer fires: the clock moves to its due time and its callback runs. */
    method Fire() returns (fired: bool)
      requires Valid()
      modifies this
      ensures Valid()
      ensures fired == (old(timers) != [])
      ensures State() == FireStep(config, IsInAppBrowser(browser.ua), old(State()))
      ensures old(now) <= now
    {
      ghost var before := State();
      if timers == [] {
        return false;
      }
      var t := timers[0];
      PopKeepsPending(now, timers);
      timers := timers[1..];
      now := t.at;
      match t.action {
        case Redirect(platform) => RedirectCallback(platform);
        case Fallback(platform) => FallbackCallback(platform);
        case RevealManual => RevealCallback();
      }
      fired := true;
    }
  }
}
