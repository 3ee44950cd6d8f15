/**
 * The store configuration and the choice of navigation target made by
 * `redirectToStore`: the plain store URL, or, inside an in-app browser, a
 * deep-link URL built from an identifier that a small regular expression
 * extracts from the configured store URL.
 */
module StoreUrl {
  import opened Text
  import opened Detector

  datatype Option<T> = None | Some(value: T)

  /** The immutable configuration: the two store URLs and the delay before the first navigation, in milliseconds. */
  datatype Config = Config(appStoreUrl: string, playStoreUrl: string, redirectDelay: nat)

  /** The configuration the page ships with. */
  const DefaultConfig: Config := Config(
    "https://apps.apple.com/tr/app/verde/id6751551270?l=tr",
    "https://play.google.com/store/apps/details?id=com.cadde.verdeapp",
    500)

  const ItmsPrefix: string := "itms-apps://apps.apple.com/app/id"
  const MarketPrefix: string := "market://details?id="

  // ---------------------------------------------------------------------------
  // Regular expressions of the form `lit(class+)`: `/id(\d+)/` and `/id=([^&]+)/`
  // ---------------------------------------------------------------------------

  /** `\d` (ASCII digits only) and `[^&]` (every character but `&`, line terminators included). */
  datatype CharClass = Digit | NotAmpersand

  predicate InClass(c: char, k: CharClass) {
    match k
    case Digit => '0' <= c <= '9'
    case NotAmpersand => c != '&'
  }

  /** The regular expression `lit(k+)` matches starting at index `i` of `s`. */
  predicate MatchesAt(s: string, lit: string, k: CharClass, i: int) {
    OccursAt(s, lit, i) && i + |lit| < |s| && InClass(s[i + |lit|], k)
  }

  /**
   * `c` is what `s.match(/lit(k+)/)?.[1]` yields, with the match found at `i`:
   * the leftmost start at which the expression matches, then the longest run
   * of class characters after the literal.
   */
  ghost predicate CaptureAt(s: string, lit: string, k: CharClass, i: int, c: string) {
    MatchesAt(s, lit, k, i) &&
    (forall j :: 0 <= j < i ==> !MatchesAt(s, lit, k, j)) &&
    i + |lit| + |c| <= |s| && s[i + |lit|..i + |lit| + |c|] == c &&
    (forall m :: 0 <= m < |c| ==> InClass(c[m], k)) &&
    (i + |lit| + |c| == |s| || !InClass(s[i + |lit| + |c|], k))
  }

  /** Length of the longest run of class characters starting at `from` (the greedy `k+`). */
  function RunLength(s: string, k: CharClass, from: nat): (n: nat)
    requires from <= |s|
    ensures from + n <= |s|
    ensures forall j :: from <= j < from + n ==> InClass(s[j], k)
    ensures from + n == |s| || !InClass(s[from + n], k)
    decreases |s| - from
  {
    if from < |s| && InClass(s[from], k) then 1 + RunLength(s, k, from + 1) else 0
  }

  /** The leftmost index at or after `from` where `lit(k+)` matches (the regular expression's scan). */
  function FirstMatch(s: string, lit: string, k: CharClass, from: nat): (r: Option<nat>)
    requires from <= |s|
    ensures r.Some? ==> from <= r.value && MatchesAt(s, lit, k, r.value)
    ensures r.Some? ==> forall j :: from <= j < r.value ==> !MatchesAt(s, lit, k, j)
    ensures r.None? ==> forall j :: from <= j ==> !MatchesAt(s, lit, k, j)
    decreases |s| - from
  {
    if MatchesAt(s, lit, k, from) then Some(from)
    else if from == |s| then None
    else FirstMatch(s, lit, k, from + 1)
  }

  /** `s.match(/lit(k+)/)?.[1]`: the first capture group of the leftmost match, if any. */
  function Capture(s: string, lit: string, k: CharClass): (r: Option<string>)
    ensures r.None? <==> forall i :: !MatchesAt(s, lit, k, i)
    ensures r.Some? ==> exists i :: CaptureAt(s, lit, k, i, r.value)
  {
    match FirstMatch(s, lit, k, 0)
    case None => None
    case Some(i) =>
      var start := i + |lit|;
      var c := s[start..start + RunLength(s, k, start)];
      assert CaptureAt(s, lit, k, i, c);
      Some(c)
  }

  /** `CONFIG.appStoreUrl.match(/id(\d+)/)?.[1]`. */
  function ExtractAppId(url: string): Option<string> {
    Capture(url, "id", Digit)
  }

  /** `CONFIG.playStoreUrl.match(/id=([^&]+)/)?.[1]`. */
  function ExtractPackageName(url: string): Option<string> {
    Capture(url, "id=", NotAmpersand)
  }

  // ---------------------------------------------------------------------------
  // The navigation targets
  // ---------------------------------------------------------------------------

  /**
   * The URL `redirectToStore` navigates to first. A capture is never empty, so
   * the source's truthiness test on it is the `Some` test here.
   */
  function RedirectTarget(cfg: Config, p: Platform, inApp: bool): string {
    match p
    case IOS =>
      if inApp && ExtractAppId(cfg.appStoreUrl).Some? then ItmsPrefix + ExtractAppId(cfg.appStoreUrl).value
      else cfg.appStoreUrl
    case Android =>
      if inApp && ExtractPackageName(cfg.playStoreUrl).Some? then MarketPrefix + ExtractPackageName(cfg.playStoreUrl).value
      else cfg.playStoreUrl
    case Unknown =>
      cfg.playStoreUrl
  }

  /** The URL the 1000 ms fallback timer of `redirectToStore` navigates to. */
  function FallbackTarget(cfg: Config, p: Platform): string {
    if p == IOS then cfg.appStoreUrl else cfg.playStoreUrl
  }

  // ---------------------------------------------------------------------------
  // Properties of the extraction
  // ---------------------------------------------------------------------------

  /** A capture is never empty, which is why the source's truthiness test only rejects a missing match. */
  lemma CaptureNonEmpty(s: string, lit: string, k: CharClass)
    requires Capture(s, lit, k).Some?
    ensures |Capture(s, lit, k).value| > 0
  {
    var c := Capture(s, lit, k).value;
    var i :| CaptureAt(s, lit, k, i, c);
  }

  /** The leftmost-longest capture is unique: the regular expression's answer is determined. */
  lemma {:induction false} CaptureUnique(s: string, lit: string, k: CharClass, i: int, c: string, j: int, d: string)
    requires CaptureAt(s, lit, k, i, c) && CaptureAt(s, lit, k, j, d)
    ensures i == j && c == d
  {
    assert i == j;
    var st := i + |lit|;
    forall m | st <= m < st + |c|
      ensures InClass(s[m], k)
    {
      assert s[m] == s[st..st + |c|][m - st] == c[m - st];
    }
    forall m | st <= m < st + |d|
      ensures InClass(s[m], k)
    {
      assert s[m] == s[st..st + |d|][m - st] == d[m - st];
    }
    MaximalRunIsRunLength(s, k, st, |c|);
    MaximalRunIsRunLength(s, k, st, |d|);
  }

  /** A run of class characters followed by a non-class character (or the end) is the greedy run. */
  lemma {:induction false} MaximalRunIsRunLength(s: string, k: CharClass, from: nat, n: nat)
    requires from + n <= |s|
    requires forall m :: from <= m < from + n ==> InClass(s[m], k)
    requires from + n == |s| || !InClass(s[from + n], k)
    ensures RunLength(s, k, from) == n
    decreases n
  {
    if n > 0 {
      MaximalRunIsRunLength(s, k, from + 1, n - 1);
    }
  }

  /** Exhibiting the leftmost-longest match determines what the extraction returns. */
  lemma CaptureAtIsCapture(s: string, lit: string, k: CharClass, i: int, c: string)
    requires CaptureAt(s, lit, k, i, c)
    ensures Capture(s, lit, k) == Some(c)
  {
    assert MatchesAt(s, lit, k, i);
    var d := Capture(s, lit, k).value;
    var j :| CaptureAt(s, lit, k, j, d);
    CaptureUnique(s, lit, k, i, c, j, d);
  }

  /** Whether the expression matches at an index of `b` does not depend on what stands before `b`. */
  lemma MatchesAtShift(a: string, b: string, lit: string, k: CharClass, j: int)
    requires 0 <= j
    ensures MatchesAt(a + b, lit, k, |a| + j) <==> MatchesAt(b, lit, k, j)
  {
    if j + |lit| <= |b| {
      assert (a + b)[|a| + j..|a| + j + |lit|] == b[j..j + |lit|];
    }
    if j + |lit| < |b| {
      assert (a + b)[|a| + j + |lit|] == b[j + |lit|];
    }
  }

  lemma SliceOfConcat(a: string, b: string, x: int, y: int)
    requires 0 <= x <= y <= |b|
    ensures (a + b)[|a| + x..|a| + y] == b[x..y]
  {
    forall m | 0 <= m < y - x
      ensures (a + b)[|a| + x..|a| + y][m] == b[x..y][m]
    {
    }
  }

  /** A leftmost-longest match in `b` stays one in `a + b` when no match starts inside `a`. */
  lemma CaptureAtAfterPrefix(a: string, b: string, lit: string, k: CharClass, i: int, c: string)
    requires forall j :: 0 <= j < |a| ==> !MatchesAt(a + b, lit, k, j)
    requires CaptureAt(b, lit, k, i, c)
    ensures CaptureAt(a + b, lit, k, |a| + i, c)
  {
    var s := a + b;
    var start := |a| + i + |lit|;
    MatchesAtShift(a, b, lit, k, i);
    SliceOfConcat(a, b, i + |lit|, i + |lit| + |c|);
    forall j | |a| <= j < |a| + i
      ensures !MatchesAt(s, lit, k, j)
    {
      MatchesAtShift(a, b, lit, k, j - |a|);
    }
    if start + |c| < |s| {
      assert s[start + |c|] == b[i + |lit| + |c|];
    }
  }

  /** No match anywhere in `b` and none starting inside `a` means none in `a + b`. */
  lemma NoMatchAfterPrefix(a: string, b: string, lit: string, k: CharClass)
    requires forall j :: 0 <= j < |a| ==> !MatchesAt(a + b, lit, k, j)
    requires forall j :: !MatchesAt(b, lit, k, j)
    ensures forall j :: !MatchesAt(a + b, lit, k, j)
  {
    forall j | |a| <= j
      ensures !MatchesAt(a + b, lit, k, j)
    {
      MatchesAtShift(a, b, lit, k, j - |a|);
    }
  }

  /** A prefix in which no match starts does not change the extraction. */
  lemma CaptureAfterPrefix(a: string, b: string, lit: string, k: CharClass)
    requires forall j :: 0 <= j < |a| ==> !MatchesAt(a + b, lit, k, j)
    ensures Capture(a + b, lit, k) == Capture(b, lit, k)
  {
    if Capture(b, lit, k).Some? {
      var c := Capture(b, lit, k).value;
      var i :| CaptureAt(b, lit, k, i, c);
      CaptureAtAfterPrefix(a, b, lit, k, i, c);
      CaptureAtIsCapture(a + b, lit, k, |a| + i, c);
    } else {
      NoMatchAfterPrefix(a, b, lit, k);
    }
  }

  /** No match starts inside a prefix that lacks the literal's first character. */
  lemma NoMatchStartsIn(a: string, b: string, lit: string, k: CharClass)
    requires |lit| > 0 && lit[0] !in a
    ensures forall j :: 0 <= j < |a| ==> !MatchesAt(a + b, lit, k, j)
  {
    forall j | 0 <= j < |a|
      ensures !MatchesAt(a + b, lit, k, j)
    {
      if OccursAt(a + b, lit, j) {
        assert (a + b)[j..j + |lit|][0] == lit[0];
        assert a[j] in a;
      }
    }
  }

  /** No match starts at a first character that is not followed by the literal's second one. */
  lemma NoMatchAtFalseStart(c: char, b: string, lit: string, k: CharClass)
    requires |lit| >= 2 && |b| > 0 && b[0] != lit[1]
    ensures forall j :: 0 <= j < 1 ==> !MatchesAt([c] + b, lit, k, j)
  {
    if OccursAt([c] + b, lit, 0) {
      assert ([c] + b)[0..|lit|][1] == lit[1];
    }
  }

  /** A prefix without the literal's first character does not change the extraction. */
  lemma CaptureSkipsPrefix(a: string, b: string, lit: string, k: CharClass)
    requires |lit| > 0 && lit[0] !in a
    ensures Capture(a + b, lit, k) == Capture(b, lit, k)
  {
    NoMatchStartsIn(a, b, lit, k);
    CaptureAfterPrefix(a, b, lit, k);
  }

  /** A first character not followed by the literal's second one does not change the extraction. */
  lemma CaptureSkipsFalseStart(c: char, b: string, lit: string, k: CharClass)
    requires |lit| >= 2 && |b| > 0 && b[0] != lit[1]
    ensures Capture([c] + b, lit, k) == Capture(b, lit, k)
  {
    NoMatchAtFalseStart(c, b, lit, k);
    CaptureAfterPrefix([c], b, lit, k);
  }

  /** The literal, a run of class characters, then a character outside the class (or the end). */
  lemma CaptureAtStart(lit: string, c: string, rest: string, k: CharClass)
    requires |c| > 0 && forall ch :: ch in c ==> InClass(ch, k)
    requires rest == [] || !InClass(rest[0], k)
    ensures Capture(lit + c + rest, lit, k) == Some(c)
  {
    var s := lit + c + rest;
    assert s[0..|lit|] == lit;
    assert s[|lit|..|lit| + |c|] == c;
    assert c[0] in c;
    forall m | 0 <= m < |c|
      ensures InClass(c[m], k)
    {
      assert c[m] in c;
    }
    if |lit| + |c| < |s| {
      assert s[|lit| + |c|] == rest[0];
    }
    assert CaptureAt(s, lit, k, 0, c);
    CaptureAtIsCapture(s, lit, k, 0, c);
  }

  /** A prefix free of the literal's first character, the literal, a run of class characters, then a stop. */
  lemma CaptureOfLayout(a: string, lit: string, c: string, rest: string, k: CharClass)
    requires |lit| > 0 && lit[0] !in a
    requires |c| > 0 && forall ch :: ch in c ==> InClass(ch, k)
    requires rest == [] || !InClass(rest[0], k)
    ensures Capture(a + lit + c + rest, lit, k) == Some(c)
  {
    assert a + lit + c + rest == a + (lit + c + rest);
    CaptureSkipsPrefix(a, lit + c + rest, lit, k);
    CaptureAtStart(lit, c, rest, k);
  }

  /** The same, with one false start (the literal's first character, then something else) in the prefix. */
  lemma CaptureOfLayoutWithFalseStart(a: string, m: string, lit: string, c: string, rest: string, k: CharClass)
    requires |lit| >= 2 && lit[0] !in a
    requires |m| > 0 && m[0] != lit[1] && lit[0] !in m
    requires |c| > 0 && forall ch :: ch in c ==> InClass(ch, k)
    requires rest == [] || !InClass(rest[0], k)
    ensures Capture(a + [lit[0]] + m + lit + c + rest, lit, k) == Some(c)
  {
    var tail := lit + c + rest;
    assert a + [lit[0]] + m + lit + c + rest == a + ([lit[0]] + (m + tail));
    CaptureSkipsPrefix(a, [lit[0]] + (m + tail), lit, k);
    CaptureSkipsFalseStart(lit[0], m + tail, lit, k);
    CaptureSkipsPrefix(m, tail, lit, k);
    CaptureAtStart(lit, c, rest, k);
  }

  /** The shipped App Store URL, cut where `/id(\d+)/` finds its match. */
  lemma AppStoreUrlLayout()
    ensures DefaultConfig.appStoreUrl == "https://apps.apple.com/tr/app/verde/" + "id" + "6751551270" + "?l=tr"
  {
  }

  /** The shipped Play Store URL, cut at the false start in `details` and where `/id=([^&]+)/` finds its match. */
  lemma PlayStoreUrlLayout()
    ensures DefaultConfig.playStoreUrl == "https://play.google.com/store/apps/deta" + ['i'] + "ls?" + "id=" + "com.cadde.verdeapp" + ""
  {
  }

  lemma AppIdOfLayout(u: string)
    requires u == "https://apps.apple.com/tr/app/verde/" + "id" + "6751551270" + "?l=tr"
    ensures ExtractAppId(u) == Some("6751551270")
  {
    CaptureOfLayout("https://apps.apple.com/tr/app/verde/", "id", "6751551270", "?l=tr", Digit);
  }

  lemma PackageNameOfLayout(u: string)
    requires u == "https://play.google.com/store/apps/deta" + ['i'] + "ls?" + "id=" + "com.cadde.verdeapp" + ""
    ensures ExtractPackageName(u) == Some("com.cadde.verdeapp")
  {
    CaptureOfLayoutWithFalseStart("https://play.google.com/store/apps/deta", "ls?", "id=", "com.cadde.verdeapp", "", NotAmpersand);
  }

  /** `/id(\d+)/` on the configured App Store URL yields `6751551270`. */
  lemma DefaultAppId()
    ensures ExtractAppId(DefaultConfig.appStoreUrl) == Some("6751551270")
  {
    AppStoreUrlLayout();
    AppIdOfLayout(DefaultConfig.appStoreUrl);
  }

  /** `/id=([^&]+)/` on the configured Play Store URL yields `com.cadde.verdeapp`. */
  lemma DefaultPackageName()
    ensures ExtractPackageName(DefaultConfig.playStoreUrl) == Some("com.cadde.verdeapp")
  {
    PlayStoreUrlLayout();
    PackageNameOfLayout(DefaultConfig.playStoreUrl);
  }

  lemma PidLayout(u: string)
    requires u == "https://x.test/?p" + "id=" + "a" + "&id=b"
    ensures ExtractPackageName(u) == Some("a")
  {
    CaptureOfLayout("https://x.test/?p", "id=", "a", "&id=b", NotAmpersand);
  }

  /** `/id=/` is not a query-string parser: it also matches inside `pid=`, before the real `id=`. */
  lemma PackageNameMatchesInsidePid()
    ensures ExtractPackageName("https://x.test/?pid=a&id=b") == Some("a")
  {
    PidLayout("https://x.test/?pid=a&id=b");
  }

  /** Extracting the id from a deep link built from an id gives that id back. */
  lemma AppIdDeepLinkRoundTrip(id: string)
    requires |id| > 0 && forall ch :: ch in id ==> InClass(ch, Digit)
    ensures ExtractAppId(ItmsPrefix + id) == Some(id)
  {
    ItmsLayout(id);
    CaptureOfLayoutWithFalseStart("", "tms-apps://apps.apple.com/app/", "id", id, "", Digit);
  }

  /** The deep-link prefix, cut at its false start. */
  lemma ItmsLayout(id: string)
    ensures ItmsPrefix + id == "" + ['i'] + "tms-apps://apps.apple.com/app/" + "id" + id + ""
  {
  }

  /** Extracting the package from a deep link built from a package name gives that name back. */
  lemma PackageDeepLinkRoundTrip(pkg: string)
    requires |pkg| > 0 && '&' !in pkg
    ensures ExtractPackageName(MarketPrefix + pkg) == Some(pkg)
  {
    assert MarketPrefix + pkg == "market://deta" + ['i'] + "ls?" + "id=" + pkg + "";
    CaptureOfLayoutWithFalseStart("market://deta", "ls?", "id=", pkg, "", NotAmpersand);
  }

  // ---------------------------------------------------------------------------
  // Properties of the navigation targets
  // ---------------------------------------------------------------------------

  /** In an in-app browser on iOS, a matched id becomes an `itms-apps` deep link. */
  lemma IOSDeepLinkFromId(cfg: Config, id: string)
    requires ExtractAppId(cfg.appStoreUrl) == Some(id)
    ensures RedirectTarget(cfg, IOS, true) == ItmsPrefix + id
  {
  }

  /** In an in-app browser on Android, a matched package name becomes a `market` deep link. */
  lemma AndroidDeepLinkFromPackage(cfg: Config, pkg: string)
    requires ExtractPackageName(cfg.playStoreUrl) == Some(pkg)
    ensures RedirectTarget(cfg, Android, true) == MarketPrefix + pkg
  {
  }

  /** In an in-app browser on iOS with the shipped configuration, the target is the `itms-apps` deep link. */
  lemma DefaultIOSDeepLink()
    ensures RedirectTarget(DefaultConfig, IOS, true) == "itms-apps://apps.apple.com/app/id6751551270"
  {
    DefaultAppId();
    IOSDeepLinkFromId(DefaultConfig, "6751551270");
    ItmsLiteral();
  }

  lemma ItmsLiteral()
    ensures ItmsPrefix + "6751551270" == "itms-apps://apps.apple.com/app/id6751551270"
  {
  }

  /** In an in-app browser on Android with the shipped configuration, the target is the `market` deep link. */
  lemma DefaultAndroidDeepLink()
    ensures RedirectTarget(DefaultConfig, Android, true) == "market://details?id=com.cadde.verdeapp"
  {
    DefaultPackageName();
    AndroidDeepLinkFromPackage(DefaultConfig, "com.cadde.verdeapp");
    MarketLiteral();
  }

  lemma MarketLiteral()
    ensures MarketPrefix + "com.cadde.verdeapp" == "market://details?id=com.cadde.verdeapp"
  {
  }

  /**
   * The first target is either the plain store URL the fallback timer uses,
   * or, only inside an in-app browser on a classified platform, a deep link
   * carrying the leftmost-longest identifier of the configured URL.
   */
  lemma RedirectTargetIsPlainOrDeepLink(cfg: Config, p: Platform, inApp: bool)
    ensures var url := RedirectTarget(cfg, p, inApp);
      url == FallbackTarget(cfg, p) ||
      (inApp && p == IOS && exists i, id :: CaptureAt(cfg.appStoreUrl, "id", Digit, i, id) && url == ItmsPrefix + id) ||
      (inApp && p == Android && exists i, pkg :: CaptureAt(cfg.playStoreUrl, "id=", NotAmpersand, i, pkg) && url == MarketPrefix + pkg)
  {
  }

  /** Outside an in-app browser, and for an unclassified platform, the first target is the plain store URL. */
  lemma PlainTargetOutsideInApp(cfg: Config, p: Platform, inApp: bool)
    requires !inApp || p == Unknown
    ensures RedirectTarget(cfg, p, inApp) == FallbackTarget(cfg, p)
    ensures p == Unknown ==> RedirectTarget(cfg, p, inApp) == cfg.playStoreUrl
  {
  }

  /** When `id` is nowhere followed by a digit, iOS falls back silently to the App Store URL. */
  lemma IOSWithoutIdKeepsStoreUrl(cfg: Config, inApp: bool)
    requires forall i :: !MatchesAt(cfg.appStoreUrl, "id", Digit, i)
    ensures RedirectTarget(cfg, IOS, inApp) == cfg.appStoreUrl
  {
  }

  /** When `id=` is nowhere followed by a non-`&` character, Android falls back silently to the Play Store URL. */
  lemma AndroidWithoutIdKeepsStoreUrl(cfg: Config, inApp: bool)
    requires forall i :: !MatchesAt(cfg.playStoreUrl, "id=", NotAmpersand, i)
    ensures RedirectTarget(cfg, Android, inApp) == cfg.playStoreUrl
  {
  }

  /** The fallback target is one of the two configured store URLs, never a derived deep link. */
  lemma FallbackIsConfiguredUrl(cfg: Config, p: Platform)
    ensures FallbackTarget(cfg, p) == cfg.appStoreUrl || FallbackTarget(cfg, p) == cfg.playStoreUrl
    ensures p == IOS ==> FallbackTarget(cfg, p) == cfg.appStoreUrl
    ensures p != IOS ==> FallbackTarget(cfg, p) == cfg.playStoreUrl
  {
  }

  /** In an in-app browser on a classified platform, the fallback really changes the target. */
  lemma DefaultFallbackLeavesDeepLink(p: Platform)
    requires p != Unknown
    ensures FallbackTarget(DefaultConfig, p) != RedirectTarget(DefaultConfig, p, true)
  {
    if p == IOS {
      DefaultIOSDeepLink();
      assert RedirectTarget(DefaultConfig, p, true)[0] == 'i';
    } else {
      DefaultAndroidDeepLink();
      assert RedirectTarget(DefaultConfig, p, true)[0] == 'm';
    }
  }
}
