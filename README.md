# Smart app-store redirect, modelled in Dafny

The page script `redirect.js` classifies the visiting device from its user
agent and two navigator hints. It then sends the visitor to the App Store or
to Google Play. Inside an in-app browser (Instagram, Facebook, TikTok, …) it
first tries an `itms-apps://` or `market://` deep link built from an
identifier in the configured store URL. One second later it navigates to the
plain store URL. One second after that it reveals the manual store buttons.
On an unclassified device (a desktop) it shows the manual buttons at once and
never navigates.

The model has four modules:

- `Text` — the literal and `a.*b` tests that stand in for the detector's
  regular expressions. The `/i` flag is modelled as ASCII case folding. That
  is exact here, because every pattern is ASCII and JavaScript's non-unicode
  `/i` never folds a non-ASCII character onto an ASCII one. `.` excludes the
  four line terminators, as in JavaScript.
- `Detector` — `DeviceDetector`: `isIOS`, `isAndroid`, `isInAppBrowser`,
  `isMobile` and `getPlatform`. `isIOS`, `isMobile` and `getPlatform` read a
  `Browser` value (user agent, `MSStream`, `navigator.platform`,
  `maxTouchPoints`); `isAndroid` and `isInAppBrowser` read the user-agent
  string only.
- `StoreUrl` — `CONFIG` as an immutable `Config` value and the URL choice of
  `redirectToStore`. The two extractions `/id(\d+)/` and `/id=([^&]+)/` are
  modelled as a leftmost scan followed by a greedy run (`Capture`). Their
  leftmost-longest meaning is stated in `CaptureAt`. Both shipped URLs are
  proved to yield the expected deep links.
- `Sequencer` — `handleRedirect`, `redirectToStore` and their `setTimeout`
  callbacks:
  - The page is a class `Page`. Its fields stand for the status text, the
    button label and icon, the button target, the manual buttons' `hidden`
    class and `window.location.href`.
  - An explicit clock `now` replaces real time.
  - The pending timers are an ordered queue of `(due time, action)`. Timers
    due at the same time keep the order in which they were scheduled.
  - `Fire` pops the earliest timer and runs its callback.
  - Each method is proved against a function on the page's value
    (`HandleRedirectStep`, `RedirectToStoreStep`, `Perform`, `FireStep`). The
    timeline lemmas are stated on those functions.
  - The second and third timers are scheduled by the first callback, not at
    page load: `redirectToStore` schedules the 1000 ms fallback, and the
    first callback then schedules the 2000 ms reveal. Both are therefore due
    relative to the first timer's firing time `d`, at `d + 1000` and
    `d + 2000`.

## Model

| member | source | states |
|---|---|---|
| Text.Lower | redirect.js:56 | `/i` folding keeps the length, leaves no ASCII upper-case letter, and keeps each character up to ASCII case (an upper-case letter becomes the letter 32 code points up) |
| Text.LowerCharEqualIff | redirect.js:56 | two characters fold alike exactly when they are equal or an ASCII upper/lower-case pair |
| Text.LowerEqualIff | redirect.js:56 | two strings fold alike exactly when they have the same length and agree position by position up to ASCII case |
| Text.ContainsIsContainsCI | redirect.js:43 | a case-sensitive occurrence of a pattern is also a case-insensitive one |
| Text.FollowedByCIContainsBoth | redirect.js:61 | a match of `a.*b` under `/i` contains case-insensitive matches of both `a` and `b` |
| Text.ContainsCIIgnoresCase | redirect.js:72 | a `/i` test cannot tell a user agent from its lower-case form |
| Text.FollowedByCIIgnoresCase | redirect.js:61 | an `a.*b` test under `/i` cannot tell a user agent from its lower-case form |
| Detector.PlatformPrecedence | redirect.js:85-89 | `getPlatform` is `ios` iff `isIOS`; `android` iff not `isIOS` and `isAndroid`; `unknown` iff neither |
| Detector.BothTestsMeanIOS | redirect.js:85-89 | a user agent that passes both the iOS and the Android test is classified `ios` |
| Detector.MobileIffClassified | redirect.js:78-89 | `isMobile` holds exactly when the classification is not `unknown` |
| Detector.AndroidInAppPatternIsRedundant | redirect.js:61 | every string matching the Android in-app pattern contains `android` case-insensitively |
| Detector.IsAndroidIsPlainSubstring | redirect.js:54-66 | `isAndroid` holds exactly when the user agent contains `android`, ignoring case |
| Detector.AndroidTokenWithoutIOSIsAndroid | redirect.js:54-89 | an `android` token without any iOS signal is classified `android` |
| Detector.AppleTokenIsIOS | redirect.js:33-35 | a case-sensitive `iPad`, `iPhone` or `iPod` token without `MSStream` is classified `ios` |
| Detector.DesktopModeIPadIsIOS | redirect.js:38-40 | a `MacIntel` platform with more than one touch point is `ios`, whatever the user agent and `MSStream` |
| Detector.MSStreamDisablesTokenTest | redirect.js:31-48 | with `MSStream` set and neither of the other two tests passing, a device token alone does not make the device iOS |
| Detector.InAppPatternIsIOS | redirect.js:42-45 | a user agent matching the iOS in-app pattern is classified `ios`, whatever the device token, `MSStream` and platform hints say |
| Detector.FBIOSTokenIsIOS | redirect.js:43-72 | a case-sensitive `FBIOS` token makes the device `ios` and an in-app browser |
| Detector.AndroidTokenIsAndroid | redirect.js:56 | a case-sensitive `Android` token passes `isAndroid` |
| Detector.IOSInAppPatternIsInAppBrowser | redirect.js:43-72 | every user agent matching the iOS in-app pattern is an in-app browser |
| Detector.AndroidInAppPatternIsInAppBrowser | redirect.js:61-72 | every user agent matching the Android in-app pattern is an in-app browser |
| Detector.SignaturesFold | redirect.js:72 | each of the nine signatures folds to its lower-case spelling |
| Detector.InAppBrowserIffFoldedSignature | redirect.js:71-73 | `isInAppBrowser` holds iff the lower-cased user agent contains the lower-case spelling of one of the nine signatures |
| Detector.InAppBrowserIgnoresCase | redirect.js:43-72 | `isInAppBrowser`, `isAndroid` and both in-app patterns give the same answer on a user agent and its lower-case form |
| Detector.LowerCaseTokenIsUnknown | redirect.js:33 | the device-token test is case-sensitive: the user agent `iphone` on a non-Mac platform is `unknown` |
| Detector.LowerCaseInstagramIPhoneIsIOS | redirect.js:43 | the in-app pattern ignores case: `instagram iphone` is `ios` |
| StoreUrl.RunLength | redirect.js:109 | the greedy `\d+` / `[^&]+` run: every character in it is in the class, and the next one is not (or the string ends) |
| StoreUrl.FirstMatch | redirect.js:109 | the scan returns a match position with no match before it, or none when no position from `from` on matches |
| StoreUrl.Capture | redirect.js:109-118 | `match(...)?.[1]`: `None` iff the expression matches nowhere; otherwise the leftmost-longest capture |
| StoreUrl.CaptureNonEmpty | redirect.js:110-119 | a capture is never empty, so the truthiness test only rejects a missing match |
| StoreUrl.CaptureUnique | redirect.js:109-118 | the leftmost-longest match and its capture are unique |
| StoreUrl.CaptureAtIsCapture | redirect.js:109-118 | exhibiting a leftmost-longest match determines the extraction's result |
| StoreUrl.CaptureAfterPrefix | redirect.js:109-118 | a prefix in which no match starts does not change the extraction |
| StoreUrl.CaptureOfLayout | redirect.js:109-118 | a prefix without the literal's first character, then the literal, a class run and a stop, yields that run |
| StoreUrl.DefaultAppId | redirect.js:109 | `/id(\d+)/` on the shipped App Store URL yields `6751551270` |
| StoreUrl.DefaultPackageName | redirect.js:118 | `/id=([^&]+)/` on the shipped Play Store URL yields `com.cadde.verdeapp` |
| StoreUrl.PackageNameMatchesInsidePid | redirect.js:118 | the extraction is not a query-string parser: in `?pid=a&id=b` it yields `a` |
| StoreUrl.AppIdDeepLinkRoundTrip | redirect.js:109-111 | extracting the id from an `itms-apps` link built from a digit string gives that string back |
| StoreUrl.PackageDeepLinkRoundTrip | redirect.js:118-121 | extracting the package from a `market` link built from a name without `&` gives that name back |
| StoreUrl.IOSDeepLinkFromId | redirect.js:103-113 | in an in-app browser on iOS, an extracted id `x` makes the target `itms-apps://apps.apple.com/app/id` + `x` |
| StoreUrl.AndroidDeepLinkFromPackage | redirect.js:114-123 | in an in-app browser on Android, an extracted package `x` makes the target `market://details?id=` + `x` |
| StoreUrl.DefaultIOSDeepLink | redirect.js:103-113 | with the shipped configuration, the iOS in-app target is `itms-apps://apps.apple.com/app/id6751551270` |
| StoreUrl.DefaultAndroidDeepLink | redirect.js:114-123 | with the shipped configuration, the Android in-app target is `market://details?id=com.cadde.verdeapp` |
| StoreUrl.RedirectTargetIsPlainOrDeepLink | redirect.js:100-127 | the first target is the plain store URL, or (only in an in-app browser on a classified platform) a deep link carrying the leftmost-longest identifier |
| StoreUrl.PlainTargetOutsideInApp | redirect.js:100-127 | outside an in-app browser the target is the plain store URL; for an unclassified platform it is `playStoreUrl` |
| StoreUrl.IOSWithoutIdKeepsStoreUrl | redirect.js:103-113 | when `id` is nowhere followed by a digit, the iOS target stays `appStoreUrl` |
| StoreUrl.AndroidWithoutIdKeepsStoreUrl | redirect.js:114-123 | when `id=` is nowhere followed by a non-`&`, the Android target stays `playStoreUrl` |
| StoreUrl.FallbackIsConfiguredUrl | redirect.js:133-139 | the 1000 ms fallback goes to `appStoreUrl` on iOS and to `playStoreUrl` otherwise, never to a derived URL |
| StoreUrl.DefaultFallbackLeavesDeepLink | redirect.js:130-139 | with the shipped configuration in an in-app browser, the fallback target differs from the deep link navigated to first |
| Sequencer.InsertionPoint | redirect.js:133-183 | a new timer's place: after every pending timer due no later than it, before the first one due later |
| Sequencer.ScheduleIsInsertion | redirect.js:133-183 | `setTimeout` inserts the timer at its insertion point and moves nothing else |
| Sequencer.ScheduleIsPermutation | redirect.js:133-183 | `setTimeout` adds exactly the new timer to the pending ones |
| Sequencer.ScheduleKeepsSorted | redirect.js:133-183 | the pending timers stay ordered by due time |
| Sequencer.HandleRedirectKeepsWellFormed | redirect.js:145-185 | `handleRedirect` keeps the queue ordered, with no timer due before now |
| Sequencer.FireStepKeepsWellFormed | redirect.js:133-183 | firing a timer keeps the queue ordered and never moves the clock back |
| Sequencer.UnknownShowsManualButtonsAndStops | redirect.js:168-174 | on an unclassified platform: the desktop text, manual buttons shown, button target `playStoreUrl`, no timer, no navigation, ever |
| Sequencer.HandleClassified | redirect.js:158-167 | on iOS/Android: that platform's texts and store URL, buttons untouched, location unchanged, one timer due in `redirectDelay` |
| Sequencer.StatusTextIdentifiesPlatform | redirect.js:158-174 | the status text written tells the three platforms apart |
| Sequencer.FireRedirect | redirect.js:177-184 | the first timer navigates to the resolved target and leaves the fallback and the reveal pending, 1000 ms apart |
| Sequencer.ClassifiedTimeline | redirect.js:130-184 | on iOS/Android: navigation at `d`, plain-URL navigation at `d+1000`, buttons revealed at `d+2000`, then nothing pending; buttons hidden state kept until then |
| Sequencer.ClassifiedRunSettles | redirect.js:177-184 | after the third timer, further firing changes nothing |
| Sequencer.LocationsReached | redirect.js:130-139 | after any number of timers, the location is the original one, the resolved target or the plain store URL |
| Sequencer.Page.constructor | redirect.js:147-151 | the loaded page: its initial texts, target and location, clock at zero, nothing scheduled |
| Sequencer.Page.HandleRedirect | redirect.js:145-185 | updates the fields in place exactly as `HandleRedirectStep` does and keeps the queue well formed |
| Sequencer.Page.RedirectToStore | redirect.js:100-140 | assigns the resolved target to the location through a reassigned local `url` and schedules the fallback, as `RedirectToStoreStep` |
| Sequencer.Page.RedirectCallback | redirect.js:177-184 | the first callback: `redirectToStore`, then schedule the reveal 2000 ms later |
| Sequencer.Page.FallbackCallback | redirect.js:133-139 | the fallback callback: navigate to the plain store URL |
| Sequencer.Page.RevealCallback | redirect.js:181-183 | the reveal callback: remove `hidden` from the manual buttons |
| Sequencer.Page.Fire | redirect.js:133-184 | pops the earliest timer, moves the clock to its due time and runs its callback, as `FireStep`; reports whether anything fired |

## Left out

- `console.log` calls (redirect.js:129, 153-155) are left out. They are diagnostics with no effect on the page.
- The `DOMContentLoaded` wiring (redirect.js:191-193) is left out. `Page.HandleRedirect` is the entry point.
- Real `setTimeout` and event-loop behaviour are not modelled. Timers are an explicit queue fired one at a time by `Page.Fire`.
- Navigation is not modelled as leaving the page. `location` is a plain field, and a successful navigation does not cancel the pending timers.
- DOM lookups (redirect.js:147-151) are not modelled. The five elements are always present, as fields of `Page`.
- How the user agent is obtained (redirect.js:25) is not modelled. `Browser.ua` is a plain input.
- JavaScript strings are UTF-16 code units; here they are sequences of Unicode characters. No pattern involves a character outside the Basic Multilingual Plane, so the tests are unaffected.
- The Turkish texts and icons are constants. Only which of the three variants is written is reasoned about.
