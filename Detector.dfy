/**
 * The device detector: side-effect-free tests over the user-agent string and
 * the two platform hints, and the classification built from them.
 */
module Detector {
  import opened Text

  /**
   * What the detector reads from the browser: the user-agent string, whether
   * `window.MSStream` is truthy, `navigator.platform` and
   * `navigator.maxTouchPoints`.
   */
  datatype Browser = Browser(ua: string, msStream: bool, platform: string, maxTouchPoints: int)

  /** The classification: 'ios', 'android' or 'unknown'. */
  datatype Platform = IOS | Android | Unknown

  /** `/iPad|iPhone|iPod/`, case-sensitive. */
  predicate HasAppleDeviceToken(ua: string) {
    Contains(ua, "iPad") || Contains(ua, "iPhone") || Contains(ua, "iPod")
  }

  /** An iPad that asks for desktop sites reports itself as a touch-capable Mac. */
  predicate IsDesktopModeIPad(b: Browser) {
    b.platform == "MacIntel" && b.maxTouchPoints > 1
  }

  /** `/FBIOS|Instagram.*iPhone|iPhone.*Instagram/i`. */
  predicate HasIOSInAppPattern(ua: string) {
    ContainsCI(ua, "FBIOS") || FollowedByCI(ua, "Instagram", "iPhone") || FollowedByCI(ua, "iPhone", "Instagram")
  }

  /** `isIOS`: the three tests in the order the detector makes them. */
  predicate IsIOS(b: Browser) {
    if HasAppleDeviceToken(b.ua) && !b.msStream then true
    else if IsDesktopModeIPad(b) then true
    else HasIOSInAppPattern(b.ua)
  }

  /** `/FBAN.*Android|Instagram.*Android|Android.*Instagram|Android.*FBAN/i`. */
  predicate HasAndroidInAppPattern(ua: string) {
    FollowedByCI(ua, "FBAN", "Android") || FollowedByCI(ua, "Instagram", "Android") ||
    FollowedByCI(ua, "Android", "Instagram") || FollowedByCI(ua, "Android", "FBAN")
  }

  /** `isAndroid`: reads the user-agent string only. */
  predicate IsAndroid(ua: string) {
    if ContainsCI(ua, "android") then true
    else HasAndroidInAppPattern(ua)
  }

  /** The in-app browser signatures, as written in the detector. */
  const InAppSignatures: seq<string> :=
    ["Instagram", "FBAN", "FBAV", "FB_IAB", "FBIOS", "Twitter", "TikTok", "Snapchat", "LinkedIn"]

  /** `isInAppBrowser`: one `/i` alternation over the signatures; reads the user-agent string only. */
  predicate IsInAppBrowser(ua: string) {
    exists k :: 0 <= k < |InAppSignatures| && ContainsCI(ua, InAppSignatures[k])
  }

  /** The signatures in the case the `/i` flag compares them in. */
  const FoldedSignatures: seq<string> :=
    ["instagram", "fban", "fbav", "fb_iab", "fbios", "twitter", "tiktok", "snapchat", "linkedin"]

  predicate IsMobile(b: Browser) {
    IsIOS(b) || IsAndroid(b.ua)
  }

  /** `getPlatform`: iOS is tested before Android. */
  function GetPlatform(b: Browser): Platform {
    if IsIOS(b) then IOS
    else if IsAndroid(b.ua) then Android
    else Unknown
  }

  // ---------------------------------------------------------------------------
  // Properties of the classifier
  // ---------------------------------------------------------------------------

  /** The classification is determined by the two tests, iOS first. */
  lemma PlatformPrecedence(b: Browser)
    ensures GetPlatform(b) == IOS <==> IsIOS(b)
    ensures GetPlatform(b) == Android <==> !IsIOS(b) && IsAndroid(b.ua)
    ensures GetPlatform(b) == Unknown <==> !IsIOS(b) && !IsAndroid(b.ua)
  {
  }

  /** A user agent that passes both tests is classified iOS. */
  lemma BothTestsMeanIOS(b: Browser)
    requires IsIOS(b) && IsAndroid(b.ua)
    ensures GetPlatform(b) == IOS
  {
  }

  /** `isMobile` holds exactly when the classification is not 'unknown'. */
  lemma MobileIffClassified(b: Browser)
    ensures IsMobile(b) <==> GetPlatform(b) != Unknown
  {
  }

  /** Every Android in-app pattern contains `android`, so the second test never changes `isAndroid`. */
  lemma {:induction false} AndroidInAppPatternIsRedundant(ua: string)
    requires HasAndroidInAppPattern(ua)
    ensures ContainsCI(ua, "android")
  {
    assert Lower("Android") == Lower("android");
    if FollowedByCI(ua, "FBAN", "Android") {
      FollowedByCIContainsBoth(ua, "FBAN", "Android");
    } else if FollowedByCI(ua, "Instagram", "Android") {
      FollowedByCIContainsBoth(ua, "Instagram", "Android");
    } else if FollowedByCI(ua, "Android", "Instagram") {
      FollowedByCIContainsBoth(ua, "Android", "Instagram");
    } else {
      FollowedByCIContainsBoth(ua, "Android", "FBAN");
    }
  }

  /** `isAndroid` is exactly "contains `android`, ignoring case". */
  lemma IsAndroidIsPlainSubstring(ua: string)
    ensures IsAndroid(ua) <==> ContainsCI(ua, "android")
  {
    if HasAndroidInAppPattern(ua) {
      AndroidInAppPatternIsRedundant(ua);
    }
  }

  /** A user agent with an Android token and no iOS signal of any kind is classified Android. */
  lemma AndroidTokenWithoutIOSIsAndroid(b: Browser)
    requires ContainsCI(b.ua, "android") && !IsIOS(b)
    ensures GetPlatform(b) == Android
  {
  }

  /** An iPhone, iPad or iPod token (matched case-sensitively) without `MSStream` is classified iOS. */
  lemma AppleTokenIsIOS(b: Browser)
    requires HasAppleDeviceToken(b.ua) && !b.msStream
    ensures GetPlatform(b) == IOS
  {
  }

  /** A touch-capable `MacIntel` is classified iOS whatever its user agent and `MSStream` say. */
  lemma DesktopModeIPadIsIOS(b: Browser)
    requires b.platform == "MacIntel" && b.maxTouchPoints > 1
    ensures GetPlatform(b) == IOS
    ensures forall ua: string, ms: bool :: GetPlatform(b.(ua := ua, msStream := ms)) == IOS
  {
  }

  /** With `MSStream` set, the device token alone does not make a user agent iOS. */
  lemma MSStreamDisablesTokenTest(b: Browser)
    requires b.msStream && !IsDesktopModeIPad(b) && !HasIOSInAppPattern(b.ua)
    ensures !IsIOS(b)
  {
  }

  /** Any of the iOS in-app patterns alone makes a user agent iOS, whatever the other hints say. */
  lemma InAppPatternIsIOS(b: Browser)
    requires HasIOSInAppPattern(b.ua)
    ensures GetPlatform(b) == IOS
  {
  }

  /** Every iOS in-app pattern is also an in-app browser signature. */
  lemma IOSInAppPatternIsInAppBrowser(ua: string)
    requires HasIOSInAppPattern(ua)
    ensures IsInAppBrowser(ua)
  {
    assert InAppSignatures[0] == "Instagram" && InAppSignatures[4] == "FBIOS";
    if FollowedByCI(ua, "Instagram", "iPhone") {
      FollowedByCIContainsBoth(ua, "Instagram", "iPhone");
    } else if FollowedByCI(ua, "iPhone", "Instagram") {
      FollowedByCIContainsBoth(ua, "iPhone", "Instagram");
    }
  }

  /** Every Android in-app pattern is also an in-app browser signature. */
  lemma AndroidInAppPatternIsInAppBrowser(ua: string)
    requires HasAndroidInAppPattern(ua)
    ensures IsInAppBrowser(ua)
  {
    assert InAppSignatures[0] == "Instagram" && InAppSignatures[1] == "FBAN";
    if FollowedByCI(ua, "FBAN", "Android") {
      FollowedByCIContainsBoth(ua, "FBAN", "Android");
    } else if FollowedByCI(ua, "Instagram", "Android") {
      FollowedByCIContainsBoth(ua, "Instagram", "Android");
    } else if FollowedByCI(ua, "Android", "Instagram") {
      FollowedByCIContainsBoth(ua, "Android", "Instagram");
    } else {
      FollowedByCIContainsBoth(ua, "Android", "FBAN");
    }
  }

  /** Each signature folds to its lower-case spelling. */
  lemma SignaturesFold()
    ensures |FoldedSignatures| == |InAppSignatures|
    ensures forall k :: 0 <= k < |InAppSignatures| ==> Lower(InAppSignatures[k]) == FoldedSignatures[k]
  {
    forall k | 0 <= k < |InAppSignatures|
      ensures Lower(InAppSignatures[k]) == FoldedSignatures[k]
    {
      var sig, folded := InAppSignatures[k], FoldedSignatures[k];
      assert |sig| == |folded|;
      forall m | 0 <= m < |sig|
        ensures Lower(sig)[m] == folded[m]
      {
      }
    }
  }

  /**
   * `isInAppBrowser` holds exactly when the lower-cased user agent contains the
   * lower-case spelling of some signature.
   */
  lemma InAppBrowserIffFoldedSignature(ua: string)
    ensures IsInAppBrowser(ua) <==> exists k :: 0 <= k < |FoldedSignatures| && Contains(Lower(ua), FoldedSignatures[k])
  {
    SignaturesFold();
    if IsInAppBrowser(ua) {
      var k :| 0 <= k < |InAppSignatures| && ContainsCI(ua, InAppSignatures[k]);
      assert Contains(Lower(ua), FoldedSignatures[k]);
    }
    if exists k :: 0 <= k < |FoldedSignatures| && Contains(Lower(ua), FoldedSignatures[k]) {
      var k :| 0 <= k < |FoldedSignatures| && Contains(Lower(ua), FoldedSignatures[k]);
      assert ContainsCI(ua, InAppSignatures[k]);
    }
  }

  /** A case-sensitive `FBIOS` token makes a user agent both iOS and an in-app browser. */
  lemma FBIOSTokenIsIOS(b: Browser)
    requires Contains(b.ua, "FBIOS")
    ensures GetPlatform(b) == IOS && IsInAppBrowser(b.ua)
  {
    ContainsIsContainsCI(b.ua, "FBIOS");
    assert InAppSignatures[4] == "FBIOS";
  }

  /** A case-sensitive `Android` token makes a user agent Android for `isAndroid`. */
  lemma AndroidTokenIsAndroid(ua: string)
    requires Contains(ua, "Android")
    ensures IsAndroid(ua)
  {
    ContainsIsContainsCI(ua, "Android");
    assert Lower("Android") == Lower("android");
  }

  /** The `/i` tests cannot tell a user agent from its lower-case form. */
  lemma InAppBrowserIgnoresCase(ua: string)
    ensures IsInAppBrowser(Lower(ua)) == IsInAppBrowser(ua)
    ensures IsAndroid(Lower(ua)) == IsAndroid(ua)
    ensures HasIOSInAppPattern(Lower(ua)) == HasIOSInAppPattern(ua)
    ensures HasAndroidInAppPattern(Lower(ua)) == HasAndroidInAppPattern(ua)
  {
    forall k | 0 <= k < |InAppSignatures|
      ensures ContainsCI(Lower(ua), InAppSignatures[k]) == ContainsCI(ua, InAppSignatures[k])
    {
      ContainsCIIgnoresCase(ua, InAppSignatures[k]);
    }
    ContainsCIIgnoresCase(ua, "android");
    ContainsCIIgnoresCase(ua, "FBIOS");
    FollowedByCIIgnoresCase(ua, "Instagram", "iPhone");
    FollowedByCIIgnoresCase(ua, "iPhone", "Instagram");
    FollowedByCIIgnoresCase(ua, "FBAN", "Android");
    FollowedByCIIgnoresCase(ua, "Instagram", "Android");
    FollowedByCIIgnoresCase(ua, "Android", "Instagram");
    FollowedByCIIgnoresCase(ua, "Android", "FBAN");
  }

  /** The device-token test is case-sensitive: a lower-case `iphone` alone is not recognised. */
  lemma LowerCaseTokenIsUnknown()
    ensures GetPlatform(Browser("iphone", false, "Linux armv8l", 5)) == Unknown
  {
    var ua := "iphone";
    assert 'P' !in ua;
    if Contains(ua, "iPad") { ContainsHasChars(ua, "iPad", 1); }
    if Contains(ua, "iPhone") { ContainsHasChars(ua, "iPhone", 1); }
    if Contains(ua, "iPod") { ContainsHasChars(ua, "iPod", 1); }
    assert !HasAppleDeviceToken(ua);
    if 'f' in Lower(ua) { LowerHasChars(ua, 'f'); }
    if 'g' in Lower(ua) { LowerHasChars(ua, 'g'); }
    if 'd' in Lower(ua) { LowerHasChars(ua, 'd'); }
    assert Lower("FBIOS")[0] == 'f' && Lower("Instagram")[5] == 'g' && Lower("android")[2] == 'd';
    if ContainsCI(ua, "FBIOS") { ContainsHasChars(Lower(ua), Lower("FBIOS"), 0); }
    if ContainsCI(ua, "Instagram") { ContainsHasChars(Lower(ua), Lower("Instagram"), 5); }
    if ContainsCI(ua, "android") { ContainsHasChars(Lower(ua), Lower("android"), 2); }
    if FollowedByCI(ua, "Instagram", "iPhone") { FollowedByCIContainsBoth(ua, "Instagram", "iPhone"); }
    if FollowedByCI(ua, "iPhone", "Instagram") { FollowedByCIContainsBoth(ua, "iPhone", "Instagram"); }
    IsAndroidIsPlainSubstring(ua);
  }

  /** The in-app patterns ignore case: the same letters with an Instagram signature in front are iOS. */
  lemma LowerCaseInstagramIPhoneIsIOS()
    ensures GetPlatform(Browser("instagram iphone", false, "Linux armv8l", 5)) == IOS
  {
    var ua := "instagram iphone";
    assert Lower(ua) == ua;
    assert Lower("Instagram") == "instagram" && Lower("iPhone") == "iphone";
    assert OccursAt(ua, "instagram", 0) && OccursAt(ua, "iphone", 10);
    assert FollowedByCI(ua, "Instagram", "iPhone");
  }
}
