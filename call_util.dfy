/**
 * Call helpers: which URI a dialled number gets, which extras a call request
 * carries, when two numbers denote the same callee, and whether video calling
 * is offered. Android's Intent, Uri and PhoneAccount objects are plain
 * records; the platform's number predicates are parameters.
 */
module CallUtil {
  import opened JavaLang

  // Configuration values of config_enable_video_calling.
  const ENABLE_VIDEO_CALLING: int := 1
  const DISABLE_VIDEO_CALLING: int := 2

  // android.telecom.VideoProfile.VideoState
  const AUDIO_ONLY: int := 0
  const BIDIRECTIONAL: int := 3

  // android.telecom.PhoneAccount
  const CAPABILITY_VIDEO_CALLING: set<nat> := {3}
  const SCHEME_SIP: string := "sip"
  const SCHEME_TEL: string := "tel"
  const SCHEME_VOICEMAIL: string := "voicemail"

  const ACTION_CALL_PRIVILEGED: string := "android.intent.action.CALL_PRIVILEGED"
  const EXTRA_START_CALL_WITH_VIDEO_STATE: string := "android.telecom.extra.START_CALL_WITH_VIDEO_STATE"
  const EXTRA_PHONE_ACCOUNT_HANDLE: string := "android.telecom.extra.PHONE_ACCOUNT_HANDLE"
  const EXTRA_CALL_ORIGIN: string := "com.android.phone.CALL_ORIGIN"

  /** Uri.fromParts(scheme, ssp, fragment). */
  datatype Uri = Uri(scheme: string, schemeSpecificPart: string, fragment: Option<string>)

  /** An opaque calling account (a SIM slot or a VoIP provider). */
  datatype PhoneAccountHandle = PhoneAccountHandle(componentName: string, id: string)

  /** The values putExtra stores here: an int, a String, or a handle. */
  datatype Extra = IntExtra(i: int) | StringExtra(s: string) | HandleExtra(handle: PhoneAccountHandle)

  /** An Intent: its action, its data URI and its extras bundle. */
  datatype Intent = Intent(action: string, data: Uri, extras: map<string, Extra>)

  /** A PhoneAccount as far as the capability test looks at it. */
  datatype PhoneAccount = PhoneAccount(capabilities: set<nat>)

  /** What TelecomManager reports: the account behind each call-capable handle (null when unknown). */
  datatype TelecomManager = TelecomManager(callCapableAccounts: seq<Option<PhoneAccount>>)

  // ---------------------------------------------------------------------
  // Call intents
  // ---------------------------------------------------------------------

  /**
   * The four-argument getCallIntent: a CALL_PRIVILEGED intent on the URI that
   * always carries the video state, and carries the call origin and the
   * account handle exactly when they are non-null.
   */
  function CallIntent(uri: Uri, callOrigin: Option<string>, accountHandle: Option<PhoneAccountHandle>,
                      videoState: int): (r: Intent)
    ensures r.action == ACTION_CALL_PRIVILEGED && r.data == uri
    ensures EXTRA_START_CALL_WITH_VIDEO_STATE in r.extras
    ensures r.extras[EXTRA_START_CALL_WITH_VIDEO_STATE] == IntExtra(videoState)
    ensures EXTRA_CALL_ORIGIN in r.extras <==> callOrigin.Some?
    ensures callOrigin.Some? ==> r.extras[EXTRA_CALL_ORIGIN] == StringExtra(callOrigin.value)
    ensures EXTRA_PHONE_ACCOUNT_HANDLE in r.extras <==> accountHandle.Some?
    ensures accountHandle.Some? ==> r.extras[EXTRA_PHONE_ACCOUNT_HANDLE] == HandleExtra(accountHandle.value)
    ensures r.extras.Keys <= {EXTRA_START_CALL_WITH_VIDEO_STATE, EXTRA_CALL_ORIGIN, EXTRA_PHONE_ACCOUNT_HANDLE}
  {
    var withVideo := map[EXTRA_START_CALL_WITH_VIDEO_STATE := IntExtra(videoState)];
    var withOrigin := if callOrigin.Some? then withVideo[EXTRA_CALL_ORIGIN := StringExtra(callOrigin.value)]
                      else withVideo;
    var withAccount := if accountHandle.Some? then withOrigin[EXTRA_PHONE_ACCOUNT_HANDLE := HandleExtra(accountHandle.value)]
                       else withOrigin;
    Intent(ACTION_CALL_PRIVILEGED, uri, withAccount)
  }

  /** The video state a call intent asks for. */
  function VideoStateOf(intent: Intent): Option<int> {
    if EXTRA_START_CALL_WITH_VIDEO_STATE in intent.extras
       && intent.extras[EXTRA_START_CALL_WITH_VIDEO_STATE].IntExtra?
    then Some(intent.extras[EXTRA_START_CALL_WITH_VIDEO_STATE].i)
    else None
  }

  /** getCallIntent(Uri, String, PhoneAccountHandle): an audio-only call. */
  function CallIntentForUriFull(uri: Uri, callOrigin: Option<string>, accountHandle: Option<PhoneAccountHandle>): (r: Intent)
    ensures r.action == ACTION_CALL_PRIVILEGED
    ensures r.data == uri && VideoStateOf(r) == Some(AUDIO_ONLY)
    ensures EXTRA_CALL_ORIGIN in r.extras <==> callOrigin.Some?
    ensures callOrigin.Some? ==> r.extras[EXTRA_CALL_ORIGIN] == StringExtra(callOrigin.value)
    ensures EXTRA_PHONE_ACCOUNT_HANDLE in r.extras <==> accountHandle.Some?
    ensures accountHandle.Some? ==> r.extras[EXTRA_PHONE_ACCOUNT_HANDLE] == HandleExtra(accountHandle.value)
  {
    CallIntent(uri, callOrigin, accountHandle, AUDIO_ONLY)
  }

  /** getCallIntent(String, String, PhoneAccountHandle): an audio-only call on the number's URI. */
  function CallIntentForNumberFull(number: string, callOrigin: Option<string>, accountHandle: Option<PhoneAccountHandle>,
                                   isUriNumber: string -> bool): (r: Intent)
    ensures r.action == ACTION_CALL_PRIVILEGED
    ensures r.data.scheme == (if isUriNumber(number) then SCHEME_SIP else SCHEME_TEL)
    ensures r.data.schemeSpecificPart == number && r.data.fragment.None?
    ensures VideoStateOf(r) == Some(AUDIO_ONLY)
    ensures EXTRA_CALL_ORIGIN in r.extras <==> callOrigin.Some?
    ensures callOrigin.Some? ==> r.extras[EXTRA_CALL_ORIGIN] == StringExtra(callOrigin.value)
    ensures EXTRA_PHONE_ACCOUNT_HANDLE in r.extras <==> accountHandle.Some?
    ensures accountHandle.Some? ==> r.extras[EXTRA_PHONE_ACCOUNT_HANDLE] == HandleExtra(accountHandle.value)
  {
    CallIntentForUriFull(CallUri(number, isUriNumber), callOrigin, accountHandle)
  }

  /** getCallIntent(String): an audio-only call with no origin and no account. */
  function CallIntentForNumber(number: string, isUriNumber: string -> bool): (r: Intent)
    ensures r.action == ACTION_CALL_PRIVILEGED
    ensures r.data == CallUri(number, isUriNumber)
    ensures r.extras == map[EXTRA_START_CALL_WITH_VIDEO_STATE := IntExtra(AUDIO_ONLY)]
  {
    CallIntentForNumberFull(number, None, None, isUriNumber)
  }

  /** getCallIntent(Uri): an audio-only call on the URI as given. */
  function CallIntentForUri(uri: Uri): (r: Intent)
    ensures r.action == ACTION_CALL_PRIVILEGED
    ensures r.data == uri
    ensures r.extras == map[EXTRA_START_CALL_WITH_VIDEO_STATE := IntExtra(AUDIO_ONLY)]
  {
    CallIntentForUriFull(uri, None, None)
  }

  /** getCallIntent(String, String): an audio-only call that records its origin. */
  function CallIntentWithOrigin(number: string, callOrigin: Option<string>, isUriNumber: string -> bool): (r: Intent)
    ensures r.action == ACTION_CALL_PRIVILEGED
    ensures r.data == CallUri(number, isUriNumber) && VideoStateOf(r) == Some(AUDIO_ONLY)
    ensures EXTRA_CALL_ORIGIN in r.extras <==> callOrigin.Some?
    ensures callOrigin.Some? ==> r.extras[EXTRA_CALL_ORIGIN] == StringExtra(callOrigin.value)
    ensures EXTRA_PHONE_ACCOUNT_HANDLE !in r.extras
  {
    CallIntentForUriFull(CallUri(number, isUriNumber), callOrigin, None)
  }

  /** getCallIntent(String, PhoneAccountHandle): an audio-only call through an account. */
  function CallIntentWithAccount(number: string, accountHandle: Option<PhoneAccountHandle>,
                                 isUriNumber: string -> bool): (r: Intent)
    ensures r.action == ACTION_CALL_PRIVILEGED
    ensures r.data == CallUri(number, isUriNumber) && VideoStateOf(r) == Some(AUDIO_ONLY)
    ensures EXTRA_CALL_ORIGIN !in r.extras
    ensures EXTRA_PHONE_ACCOUNT_HANDLE in r.extras <==> accountHandle.Some?
    ensures accountHandle.Some? ==> r.extras[EXTRA_PHONE_ACCOUNT_HANDLE] == HandleExtra(accountHandle.value)
  {
    CallIntentForNumberFull(number, None, accountHandle, isUriNumber)
  }

  /** getCallIntent(Uri, PhoneAccountHandle). */
  function CallIntentForUriWithAccount(uri: Uri, accountHandle: Option<PhoneAccountHandle>): (r: Intent)
    ensures r.action == ACTION_CALL_PRIVILEGED
    ensures r.data == uri && VideoStateOf(r) == Some(AUDIO_ONLY)
    ensures EXTRA_CALL_ORIGIN !in r.extras
    ensures EXTRA_PHONE_ACCOUNT_HANDLE in r.extras <==> accountHandle.Some?
    ensures accountHandle.Some? ==> r.extras[EXTRA_PHONE_ACCOUNT_HANDLE] == HandleExtra(accountHandle.value)
  {
    CallIntentForUriFull(uri, None, accountHandle)
  }

  /** getVideoCallIntent(String, String): a bidirectional video call. */
  function VideoCallIntentWithOrigin(number: string, callOrigin: Option<string>, isUriNumber: string -> bool): (r: Intent)
    ensures r.action == ACTION_CALL_PRIVILEGED
    ensures r.data == CallUri(number, isUriNumber) && VideoStateOf(r) == Some(BIDIRECTIONAL)
    ensures EXTRA_CALL_ORIGIN in r.extras <==> callOrigin.Some?
    ensures callOrigin.Some? ==> r.extras[EXTRA_CALL_ORIGIN] == StringExtra(callOrigin.value)
    ensures EXTRA_PHONE_ACCOUNT_HANDLE !in r.extras
  {
    CallIntent(CallUri(number, isUriNumber), callOrigin, None, BIDIRECTIONAL)
  }

  /** getVideoCallIntent(String, String, PhoneAccountHandle). */
  function VideoCallIntentFull(number: string, callOrigin: Option<string>, accountHandle: Option<PhoneAccountHandle>,
                               isUriNumber: string -> bool): (r: Intent)
    ensures r.action == ACTION_CALL_PRIVILEGED
    ensures r.data == CallUri(number, isUriNumber) && VideoStateOf(r) == Some(BIDIRECTIONAL)
    ensures EXTRA_CALL_ORIGIN in r.extras <==> callOrigin.Some?
    ensures callOrigin.Some? ==> r.extras[EXTRA_CALL_ORIGIN] == StringExtra(callOrigin.value)
    ensures EXTRA_PHONE_ACCOUNT_HANDLE in r.extras <==> accountHandle.Some?
    ensures accountHandle.Some? ==> r.extras[EXTRA_PHONE_ACCOUNT_HANDLE] == HandleExtra(accountHandle.value)
  {
    CallIntent(CallUri(number, isUriNumber), callOrigin, accountHandle, BIDIRECTIONAL)
  }

  /** getVideoCallIntent(String, PhoneAccountHandle). */
  function VideoCallIntentWithAccount(number: string, accountHandle: Option<PhoneAccountHandle>,
                                      isUriNumber: string -> bool): (r: Intent)
    ensures r.action == ACTION_CALL_PRIVILEGED
    ensures r.data == CallUri(number, isUriNumber) && VideoStateOf(r) == Some(BIDIRECTIONAL)
    ensures EXTRA_CALL_ORIGIN !in r.extras
    ensures EXTRA_PHONE_ACCOUNT_HANDLE in r.extras <==> accountHandle.Some?
    ensures accountHandle.Some? ==> r.extras[EXTRA_PHONE_ACCOUNT_HANDLE] == HandleExtra(accountHandle.value)
  {
    VideoCallIntentFull(number, None, accountHandle, isUriNumber)
  }

  /** getVoicemailIntent: an audio-only call on the empty voicemail URI. */
  function VoicemailIntent(): (r: Intent)
    ensures r.action == ACTION_CALL_PRIVILEGED
    ensures r.data == Uri(SCHEME_VOICEMAIL, "", None)
    ensures r.extras == map[EXTRA_START_CALL_WITH_VIDEO_STATE := IntExtra(AUDIO_ONLY)]
  {
    CallIntentForUri(Uri(SCHEME_VOICEMAIL, "", None))
  }

  /** Every audio overload and every video overload differ only in the video state they request. */
  lemma VideoDiffersFromAudioOnlyInVideoState(number: string, callOrigin: Option<string>,
                                              accountHandle: Option<PhoneAccountHandle>, isUriNumber: string -> bool)
    ensures var audio := CallIntentForNumberFull(number, callOrigin, accountHandle, isUriNumber);
            var video := VideoCallIntentFull(number, callOrigin, accountHandle, isUriNumber);
            audio.action == video.action && audio.data == video.data
            && audio.extras.Keys == video.extras.Keys
            && video.extras == audio.extras[EXTRA_START_CALL_WITH_VIDEO_STATE := IntExtra(BIDIRECTIONAL)]
  {
    var audio := CallIntentForNumberFull(number, callOrigin, accountHandle, isUriNumber);
    var video := VideoCallIntentFull(number, callOrigin, accountHandle, isUriNumber);
    assert video.extras == audio.extras[EXTRA_START_CALL_WITH_VIDEO_STATE := IntExtra(BIDIRECTIONAL)];
  }

  // ---------------------------------------------------------------------
  // Call URIs and number equality
  // ---------------------------------------------------------------------

  /** getCallUri: a sip URI for URI-style numbers, a tel URI otherwise, the number kept as given. */
  function CallUri(number: string, isUriNumber: string -> bool): (r: Uri)
    ensures r.scheme == SCHEME_SIP <==> isUriNumber(number)
    ensures r.scheme == SCHEME_TEL <==> !isUriNumber(number)
    ensures r.schemeSpecificPart == number && r.fragment.None?
  {
    if isUriNumber(number) then Uri(SCHEME_SIP, number, None) else Uri(SCHEME_TEL, number, None)
  }

  /** The user part of a SIP address: everything before the first '@', or the whole address. */
  function UserInfo(address: string): string {
    var i := IndexOf(address, '@');
    if i != -1 then address[..i] else address
  }

  /** The host part of a SIP address: from the first '@' on, or empty. */
  function HostPart(address: string): string {
    var i := IndexOf(address, '@');
    if i != -1 then address[i..] else ""
  }

  /** The number of characters compared case-sensitively: those before the first '@'. */
  function UserLength(address: string): nat {
    if '@' in address then IndexOf(address, '@') else |address|
  }

  /**
   * sipAddressesEqual: null equals only null; otherwise the user parts must be
   * equal and the host parts equal ignoring case.
   */
  function SipAddressesEqual(number1: Option<string>, number2: Option<string>): (r: bool)
    ensures number1.None? || number2.None? ==> (r <==> number1 == number2)
  {
    if number1.None? || number2.None? then number1 == number2
    else
      UserInfo(number1.value) == UserInfo(number2.value)
      && EqualsIgnoreCase(HostPart(number1.value), HostPart(number2.value))
  }

  /**
   * The same comparison position by position: the two addresses have equal
   * length, agree exactly before the first address's '@', and agree ignoring
   * case from there on.
   */
  predicate SameSipAddress(a: string, b: string) {
    |a| == |b|
    && forall i :: 0 <= i < |a| ==>
         if i < UserLength(a) then a[i] == b[i] else CharEqualsIgnoreCase(a[i], b[i])
  }

  lemma UserHostSplit(a: string)
    ensures UserInfo(a) + HostPart(a) == a
    ensures |UserInfo(a)| == UserLength(a) && '@' !in UserInfo(a)
    ensures HostPart(a) == "" || HostPart(a)[0] == '@'
  {
  }

  lemma SipAddressesEqualIsCharwise(a: string, b: string)
    ensures SipAddressesEqual(Some(a), Some(b)) <==> SameSipAddress(a, b)
  {
    if SipAddressesEqual(Some(a), Some(b)) {
      EqualPartsAreCharwise(a, b);
    }
    if SameSipAddress(a, b) {
      CharwiseGivesEqualParts(a, b);
    }
  }

  lemma EqualPartsAreCharwise(a: string, b: string)
    requires UserInfo(a) == UserInfo(b) && EqualsIgnoreCase(HostPart(a), HostPart(b))
    ensures SameSipAddress(a, b)
  {
    UserHostSplit(a);
    UserHostSplit(b);
    var ua, ha, ub, hb := UserInfo(a), HostPart(a), UserInfo(b), HostPart(b);
    assert |a| == |b|;
    forall i | 0 <= i < |a|
      ensures if i < UserLength(a) then a[i] == b[i] else CharEqualsIgnoreCase(a[i], b[i])
    {
      if i < UserLength(a) {
        assert a[i] == ua[i] && b[i] == ub[i];
      } else {
        assert a[i] == ha[i - |ua|] && b[i] == hb[i - |ub|];
      }
    }
  }

  lemma CharwiseGivesEqualParts(a: string, b: string)
    requires SameSipAddress(a, b)
    ensures UserInfo(a) == UserInfo(b) && EqualsIgnoreCase(HostPart(a), HostPart(b))
  {
    UserHostSplit(a);
    UserHostSplit(b);
    var ua, ha, ub, hb := UserInfo(a), HostPart(a), UserInfo(b), HostPart(b);
    assert a[..|ua|] == ua;
    assert b[..|ua|] == a[..|ua|];
    if ha == "" {
      assert '@' !in b[..|ua|];
      assert b[..|ua|] == b;
    } else {
      assert a[|ua|] == '@';
      CharEqualsIgnoreCaseIsSameUpper(a[|ua|], b[|ua|]);
      assert b[|ua|] == '@';
      assert b == b[..|ua|] + [b[|ua|]] + b[|ua| + 1..];
      IndexOfAfterPrefix(ua, '@', b[|ua| + 1..]);
      assert ub == ua;
      forall i | 0 <= i < |ha| ensures CharEqualsIgnoreCase(ha[i], hb[i]) {
        assert ha[i] == a[|ua| + i] && hb[i] == b[|ua| + i];
      }
    }
  }

  /** sipAddressesEqual is an equivalence relation, null included. */
  lemma SipAddressesEqualIsEquivalence(n1: Option<string>, n2: Option<string>, n3: Option<string>)
    ensures SipAddressesEqual(n1, n1)
    ensures SipAddressesEqual(n1, n2) ==> SipAddressesEqual(n2, n1)
    ensures SipAddressesEqual(n1, n2) && SipAddressesEqual(n2, n3) ==> SipAddressesEqual(n1, n3)
  {
    if n1.Some? && n2.Some? && n3.Some? {
      EqualsIgnoreCaseIsEquivalence(HostPart(n1.value), HostPart(n2.value), HostPart(n3.value));
      EqualsIgnoreCaseIsEquivalence(HostPart(n2.value), HostPart(n1.value), HostPart(n3.value));
    } else if n1.Some? {
      EqualsIgnoreCaseIsEquivalence(HostPart(n1.value), HostPart(n1.value), HostPart(n1.value));
    }
  }

  /** An address without '@' never equals one with '@' (its host part is empty). */
  lemma SipAddressWithoutHostNeverEqualsOneWith(a: string, b: string)
    requires '@' !in a && '@' in b
    ensures !SipAddressesEqual(Some(a), Some(b))
  {
    UserHostSplit(b);
    assert HostPart(b) != "";
  }

  /**
   * The user part is compared exactly: two addresses on the same host whose
   * user parts differ (in case only, say) are different addresses.
   */
  lemma SipUserPartIsCaseSensitive(u1: string, u2: string, host: string)
    requires '@' !in u1 && '@' !in u2 && u1 != u2
    ensures !SipAddressesEqual(Some(u1 + "@" + host), Some(u2 + "@" + host))
  {
    IndexOfAfterPrefix(u1, '@', host);
    IndexOfAfterPrefix(u2, '@', host);
    assert (u1 + "@" + host)[..|u1|] == u1;
    assert (u2 + "@" + host)[..|u2|] == u2;
  }

  /**
   * The host part is compared ignoring case: the same user on hosts that
   * differ only in letter case is the same address.
   */
  lemma SipHostPartIgnoresCase(user: string, h1: string, h2: string)
    requires '@' !in user && EqualsIgnoreCase(h1, h2)
    ensures SipAddressesEqual(Some(user + "@" + h1), Some(user + "@" + h2))
  {
    var a, b := user + "@" + h1, user + "@" + h2;
    IndexOfAfterPrefix(user, '@', h1);
    IndexOfAfterPrefix(user, '@', h2);
    assert a[..|user|] == user && b[..|user|] == user;
    assert HostPart(a) == "@" + h1 && HostPart(b) == "@" + h2;
    forall i | 0 <= i < |h1| + 1 ensures CharEqualsIgnoreCase(HostPart(a)[i], HostPart(b)[i]) {
      if i > 0 {
        assert HostPart(a)[i] == h1[i - 1] && HostPart(b)[i] == h2[i - 1];
      }
    }
  }

  /** Java's PhoneNumberUtils.isUriNumber is false for null. */
  predicate IsUriNumber(number: Option<string>, isUriNumber: string -> bool) {
    number.Some? && isUriNumber(number.value)
  }

  /**
   * phoneNumbersEqual: SIP comparison when either number is URI-style,
   * the platform's number comparison otherwise.
   */
  function PhoneNumbersEqual(number1: Option<string>, number2: Option<string>, isUriNumber: string -> bool,
                             compare: (Option<string>, Option<string>) -> bool): (r: bool)
    ensures IsUriNumber(number1, isUriNumber) || IsUriNumber(number2, isUriNumber) ==>
              (r <==> SipAddressesEqual(number1, number2))
    ensures !IsUriNumber(number1, isUriNumber) && !IsUriNumber(number2, isUriNumber) ==>
              (r <==> compare(number1, number2))
  {
    if IsUriNumber(number1, isUriNumber) || IsUriNumber(number2, isUriNumber) then
      SipAddressesEqual(number1, number2)
    else
      compare(number1, number2)
  }

  /** phoneNumbersEqual is symmetric whenever the platform comparison is. */
  lemma PhoneNumbersEqualSymmetric(n1: Option<string>, n2: Option<string>, isUriNumber: string -> bool,
                                   compare: (Option<string>, Option<string>) -> bool)
    requires forall x, y :: compare(x, y) == compare(y, x)
    ensures PhoneNumbersEqual(n1, n2, isUriNumber, compare) == PhoneNumbersEqual(n2, n1, isUriNumber, compare)
  {
    SipAddressesEqualIsEquivalence(n1, n2, n1);
    SipAddressesEqualIsEquivalence(n2, n1, n2);
  }

  /** A number always equals itself when the platform comparison is reflexive. */
  lemma PhoneNumbersEqualReflexive(n: Option<string>, isUriNumber: string -> bool,
                                   compare: (Option<string>, Option<string>) -> bool)
    requires forall x :: compare(x, x)
    ensures PhoneNumbersEqual(n, n, isUriNumber, compare)
  {
    SipAddressesEqualIsEquivalence(n, n, n);
  }

  // ---------------------------------------------------------------------
  // Video calling
  // ---------------------------------------------------------------------

  /**
   * hasCapability: a non-null account whose capability bits, masked with the
   * requested ones, give back the requested ones. A Java int bit set is the
   * set of positions of its 1-bits, so the mask test is an intersection.
   */
  function HasCapability(phoneAccount: Option<PhoneAccount>, capability: set<nat>): (r: bool)
    ensures phoneAccount.None? ==> !r
    ensures r <==> phoneAccount.Some? && forall b :: b in capability ==> b in phoneAccount.value.capabilities
  {
    phoneAccount.Some? && phoneAccount.value.capabilities * capability == capability
  }

  /** Asking for several capabilities at once is asking for each of them. */
  lemma HasCapabilityUnion(phoneAccount: Option<PhoneAccount>, c1: set<nat>, c2: set<nat>)
    ensures HasCapability(phoneAccount, c1 + c2) <==> HasCapability(phoneAccount, c1) && HasCapability(phoneAccount, c2)
  {
  }

  /** hasVideoCapability: some call-capable account can make video calls; false without a TelecomManager. */
  method HasVideoCapability(telecom: Option<TelecomManager>) returns (r: bool)
    ensures r <==> telecom.Some? &&
                   exists k :: 0 <= k < |telecom.value.callCapableAccounts|
                            && HasCapability(telecom.value.callCapableAccounts[k], CAPABILITY_VIDEO_CALLING)
  {
    if telecom.None? {
      return false;
    }
    var accounts := telecom.value.callCapableAccounts;
    var k := 0;
    while k < |accounts|
      invariant 0 <= k <= |accounts|
      invariant forall j :: 0 <= j < k ==> !HasCapability(accounts[j], CAPABILITY_VIDEO_CALLING)
    {
      if HasCapability(accounts[k], CAPABILITY_VIDEO_CALLING) {
        return true;
      }
      k := k + 1;
    }
    return false;
  }

  /**
   * isVideoEnabled: configuration 1 forces video on, 2 forces it off, any other
   * value defers to the accounts' video capability.
   */
  method IsVideoEnabled(videoCallingConfig: int, telecom: Option<TelecomManager>) returns (r: bool)
    ensures videoCallingConfig == ENABLE_VIDEO_CALLING ==> r
    ensures videoCallingConfig == DISABLE_VIDEO_CALLING ==> !r
    ensures videoCallingConfig != ENABLE_VIDEO_CALLING && videoCallingConfig != DISABLE_VIDEO_CALLING ==>
              (r <==> telecom.Some? &&
                      exists k :: 0 <= k < |telecom.value.callCapableAccounts|
                               && HasCapability(telecom.value.callCapableAccounts[k], CAPABILITY_VIDEO_CALLING))
  {
    if videoCallingConfig == ENABLE_VIDEO_CALLING {
      r := true;
    } else if videoCallingConfig == DISABLE_VIDEO_CALLING {
      r := false;
    } else {
      r := HasVideoCapability(telecom);
    }
  }

  /**
   * isVideoCallNumValid: always true when regional number patterns are off;
   * otherwise the normalised number must be non-null, non-empty, at most 8
   * characters with a leading '+' or 7 without, and the raw number may hold
   * neither '#' nor '*'.
   */
  function IsVideoCallNumValid(regionalNumberPatterns: bool, number: string,
                               normalizeNumber: string -> Option<string>): (r: bool)
    ensures !regionalNumberPatterns ==> r
    ensures regionalNumberPatterns && IsEmpty(normalizeNumber(number)) ==> !r
    ensures regionalNumberPatterns && ('#' in number || '*' in number) ==> !r
    ensures regionalNumberPatterns && r ==>
              var n := normalizeNumber(number).value;
              1 <= |n| && (n[0] == '+' ==> Length(n) <= 8) && (n[0] != '+' ==> Length(n) <= 7)
    ensures regionalNumberPatterns && !IsEmpty(normalizeNumber(number)) && '#' !in number && '*' !in number ==>
              var n := normalizeNumber(number).value;
              (r <==> Length(n) <= (if n[0] == '+' then 8 else 7))
  {
    if !regionalNumberPatterns then true
    else
      var norNumber := normalizeNumber(number);
      if norNumber.None? || norNumber.value == ""
         || (if norNumber.value[0] == '+' then Length(norNumber.value) > 8 else Length(norNumber.value) > 7)
         || '#' in number || '*' in number
      then false
      else true
  }
}
