/** The two send buttons (script.js:169-288). Both first read the displayed sets
    back from the containers and refuse to send when there are none. The SMS
    button then checks the phone number and stops at the simulated send; the
    Kakao button assembles the share text and hands it to the Kakao SDK. */
module Send {
  import opened Text
  import opened Display
  import opened Share
  import opened Status

  /** The request body the SMS handler would post to `/api/send-sms`. */
  datatype SmsRequest = SmsRequest(phoneNumber: string, lottoSets: seq<seq<string>>, pensionSets: seq<seq<string>>)

  datatype SmsOutcome = NoSets | EmptyPhone | BadPhone | Ok(request: SmsRequest)

  /** The negation of the SMS handler's rejection test (script.js:195): the
      number is accepted exactly when it has 10 or 11 characters, all of them
      ASCII digits. */
  function IsValidPhone(phone: string): (b: bool)
    ensures b <==> 10 <= |phone| <= 11 && AllDigits(phone)
  {
    !(|phone| < 10 || |phone| > 11 || !MatchesDigitsPattern(phone))
  }

  /** The guards of the SMS handler (script.js:169-200). The "nothing generated"
      check comes before any look at the phone number; a phone number that is
      all whitespace counts as missing; any other is accepted exactly when it is
      valid once trimmed. */
  function SendSms(lotto: Container, pension: Container, phoneInput: string): (o: SmsOutcome)
    reads lotto, pension
    ensures o == NoSets <==> lotto.Displayed() == [] && pension.Displayed() == []
    ensures o == EmptyPhone <==>
      (lotto.Displayed() != [] || pension.Displayed() != [])
      && AllSpace(phoneInput)
    ensures o == BadPhone <==>
      (lotto.Displayed() != [] || pension.Displayed() != [])
      && Trim(phoneInput) != "" && !IsValidPhone(Trim(phoneInput))
    ensures o.Ok? <==>
      (lotto.Displayed() != [] || pension.Displayed() != []) && IsValidPhone(Trim(phoneInput))
    ensures o.Ok? ==> o.request == SmsRequest(Trim(phoneInput), lotto.Displayed(), pension.Displayed())
  {
    var phoneNumber := Trim(phoneInput);
    var allLottoSets := lotto.Displayed();
    var allPensionSets := pension.Displayed();
    TrimEmpty(phoneInput);
    if |allLottoSets| == 0 && |allPensionSets| == 0 then NoSets
    else if phoneNumber == "" then EmptyPhone
    else if !IsValidPhone(phoneNumber) then BadPhone
    else Ok(SmsRequest(phoneNumber, allLottoSets, allPensionSets))
  }

  const NoSetsText := "생성된 번호가 없어요! 먼저 번호를 뽑아주세요! 🙏"

  /** The status line after an SMS click; every outcome but `Ok` is an error. */
  function SmsStatus(o: SmsOutcome): (m: Message)
    ensures m.isError <==> !o.Ok?
    ensures o.Ok? ==> o.request.phoneNumber <= m.text
  {
    match o
    case NoSets => Message(NoSetsText, true)
    case EmptyPhone => Message("휴대폰 번호를 입력해주세요! 🚨", true)
    case BadPhone => Message("유효한 휴대폰 번호를 입력해주세요! (숫자 10-11자리) 🚫", true)
    case Ok(request) =>
      Message(request.phoneNumber + " (으)로 번호를 전송 중... (실제 발송은 백엔드 연동 후 가능)", false)
  }

  /** The argument of `Kakao.Share.sendDefault`. */
  datatype ShareRequest = ShareRequest(objectType: string, text: string, webUrl: string, mobileWebUrl: string)

  datatype ShareOutcome = NothingToShare | Shared(request: ShareRequest) | SdkNotReady

  /** The status line after a Kakao click (script.js:251, 284, 286): only an
      opened share window is not an error; with nothing to share the message
      is the same one the SMS button gives. */
  function KakaoStatus(o: ShareOutcome): (m: Message)
    ensures m.isError <==> !o.Shared?
    ensures o == NothingToShare <==> m == SmsStatus(NoSets)
  {
    match o
    case NothingToShare => Message(NoSetsText, true)
    case Shared(_) => Message("카카오톡 공유 창이 열렸어요! 친구에게 행운을 나눠주세요! 📱", false)
    case SdkNotReady => Message("카카오 SDK 초기화가 안 되어있어요. JavaScript 키를 확인해주세요! 😭", true)
  }

  /** The Kakao handler (script.js:236-288). `sdkReady` is what
      `Kakao.isInitialized()` answers and `pageUrl` is `window.location.href`. */
  method SendKakao(lotto: Container, pension: Container, sdkReady: bool, pageUrl: string)
    returns (o: ShareOutcome, status: Message)
    ensures o == NothingToShare <==> lotto.Displayed() == [] && pension.Displayed() == []
    ensures o.Shared? <==> (lotto.Displayed() != [] || pension.Displayed() != []) && sdkReady
    ensures o.Shared? ==>
      o.request == ShareRequest("text", ShareText(lotto.Displayed(), pension.Displayed()), pageUrl, pageUrl)
    ensures status == KakaoStatus(o)
  {
    var allLottoSets := lotto.Displayed();
    var allPensionSets := pension.Displayed();
    if |allLottoSets| == 0 && |allPensionSets| == 0 {
      o := NothingToShare;
      status := Message(NoSetsText, true);
      return;
    }
    var messageText := BuildShareText(allLottoSets, allPensionSets);
    if sdkReady {
      o := Shared(ShareRequest("text", messageText, pageUrl, pageUrl));
      status := Message("카카오톡 공유 창이 열렸어요! 친구에게 행운을 나눠주세요! 📱", false);
    } else {
      o := SdkNotReady;
      status := Message("카카오 SDK 초기화가 안 되어있어요. JavaScript 키를 확인해주세요! 😭", true);
    }
  }
}
