# Lucky-number generator: a Dafny model of `script.js`

`script.js` runs a small web page. It draws lotto sets (six distinct balls
from 1 to 45, sorted) and pension-lottery numbers (a group 1..5 and a six-digit
serial, written `"<group>조 <serial>"`). It shows them in two containers. It can
send the displayed sets on: by SMS, which is only simulated, or through the
Kakao share popup. This project models the deterministic core of that script
and proves what it promises.

- **Randomness.** Each `Math.random()` call is an input: a real number `r` with
  `0 <= r < 1`. `Math.floor(r * n)` is `Random.UniformInt`. Each lotto draw
  consumes a finite stream of such values. The builders receive one stream (or
  one pair of values) per set.
- **The lotto loop.** `Lotto.GenerateLottoNumbers` is `generateLottoNumbers`:
  it runs the method `Lotto.DrawBalls`, which holds the `while` loop over a
  JavaScript `Set`, and then sorts. The set is kept as its elements in insertion order, since
  that is the order `Array.from` lists them. The function `Lotto.Dedup` gives
  the meaning of that list. `Array.prototype.sort` with `(a, b) => a - b` is the
  pure insertion sort `Lotto.Sort`.
- **The DOM.** A container is a `Display.Container` object whose field `items`
  lists its `.number-set-item` elements. Each item holds spans with a text and
  a placeholder flag. `displayMultipleSets` is a method on it. The send
  handlers' `querySelectorAll`/`map`/`filter` read-back is `Display.Scrape`.
- **Status messages.** `showStatusMessage` is modelled by its arguments, a
  `Status.Message` (text, error flag). The generate and Kakao handlers return
  the message they would show. `Send.SendSms` returns an outcome, and
  `Send.SmsStatus` gives the message for that outcome.
- **Modules.** `Text` models the JavaScript string built-ins the script uses
  (`String(n)`, `padStart`, `join`, `trim`, `/^\d+$/`). `Random`, `Lotto`,
  `Pension`, `Display`, `Generate` (the two generate buttons), `Share` (the
  Kakao message text) and `Send` (the two send buttons) follow the script's
  sections.

The doc comment of `generatePensionNumbers` (script.js:50) gives `"1조123456"`,
with no space. The code (script.js:55) writes a space after `조`. The model
follows the code.

## Model

| member | source | states |
|---|---|---|
| `Text.NatToString` | script.js:54 | `String(n)` of a non-negative integer is a non-empty string of ASCII digits with no leading zero unless n is 0 |
| `Text.ParseNatToString` | script.js:54 | the decimal text of n reads back as n |
| `Text.NatToStringLength` | script.js:54 | a number below 10^k has at most k digits, so `padStart(6, '0')` of a serial below 10^6 adds only zeros |
| `Text.PadStart` | script.js:54 | `padStart` yields the longer of the two lengths, ends with the original string and is filled with the pad character in front |
| `Text.ParseLeadingZeros` | script.js:54 | leading zeros do not change the value of a numeral |
| `Text.TrimStart` | script.js:170 | removing leading whitespace leaves a suffix of the input that is empty or starts with a non-whitespace character |
| `Text.TrimStartSpace` | script.js:170 | what `trimStart` removes is whitespace |
| `Text.TrimEnd` | script.js:170 | removing trailing whitespace leaves a prefix of the input that is empty or ends with a non-whitespace character |
| `Text.TrimEndSpace` | script.js:170 | what `trimEnd` removes is whitespace |
| `Text.Trim` | script.js:170 | `trim()` returns the slice of the input that starts after the leading whitespace, has only whitespace after it, and neither starts nor ends with whitespace |
| `Text.TrimEmpty` | script.js:170 | the trimmed phone string is empty exactly when the input is all whitespace |
| `Text.MatchesDigitsPattern` | script.js:195 | `/^\d+$/.test(s)` holds exactly when `s` is non-empty and every character is an ASCII digit |
| `Text.JoinEnds` | script.js:261 | `join` of no parts is empty; otherwise the result starts with the first part and ends with the last |
| `Random.UniformInt` | script.js:43 | `Math.floor(r * n)` with 0 <= r < 1 lies in [0, n) |
| `Random.UniformIntReaches` | script.js:53-54 | every value in [0, n) is the outcome of some random value |
| `Random.LottoBall` | script.js:43 | `Math.floor(Math.random() * 45) + 1` lies in [1, 45] |
| `Random.PensionGroup` | script.js:53 | the pension group lies in [1, 5] |
| `Random.PensionSerial` | script.js:54 | the pension serial lies in [0, 999999] |
| `Lotto.Balls` | script.js:43 | one ball per random value, each in [1, 45] |
| `Lotto.Dedup` | script.js:41-44 | the `Set` after adding a sequence of balls never holds more values than were added |
| `Lotto.DedupMembers` | script.js:41-44 | a value is in the `Set` exactly when it was added |
| `Lotto.DedupElements` | script.js:41-44 | the `Set` holds each value once, and only balls in [1, 45] when only such balls were added |
| `Lotto.DedupPrefix` | script.js:42-44 | the set after a prefix of the draws lists a prefix of the distinct values of the whole stream |
| `Lotto.DedupStep` | script.js:43 | `Set.add` appends a new ball and leaves the set unchanged on a repeat |
| `Lotto.DedupStop` | script.js:42-44 | when the size reaches 6, at least 6 draws were made and the set holds the stream's first six distinct balls |
| `Lotto.DedupLast` | script.js:42-44 | when the size first reaches 6, the last ball drawn was new and five distinct balls came before it |
| `Lotto.FirstSix` | script.js:41-44 | the first six distinct balls of a stream are six distinct values in [1, 45] |
| `Lotto.Insert` | script.js:45 | one insertion step of the sort keeps the elements and adds the new one, as a multiset |
| `Lotto.InsertAscending` | script.js:45 | inserting into an ascending list keeps it ascending |
| `Lotto.InsertStrict` | script.js:45 | inserting a new value into a strictly ascending list keeps it strictly ascending |
| `Lotto.Sort` | script.js:45 | the numeric sort is a permutation, ascending, and strictly ascending on distinct input |
| `Lotto.LottoOf` | script.js:40-46 | the result of one draw is a valid lotto set: 6 elements, each in [1, 45], strictly ascending, and exactly the first six distinct balls of the stream |
| `Lotto.DrawEnd` | script.js:42-45 | the draw that stops when the set first holds six balls returns the sorted set as `LottoOf`, made of the balls drawn |
| `Lotto.DrawBalls` | script.js:41-44 | the `while` loop ends after at least one draw with the set of six balls drawn so far, and the set held fewer than six before the last draw |
| `Lotto.GenerateLottoNumbers` | script.js:40-46 | the `while` loop returns that lotto set; its elements are the balls of the values it consumed; it consumes at least 6 values and stops right after the sixth distinct ball |
| `Pension.PaddedSerial` | script.js:54 | `String(serial).padStart(6, '0')` is six ASCII digits that read back as the serial |
| `Pension.PensionNumber` | script.js:54-55 | `"<group>조 <serial>"` is one digit 1..5 that reads as the group, then `조` and a space, then six ASCII digits that read back as the serial |
| `Pension.PensionNumberInjective` | script.js:54-55 | two pension numbers print the same exactly when group and serial are equal |
| `Pension.GeneratePensionNumbers` | script.js:52-56 | every draw has the pension-number shape |
| `Pension.GroupReachable` | script.js:53 | every group 1..5 is drawn by some random value |
| `Pension.SerialReachable` | script.js:54 | every serial in [0, 999999] is drawn by some random value |
| `Pension.EveryPensionNumberReachable` | script.js:52-56 | every group in 1..5 and serial in [0, 999999] is a possible draw |
| `Display.ValueSpans` | script.js:83-87 | one span per value, none of them a placeholder, and reading them back gives the values |
| `Display.SingleSet` | script.js:68-88 | a set's item carries the title "i번째 세트: " and reads back as the set's values; an empty set shows only the "생성 실패 🥲" placeholder |
| `Display.Rendered` | script.js:96-114 | an empty collection renders as the single "눌러봐!" prompt item; otherwise one item per set, item i titled with i + 1 and reading back as set i |
| `Display.ReadItem` | script.js:174-175 | reading an item yields at most one text per span |
| `Display.Scrape` | script.js:173-176 | the read-back yields only non-empty sets, at most one per item |
| `Display.ScrapeItems` | script.js:173-176 | the read-back of a list of items is the non-empty ones of what the items read as, in order |
| `Display.ScrapeRendered` | script.js:96-114 | render then read back returns every displayed non-empty set as its strings, in order; the prompt and failed sets are dropped |
| `Display.NonEmptyAll` | script.js:176 | the filter keeps a list of non-empty sets whole |
| `Display.Container.Displayed` | script.js:173-176 | what the send handlers read from a container consists of non-empty sets |
| `Display.Container.DisplayMultipleSets` | script.js:96-114 | the container holds the rendered items, and reading it back gives the non-empty sets shown |
| `Generate.BuildLottoSets` | script.js:147-151 | exactly `numSets` entries in call order; entry i is the draw on the i-th stream and is a valid lotto set |
| `Generate.BuildPensionSets` | script.js:159-163 | exactly `numSets` entries in call order; each is a one-element list holding a pension number |
| `Generate.LottoTexts` | script.js:85 | a span's text for each ball is a digit string that reads back as the ball |
| `Generate.AllLottoTexts` | script.js:85 | six texts per lotto set; the j-th text of set i is a digit string that reads back as that set's j-th ball |
| `Generate.OnGenerateLotto` | script.js:145-154 | after the click the container holds exactly `displayMultipleSets` of the `numSets` new lotto sets' texts (the prompt when `numSets` is 0), reads back as those sets in order, and the status reports `numSets` |
| `Generate.OnGeneratePension` | script.js:157-166 | after the click the container holds exactly `displayMultipleSets` of the `numSets` new one-element pension sets (the prompt when `numSets` is 0), reads back as those sets in order, and the status reports `numSets` |
| `Share.AppendSetLines` | script.js:260-262 | the `forEach` appends line i for set i, in list order |
| `Share.AppendSection` | script.js:258-263 | a section is appended only when its list is non-empty |
| `Share.BuildShareText` | script.js:256-272 | the `+=` assembly produces the share text |
| `Share.SetLineLayout` | script.js:261 | a numbered line is a two-space indent, the set's number in decimal (reading back as that number), "세트: ", then the set's values joined by ", " |
| `Share.SetLinesTerminated` | script.js:260-262 | a section's numbered lines are its line list, each ended by a line feed |
| `Share.SectionTerminated` | script.js:258-263 | a section is empty for no sets, otherwise a blank line, its count line and its numbered lines, each ended by a line feed |
| `Share.ShareText` | script.js:256-272 | the share text is the header line, the sections and the footer line joined by line feeds |
| `Share.SectionLayout` | script.js:258-263 | a present section is a blank line, its count line, then line i for set i in list order; an absent one has no lines |
| `Share.ShareLayout` | script.js:256-272 | the lines are the fixed header, the lotto section, the pension section, a blank line and the fixed footer, in that order |
| `Share.SetLineListIndented` | script.js:261 | every numbered line starts with a space |
| `Share.ShareLineKind` | script.js:256-272 | every line is the header, blank, the footer, a numbered line (starting with a space) or the count line of a present section |
| `Share.MarkedLine` | script.js:256-272 | a line starting with a character other than a space or the header's and footer's first characters is the count line of a present section |
| `Share.LottoPresence` | script.js:258-263 | a line starting with 🍀 appears exactly when the lotto list is non-empty, and every such line is the lotto count line |
| `Share.PensionPresence` | script.js:265-270 | a line starting with 💰 appears exactly when the pension list is non-empty, and every such line is the pension count line |
| `Send.IsValidPhone` | script.js:195 | the phone check passes exactly when the number has 10 or 11 characters, all ASCII digits |
| `Send.SendSms` | script.js:169-200 | no sets gives `NoSets` whatever the phone input; otherwise an all-whitespace input gives `EmptyPhone`; otherwise `Ok` exactly when the trimmed number has 10-11 characters, all ASCII digits, with the trimmed number and the displayed sets as the request; `BadPhone` in every other case |
| `Send.SmsStatus` | script.js:186-200 | every refusal is shown as an error; the accepted case is not and starts with the phone number |
| `Send.KakaoStatus` | script.js:249-287 | only an opened share window is reported without an error; nothing to share gives the same message as the SMS button |
| `Send.SendKakao` | script.js:236-288 | no sets gives `NothingToShare` and nothing is shared; otherwise the share text is handed to the SDK exactly when it is initialised, with the page URL as both links; the status is the one `KakaoStatus` gives for the outcome |

## Left out

- Uniformity of `Math.random()` and the floating-point rounding of `Math.random() * n`: randoms are exact reals in [0, 1).
- Probabilistic termination of the lotto loop: `Lotto.GenerateLottoNumbers` requires a stream with at least six distinct balls, and the loop's measure is the number of randoms left.
- The builders get one random stream (or pair) per set instead of one shared random source; what each call consumes does not affect the next.
- Real DOM APIs, element classes other than `placeholder`, and CSS colours: a container is only a list of items of spans. The page's initial container contents are in the HTML, which is not part of this model; `Display.Container.constructor` takes them as given.
- The Kakao SDK (`Kakao.init`, `Kakao.Share.sendDefault`): `Kakao.isInitialized()` is the parameter `sdkReady`, the SDK call is the returned `ShareRequest`, and `window.location.href` is the parameter `pageUrl`.
- `showStatusMessage`'s DOM write and its `setTimeout` clear after 5 seconds (event-loop timing, including a stale timer clearing a newer message); the greeting shown at page load (script.js:294).
- The commented-out `fetch('/api/send-sms')` block and all `console.log` output: network I/O and logging. The SMS handler ends at the request it would send.
- `parseInt` of the dropdown values: `numSets` is a given natural number.
- JavaScript's conversion of non-string array elements in `join`: the sets read back from the page are already strings.
