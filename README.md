# LottoApp core, modelled in Dafny

LottoApp is an iOS app for the Korean "Lotto 6/45" game.
- It generates tickets of six different random numbers from 1 to 45.
- It takes the week's winning numbers in one of two ways: typed by hand, or fetched from the official results page for a round.
- It reads the QR code printed on a paper ticket.
- It shows how many numbers each ticket matches.

This project models the app's logic and proves what it promises. There is one module per source file, plus two modules of Swift primitives.

- `SwiftText` (`swift_text.dfy`) holds the Swift and Foundation operations the logic is built from, on `string` = `seq<char>`:
  - `Int(String)`, with an optional sign, ASCII digits and the 64-bit range;
  - decimal interpolation;
  - truncating `/` and `%`;
  - `range(of:)`, `replacingOccurrences(of:with: "")` and `trimmingCharacters(in: .whitespaces)`;
  - `components(separatedBy:)`, `compactMap { Int($0) }`, `reversed()` and `filter { $0.isNumber }`.
- `Sorting` (`sorting.dfy`) is `sorted()` on `[Int]`. It is defined as insertion sort, and a lemma shows that any ascending permutation is the same list.
- `LottoConstants` (`lotto_constants.dfy`) holds the game constants and the ball colour of a number.
- `Tickets` (`lotto_ticket.dfy`) is the ticket value and its sorted view, with the "six different numbers from 1 to 45" predicate.
- `Results` (`lotto_result.dfy`) is the record of one draw.
- `Crawler` (`lotto_crawler.dfy`) covers the results page:
  - the URL of the request;
  - how a page's selected texts become a result, or nil;
  - how a download's failures become thrown errors.
- `ViewModel` (`lotto_view_model.dfy`) has two parts:
  - the QR decoder (`parseQRUrl`, `extractNumbers`), written as loops and proved against the recursive decoder `DecodeQr`;
  - the class `LottoViewModel`. Its methods update the ticket lists, the winning numbers and the fetch status.
- `Views` (`content_view.dfy`) is the purchase logic of the main screen: the ticket count and the change warning for a typed amount, the purchase and alert actions on the class `ContentView`, and the colour of a match count.

The network, the EUC-KR decoder and the HTML library are inputs to the model:
- a `Download` is either a transport failure or a body that decodes, or does not, to the page's selected element texts (`SelectedTexts`);
- `localizedDescription` is a function parameter `describe`.

Random draws are a nondeterministic choice (`:|`) of a number not yet drawn.

Observations about the code that the model follows:
- `extractNumbers` sorts, so a decoded ticket stores its numbers ascending, not in payload order. The QR decoder's step `IsValidGame` therefore sees the sorted list.
- `parseLottoResult` checks neither the count of winning numbers nor whether the bonus ball differs from them. `extractBonusNumber` looks only at the first bonus element.
- `fetchLottoWinningData` never returns nil: it returns a result or throws. So `fetchWinningData` always ends with the loading flag cleared.
- `setWinningNumbers` does not reject repeated numbers (`DuplicateWinningNumbersAccepted`).
- `canCheckResult` needs scanned tickets, not generated ones.

## Model

| member | source | states |
|---|---|---|
| SwiftText.ParseInt | LottoApp/ViewModels/LottoViewModel.swift:164 | a parsed value fits in 64 bits and comes from a text of digits, with at least one digit and at most a leading sign; a run of digits, alone or after `+`, parses to its decimal value and after `-` to its negation, each exactly when that value is within 64 bits, and to nil otherwise |
| SwiftText.ParseFormatRoundTrip | LottoApp/ViewModels/LottoViewModel.swift:72 | every 64-bit integer written in decimal parses back to itself |
| SwiftText.FormatInt | LottoApp/Views/ContentView.swift:137 | the decimal text is non-empty, starts with '-' exactly for negative numbers and is otherwise digits |
| SwiftText.SwiftDiv | LottoApp/Utility/LottoConstants.swift:24 | the quotient truncates toward zero: q·b ≤ a < q·b + b for a ≥ 0, and the mirror image for a < 0 |
| SwiftText.SwiftRem | LottoApp/Views/ContentView.swift:136 | quotient·b + remainder == a, the remainder is smaller than b in size and has the sign of a |
| SwiftText.FindFirst | LottoApp/ViewModels/LottoViewModel.swift:117 | the result is an occurrence of the pattern with none before it; no result means no occurrence anywhere |
| SwiftText.RemoveAll | LottoApp/Utility/LottoCrawler.swift:71 | the text only shrinks, keeps only its own characters, and a one-character pattern disappears entirely; a one-character text is removed exactly when it is the pattern |
| SwiftText.RemoveAbsent | LottoApp/Utility/LottoCrawler.swift:102 | removing a pattern that does not occur leaves the text unchanged |
| SwiftText.RemoveAllKeepsPrefix | LottoApp/Utility/LottoCrawler.swift:78-80 | a prefix in which the pattern starts nowhere is kept as it is, and the removal goes on after it |
| SwiftText.RemoveFirstOccurrence | LottoApp/Utility/LottoCrawler.swift:78-80 | the first occurrence is removed and the text before it is kept as it is |
| SwiftText.RemoveCharAppend | LottoApp/Utility/LottoCrawler.swift:118 | removing one character works piece by piece: on a + b it is the removal on a, then on b, so every other character is kept in order |
| SwiftText.RemoveAbsentChar | LottoApp/Utility/LottoCrawler.swift:118 | removing a character that does not occur leaves the text unchanged |
| SwiftText.LastCharBlocksEarlierOccurrence | LottoApp/Utility/LottoCrawler.swift:80 | when a pattern's last character occurs neither earlier in it nor in d, the pattern occurs in d + pattern only at the end |
| SwiftText.LeadingWhitespace | LottoApp/Utility/LottoCrawler.swift:119 | the count is within the text, and the character after it is not whitespace |
| SwiftText.TrailingWhitespace | LottoApp/Utility/LottoCrawler.swift:119 | the count is within the text, and the character before it is not whitespace |
| SwiftText.LeadingWhitespaceOfBlank | LottoApp/Utility/LottoCrawler.swift:119 | in a text of whitespace only, the leading whitespace is the whole text |
| SwiftText.Trim | LottoApp/Utility/LottoCrawler.swift:119 | the trimmed text is no longer than the original |
| SwiftText.TrimEnds | LottoApp/Utility/LottoCrawler.swift:119 | a non-empty trimmed text neither starts nor ends with whitespace |
| SwiftText.TrimChars | LottoApp/Utility/LottoCrawler.swift:119 | the trimmed text holds only characters of the original |
| SwiftText.TrimBlank | LottoApp/Utility/LottoCrawler.swift:119 | a text of whitespace only trims to the empty text |
| SwiftText.TrimUnchanged | LottoApp/Utility/LottoCrawler.swift:119 | a text with no whitespace at either end is left as it is |
| SwiftText.TrimCutsWhitespace | LottoApp/Utility/LottoCrawler.swift:119 | the original is its leading whitespace, then the trimmed text, then whitespace: only whitespace at the ends is cut |
| SwiftText.TrimIdempotent | LottoApp/Utility/LottoCrawler.swift:119 | trimming twice gives what trimming once gives |
| SwiftText.Split | LottoApp/ViewModels/LottoViewModel.swift:71 | there is at least one part and no part holds the separator |
| SwiftText.JoinSplit | LottoApp/ViewModels/LottoViewModel.swift:71 | joining the parts with the separator gives back the text |
| SwiftText.SplitCount | LottoApp/ViewModels/LottoViewModel.swift:71 | there is one more part than there are separators, so neighbouring spaces give empty parts |
| SwiftText.Reversed | LottoApp/ViewModels/LottoViewModel.swift:103 | the reversed list keeps the length |
| SwiftText.ReversedIndex | LottoApp/ViewModels/LottoViewModel.swift:103 | entry k of the reversed list is entry n-1-k of the list |
| SwiftText.Digits | LottoApp/ViewModels/LottoViewModel.swift:128 | the result is digits only, no longer than the text, keeps every digit character, and is the text itself when that is all digits; one character is kept exactly when it is a digit |
| SwiftText.DigitsAppend | LottoApp/ViewModels/LottoViewModel.swift:128 | the filter works piece by piece: the digits of a + b are the digits of a, then those of b, in order |
| SwiftText.ParseInts | LottoApp/Utility/LottoCrawler.swift:83-86 | no more values than texts; each value is in range and is what some text parses to; one text gives its value, or nothing when it does not parse |
| SwiftText.ParseIntsAppend | LottoApp/Utility/LottoCrawler.swift:83-86 | reading texts works piece by piece: the values of a + b are those of a, then those of b |
| SwiftText.ParseIntsSkips | LottoApp/Utility/LottoCrawler.swift:83-86 | an unreadable text drops out, and the texts before and after it are read as if it were not there |
| SwiftText.ParseIntsAllParse | LottoApp/Utility/LottoCrawler.swift:83-86 | when every text parses nothing is dropped: value j is text j's value |
| Sorting.Sort | LottoApp/Model/LottoTicket.swift:15 | the result is ascending, as long as the input and a permutation of it |
| Sorting.SortedUnique | LottoApp/Model/LottoTicket.swift:15 | two ascending lists with the same elements are equal, so the sort is determined |
| Sorting.SortOfSorted | LottoApp/Model/LottoTicket.swift:15 | sorting an ascending list changes nothing |
| Sorting.SortIdempotent | LottoApp/Model/LottoTicket.swift:15 | sorting twice gives what sorting once gives |
| Sorting.SortSameSet | LottoApp/Model/LottoTicket.swift:15 | sorting keeps the set of elements, both ways |
| LottoConstants.BallColor | LottoApp/Utility/LottoConstants.swift:15-25 | 1-10 is yellow, 11-20 blue, 21-30 red, 31-40 black, and 41 or more green, each both ways |
| LottoConstants.BallColorDefinedExactly | LottoApp/Utility/LottoConstants.swift:15-25 | the colour list is indexed in bounds exactly for numbers -8..50, so 51 or more would trap |
| LottoConstants.BallColorIndexMonotone | LottoApp/Utility/LottoConstants.swift:23-25 | a bigger number never gets an earlier colour |
| Tickets.LottoTicket.SortedNumbers | LottoApp/Model/LottoTicket.swift:14-16 | the sorted view is ascending and a permutation of the ticket's numbers |
| Tickets.SortedNumbersIdempotent | LottoApp/Model/LottoTicket.swift:14-16 | the sorted view of a sorted view is itself |
| Tickets.SortedNumbersOfSorted | LottoApp/Model/LottoTicket.swift:14-16 | a ticket stored ascending is its own sorted view |
| Tickets.SortedNumbersSameSet | LottoApp/Model/LottoTicket.swift:14-16 | the sorted view has the same set of numbers |
| Tickets.SortedDrawnNumbers | LottoApp/Model/LottoTicket.swift:14-16 | sorting six different numbers from 1 to 45 gives six different numbers from 1 to 45 |
| Tickets.NumberSetSize | LottoApp/ViewModels/LottoViewModel.swift:141 | a list has at most as many different numbers as entries, with equality exactly when no number repeats |
| Crawler.CleanDrawDate | LottoApp/Utility/LottoCrawler.swift:78-80 | the cleaned date has no opening parenthesis and is no longer than the caption |
| Crawler.CleanDrawDateOfCaption | LottoApp/Utility/LottoCrawler.swift:78-80 | a caption "(" + date + " 추첨)", with no parenthesis in the date, cleans to exactly the date |
| Crawler.CleanSales | LottoApp/Utility/LottoCrawler.swift:116-119 | the sales figure holds no currency unit and does not start or end with whitespace |
| Crawler.CleanSalesOfItem | LottoApp/Utility/LottoCrawler.swift:116-119 | an item "총판매금액 : " + figure + "원" cleans to exactly the trimmed figure |
| Crawler.ParseLottoResult | LottoApp/Utility/LottoCrawler.swift:66-137 | the result exists exactly when the round, the date, the bonus and a non-empty summary list are present and readable, and then every field is its step's reading of the page |
| Crawler.WinnerCountsTiers | LottoApp/Utility/LottoCrawler.swift:94-105 | only tiers 1..rows.count appear, and tier k+1 is present, holding row k's count, exactly when that count parses |
| Crawler.WinnerCountsStep | LottoApp/Utility/LottoCrawler.swift:97-104 | reading one more row adds its tier exactly when its count parses |
| Crawler.TotalSalesAbsent | LottoApp/Utility/LottoCrawler.swift:112-122 | with no item carrying the sales label the sales figure is empty, and the parse does not fail |
| Crawler.TotalSalesFirstLabelled | LottoApp/Utility/LottoCrawler.swift:112-122 | the sales figure is the cleaned text of the first labelled item, and later items are ignored |
| Crawler.WinningNumbersTolerant | LottoApp/Utility/LottoCrawler.swift:82-86 | the winning numbers are at most the ball texts; an unreadable ball text drops out and the others are read as before; when all parse they are exactly their values in order; no count of six is enforced |
| Crawler.ResultPageUrl | LottoApp/Utility/LottoCrawler.swift:15 | the request URL begins with the results-page address |
| Crawler.ResultPageUrlNamesRound | LottoApp/Utility/LottoCrawler.swift:15 | the text after `drwNo=` reads back as the round asked for |
| Crawler.FetchLottoWinningData | LottoApp/Utility/LottoCrawler.swift:12-64 | the fetch never returns nil: a transport error is rethrown, an undecodable body throws decodingFailed, an unparseable page throws parsingFailed, and otherwise the parsed result is returned |
| Crawler.ExtractWinningNumbers | LottoApp/Utility/LottoCrawler.swift:139-156 | the readable ball texts, in order, cut to the first six |
| Crawler.ExtractBonusNumber | LottoApp/Utility/LottoCrawler.swift:158-165 | the first bonus ball's value, or 0 when it is missing or unreadable |
| ViewModel.ExtractNumbers | LottoApp/ViewModels/LottoViewModel.swift:155-171 | the loop returns the readable two-character pieces ascending (PairValues, then Sort) |
| ViewModel.PairValuesOfDigits | LottoApp/ViewModels/LottoViewModel.swift:159-169 | on digits every piece reads: there are n/2 numbers, and number k is digits 2k and 2k+1 in base ten |
| ViewModel.TwoDigitParse | LottoApp/ViewModels/LottoViewModel.swift:163-164 | two digits parse to ten times the first plus the second |
| ViewModel.GameNumbers | LottoApp/ViewModels/LottoViewModel.swift:136-137 | a 12-digit game gives six ascending numbers, a permutation of its six 2-digit values |
| ViewModel.ValidGameIsDrawn | LottoApp/ViewModels/LottoViewModel.swift:139-141 | the validity test (six numbers, all 1..45, six different ones in the set) holds exactly for six different numbers from 1 to 45 |
| ViewModel.ParseQRUrl | LottoApp/ViewModels/LottoViewModel.swift:114-153 | the loop over 12-digit games returns exactly the recursive decoding `DecodeQr` of the URL |
| ViewModel.DecodeQrWithoutMarker | LottoApp/ViewModels/LottoViewModel.swift:117 | without `v=` there is neither a round nor a ticket |
| ViewModel.DecodeQrAtFirstMarker | LottoApp/ViewModels/LottoViewModel.swift:117-128 | after the first `v=`: fewer than four characters give nothing; otherwise the round is those four characters read as a number, absent when they do not read, and the tickets are the games of the digits after them |
| ViewModel.DecodeGamesBound | LottoApp/ViewModels/LottoViewModel.swift:133-150 | at most one ticket per full 12-digit game |
| ViewModel.DecodedTicketsAreGames | LottoApp/ViewModels/LottoViewModel.swift:139-147 | every decoded ticket is six different numbers from 1 to 45, stored ascending, and is its own sorted view |
| ViewModel.DecodeEachGameAppend | LottoApp/ViewModels/LottoViewModel.swift:133-150 | games decode independently: splitting the digits at a game boundary splits the tickets |
| ViewModel.DecodeGamesIgnoresPartialGame | LottoApp/ViewModels/LottoViewModel.swift:134 | a trailing piece shorter than a game adds no ticket |
| ViewModel.KeepInRange | LottoApp/ViewModels/LottoViewModel.swift:73 | the kept values are all in 1..45 and no more than the input; a value occurs in the result exactly when it occurs in the input and lies in 1..45; all are kept when all are in range; one value is kept exactly when it is in range |
| ViewModel.KeepInRangeAppend | LottoApp/ViewModels/LottoViewModel.swift:73 | the filter works piece by piece: on a + b it keeps what it keeps of a, then of b, in order |
| ViewModel.WinningCandidates | LottoApp/ViewModels/LottoViewModel.swift:71-73 | the candidates are all in 1..45, no more than the space-separated tokens, and each is the value of some token |
| ViewModel.FormatAll | LottoApp/ViewModels/LottoViewModel.swift:71-72 | one decimal text per value |
| ViewModel.SplitJoin | LottoApp/ViewModels/LottoViewModel.swift:71 | splitting undoes joining when no part holds the separator |
| ViewModel.FormattedHasNoSpace | LottoApp/ViewModels/LottoViewModel.swift:71 | a decimal text holds no space |
| ViewModel.WinningLineRoundTrip | LottoApp/ViewModels/LottoViewModel.swift:70-76 | typing six numbers from 1 to 45 separated by spaces yields exactly those six numbers as candidates |
| ViewModel.WinningLineSkipsToken | LottoApp/ViewModels/LottoViewModel.swift:70-77 | a line of six numbers from 1 to 45 with one extra token that does not read, or reads out of range (e.g. "x" or "99"), still yields exactly those six candidates |
| ViewModel.DuplicateWinningNumbersAccepted | LottoApp/ViewModels/LottoViewModel.swift:70-76 | a line repeating a number still yields six candidates, which are not all different |
| ViewModel.Hits | LottoApp/ViewModels/LottoViewModel.swift:79-85 | the reference match count is at most the ticket's length |
| ViewModel.CommonSetSize | LottoApp/ViewModels/LottoViewModel.swift:82-84 | for a ticket without repeats, the size of the common set equals the number of ticket entries among the winning numbers |
| ViewModel.CommonSetBound | LottoApp/ViewModels/LottoViewModel.swift:82-84 | the common set is no larger than either list |
| ViewModel.DrawNumbers | LottoApp/ViewModels/LottoViewModel.swift:41-44 | the drawing loop ends with six different numbers from 1 to 45 |
| ViewModel.FreshNumberExists | LottoApp/ViewModels/LottoViewModel.swift:42-43 | with fewer than six numbers chosen, a number from 1 to 45 is still free, so the drawing loop can go on |
| ViewModel.LottoViewModel.constructor | LottoApp/ViewModels/LottoViewModel.swift:6-15 | everything starts empty, not loading, with no error |
| ViewModel.LottoViewModel.GenerateTicket | LottoApp/ViewModels/LottoViewModel.swift:40-48 | the old tickets are kept and one random game is appended |
| ViewModel.LottoViewModel.GenerateTickets | LottoApp/ViewModels/LottoViewModel.swift:51-68 | for count > 0 the old tickets are kept and exactly count random games are appended, and for count ≤ 0 nothing changes |
| ViewModel.LottoViewModel.SetWinningNumbers | LottoApp/ViewModels/LottoViewModel.swift:70-77 | with exactly six candidates the winning numbers become them ascending, as a permutation; otherwise nothing changes; a change always leaves six ascending numbers from 1 to 45 |
| ViewModel.LottoViewModel.MatchCount | LottoApp/ViewModels/LottoViewModel.swift:79-85 | 0 without winning numbers, and never more than either list's length |
| ViewModel.MatchCountIsHits | LottoApp/ViewModels/LottoViewModel.swift:79-85 | for a ticket without repeats, the match count is the number of its entries that are winning numbers |
| ViewModel.LottoViewModel.CanCheckResult | LottoApp/ViewModels/LottoViewModel.swift:87-89 | results can be checked exactly when there are winning numbers and scanned tickets |
| ViewModel.LottoViewModel.AddTicketFromQR | LottoApp/ViewModels/LottoViewModel.swift:91-112 | nothing changes and nothing is fetched without decoded tickets; otherwise they go, last game first, in front of the scanned list, the payload's round is fetched, and results can be checked once winning numbers exist |
| ViewModel.LottoViewModel.FetchWinningData | LottoApp/ViewModels/LottoViewModel.swift:17-37 | loading always ends; success replaces the fetched and the winning numbers and clears the error; each thrown error records the prefixed message and keeps both number lists |
| Views.PurchaseCount | LottoApp/Views/ContentView.swift:123-126 | 0 unless the amount parses and is at least 1000; otherwise the number of whole 1000-won tickets, at least one |
| Views.CanPurchase | LottoApp/Views/ContentView.swift:128-130 | the purchase button is enabled exactly when the amount parses and is at least 1000 |
| Views.ChangeAlertMessage | LottoApp/Views/ContentView.swift:133-138 | the message is empty exactly when the amount does not parse |
| Views.ChangeSplit | LottoApp/Views/ContentView.swift:135-136 | count·1000 + change == amount; the change is 0..999 for a non-negative amount; an amount of 1000 or more buys at least one ticket |
| Views.AlertNamesPurchaseCount | LottoApp/Views/ContentView.swift:133-137 | the alert opens with the number of tickets the purchase will buy, followed by the ticket unit, and that number reads back |
| Views.AlertNamesChange | LottoApp/Views/ContentView.swift:133-137 | between the ticket unit and the closing question the alert holds a number that reads back as the amount less count·1000: 1..999 when the purchase leaves change, 0 otherwise |
| Views.PurchaseSpendsAmount | LottoApp/Views/ContentView.swift:140-155 | buying the purchase count spends the amount less its change, and the change is non-zero exactly when less than the whole amount is spent |
| Views.ResultColor | LottoApp/Views/ContentView.swift:316-324 | 6 is red, 5 orange, 4 blue, 3 green, each both ways, and every other count is gray |
| Views.ContentView.constructor | LottoApp/Views/ContentView.swift:11-16 | a fresh view model without tickets, an empty amount and no alert |
| Views.ContentView.CompletePurchase | LottoApp/Views/ContentView.swift:152-157 | when the amount buys a ticket, exactly purchase-count random games are appended and the amount is cleared; otherwise nothing changes |
| Views.ContentView.PurchaseTickets | LottoApp/Views/ContentView.swift:140-149 | no-op for an amount that buys no ticket; an amount leaving change raises the alert and buys nothing; an exact amount is bought at once and cleared |
| Views.ContentView.CancelChange | LottoApp/Views/ContentView.swift:39-42 | the amount is cleared, no ticket is bought and the alert is dismissed |
| Views.ContentView.ConfirmChange | LottoApp/Views/ContentView.swift:43-45 | the alert is dismissed and the purchase is completed |

## Left out

- Network I/O: `URLSession`, the HTTP status and the data size are not modelled. A `Download` input stands for the transport's outcome.
- `URL(string:)` always succeeds on the results-page address, so the `invalidURL` error is never thrown. The model has that error constructor but no path to it.
- EUC-KR decoding is a foreign charset table. It is modelled only as a body that decodes or does not.
- SwiftSoup is not modelled: HTML parsing, the CSS selectors and `.text()` whitespace normalisation are taken as given. A page is the list of texts each selector picks out. The SwiftSoup errors inside `parseLottoResult` are not modelled, except that an unreadable summary list is `None`.
- `ViewModel.LottoViewModel.FetchWinningData`: `localizedDescription` is the parameter `describe`. On a value of type `Error`, the text comes from Foundation's bridging, which is not visible here.
- Concurrency is not modelled: `async`/`await`, `MainActor.run` and the `Task` that `addTicketFromQR` starts. `AddTicketFromQR` returns the round to be fetched instead of starting the fetch.
- `print` logging.
- `ViewModel.DrawNumbers`: the `Int.random` loop is a nondeterministic choice of a number not yet in the set. A draw that repeats a number changes nothing in the source, so those draws are skipped. Uniformity and probabilistic termination are not modelled. The source's `Array(Set)` order is unspecified and is modelled as the order of choice.
- `Character.isNumber` accepts non-ASCII digits as well. The model keeps only ASCII digits. `String.count` counts grapheme clusters; here a string is a sequence of characters.
- `ViewModel.ExtractNumbers`: on an odd-length text, Swift's `index(_:offsetBy: 2)` would trap at the last character. The model stops there, as the `nextIndex > endIndex` guard intends. Its only caller passes 12 characters, so the trap is never reached.
- `Tickets.LottoTicket`, `Results.LottoResult`: tickets and results are compared by value, and the `UUID` ids are left out.
- SwiftUI work is not modelled: layout, the fields `inputNumber`, `roundNumber` and `isInputActive`, the fetch, winning-number and check-result buttons (which call the modelled view-model methods), and the alert's automatic dismissal. `CancelChange` and `ConfirmChange` clear `showChangeAlert` the way the alert's binding does.
- `QRScannerView.swift`, `LottoTicketView.swift` and `LottoBallView.swift` are not part of this model: they are camera and rendering code.
- `Views.ResultColor`: SwiftUI `Color` is an enumeration holding only the colours the app uses.
