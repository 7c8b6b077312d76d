/**
 * Reading one draw's result page. The HTML document and its CSS selectors
 * are replaced by the texts of the elements each selector picks out, in
 * document order; what is modelled is the clean-up and parsing of those
 * texts, which fields are required, and how failures surface from the fetch.
 */
module Crawler {
  import opened SwiftText
  import opened Results

  /** The texts of the selected page elements. */
  datatype SelectedTexts = SelectedTexts(
    /** `div.win_result h4 strong`, e.g. "1197회" */
    roundTexts: seq<string>,
    /** `div.win_result p.desc`, e.g. "(2025년 11월 08일 추첨)" */
    dateTexts: seq<string>,
    /** `div.num.win span.ball_645` */
    winningBallTexts: seq<string>,
    /** `div.num.bonus span.ball_645` */
    bonusBallTexts: seq<string>,
    /** `table.tbl_data tbody tr`, each row as the texts of its `td` cells */
    rows: seq<seq<string>>,
    /** `ul.list_text_common li`; None when selecting it throws */
    salesItems: Option<seq<string>>)

  const RoundUnit: string := "회"
  const DateOpen: string := "("
  const DateClose: string := " 추첨)"
  const ThousandsSeparator: string := ","
  /** Of a results-table row, the cell that holds the number of winners. */
  const WinnerCountColumn: nat := 2
  const SalesLabel: string := "총판매금액"
  const SalesPrefix: string := "총판매금액 : "
  const WonUnit: string := "원"

  // ---------------------------------------------------------------------
  // The steps of the parse, one per field.

  /** The first round text without its unit, as an Int. */
  function RoundOf(roundTexts: seq<string>): Option<int> {
    if |roundTexts| == 0 then None else ParseInt(RemoveAll(roundTexts[0], RoundUnit))
  }

  /** The date caption without the parenthesis and the trailing "추첨)". */
  function CleanDrawDate(text: string): (r: string)
    ensures '(' !in r
    ensures |r| <= |text|
  {
    RemoveAll(RemoveAll(text, DateOpen), DateClose)
  }

  /** A caption of the page's form, "(" + date + " 추첨)", cleans to exactly the date. */
  lemma CleanDrawDateOfCaption(caption: string, date: string)
    requires caption == DateOpen + date + DateClose
    requires '(' !in date && ')' !in date
    ensures CleanDrawDate(caption) == date
  {
    var rest := date + DateClose;
    assert caption[..1] == DateOpen && caption[1..] == rest;
    assert '(' !in rest;
    RemoveAbsentChar(rest, DateOpen);
    LastCharBlocksEarlierOccurrence(date, DateClose);
    assert date + DateClose + "" == rest;
    RemoveFirstOccurrence(date, "", DateClose);
    assert date + "" == date;
  }

  function BonusOf(bonusBallTexts: seq<string>): Option<int> {
    if |bonusBallTexts| == 0 then None else ParseInt(bonusBallTexts[0])
  }

  /** The winner count of one results-table row, thousands separators removed. */
  function WinnerCountOf(cells: seq<string>): Option<int> {
    if |cells| <= WinnerCountColumn then None
    else ParseInt(RemoveAll(cells[WinnerCountColumn], ThousandsSeparator))
  }

  /** Row `rank - 1` exists and its winner count parses. */
  predicate HasWinnerCount(rows: seq<seq<string>>, rank: int) {
    1 <= rank <= |rows| && WinnerCountOf(rows[rank - 1]).Some?
  }

  function WinnerCountAt(rows: seq<seq<string>>, rank: int): int
    requires HasWinnerCount(rows, rank)
  {
    WinnerCountOf(rows[rank - 1]).value
  }

  /** Prize tier `index + 1` of every row whose winner count parses. */
  function WinnerCountsOf(rows: seq<seq<string>>): map<int, int> {
    map rank | 1 <= rank <= |rows| && HasWinnerCount(rows, rank) :: WinnerCountAt(rows, rank)
  }

  /** The sales text without its label and currency unit, trimmed. */
  function CleanSales(text: string): (r: string)
    ensures '원' !in r
    ensures |r| > 0 ==> !IsWhitespace(r[0]) && !IsWhitespace(r[|r| - 1])
  {
    var bare := RemoveAll(RemoveAll(text, SalesPrefix), WonUnit);
    TrimEnds(bare);
    TrimChars(bare);
    Trim(bare)
  }

  /** An item of the page's form, label + figure + "원", cleans to the trimmed figure. */
  lemma CleanSalesOfItem(item: string, figure: string)
    requires item == SalesPrefix + figure + WonUnit
    requires '총' !in figure && '원' !in figure
    ensures CleanSales(item) == Trim(figure)
  {
    var rest := figure + WonUnit;
    assert item == SalesPrefix + rest;
    assert item[..|SalesPrefix|] == SalesPrefix && item[|SalesPrefix|..] == rest;
    forall j | 0 <= j <= |rest| ensures !OccursAt(rest, SalesPrefix, j) {
      if j + |SalesPrefix| <= |rest| {
        assert rest[j] == figure[j];
        assert rest[j..j + |SalesPrefix|][0] == rest[j];
      }
    }
    RemoveAbsent(rest, SalesPrefix);
    RemoveCharAppend(figure, WonUnit, WonUnit);
    RemoveAbsentChar(figure, WonUnit);
    assert figure + "" == figure;
  }

  /** The cleaned text of the first item that carries the sales label, or "". */
  function TotalSalesOf(items: seq<string>): string {
    if |items| == 0 then ""
    else if Contains(items[0], SalesLabel) then CleanSales(items[0])
    else TotalSalesOf(items[1..])
  }

  /** The fields a result cannot do without: round, date, bonus and a non-empty summary list. */
  predicate ParseSucceeds(page: SelectedTexts) {
    && RoundOf(page.roundTexts).Some?
    && |page.dateTexts| > 0
    && BonusOf(page.bonusBallTexts).Some?
    && page.salesItems.Some? && |page.salesItems.value| > 0
  }

  /** The result the page yields when it has the required fields. */
  function ParsedResult(page: SelectedTexts): LottoResult
    requires ParseSucceeds(page)
  {
    LottoResult(
      RoundOf(page.roundTexts).value,
      ParseInts(page.winningBallTexts),
      CleanDrawDate(page.dateTexts[0]),
      BonusOf(page.bonusBallTexts).value,
      WinnerCountsOf(page.rows),
      TotalSalesOf(page.salesItems.value))
  }

  /**
   * `parseLottoResult`: nil when the round, the date, the bonus or the summary
   * list is missing or unreadable; otherwise every field as its step reads it,
   * the winning numbers and winner counts keeping only what parses.
   */
  method ParseLottoResult(page: SelectedTexts) returns (result: Option<LottoResult>)
    ensures result.Some? <==> ParseSucceeds(page)
    ensures result.Some? ==> result.value == ParsedResult(page)
  {
    var round := RoundOf(page.roundTexts);
    if round.None? {
      return None;
    }
    if |page.dateTexts| == 0 {
      return None;
    }
    var drawDate := CleanDrawDate(page.dateTexts[0]);
    var numbers := ParseInts(page.winningBallTexts);
    var bonus := BonusOf(page.bonusBallTexts);
    if bonus.None? {
      return None;
    }

    var winnerCounts: map<int, int> := map[];
    for index := 0 to |page.rows|
      invariant winnerCounts == WinnerCountsOf(page.rows[..index])
    {
      var rank := index + 1;
      WinnerCountsStep(page.rows, index);
      match WinnerCountOf(page.rows[index]) {
        case Some(count) => winnerCounts := winnerCounts[rank := count];
        case None =>
      }
    }
    assert page.rows[..|page.rows|] == page.rows;

    if page.salesItems.None? || |page.salesItems.value| == 0 {
      return None;
    }
    var items := page.salesItems.value;
    var totalSales := "";
    var i := 0;
    while i < |items|
      invariant 0 <= i <= |items|
      invariant totalSales == ""
      invariant TotalSalesOf(items[i..]) == TotalSalesOf(items)
    {
      if Contains(items[i], SalesLabel) {
        totalSales := CleanSales(items[i]);
        break;
      }
      assert items[i..][1..] == items[i + 1..];
      i := i + 1;
    }

    result := Some(LottoResult(round.value, numbers, drawDate, bonus.value, winnerCounts, totalSales));
  }

  // ---------------------------------------------------------------------
  // Properties of the parse.

  /** Only tiers 1..rows.count can appear, and a row's tier is present exactly when its count parses. */
  lemma WinnerCountsTiers(rows: seq<seq<string>>)
    ensures forall rank :: rank in WinnerCountsOf(rows) ==> 1 <= rank <= |rows|
    ensures forall k :: 0 <= k < |rows| ==> (k + 1 in WinnerCountsOf(rows) <==> WinnerCountOf(rows[k]).Some?)
    ensures forall k :: 0 <= k < |rows| && WinnerCountOf(rows[k]).Some? ==> WinnerCountsOf(rows)[k + 1] == WinnerCountOf(rows[k]).value
  {
    forall k | 0 <= k < |rows| ensures k + 1 in WinnerCountsOf(rows) <==> WinnerCountOf(rows[k]).Some? {
      assert HasWinnerCount(rows, k + 1) <==> WinnerCountOf(rows[k]).Some?;
    }
  }

  /** Reading one more row adds its tier exactly when its count parses. */
  lemma WinnerCountsStep(rows: seq<seq<string>>, index: nat)
    requires index < |rows|
    ensures WinnerCountsOf(rows[..index + 1]) ==
      match WinnerCountOf(rows[index])
      case Some(count) => WinnerCountsOf(rows[..index])[index + 1 := count]
      case None => WinnerCountsOf(rows[..index])
  {
    var before, after := rows[..index], rows[..index + 1];
    var m0, m1 := WinnerCountsOf(before), WinnerCountsOf(after);
    forall rank | 1 <= rank <= index
      ensures HasWinnerCount(after, rank) == HasWinnerCount(before, rank)
      ensures HasWinnerCount(before, rank) ==> WinnerCountAt(after, rank) == WinnerCountAt(before, rank)
    {
      assert after[rank - 1] == before[rank - 1];
    }
    assert HasWinnerCount(after, index + 1) <==> WinnerCountOf(rows[index]).Some?;
    var target := match WinnerCountOf(rows[index])
      case Some(count) => m0[index + 1 := count]
      case None => m0;
    forall rank
      ensures rank in m1 <==> rank in target
      ensures rank in m1 ==> m1[rank] == target[rank]
    {
      if rank == index + 1 {
      } else if 1 <= rank <= index {
        assert rank in m1 <==> HasWinnerCount(after, rank);
        assert rank in m0 <==> HasWinnerCount(before, rank);
      } else {
        assert rank !in m1 && rank !in m0;
      }
    }
    assert m1 == target;
  }

  /** No summary item carrying the sales label: the sales figure is empty, not a failure. */
  lemma {:induction false} TotalSalesAbsent(items: seq<string>)
    requires forall k :: 0 <= k < |items| ==> !Contains(items[k], SalesLabel)
    ensures TotalSalesOf(items) == ""
  {
    if |items| > 0 {
      TotalSalesAbsent(items[1..]);
    }
  }

  /**
   * The sales figure is the cleaned text of the first labelled item: it has
   * no currency unit and no surrounding whitespace.
   */
  lemma {:induction false} TotalSalesFirstLabelled(items: seq<string>, k: nat)
    requires k < |items| && Contains(items[k], SalesLabel)
    requires forall j :: 0 <= j < k ==> !Contains(items[j], SalesLabel)
    ensures TotalSalesOf(items) == CleanSales(items[k])
  {
    if k > 0 {
      TotalSalesFirstLabelled(items[1..], k - 1);
    }
  }

  /**
   * The winning numbers are the readable ball texts, in order: an unreadable
   * text drops out and leaves the others as they were, and when every text
   * reads nothing is dropped. No count of six is enforced.
   */
  lemma WinningNumbersTolerant(page: SelectedTexts)
    requires ParseSucceeds(page)
    ensures |ParsedResult(page).numbers| <= |page.winningBallTexts|
    ensures forall j :: 0 <= j < |page.winningBallTexts| && ParseInt(page.winningBallTexts[j]).None? ==>
              ParsedResult(page).numbers ==
                ParseInts(page.winningBallTexts[..j]) + ParseInts(page.winningBallTexts[j + 1..])
    ensures (forall j :: 0 <= j < |page.winningBallTexts| ==> ParseInt(page.winningBallTexts[j]).Some?) ==>
              ParsedResult(page).numbers == seq(|page.winningBallTexts|, j requires 0 <= j < |page.winningBallTexts| => ParseInt(page.winningBallTexts[j]).value)
  {
    var texts := page.winningBallTexts;
    assert ParsedResult(page).numbers == ParseInts(texts);
    UnreadableTextsDropOut(texts);
    if forall j :: 0 <= j < |texts| ==> ParseInt(texts[j]).Some? {
      ParseIntsAllParse(texts);
    }
  }

  lemma UnreadableTextsDropOut(texts: seq<string>)
    ensures forall j :: 0 <= j < |texts| && ParseInt(texts[j]).None? ==>
              ParseInts(texts) == ParseInts(texts[..j]) + ParseInts(texts[j + 1..])
  {
    forall j | 0 <= j < |texts| && ParseInt(texts[j]).None?
      ensures ParseInts(texts) == ParseInts(texts[..j]) + ParseInts(texts[j + 1..])
    {
      ParseIntsSkips(texts, j);
    }
  }

  // ---------------------------------------------------------------------
  // Fetching: the request, the outcome of the download, and the error mapping.

  datatype CrawlerError = InvalidURL | DecodingFailed | ParsingFailed

  datatype FetchError =
    | CrawlerFailure(reason: CrawlerError)
    /** an error thrown by the network layer, rethrown unchanged */
    | TransportFailure

  /**
   * What the network and the EUC-KR decoder make of the request: a transport
   * error, or a body that decodes (to the page's selected texts) or does not.
   */
  datatype Download = TransportFailed | Received(decoded: Option<SelectedTexts>)

  /** Swift's `async throws -> LottoResult?`: a returned optional or a thrown error. */
  datatype FetchOutcome = Returned(result: Option<LottoResult>) | Threw(error: FetchError)

  const ResultPagePrefix: string := "https://dhlottery.co.kr/gameResult.do?method=byWin&drwNo="

  function ResultPageUrl(round: int): (url: string)
    ensures |url| > |ResultPagePrefix| && url[..|ResultPagePrefix|] == ResultPagePrefix
  {
    ResultPagePrefix + FormatInt(round)
  }

  /** The request names the round asked for: the text after `drwNo=` reads back as it. */
  lemma ResultPageUrlNamesRound(round: int)
    requires InIntRange(round)
    ensures ParseInt(ResultPageUrl(round)[|ResultPagePrefix|..]) == Some(round)
  {
    assert ResultPageUrl(round)[|ResultPagePrefix|..] == FormatInt(round);
    ParseFormatRoundTrip(round);
  }

  /**
   * `fetchLottoWinningData`: requests the round's page, then throws
   * `.decodingFailed` when the body does not decode and `.parsingFailed`
   * when it does not parse. It never returns nil.
   */
  method FetchLottoWinningData(round: int, download: Download) returns (url: string, outcome: FetchOutcome)
    ensures url == ResultPageUrl(round)
    ensures outcome != Returned(None)
    ensures download == TransportFailed ==> outcome == Threw(TransportFailure)
    ensures download == Received(None) ==> outcome == Threw(CrawlerFailure(DecodingFailed))
    ensures download.Received? && download.decoded.Some? ==>
              if ParseSucceeds(download.decoded.value)
              then outcome == Returned(Some(ParsedResult(download.decoded.value)))
              else outcome == Threw(CrawlerFailure(ParsingFailed))
  {
    url := ResultPageUrl(round);
    match download {
      case TransportFailed =>
        outcome := Threw(TransportFailure);
      case Received(decoded) =>
        if decoded.None? {
          outcome := Threw(CrawlerFailure(DecodingFailed));
        } else {
          var parsed := ParseLottoResult(decoded.value);
          if parsed.None? {
            outcome := Threw(CrawlerFailure(ParsingFailed));
          } else {
            outcome := Returned(parsed);
          }
        }
    }
  }

  // ---------------------------------------------------------------------
  // The two file-level helpers (not called by the parser).

  /**
   * `extractWinningNumbers`: the readable texts among all `.ball_645`
   * elements, in order, cut to the first six.
   */
  method ExtractWinningNumbers(ballTexts: seq<string>) returns (numbers: seq<int>)
    ensures |numbers| == if |ParseInts(ballTexts)| > 6 then 6 else |ParseInts(ballTexts)|
    ensures numbers == ParseInts(ballTexts)[..|numbers|]
  {
    numbers := [];
    var i := 0;
    while i < |ballTexts|
      invariant 0 <= i <= |ballTexts|
      invariant numbers + ParseInts(ballTexts[i..]) == ParseInts(ballTexts)
    {
      assert ballTexts[i..][1..] == ballTexts[i + 1..];
      match ParseInt(ballTexts[i]) {
        case Some(num) => numbers := numbers + [num];
        case None =>
      }
      i := i + 1;
    }
    assert ballTexts[i..] == [];
    if |numbers| > 6 {
      numbers := numbers[..6];
    }
  }

  /** `extractBonusNumber`: the first bonus ball's value, or 0 when it is missing or unreadable. */
  function ExtractBonusNumber(bonusTexts: seq<string>): (n: int)
    ensures BonusOf(bonusTexts).Some? ==> n == BonusOf(bonusTexts).value
    ensures BonusOf(bonusTexts).None? ==> n == 0
  {
    if |bonusTexts| > 0 && ParseInt(bonusTexts[0]).Some? then ParseInt(bonusTexts[0]).value else 0
  }
}
