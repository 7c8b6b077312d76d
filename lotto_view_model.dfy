/**
 * The app's observable state holder: generated and scanned tickets, the
 * winning numbers and the fetch status, together with the decoder for the QR
 * code printed on a paper ticket.
 *
 * QR payload: everything after the first `v=` is the data; its first four
 * characters are the round, and the ASCII digits of the rest are cut into
 * 12-digit games of six 2-digit numbers. A game is kept when its six numbers
 * are 1..45 and pairwise different; other games (padding on the paper
 * ticket) are dropped without stopping the decoding, and a trailing piece
 * shorter than a game is ignored.
 */
module ViewModel {
  import opened SwiftText
  import opened Sorting
  import opened LottoConstants
  import opened Tickets
  import opened Crawler

  // ---------------------------------------------------------------------
  // QR decoding.

  const QrMarker: string := "v="
  /** characters of the round after the marker */
  const RoundLength: nat := 4
  /** digits per encoded game */
  const GameLength: nat := 12
  /** digits per encoded number */
  const PairLength: nat := 2

  datatype QrParseOutcome = QrParseOutcome(round: Option<int>, tickets: seq<LottoTicket>)

  /** The readable two-character pieces of `s`, left to right; an odd last character is ignored. */
  function PairValues(s: string): seq<int>
    decreases |s|
  {
    if |s| < PairLength then []
    else
      PieceValue(s[..PairLength]) + PairValues(s[PairLength..])
  }

  /**
   * `extractNumbers(from:)`: reads the string two characters at a time,
   * keeps the pieces that parse, and returns them ascending.
   */
  method ExtractNumbers(s: string) returns (result: seq<int>)
    ensures result == Sort(PairValues(s))
  {
    var values: seq<int> := [];
    var i: nat := 0;
    while i < |s|
      invariant i <= |s|
      invariant values + PairValues(s[i..]) == PairValues(s)
      decreases |s| - i
    {
      if i + PairLength > |s| {
        break;
      }
      var piece := s[i..i + PairLength];
      PairValuesStep(s, i);
      values := values + PieceValue(piece);
      i := i + PairLength;
    }
    assert PairValues(s[i..]) == [];
    assert values == PairValues(s);
    result := Sort(values);
  }

  /** The value of one two-character piece, or nothing when it does not read. */
  function PieceValue(piece: string): seq<int> {
    match ParseInt(piece)
    case Some(v) => [v]
    case None => []
  }

  lemma PairValuesStep(s: string, i: nat)
    requires i + PairLength <= |s|
    ensures PairValues(s[i..]) == PieceValue(s[i..i + PairLength]) + PairValues(s[i + PairLength..])
  {
    assert s[i..][..PairLength] == s[i..i + PairLength];
    assert s[i..][PairLength..] == s[i + PairLength..];
  }

  lemma TwoDigitParse(p: string)
    requires |p| == 2 && AllDigits(p)
    ensures ParseInt(p) == Some(10 * DigitValue(p[0]) + DigitValue(p[1]))
  {
    assert p[..1][..0] == [];
    assert DigitsValue(p[..1]) == DigitValue(p[0]);
  }

  /** On a run of digits every piece parses: the k-th number is digits 2k and 2k+1 read in base ten. */
  lemma {:induction false} PairValuesOfDigits(s: string)
    requires AllDigits(s)
    ensures |PairValues(s)| == |s| / 2
    ensures forall k :: 0 <= k < |s| / 2 ==>
              PairValues(s)[k] == 10 * DigitValue(s[2 * k]) + DigitValue(s[2 * k + 1])
    decreases |s|
  {
    if |s| >= 2 {
      var rest := s[2..];
      PairValuesOfDigits(rest);
      TwoDigitParse(s[..2]);
      forall k | 1 <= k < |s| / 2
        ensures PairValues(s)[k] == 10 * DigitValue(s[2 * k]) + DigitValue(s[2 * k + 1])
      {
        assert s[2 * k] == rest[2 * (k - 1)];
        assert s[2 * k + 1] == rest[2 * (k - 1) + 1];
      }
    }
  }

  /** The source's `isValidTicket` test on the numbers of one game. */
  predicate IsValidGame(numbers: seq<int>) {
    && |numbers| == LotteryNumberSize
    && (forall k :: 0 <= k < |numbers| ==> numbers[k] >= 1 && numbers[k] <= MaximumNumber)
    && |NumberSet(numbers)| == LotteryNumberSize
  }

  /** `Set(numbers).count == 6` on six numbers is the same as their being pairwise different. */
  lemma ValidGameIsDrawn(numbers: seq<int>)
    ensures IsValidGame(numbers) <==> IsDrawnNumbers(numbers)
  {
    NumberSetSize(numbers);
  }

  /** The ticket of one 12-digit game, or nothing for a dummy game. */
  function GameTickets(game: string): seq<LottoTicket> {
    var numbers := Sort(PairValues(game));
    if IsValidGame(numbers) then [LottoTicket(numbers)] else []
  }

  /**
   * Applies `decode` to each full 12-digit game of `digits`, front to back,
   * and joins the results; a trailing piece shorter than a game is no game.
   */
  function DecodeEachGame(digits: string, decode: string -> seq<LottoTicket>): seq<LottoTicket>
    decreases |digits|
  {
    if |digits| < GameLength then []
    else decode(digits[..GameLength]) + DecodeEachGame(digits[GameLength..], decode)
  }

  /** The tickets of a digit string, front to back, dummy games left out. */
  function DecodeGames(digits: string): seq<LottoTicket> {
    DecodeEachGame(digits, GameTickets)
  }

  lemma DecodeEachGameStep(digits: string, i: nat, decode: string -> seq<LottoTicket>)
    requires i + GameLength <= |digits|
    ensures DecodeEachGame(digits[i..], decode) ==
              decode(digits[i..i + GameLength]) + DecodeEachGame(digits[i + GameLength..], decode)
  {
    assert digits[i..][..GameLength] == digits[i..i + GameLength];
    assert digits[i..][GameLength..] == digits[i + GameLength..];
  }

  /** What `parseQRUrl` returns for `url`. */
  function DecodeQr(url: string): QrParseOutcome {
    match FindFirst(url, QrMarker)
    case None => QrParseOutcome(None, [])
    case Some(at) =>
      var data := url[at + |QrMarker|..];
      if |data| < RoundLength then QrParseOutcome(None, [])
      else QrParseOutcome(ParseInt(data[..RoundLength]), DecodeGames(Digits(data[RoundLength..])))
  }

  /** `parseQRUrl`: the round and the valid games of a scanned payload. */
  method ParseQRUrl(url: string) returns (outcome: QrParseOutcome)
    ensures outcome == DecodeQr(url)
  {
    var found := FindFirst(url, QrMarker);
    if found.None? {
      return QrParseOutcome(None, []);
    }
    var data := url[found.value + |QrMarker|..];
    if |data| < RoundLength {
      return QrParseOutcome(None, []);
    }
    var round := ParseInt(data[..RoundLength]);
    data := data[RoundLength..];
    var digits := Digits(data);
    var parsed: seq<LottoTicket> := [];
    var i: nat := 0;
    while i < |digits|
      invariant i <= |digits|
      invariant parsed + DecodeGames(digits[i..]) == DecodeGames(digits)
      decreases |digits| - i
    {
      if i + GameLength > |digits| {
        break;
      }
      var game := digits[i..i + GameLength];
      var numbers := ExtractNumbers(game);
      if IsValidGame(numbers) {
        KeptGameStep(digits, i, parsed, numbers);
        parsed := parsed + [LottoTicket(numbers)];
      } else {
        DroppedGameStep(digits, i, parsed, numbers);
      }
      i := i + GameLength;
    }
    assert DecodeGames(digits[i..]) == [];
    assert parsed == DecodeGames(digits);
    outcome := QrParseOutcome(round, parsed);
  }

  /** A valid game read by the loop of `parseQRUrl` adds its ticket, as DecodeGames does. */
  lemma KeptGameStep(digits: string, i: nat, parsed: seq<LottoTicket>, numbers: seq<int>)
    requires i + GameLength <= |digits|
    requires numbers == Sort(PairValues(digits[i..i + GameLength])) && IsValidGame(numbers)
    requires parsed + DecodeGames(digits[i..]) == DecodeGames(digits)
    ensures (parsed + [LottoTicket(numbers)]) + DecodeGames(digits[i + GameLength..]) == DecodeGames(digits)
  {
    assert GameTickets(digits[i..i + GameLength]) == [LottoTicket(numbers)];
    DecodeEachGameStep(digits, i, GameTickets);
  }

  /** A dummy game read by the loop of `parseQRUrl` adds nothing, as in DecodeGames. */
  lemma DroppedGameStep(digits: string, i: nat, parsed: seq<LottoTicket>, numbers: seq<int>)
    requires i + GameLength <= |digits|
    requires numbers == Sort(PairValues(digits[i..i + GameLength])) && !IsValidGame(numbers)
    requires parsed + DecodeGames(digits[i..]) == DecodeGames(digits)
    ensures parsed + DecodeGames(digits[i + GameLength..]) == DecodeGames(digits)
  {
    assert GameTickets(digits[i..i + GameLength]) == [];
    DecodeEachGameStep(digits, i, GameTickets);
    assert DecodeGames(digits[i..]) == DecodeGames(digits[i + GameLength..]);
  }

  /** At most one ticket per full 12-digit game. */
  lemma {:induction false} DecodeGamesBound(digits: string)
    ensures |DecodeGames(digits)| <= |digits| / GameLength
    decreases |digits|
  {
    if |digits| >= GameLength {
      DecodeGamesBound(digits[GameLength..]);
    }
  }

  /** A kept game is six different numbers from 1 to 45, ascending. */
  lemma GameTicketsAreGames(game: string)
    ensures forall t :: t in GameTickets(game) ==> IsDrawnNumbers(t.numbers) && Sorted(t.numbers)
  {
    ValidGameIsDrawn(Sort(PairValues(game)));
  }

  /**
   * Every decoded ticket is six different numbers from 1 to 45, stored
   * ascending, so its sorted view is its own list.
   */
  lemma {:induction false} DecodedTicketsAreGames(digits: string)
    ensures forall t :: t in DecodeGames(digits) ==> IsDrawnNumbers(t.numbers) && Sorted(t.numbers)
    ensures forall t :: t in DecodeGames(digits) ==> t.SortedNumbers() == t.numbers
    decreases |digits|
  {
    if |digits| >= GameLength {
      GameTicketsAreGames(digits[..GameLength]);
      DecodedTicketsAreGames(digits[GameLength..]);
      assert DecodeGames(digits) == GameTickets(digits[..GameLength]) + DecodeGames(digits[GameLength..]);
    }
    forall t | t in DecodeGames(digits) ensures t.SortedNumbers() == t.numbers {
      SortedNumbersOfSorted(t);
    }
  }

  /** Games are decoded independently: splitting the digits at a game boundary splits the results. */
  lemma {:induction false} DecodeEachGameAppend(front: string, back: string, decode: string -> seq<LottoTicket>)
    requires |front| % GameLength == 0
    ensures DecodeEachGame(front + back, decode) == DecodeEachGame(front, decode) + DecodeEachGame(back, decode)
    decreases |front|
  {
    if |front| > 0 {
      var game := front[..GameLength];
      var tail := front[GameLength..];
      assert front + back == game + (tail + back);
      assert (game + (tail + back))[..GameLength] == game;
      assert (game + (tail + back))[GameLength..] == tail + back;
      DecodeEachGameAppend(tail, back, decode);
    } else {
      assert front + back == back;
    }
  }

  /** A trailing piece shorter than a game adds no ticket. */
  lemma DecodeGamesIgnoresPartialGame(front: string, partial: string)
    requires |front| % GameLength == 0 && |partial| < GameLength
    ensures DecodeGames(front + partial) == DecodeGames(front)
  {
    DecodeEachGameAppend(front, partial, GameTickets);
    assert DecodeGames(partial) == [];
  }

  /** The numbers of a 12-digit game are the six 2-digit values of its digits, ascending. */
  lemma GameNumbers(game: string)
    requires |game| == GameLength && AllDigits(game)
    ensures var numbers := Sort(PairValues(game));
            && |numbers| == LotteryNumberSize && Sorted(numbers)
            && multiset(numbers) == multiset(seq(6, k requires 0 <= k < 6 =>
                                     10 * DigitValue(game[2 * k]) + DigitValue(game[2 * k + 1])))
  {
    PairValuesOfDigits(game);
    var pairs := seq(6, k requires 0 <= k < 6 => 10 * DigitValue(game[2 * k]) + DigitValue(game[2 * k + 1]));
    assert PairValues(game) == pairs;
  }

  /** Without a `v=` marker there is neither a round nor a ticket. */
  lemma DecodeQrWithoutMarker(url: string)
    requires forall j :: 0 <= j <= |url| ==> !OccursAt(url, QrMarker, j)
    ensures DecodeQr(url) == QrParseOutcome(None, [])
  {
  }

  /**
   * Decoding at the first `v=`: fewer than four characters after it give
   * nothing; otherwise the round is those four characters read as a number
   * (absent when they do not read), independently of the tickets, which are
   * the games of the digits after them.
   */
  lemma DecodeQrAtFirstMarker(url: string, at: nat)
    requires OccursAt(url, QrMarker, at)
    requires forall j :: 0 <= j < at ==> !OccursAt(url, QrMarker, j)
    ensures |url| < at + |QrMarker| + RoundLength ==> DecodeQr(url) == QrParseOutcome(None, [])
    ensures |url| >= at + |QrMarker| + RoundLength ==>
              var start := at + |QrMarker|;
              DecodeQr(url) == QrParseOutcome(
                ParseInt(url[start..start + RoundLength]),
                DecodeGames(Digits(url[start + RoundLength..])))
  {
    assert FindFirst(url, QrMarker) == Some(at);
    var start := at + |QrMarker|;
    if |url| >= start + RoundLength {
      var data := url[start..];
      assert data[..RoundLength] == url[start..start + RoundLength];
      assert data[RoundLength..] == url[start + RoundLength..];
    }
  }

  // ---------------------------------------------------------------------
  // Winning numbers typed in by hand.

  /** `filter { (1...45).contains($0) }`. */
  function KeepInRange(values: seq<int>): (r: seq<int>)
    ensures |r| <= |values|
    ensures forall k :: 0 <= k < |r| ==> InNumberRange(r[k])
    ensures forall x :: x in r <==> x in values && InNumberRange(x)
    ensures (forall k :: 0 <= k < |values| ==> InNumberRange(values[k])) ==> r == values
    ensures |values| == 1 ==> r == if InNumberRange(values[0]) then values else []
  {
    if |values| == 0 then []
    else
      var rest := KeepInRange(values[1..]);
      assert values == [values[0]] + values[1..];
      if InNumberRange(values[0]) then [values[0]] + rest else rest
  }

  /**
   * The filter works piece by piece: the kept values of `a + b` are those of
   * `a`, then those of `b`; with the one-value case this fixes how many
   * values are kept, repeats included, and their order.
   */
  lemma {:induction false} KeepInRangeAppend(a: seq<int>, b: seq<int>)
    ensures KeepInRange(a + b) == KeepInRange(a) + KeepInRange(b)
    decreases |a|
  {
    if |a| > 0 {
      assert (a + b)[0] == a[0] && (a + b)[1..] == a[1..] + b;
      KeepInRangeAppend(a[1..], b);
    } else {
      assert a + b == b;
    }
  }

  /**
   * The candidate winning numbers in an input line: the space-separated
   * numbers from 1 to 45, at most one per space-separated token.
   */
  function WinningCandidates(input: string): (r: seq<int>)
    ensures forall k :: 0 <= k < |r| ==> InNumberRange(r[k])
    ensures |r| <= |Split(input, ' ')|
    ensures forall x :: x in r ==> x in ParseInts(Split(input, ' '))
  {
    KeepInRange(ParseInts(Split(input, ' ')))
  }

  /** The decimal texts of `values`, one per value. */
  function FormatAll(values: seq<int>): (texts: seq<string>)
    ensures |texts| == |values|
    ensures forall k :: 0 <= k < |values| ==> texts[k] == FormatInt(values[k])
  {
    if |values| == 0 then [] else [FormatInt(values[0])] + FormatAll(values[1..])
  }

  /** A line of numbers separated by single spaces, as a user would type it. */
  function WinningLine(values: seq<int>): string {
    Join(FormatAll(values), ' ')
  }

  lemma {:induction false} SplitWithoutSeparator(s: string, sep: char)
    requires sep !in s
    ensures Split(s, sep) == [s]
  {
    if |s| > 0 {
      SplitWithoutSeparator(s[1..], sep);
      assert [s[0]] + s[1..] == s;
    }
  }

  lemma {:induction false} SplitAtSeparator(p: string, sep: char, t: string)
    requires sep !in p
    ensures Split(p + [sep] + t, sep) == [p] + Split(t, sep)
    decreases |p|
  {
    if |p| == 0 {
      assert p + [sep] + t == [sep] + t;
      assert ([sep] + t)[1..] == t;
    } else {
      var s := p + [sep] + t;
      assert s[1..] == p[1..] + [sep] + t;
      SplitAtSeparator(p[1..], sep, t);
      assert [p[0]] + p[1..] == p;
    }
  }

  /** Split undoes Join when no part holds the separator. */
  lemma {:induction false} SplitJoin(parts: seq<string>, sep: char)
    requires |parts| >= 1
    requires forall k :: 0 <= k < |parts| ==> sep !in parts[k]
    ensures Split(Join(parts, sep), sep) == parts
    decreases |parts|
  {
    if |parts| == 1 {
      SplitWithoutSeparator(parts[0], sep);
    } else {
      SplitJoin(parts[1..], sep);
      SplitAtSeparator(parts[0], sep, Join(parts[1..], sep));
      assert [parts[0]] + parts[1..] == parts;
    }
  }

  lemma FormattedHasNoSpace(n: int)
    ensures ' ' !in FormatInt(n)
  {
    var s := FormatInt(n);
    forall k | 0 <= k < |s| ensures s[k] != ' ' {
    }
  }

  /**
   * Typing six numbers from 1 to 45 separated by spaces gives exactly those
   * numbers as candidates, so `setWinningNumbers` stores them ascending.
   */
  lemma WinningLineRoundTrip(values: seq<int>)
    requires |values| == LotteryNumberSize
    requires forall k :: 0 <= k < |values| ==> InNumberRange(values[k])
    ensures WinningCandidates(WinningLine(values)) == values
  {
    WinningLineSplits(values);
    FormattedValuesParse(values);
  }

  lemma WinningLineSplits(values: seq<int>)
    requires |values| >= 1
    ensures Split(WinningLine(values), ' ') == FormatAll(values)
  {
    var texts := FormatAll(values);
    forall k | 0 <= k < |texts| ensures ' ' !in texts[k] {
      FormattedHasNoSpace(values[k]);
    }
    SplitJoin(texts, ' ');
  }

  lemma FormattedValuesParse(values: seq<int>)
    requires forall k :: 0 <= k < |values| ==> InIntRange(values[k])
    ensures ParseInts(FormatAll(values)) == values
  {
    var texts := FormatAll(values);
    forall k | 0 <= k < |texts| ensures ParseInt(texts[k]) == Some(values[k]) {
      ParseFormatRoundTrip(values[k]);
    }
    ParseIntsAllParse(texts);
  }

  /**
   * A token that does not read as a number from 1 to 45 ("x", "99", or an
   * empty token from a double space) is skipped, and the six numbers around
   * it are taken in order.
   */
  lemma WinningLineSkipsToken(values: seq<int>, k: nat, token: string)
    requires |values| == LotteryNumberSize && k <= |values|
    requires forall i :: 0 <= i < |values| ==> InNumberRange(values[i])
    requires ' ' !in token
    requires ParseInt(token).None? || !InNumberRange(ParseInt(token).value)
    ensures WinningCandidates(Join(FormatAll(values[..k]) + [token] + FormatAll(values[k..]), ' ')) == values
  {
    var a, b := values[..k], values[k..];
    var parts := FormatAll(a) + [token] + FormatAll(b);
    PartsWithoutSpace(a, token, b);
    SplitJoin(parts, ' ');
    SkippedTokenValues(a, token, b);
    assert a + b == values;
  }

  lemma PartsWithoutSpace(a: seq<int>, token: string, b: seq<int>)
    requires ' ' !in token
    ensures var parts := FormatAll(a) + [token] + FormatAll(b);
            forall i :: 0 <= i < |parts| ==> ' ' !in parts[i]
  {
    var parts := FormatAll(a) + [token] + FormatAll(b);
    forall i | 0 <= i < |parts| ensures ' ' !in parts[i] {
      if i < |a| {
        FormattedHasNoSpace(a[i]);
      } else if i > |a| {
        FormattedHasNoSpace(b[i - |a| - 1]);
      }
    }
  }

  lemma SkippedTokenValues(a: seq<int>, token: string, b: seq<int>)
    requires forall i :: 0 <= i < |a| ==> InNumberRange(a[i])
    requires forall i :: 0 <= i < |b| ==> InNumberRange(b[i])
    requires ParseInt(token).None? || !InNumberRange(ParseInt(token).value)
    ensures KeepInRange(ParseInts(FormatAll(a) + [token] + FormatAll(b))) == a + b
  {
    var skipped := ParseInts([token]);
    SkippedTokenParses(a, token, b);
    assert KeepInRange(skipped) == [];
    KeepAround(a, skipped, b);
  }

  lemma SkippedTokenParses(a: seq<int>, token: string, b: seq<int>)
    requires forall i :: 0 <= i < |a| ==> InIntRange(a[i])
    requires forall i :: 0 <= i < |b| ==> InIntRange(b[i])
    ensures ParseInts(FormatAll(a) + [token] + FormatAll(b)) == a + ParseInts([token]) + b
  {
    var fa, fb := FormatAll(a), FormatAll(b);
    ParseIntsAppend(fa + [token], fb);
    ParseIntsAppend(fa, [token]);
    FormattedValuesParse(a);
    FormattedValuesParse(b);
  }

  lemma KeepAround(a: seq<int>, skipped: seq<int>, b: seq<int>)
    requires forall i :: 0 <= i < |a| ==> InNumberRange(a[i])
    requires forall i :: 0 <= i < |b| ==> InNumberRange(b[i])
    requires KeepInRange(skipped) == []
    ensures KeepInRange(a + skipped + b) == a + b
  {
    KeepBefore(a, skipped);
    KeepInRangeAppend(a + skipped, b);
  }

  lemma KeepBefore(a: seq<int>, skipped: seq<int>)
    requires forall i :: 0 <= i < |a| ==> InNumberRange(a[i])
    requires KeepInRange(skipped) == []
    ensures KeepInRange(a + skipped) == a
  {
    KeepInRangeAppend(a, skipped);
    assert a + [] == a;
  }

  /**
   * Repeats are not rejected: a line typing 1 twice is still taken as six
   * winning numbers. (`WinningLineRoundTrip` shows this for any six values
   * from 1 to 45, distinct or not; this is one such line.)
   */
  lemma DuplicateWinningNumbersAccepted(values: seq<int>)
    requires values == [1, 1, 2, 3, 4, 5]
    ensures WinningCandidates(WinningLine(values)) == values && |values| == LotteryNumberSize
    ensures !Distinct(values)
  {
    WinningLineRoundTrip(values);
    assert values[0] == values[1];
  }

  // ---------------------------------------------------------------------
  // Matching.

  /** How many entries of `numbers` are among `winning`: the reference count of matches. */
  function Hits(numbers: seq<int>, winning: seq<int>): (n: nat)
    ensures n <= |numbers|
  {
    if |numbers| == 0 then 0
    else (if numbers[0] in winning then 1 else 0) + Hits(numbers[1..], winning)
  }

  /** For a list without repeats, the size of the common set is the number of hits. */
  lemma {:induction false} CommonSetSize(numbers: seq<int>, winning: seq<int>)
    requires Distinct(numbers)
    ensures |NumberSet(numbers) * NumberSet(winning)| == Hits(numbers, winning)
    decreases |numbers|
  {
    if |numbers| > 0 {
      var rest := numbers[1..];
      NumberSetCons(numbers);
      assert Distinct(rest);
      assert numbers[0] !in NumberSet(rest) by {
        if numbers[0] in rest {
          RepeatedHead(numbers);
        }
      }
      CommonSetSize(rest, winning);
      AddToCommonSet(numbers[0], NumberSet(rest), NumberSet(winning));
    }
  }

  lemma AddToCommonSet(x: int, rest: set<int>, winning: set<int>)
    requires x !in rest
    ensures |({x} + rest) * winning| == (if x in winning then 1 else 0) + |rest * winning|
  {
    if x in winning {
      assert ({x} + rest) * winning == {x} + rest * winning;
    } else {
      assert ({x} + rest) * winning == rest * winning;
    }
  }

  lemma CommonSetBound(a: seq<int>, b: seq<int>)
    ensures |NumberSet(a) * NumberSet(b)| <= |a|
    ensures |NumberSet(a) * NumberSet(b)| <= |b|
  {
    var sa, sb := NumberSet(a), NumberSet(b);
    NumberSetSize(a);
    NumberSetSize(b);
    assert |sa - sb| == |sa| - |sa * sb|;
    assert sb * sa == sa * sb;
    assert |sb - sa| == |sb| - |sb * sa|;
  }

  // ---------------------------------------------------------------------
  // Random games.

  lemma FreshNumberExists(chosen: set<int>)
    requires |chosen| < LotteryNumberSize
    ensures exists n :: InNumberRange(n) && n !in chosen
  {
    var six: set<int> := {1, 2, 3, 4, 5, 6};
    assert |six| == 6;
    var missing := six - chosen;
    assert |missing| > 0;
    var n :| n in missing;
    assert InNumberRange(n);
  }

  /**
   * The inner loop of `generateTicket(s)`: random numbers from 1 to 45 go
   * into a set until it holds six. A draw already in the set leaves it
   * unchanged, so only the draws that add a number are modelled; the set's
   * order is left open.
   */
  method DrawNumbers() returns (numbers: seq<int>)
    ensures IsDrawnNumbers(numbers)
  {
    numbers := [];
    while |numbers| < LotteryNumberSize
      invariant |numbers| <= LotteryNumberSize
      invariant forall k :: 0 <= k < |numbers| ==> InNumberRange(numbers[k])
      invariant Distinct(numbers)
      decreases LotteryNumberSize - |numbers|
    {
      NumberSetSize(numbers);
      FreshNumberExists(NumberSet(numbers));
      var n :| InNumberRange(n) && n !in NumberSet(numbers);
      numbers := numbers + [n];
    }
  }

  /** `after` is `before` followed by `count` random games. */
  predicate AppendedDraws(before: seq<LottoTicket>, after: seq<LottoTicket>, count: nat) {
    && |after| == |before| + count
    && after[..|before|] == before
    && forall k :: |before| <= k < |after| ==> IsDrawnNumbers(after[k].numbers)
  }

  const FetchErrorPrefix: string := "당첨 번호를 가져올 수 없습니다: "

  // ---------------------------------------------------------------------

  class LottoViewModel {
    var tickets: seq<LottoTicket>
    var winningNumbers: seq<int>
    var showResults: bool
    var fetchedWinningNumbers: seq<int>
    var isLoading: bool
    var errorMessage: Option<string>
    var scannedTickets: seq<LottoTicket>

    constructor ()
      ensures tickets == [] && winningNumbers == [] && !showResults
      ensures fetchedWinningNumbers == [] && !isLoading && errorMessage == None
      ensures scannedTickets == []
    {
      tickets := [];
      winningNumbers := [];
      showResults := false;
      fetchedWinningNumbers := [];
      isLoading := false;
      errorMessage := None;
      scannedTickets := [];
    }

    /** `generateTicket`: appends one random game. */
    method GenerateTicket()
      modifies this`tickets
      ensures AppendedDraws(old(tickets), tickets, 1)
    {
      var numbers := DrawNumbers();
      tickets := tickets + [LottoTicket(numbers)];
    }

    /** `generateTickets(count:)`: appends `count` random games at once; nothing for `count <= 0`. */
    method GenerateTickets(count: int)
      modifies this`tickets
      ensures count <= 0 ==> tickets == old(tickets)
      ensures count > 0 ==> AppendedDraws(old(tickets), tickets, count)
    {
      if count <= 0 {
        return;
      }
      var newTickets: seq<LottoTicket> := [];
      for i := 0 to count
        invariant tickets == old(tickets)
        invariant |newTickets| == i
        invariant forall k :: 0 <= k < i ==> IsDrawnNumbers(newTickets[k].numbers)
      {
        var numbers := DrawNumbers();
        newTickets := newTickets + [LottoTicket(numbers)];
      }
      tickets := tickets + newTickets;
    }

    /**
     * `setWinningNumbers`: when the line holds exactly six numbers from 1 to
     * 45 they become the winning numbers, ascending; otherwise nothing changes.
     */
    method SetWinningNumbers(input: string)
      modifies this`winningNumbers
      ensures var candidates := WinningCandidates(input);
              if |candidates| == LotteryNumberSize
              then winningNumbers == Sort(candidates) && multiset(winningNumbers) == multiset(candidates)
              else winningNumbers == old(winningNumbers)
      ensures winningNumbers != old(winningNumbers) ==>
                Sorted(winningNumbers) && |winningNumbers| == LotteryNumberSize
                && forall k :: 0 <= k < |winningNumbers| ==> InNumberRange(winningNumbers[k])
    {
      var numbers := WinningCandidates(input);
      if |numbers| != LotteryNumberSize {
        return;
      }
      winningNumbers := Sort(numbers);
      forall k | 0 <= k < |winningNumbers| ensures InNumberRange(winningNumbers[k]) {
        assert winningNumbers[k] in multiset(numbers);
      }
    }

    /** `matchCount(for:)`: how many numbers the ticket shares with the winning numbers. */
    function MatchCount(ticket: LottoTicket): (r: nat)
      reads this
      ensures winningNumbers == [] ==> r == 0
      ensures r <= |ticket.numbers| && r <= |winningNumbers|
    {
      if |winningNumbers| == 0 then 0
      else
        CommonSetBound(ticket.SortedNumbers(), winningNumbers);
        |NumberSet(ticket.SortedNumbers()) * NumberSet(winningNumbers)|
    }

    /**
     * `canCheckResult`: the check is enabled once winning numbers are set and
     * at least one ticket has been scanned; generated tickets do not count.
     */
    predicate CanCheckResult()
      reads this
      ensures CanCheckResult() <==> winningNumbers != [] && scannedTickets != []
    {
      |winningNumbers| > 0 && |scannedTickets| > 0
    }

    /**
     * `addTicketFromQR(url:)`: puts the decoded tickets, last game first, in
     * front of the scanned list, and asks for the round's results when the
     * payload names one (returned here as the round to fetch).
     */
    method AddTicketFromQR(url: string) returns (fetchRound: Option<int>)
      modifies this`scannedTickets
      ensures DecodeQr(url).tickets == [] ==> scannedTickets == old(scannedTickets) && fetchRound == None
      ensures DecodeQr(url).tickets != [] ==>
                scannedTickets == Reversed(DecodeQr(url).tickets) + old(scannedTickets)
                && fetchRound == DecodeQr(url).round
      ensures DecodeQr(url).tickets != [] && winningNumbers != [] ==> CanCheckResult()
    {
      var result := ParseQRUrl(url);
      var newTickets := result.tickets;
      if |newTickets| == 0 {
        return None;
      }
      scannedTickets := Reversed(newTickets) + scannedTickets;
      fetchRound := result.round;
    }

    /**
     * `fetchWinningData(round:)`: a successful fetch replaces both the fetched
     * and the winning numbers; a thrown error leaves them and records the
     * message. Either way the loading flag ends cleared, since the fetch never
     * returns nil. `describe` stands for `localizedDescription`.
     */
    method FetchWinningData(round: int, download: Download, describe: FetchError -> string)
      modifies this`isLoading, this`errorMessage, this`fetchedWinningNumbers, this`winningNumbers
      ensures !isLoading
      ensures download.Received? && download.decoded.Some? && ParseSucceeds(download.decoded.value) ==>
                var numbers := ParsedResult(download.decoded.value).numbers;
                fetchedWinningNumbers == numbers && winningNumbers == numbers && errorMessage == None
      ensures download == TransportFailed ==>
                errorMessage == Some(FetchErrorPrefix + describe(TransportFailure))
      ensures download == Received(None) ==>
                errorMessage == Some(FetchErrorPrefix + describe(CrawlerFailure(DecodingFailed)))
      ensures download.Received? && download.decoded.Some? && !ParseSucceeds(download.decoded.value) ==>
                errorMessage == Some(FetchErrorPrefix + describe(CrawlerFailure(ParsingFailed)))
      ensures errorMessage.Some? ==>
                fetchedWinningNumbers == old(fetchedWinningNumbers) && winningNumbers == old(winningNumbers)
    {
      isLoading := true;
      errorMessage := None;
      var url, outcome := FetchLottoWinningData(round, download);
      match outcome {
        case Returned(result) =>
          if result.Some? {
            fetchedWinningNumbers := result.value.numbers;
            winningNumbers := result.value.numbers;
            isLoading := false;
          }
        case Threw(error) =>
          errorMessage := Some(FetchErrorPrefix + describe(error));
          isLoading := false;
      }
    }
  }

  /** Without repeats on the ticket, `matchCount` is the number of ticket entries that won. */
  lemma MatchCountIsHits(vm: LottoViewModel, ticket: LottoTicket)
    requires Distinct(ticket.numbers) && vm.winningNumbers != []
    ensures vm.MatchCount(ticket) == Hits(ticket.numbers, vm.winningNumbers)
  {
    SortedNumbersSameSet(ticket);
    assert NumberSet(ticket.SortedNumbers()) == NumberSet(ticket.numbers);
    CommonSetSize(ticket.numbers, vm.winningNumbers);
  }
}
