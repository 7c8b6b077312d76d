/** One draw as read from the results page: a plain record with no behaviour. */
module Results {

  datatype LottoResult = LottoResult(
    round: int,
    numbers: seq<int>,
    drawDate: string,
    bonusNumber: int,
    /** prize tier (1 = first prize) to number of winning games */
    winnerCounts: map<int, int>,
    totalSales: string)
}
