/**
 * The query routes that read the latest chain state: validator pagination
 * and block lookup. Only the latest height is kept, so an explicit height is
 * always refused.
 */
module Routes {
  import opened Wrappers
  import opened Chain

  const DefaultPerPage: int := 30
  const MaxPerPage: int := 100

  datatype RpcError =
    | HeightNotSupported
    | PageOutOfRange(pages: int, given: int)

  datatype ResultValidators = ResultValidators(blockHeight: int, validators: seq<Validator>, count: int, total: int)

  datatype ResultBlock = ResultBlock(blockId: BlockId, block: Block)

  /** Go's integer division, which truncates toward zero (Dafny's `/` is Euclidean). */
  function GoDiv(a: int, d: int): (q: int)
    requires d > 0
    ensures a >= 0 ==> q * d <= a < q * d + d
    ensures a < 0 ==> q * d - d < a <= q * d
  {
    if a >= 0 then a / d else -((-a) / d)
  }

  /** The page size: the default when absent or below 1, capped at the maximum. */
  function ValidatePerPage(perPage: Option<int>): (r: int)
    ensures 1 <= r <= MaxPerPage
    ensures perPage.None? ==> r == DefaultPerPage
    ensures perPage.Some? ==>
      r == (if perPage.value < 1 then DefaultPerPage else if perPage.value > MaxPerPage then MaxPerPage else perPage.value)
  {
    if perPage.None? then DefaultPerPage
    else if perPage.value < 1 then DefaultPerPage
    else if perPage.value > MaxPerPage then MaxPerPage
    else perPage.value
  }

  /**
   * The number of pages for `total` items: the least page count that holds
   * them all, and one (empty) page when there are none.
   */
  function PageCount(total: int, perPage: int): (pages: int)
    requires perPage >= 1 && total >= 0
    ensures pages >= 1
    ensures total == 0 ==> pages == 1
    ensures total > 0 ==> (pages - 1) * perPage < total <= pages * perPage
  {
    var pages := GoDiv(total - 1, perPage) + 1;
    EmptyListQuotient(perPage);
    if pages == 0 then 1 else pages
  }

  /** For an empty list, Go's `(0 - 1) / perPage` is -1 or 0, so the page count before the clamp is 0 or 1. */
  lemma EmptyListQuotient(perPage: int)
    requires perPage >= 1
    ensures GoDiv(-1, perPage) == -1 || GoDiv(-1, perPage) == 0
  {
    var q := GoDiv(-1, perPage);
    if q >= 1 {
      MulMonotone(1, q, perPage);
    } else if q <= -2 {
      MulMonotone(q, -2, perPage);
    }
  }

  lemma MulMonotone(a: int, b: int, d: int)
    requires a <= b && d >= 0
    ensures a * d <= b * d
  {
  }

  /**
   * The requested page: 1 when absent; otherwise the page itself if it lies
   * within [1, pages], and an out-of-range error naming the range if not.
   */
  function ValidatePage(page: Option<int>, perPage: int, total: int): (r: Result<int, RpcError>)
    requires perPage >= 1  // the source panics on a smaller page size
    requires total >= 0
    ensures page.None? ==> r == Success(1)
    ensures page.Some? ==> (r.Success? <==> 1 <= page.value <= PageCount(total, perPage))
    ensures page.Some? && r.Success? ==> r.value == page.value
    ensures r.Failure? ==> page.Some? && r.error == PageOutOfRange(PageCount(total, perPage), page.value)
  {
    if page.None? then Success(1)
    else
      var pages := PageCount(total, perPage);
      if page.value <= 0 || page.value > pages then Failure(PageOutOfRange(pages, page.value))
      else Success(page.value)
  }

  /** The number of items before the page, never negative. */
  function ValidateSkipCount(page: int, perPage: int): (r: int)
    ensures r >= 0
    ensures page >= 1 && perPage >= 0 ==> r == (page - 1) * perPage
    ensures page <= 1 && perPage >= 0 ==> r == 0
  {
    var skipCount := (page - 1) * perPage;
    if skipCount < 0 then 0 else skipCount
  }

  function Min(a: int, b: int): int { if a <= b then a else b }

  /** A validated page starts inside the list (or at 0 for an empty list), so the slice taken from it is in bounds. */
  lemma {:induction false} ValidPageStartsInside(page: Option<int>, perPage: int, total: int)
    requires perPage >= 1 && total >= 0
    requires ValidatePage(page, perPage, total).Success?
    ensures var skip := ValidateSkipCount(ValidatePage(page, perPage, total).value, perPage);
            && 0 <= skip <= total
            && (total > 0 ==> skip < total)
            && 0 <= Min(perPage, total - skip)
  {
    var p := ValidatePage(page, perPage, total).value;
    var pages := PageCount(total, perPage);
    assert 1 <= p <= pages;
    var skip := ValidateSkipCount(p, perPage);
    assert skip == (p - 1) * perPage;
    MulMonotone(p - 1, pages - 1, perPage);
  }

  /**
   * The latest validator set, one page of it: the validators from the
   * page's start, at most a page long; `count` is the page's length and
   * `total` the size of the set. An explicit height is refused.
   */
  function Validators(height: Option<int>, page: Option<int>, perPage: Option<int>, s: State): (r: Result<ResultValidators, RpcError>)
    ensures height.Some? ==> r == Failure(HeightNotSupported)
    ensures height.None? ==>
      (r.Success? <==> ValidatePage(page, ValidatePerPage(perPage), |s.lastValidators.validators|).Success?)
    ensures r.Success? ==>
      var vals := s.lastValidators.validators;
      var pp := ValidatePerPage(perPage);
      var skip := ValidateSkipCount(ValidatePage(page, pp, |vals|).value, pp);
      && 0 <= skip <= skip + Min(pp, |vals| - skip) <= |vals|
      && r.value.validators == vals[skip .. skip + Min(pp, |vals| - skip)]
      && r.value.count == |r.value.validators| <= pp
      && r.value.total == |vals|
      && r.value.blockHeight == s.lastBlockHeight
  {
    if height.Some? then Failure(HeightNotSupported)
    else
      var validators := s.lastValidators.validators;
      var totalCount := |validators|;
      var pp := ValidatePerPage(perPage);
      var p := ValidatePage(page, pp, totalCount);
      if p.Failure? then Failure(p.error)
      else
        var skipCount := ValidateSkipCount(p.value, pp);
        ValidPageStartsInside(page, pp, totalCount);
        var v := validators[skipCount .. skipCount + Min(pp, totalCount - skipCount)];
        Success(ResultValidators(blockHeight := s.lastBlockHeight, validators := v, count := |v|, total := totalCount))
  }

  /** With 95 validators and 30 per page, page 4 holds the last 5 validators and page 5 does not exist. */
  lemma NinetyFiveValidatorsExample(s: State)
    requires |s.lastValidators.validators| == 95
    ensures Validators(None, Some(4), Some(30), s).Success?
    ensures Validators(None, Some(4), Some(30), s).value.count == 5
    ensures Validators(None, Some(4), Some(30), s).value.total == 95
    ensures Validators(None, Some(4), Some(30), s).value.validators == s.lastValidators.validators[90..95]
    ensures Validators(None, Some(5), Some(30), s) == Failure(PageOutOfRange(4, 5))
  {
    assert PageCount(95, 30) == 4;
  }

  /** An empty block at the given height. */
  function EmptyBlockAt(height: int): (b: Block)
    ensures b.header.height == height && b.txs == [] && b.evidence == []
  {
    var noId := BlockId([], PartSetHeader(0, []));
    Block(Header("", height, 0, noId, [], []), [], [], Commit(0, 0, noId, []))
  }

  /** The latest block: its ID and an otherwise empty block at the latest height. An explicit height is refused. */
  function BlockAt(height: Option<int>, s: State): (r: Result<ResultBlock, RpcError>)
    ensures height.Some? <==> r == Failure(HeightNotSupported)
    ensures height.None? ==>
      && r.Success?
      && r.value.blockId == s.lastBlockId
      && r.value.block.header.height == s.lastBlockHeight
      && r.value.block.txs == [] && r.value.block.evidence == []
  {
    if height.Some? then Failure(HeightNotSupported)
    else Success(ResultBlock(s.lastBlockId, EmptyBlockAt(s.lastBlockHeight)))
  }
}
