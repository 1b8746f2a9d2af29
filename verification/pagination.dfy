/** Query-string pagination shared by the admin user listing and the task listing:
    `parseInt(x, 10) || default`, the bounds checks, `skip = (page - 1) * limit`,
    `Math.ceil(total / limit)` and the window `.skip(skip).limit(limit)`. */
module Pagination {
  import opened Common

  const DefaultPage := 1
  const DefaultLimit := 10
  const MaxLimit := 100

  const NotPositiveMessage := "Page and limit must be positive numbers"
  const LimitTooLargeMessage := "Limit cannot be greater than 100"

  /** Validated page parameters. */
  datatype Paging = Paging(page: int, limit: int)

  /** The page a listing returns: its items (`results` is their count) and the
      `pagination` block of the response. */
  datatype Listing<T> = Listing(items: seq<T>, total: nat, currentPage: int, totalPages: nat, limit: int)

  /** `parseInt(x, 10) || d`, where `parsed` is what `parseInt` produced (`None` for
      NaN, which includes an absent parameter): NaN and 0 are falsy and give `d`. */
  function OrDefault(parsed: Option<int>, d: int): (r: int)
    ensures parsed == None || parsed == Some(0) ==> r == d
    ensures parsed.Some? && parsed.value != 0 ==> r == parsed.value
  {
    match parsed
    case None => d
    case Some(n) => if n == 0 then d else n
  }

  /** The defaulting and bounds checks of both listings, in the source's order. */
  function ValidatePaging(pageArg: Option<int>, limitArg: Option<int>): (r: Result<Paging>)
    ensures var page, limit := OrDefault(pageArg, DefaultPage), OrDefault(limitArg, DefaultLimit);
      && (page < 1 || limit < 1 ==> r == Err(AppError(NotPositiveMessage, 400)))
      && (page >= 1 && 1 <= limit && limit > MaxLimit ==> r == Err(AppError(LimitTooLargeMessage, 400)))
      && (page >= 1 && 1 <= limit <= MaxLimit ==> r == Ok(Paging(page, limit)))
    ensures r.Ok? ==> 1 <= r.value.page && 1 <= r.value.limit <= MaxLimit
  {
    var page := OrDefault(pageArg, DefaultPage);
    var limit := OrDefault(limitArg, DefaultLimit);
    if page < 1 || limit < 1 then Err(AppError(NotPositiveMessage, 400))
    else if limit > MaxLimit then Err(AppError(LimitTooLargeMessage, 400))
    else Ok(Paging(page, limit))
  }

  /** `(page - 1) * limit`: the number of items on the pages before `page`, so
      that page `page` ends at item `page * limit`. */
  function Skip(p: Paging): (r: nat)
    requires 1 <= p.page && 1 <= p.limit
    ensures r == 0 <==> p.page == 1
    ensures r + p.limit == p.page * p.limit
  {
    (p.page - 1) * p.limit
  }

  /** `Math.ceil(total / limit)`, computed exactly on integers: the least number of
      pages of `limit` items that hold `total` items. */
  function TotalPages(total: nat, limit: int): (r: nat)
    requires limit >= 1
    ensures total <= r * limit
    ensures r > 0 ==> (r - 1) * limit < total
    ensures total == 0 <==> r == 0
  {
    var q := total / limit;
    if total % limit == 0 then q else q + 1
  }

  /** `.skip(skip).limit(limit)` on an ordered listing. */
  function Window<T>(s: seq<T>, skip: nat, limit: nat): (r: seq<T>)
    ensures |r| <= limit
    ensures skip >= |s| ==> r == []
    ensures skip < |s| ==> |r| == if skip + limit <= |s| then limit else |s| - skip
    ensures forall i :: 0 <= i < |r| ==> skip + i < |s| && r[i] == s[skip + i]
  {
    if skip >= |s| then [] else if skip + limit <= |s| then s[skip..skip + limit] else s[skip..]
  }

  /** The page a request asks for is within the listing exactly when its skip is
      below the total, i.e. when it is at most `TotalPages`. */
  lemma PageWithinTotal(p: Paging, total: nat)
    requires 1 <= p.page && 1 <= p.limit
    ensures Skip(p) < total <==> p.page <= TotalPages(total, p.limit)
  {
    var n := TotalPages(total, p.limit);
    if p.page <= n {
      MulMonotone(p.page - 1, n - 1, p.limit);
    } else {
      MulMonotone(n, p.page - 1, p.limit);
    }
  }

  /** Multiplying by a natural number preserves order. */
  lemma MulMonotone(a: nat, b: nat, c: nat)
    requires a <= b
    ensures a * c <= b * c
  {
  }
}
