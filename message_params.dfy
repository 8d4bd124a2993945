/**
 * Normalisation of the message-list query (internal/sms-gateway/handlers/
 * messages/params.go): the declarative validation tags, the date-order check,
 * and the conversion into a repository filter and select options. RFC 3339
 * parsing (the layout the `datetime` tag and `ToFilter` both use) is a
 * parameter.
 */
module MessageParams {
  import opened Wrappers
  import opened Clock

  /** `getQueryParams`, as bound from the query string. */
  datatype GetQueryParams = GetQueryParams(startDate: string, endDate: string, state: string,
                                           deviceId: string, limit: int, offset: int)

  /** `messages.MessagesSelectFilter`; the zero time and the empty string mean "no constraint". */
  datatype SelectFilter = SelectFilter(startDate: Time, endDate: Time, state: string, deviceId: string)

  /** `messages.MessagesSelectOptions`. */
  datatype SelectOptions = SelectOptions(withRecipients: bool, withStates: bool, limit: int, offset: int)

  const MaxLimit: int := 100
  const DefaultLimit: int := 50
  const DeviceIdLength: nat := 21
  const States: seq<string> := ["Pending", "Processed", "Sent", "Delivered", "Failed"]
  const DateOrderError: string := "`from` date must be before `to` date"

  /**
   * Go's `<` on strings: byte-wise lexicographic order, which on well-formed
   * UTF-8 is the order of code points, a proper prefix coming first.
   */
  predicate LexLess(a: string, b: string)
    decreases |a|
  {
    if a == [] then b != []
    else if b == [] then false
    else if a[0] != b[0] then a[0] < b[0]
    else LexLess(a[1..], b[1..])
  }

  lemma {:induction false} LexLessIrreflexive(a: string)
    ensures !LexLess(a, a)
    decreases |a|
  {
    if a != [] {
      LexLessIrreflexive(a[1..]);
    }
  }

  lemma {:induction false} LexLessAsymmetric(a: string, b: string)
    requires LexLess(a, b)
    ensures !LexLess(b, a)
    decreases |a|
  {
    if a != [] && b != [] && a[0] == b[0] {
      LexLessAsymmetric(a[1..], b[1..]);
    }
  }

  lemma {:induction false} LexLessTransitive(a: string, b: string, c: string)
    requires LexLess(a, b) && LexLess(b, c)
    ensures LexLess(a, c)
    decreases |a|
  {
    if a != [] && b != [] && c != [] && a[0] == b[0] && b[0] == c[0] {
      LexLessTransitive(a[1..], b[1..], c[1..]);
    }
  }

  /** Distinct strings are always ordered one way or the other. */
  lemma {:induction false} LexLessTotal(a: string, b: string)
    requires a != b
    ensures LexLess(a, b) || LexLess(b, a)
    decreases |a|
  {
    if a != [] && b != [] && a[0] == b[0] {
      assert a == [a[0]] + a[1..] && b == [b[0]] + b[1..];
      LexLessTotal(a[1..], b[1..]);
    }
  }

  /** `Validate`: fails exactly when both dates are given and `from` sorts after `to`. */
  function Validate(p: GetQueryParams): (r: Outcome<string>)
    ensures r.Fail? <==> p.startDate != "" && p.endDate != "" && LexLess(p.endDate, p.startDate)
    ensures r.Fail? ==> r.error == DateOrderError
  {
    if p.startDate != "" && p.endDate != "" && LexLess(p.endDate, p.startDate) then Fail(DateOrderError) else Pass
  }

  /** A one-instant range passes, and of two distinct dates exactly one order passes. */
  lemma DateOrderIsStrict(p: GetQueryParams)
    requires p.startDate != "" && p.endDate != ""
    ensures p.startDate == p.endDate ==> Validate(p) == Pass
    ensures p.startDate != p.endDate ==>
              (Validate(p) == Pass <==> Validate(p.(startDate := p.endDate, endDate := p.startDate)).Fail?)
  {
    if p.startDate == p.endDate {
      LexLessIrreflexive(p.startDate);
    } else {
      LexLessTotal(p.startDate, p.endDate);
      if LexLess(p.startDate, p.endDate) {
        LexLessAsymmetric(p.startDate, p.endDate);
      } else {
        LexLessAsymmetric(p.endDate, p.startDate);
      }
    }
  }

  /** A date bound of the filter: the parsed time, or zero when absent or unparseable. */
  function DateBound(s: string, parse: string -> Option<Time>): (r: Time)
    ensures s == "" || parse(s).None? ==> r == Zero
    ensures s != "" && parse(s).Some? ==> r == parse(s).value
  {
    if s != "" && parse(s).Some? then parse(s).value else Zero
  }

  /**
   * `ToFilter`: state and device id carried over when given (and left empty
   * otherwise), each date parsed or left at the zero time.
   */
  function ToFilter(p: GetQueryParams, parse: string -> Option<Time>): (r: SelectFilter)
    ensures (r.state != "" <==> p.state != "") && (p.state != "" ==> r.state == p.state)
    ensures (r.deviceId != "" <==> p.deviceId != "") && (p.deviceId != "" ==> r.deviceId == p.deviceId)
    ensures p.startDate == "" || parse(p.startDate).None? ==> r.startDate == Zero
    ensures p.startDate != "" && parse(p.startDate).Some? ==> r.startDate == parse(p.startDate).value
    ensures p.endDate == "" || parse(p.endDate).None? ==> r.endDate == Zero
    ensures p.endDate != "" && parse(p.endDate).Some? ==> r.endDate == parse(p.endDate).value
  {
    SelectFilter(DateBound(p.startDate, parse), DateBound(p.endDate, parse),
                 if p.state != "" then p.state else "",
                 if p.deviceId != "" then p.deviceId else "")
  }

  /**
   * `ToOptions`: recipients and states always loaded; a positive limit
   * capped at 100, otherwise 50; a positive offset kept, otherwise 0.
   */
  function ToOptions(p: GetQueryParams): (r: SelectOptions)
    ensures r.withRecipients && r.withStates
    ensures 1 <= r.limit <= MaxLimit
    ensures 0 < p.limit <= MaxLimit ==> r.limit == p.limit
    ensures p.limit > MaxLimit ==> r.limit == MaxLimit
    ensures p.limit <= 0 ==> r.limit == DefaultLimit
    ensures r.offset >= 0
    ensures p.offset > 0 ==> r.offset == p.offset
    ensures p.offset <= 0 ==> r.offset == 0
  {
    SelectOptions(true, true,
                  if p.limit > 0 then (if p.limit < MaxLimit then p.limit else MaxLimit) else DefaultLimit,
                  if p.offset > 0 then p.offset else 0)
  }

  /** Feeding the normalised limit and offset back in changes nothing. */
  lemma ToOptionsIsIdempotent(p: GetQueryParams)
    ensures ToOptions(p.(limit := ToOptions(p).limit, offset := ToOptions(p).offset)) == ToOptions(p)
  {
  }

  /**
   * The validation tags: each date empty or RFC 3339, state empty or a known
   * state, device id empty or 21 characters, limit unset or 1..100, offset
   * not negative.
   */
  predicate TagsValid(p: GetQueryParams, parse: string -> Option<Time>)
    ensures TagsValid(p, parse) ==> 0 <= p.limit <= MaxLimit && p.offset >= 0
    ensures TagsValid(p, parse) ==> p.deviceId == "" || |p.deviceId| == DeviceIdLength
  {
    && (p.startDate == "" || parse(p.startDate).Some?)
    && (p.endDate == "" || parse(p.endDate).Some?)
    && (p.state == "" || p.state in States)
    && (p.deviceId == "" || |p.deviceId| == DeviceIdLength)
    && (p.limit == 0 || 1 <= p.limit <= MaxLimit)
    && p.offset >= 0
  }

  /**
   * On a query that passed the tags, `ToOptions` keeps any limit that was
   * given and the offset as is, and `ToFilter` keeps every given date.
   */
  lemma ValidQueryIsKept(p: GetQueryParams, parse: string -> Option<Time>)
    requires TagsValid(p, parse)
    ensures p.limit != 0 ==> ToOptions(p).limit == p.limit
    ensures ToOptions(p).offset == p.offset
    ensures p.startDate != "" ==> ToFilter(p, parse).startDate == parse(p.startDate).value
    ensures p.endDate != "" ==> ToFilter(p, parse).endDate == parse(p.endDate).value
  {
  }

  /** Rejected queries: an unknown state, a 24-character device id, a date that does not parse (all from the end-to-end suite), and each integer bound. */
  lemma RejectedQueries(parse: string -> Option<Time>)
    ensures !TagsValid(GetQueryParams("", "", "InvalidState", "", 0, 0), parse)
    ensures !TagsValid(GetQueryParams("", "", "", "invalid_length_device_id", 0, 0), parse)
    ensures !TagsValid(GetQueryParams("", "", "", "", 101, 0), parse)
    ensures !TagsValid(GetQueryParams("", "", "", "", 0, -1), parse)
    ensures parse("invalid").None? ==> !TagsValid(GetQueryParams("invalid", "", "", "", 0, 0), parse)
  {
    assert "InvalidState" != States[0] && "InvalidState" != States[1] && "InvalidState" != States[2];
    assert "InvalidState" != States[3] && "InvalidState" != States[4];
  }

  /** The accepted queries of the suite: defaults, pagination, and a known state. */
  lemma AcceptedQueries(parse: string -> Option<Time>)
    ensures TagsValid(GetQueryParams("", "", "", "", 0, 0), parse)
    ensures TagsValid(GetQueryParams("", "", "", "", 10, 5), parse)
    ensures TagsValid(GetQueryParams("", "", "Sent", "", 0, 0), parse)
    ensures ToOptions(GetQueryParams("", "", "", "", 0, 0)) == SelectOptions(true, true, DefaultLimit, 0)
    ensures ToOptions(GetQueryParams("", "", "", "", 10, 5)) == SelectOptions(true, true, 10, 5)
  {
    assert "Sent" == States[2];
  }
}
