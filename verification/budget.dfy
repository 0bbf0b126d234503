/** A spending limit for one category, and its dictionary form. */
module Budgets {
  import opened Results
  import opened DecimalText
  import opened Records

  /** The limit is a Decimal in hundredths; nothing bounds it (zero and negative limits are kept). */
  datatype Budget = Budget(category: string, limit: int)

  /** `to_dict`: the category and `str(limit)`. */
  function ToDict(b: Budget): (r: Record)
    ensures r.Keys == {"category", "limit"}
    ensures r["category"] == Text(b.category) && r["limit"].Text?
  {
    map["category" := Text(b.category), "limit" := Text(MoneyText(b.limit))]
  }

  /** `str(raw)` of a dictionary value that is not a Decimal. */
  function StrOf(v: Value): (r: string)
    requires !v.Dec?
    ensures v.Text? ==> r == v.s
  {
    match v
    case Text(s) => s
    case Int(i) => IntText(i)
    case Null => "None"
  }

  /** The limit: a Decimal is kept, anything else becomes `Decimal(str(raw))`. */
  function LimitOf(raw: Value): (r: Result<int>)
    ensures r.Err? ==> r.error == ValueError(InvalidLimit)
    ensures raw.Int? ==> r == Ok(100 * raw.i)
    ensures raw.Null? ==> r.Err?
    ensures raw.Dec? ==> r == Ok(raw.cents)
    ensures raw.Text? ==> (r.Ok? <==> ParseMoney(raw.s).Some?)
    ensures raw.Text? && r.Ok? ==> r.value == ParseMoney(raw.s).value
  {
    if raw.Dec? then Ok(raw.cents)
    else
      assert raw.Int? ==> ParseMoney(StrOf(raw)) == Some(100 * raw.i) by {
        if raw.Int? { IntTextAsMoney(raw.i); }
      }
      match ParseMoney(StrOf(raw))
      case Some(c) => Ok(c)
      case None => Err(ValueError(InvalidLimit))
  }

  /**
   * `from_dict`: a missing category, then a missing limit, is a KeyError; an
   * unparsable limit is a ValueError. No other check is made on the limit.
   */
  function FromDict(data: Record): (r: Result<Budget>)
    ensures "category" !in data ==> r == Err(KeyError("category"))
    ensures "category" in data && "limit" !in data ==> r == Err(KeyError("limit"))
    ensures "category" in data && "limit" in data ==> (LimitOf(data["limit"]).Err? ==> r == Err(ValueError(InvalidLimit)))
    ensures r.Ok? ==> "limit" in data && LimitOf(data["limit"]) == Ok(r.value.limit)
                      && "category" in data && data["category"] == Text(r.value.category)
    ensures r.Ok? <==> "category" in data && "limit" in data && LimitOf(data["limit"]).Ok? && data["category"].Text?
  {
    if "category" !in data then Err(KeyError("category"))
    else if "limit" !in data then Err(KeyError("limit"))
    else
      var limit :- LimitOf(data["limit"]);
      var category :- TextField(data, "category");
      Ok(Budget(category, limit))
  }

  /** `Budget.from_dict(b.to_dict())` gives back the same category and limit. */
  lemma DictRoundTrip(b: Budget)
    ensures FromDict(ToDict(b)) == Ok(b)
  {
    MoneyTextRoundTrip(b.limit);
  }

  /** Limits are not validated: zero and negative amounts are accepted as given. */
  lemma AnyLimitAccepted(category: string, limit: int)
    ensures FromDict(map["category" := Text(category), "limit" := Text(IntText(limit))]) == Ok(Budget(category, 100 * limit))
    ensures FromDict(map["category" := Text(category), "limit" := Dec(limit)]) == Ok(Budget(category, limit))
  {
    IntTextAsMoney(limit);
  }

  /** Limit text that is not a number (such as "abc") is the ValueError "Invalid limit". */
  lemma LimitTextRejected(category: string, limit: string)
    requires |limit| > 0 && !IsDigit(limit[0]) && limit[0] !in "+-."
    ensures FromDict(map["category" := Text(category), "limit" := Text(limit)]) == Err(ValueError(InvalidLimit))
  {
    NotANumber(limit);
  }

  /** The limit text "abc" is rejected. */
  lemma LimitAbcRejected(category: string)
    ensures FromDict(map["category" := Text(category), "limit" := Text("abc")]) == Err(ValueError(InvalidLimit))
  {
    LimitTextRejected(category, "abc");
  }
}
