/**
 * The JSON-friendly dictionaries that `to_dict` produces and `from_dict` reads back,
 * and the per-field conversions `from_dict` applies.
 */
module Records {
  import opened Results
  import opened DecimalText
  import opened Timestamps

  /** A dictionary value: a str, an int, a Decimal (in hundredths) or None. */
  datatype Value = Text(s: string) | Int(i: int) | Dec(cents: int) | Null

  type Record = map<string, Value>

  /**
   * `Timestamp.from_isoformat(data["timestamp"])` inside `except Exception`: a missing
   * key, a value that is not text and malformed text all become the same ValueError.
   */
  function TimestampField(data: Record): (r: Result<Timestamp>)
    ensures r.Ok? <==> "timestamp" in data && data["timestamp"].Text? && FromIsoFormat(data["timestamp"].s).Ok?
    ensures r.Ok? ==> r.value == FromIsoFormat(data["timestamp"].s).value
    ensures r.Err? ==> r.error == ValueError(InvalidTimestamp)
  {
    if "timestamp" in data && data["timestamp"].Text? then
      match FromIsoFormat(data["timestamp"].s)
      case Ok(t) => Ok(t)
      case Err(_) => Err(ValueError(InvalidTimestamp))
    else Err(ValueError(InvalidTimestamp))
  }

  /**
   * The amount: a Decimal is kept, anything else goes through `Decimal(...)`. A missing
   * key is a KeyError (the `except` names only InvalidOperation and TypeError); None and
   * unparsable text are a ValueError.
   */
  function AmountField(data: Record): (r: Result<int>)
    ensures "amount" !in data <==> r == Err(KeyError("amount"))
    ensures r.Err? ==> r.error == KeyError("amount") || r.error == ValueError(InvalidAmount)
    ensures "amount" in data && data["amount"].Int? ==> r == Ok(100 * data["amount"].i)
    ensures "amount" in data && data["amount"].Dec? ==> r == Ok(data["amount"].cents)
    ensures "amount" in data && data["amount"].Null? ==> r == Err(ValueError(InvalidAmount))
  {
    if "amount" !in data then Err(KeyError("amount"))
    else match data["amount"]
      case Dec(c) => Ok(c)
      case Int(i) => Ok(100 * i)
      case Text(s) =>
        (match ParseMoney(s)
         case Some(c) => Ok(c)
         case None => Err(ValueError(InvalidAmount)))
      case Null => Err(ValueError(InvalidAmount))
  }

  /** `data[key]` for the text fields (category, description). */
  function TextField(data: Record, key: string): (r: Result<string>)
    ensures key !in data <==> r == Err(KeyError(key))
    ensures r.Ok? <==> key in data && data[key].Text?
    ensures r.Ok? ==> r.value == data[key].s
    ensures r.Err? ==> r.error == KeyError(key) || r.error == NonTextField(key)
  {
    if key !in data then Err(KeyError(key))
    else if data[key].Text? then Ok(data[key].s)
    else Err(NonTextField(key))
  }

  /**
   * The optional id: absent means None; otherwise `int(...)`, which keeps an int,
   * parses text and truncates a Decimal toward zero; None or bad text is a ValueError.
   */
  function IdField(data: Record): (r: Result<Option<int>>)
    ensures "transaction_id" !in data <==> r == Ok(None)
    ensures "transaction_id" in data && data["transaction_id"].Int? ==> r == Ok(Some(data["transaction_id"].i))
    ensures "transaction_id" in data && data["transaction_id"].Null? ==> r == Err(ValueError(InvalidTransactionId))
    ensures r.Err? ==> r.error == ValueError(InvalidTransactionId)
  {
    if "transaction_id" !in data then Ok(None)
    else match data["transaction_id"]
      case Int(i) => Ok(Some(i))
      case Dec(c) => Ok(Some(TruncateCents(c)))
      case Text(s) =>
        (match ParseInt(s)
         case Some(i) => Ok(Some(i))
         case None => Err(ValueError(InvalidTransactionId)))
      case Null => Err(ValueError(InvalidTransactionId))
  }

  /** The fields written by `to_dict` read back as what was written. */
  lemma FieldRoundTrips(t: Timestamp, amount: int, id: int, text: string)
    ensures TimestampField(map["timestamp" := Text(ToIsoFormat(t))]) == Ok(t)
    ensures AmountField(map["amount" := Text(MoneyText(amount))]) == Ok(amount)
    ensures IdField(map["transaction_id" := Int(id)]) == Ok(Some(id))
    ensures TextField(map["category" := Text(text)], "category") == Ok(text)
  {
    IsoRoundTrip(t);
    MoneyTextRoundTrip(amount);
  }

  /** A dictionary holding what `to_dict` writes for the four shared fields reads them back. */
  lemma WrittenFieldsRead(d: Record, t: Timestamp, amount: int, category: string, description: string)
    requires "timestamp" in d && d["timestamp"] == Text(ToIsoFormat(t))
    requires "amount" in d && d["amount"] == Text(MoneyText(amount))
    requires "category" in d && d["category"] == Text(category)
    requires "description" in d && d["description"] == Text(description)
    ensures TimestampField(d) == Ok(t) && AmountField(d) == Ok(amount)
    ensures TextField(d, "category") == Ok(category) && TextField(d, "description") == Ok(description)
  {
    IsoRoundTrip(t);
    MoneyTextRoundTrip(amount);
  }
}
