/** `FacebookPaymentOptions`: the payment methods a page accepts. */
module Pages {
  import opened Wrappers
  import opened Json

  /** The five flags, each a boolean read of its own key. */
  datatype FacebookPaymentOptions = FacebookPaymentOptions(
    americanExpress: bool,
    cashOnly: bool,
    discover: bool,
    masterCard: bool,
    visa: bool)

  /** The keys the parser reads, in the order the constructor reads them. */
  const PaymentKeys: seq<string> := ["amex", "cash_only", "discover", "mastercard", "visa"]

  /** The flag at position `i` of `PaymentKeys`. */
  function Flag(p: FacebookPaymentOptions, i: nat): bool
    requires i < 5
  {
    match i
    case 0 => p.americanExpress
    case 1 => p.cashOnly
    case 2 => p.discover
    case 3 => p.masterCard
    case 4 => p.visa
  }

  /**
   * `FacebookPaymentOptions.Parse`: `null` for `null`; otherwise each flag is
   * true exactly when its key holds JSON `true`. American Express is read
   * from `amex`.
   */
  function Parse(obj: Option<JObject>): (r: Option<FacebookPaymentOptions>)
    ensures r.None? <==> obj.None?
    ensures r.Some? ==>
      var o, p := obj.value, r.value;
      && (p.americanExpress <==> "amex" in o && o["amex"] == Bool(true))
      && (p.cashOnly <==> "cash_only" in o && o["cash_only"] == Bool(true))
      && (p.discover <==> "discover" in o && o["discover"] == Bool(true))
      && (p.masterCard <==> "mastercard" in o && o["mastercard"] == Bool(true))
      && (p.visa <==> "visa" in o && o["visa"] == Bool(true))
  {
    if obj.None? then None
    else
      var o := obj.value;
      Some(FacebookPaymentOptions(
        GetBoolean(o, "amex"),
        GetBoolean(o, "cash_only"),
        GetBoolean(o, "discover"),
        GetBoolean(o, "mastercard"),
        GetBoolean(o, "visa")))
  }

  /** The key `american_express` plays no part: only `amex` sets the American Express flag. */
  lemma AmexNotAmericanExpress(obj: JObject, v: Json)
    ensures Parse(Some(obj["american_express" := v])) == Parse(Some(obj))
  {
  }

  /** An object with none of the five keys gives five false flags. */
  lemma NoKeysAllFalse(obj: JObject)
    requires forall i :: 0 <= i < |PaymentKeys| ==> PaymentKeys[i] !in obj
    ensures Parse(Some(obj)) == Some(FacebookPaymentOptions(false, false, false, false, false))
  {
    assert PaymentKeys[0] !in obj && PaymentKeys[1] !in obj && PaymentKeys[2] !in obj;
    assert PaymentKeys[3] !in obj && PaymentKeys[4] !in obj;
  }

  /** Each flag depends only on its own key: rewriting any other key leaves it unchanged. */
  lemma FlagDependsOnOwnKey(obj: JObject, i: nat, k: string, v: Json)
    requires i < 5 && k != PaymentKeys[i]
    ensures Flag(Parse(Some(obj[k := v])).value, i) == Flag(Parse(Some(obj)).value, i)
  {
  }

  /** Flag `i` is the boolean at key `PaymentKeys[i]`. */
  lemma FlagReadsItsKey(obj: JObject, i: nat)
    requires i < 5
    ensures Flag(Parse(Some(obj)).value, i) <==> PaymentKeys[i] in obj && obj[PaymentKeys[i]] == Bool(true)
  {
  }
}
