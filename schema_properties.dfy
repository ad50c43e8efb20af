/**
 * What the validators promise beyond their own contracts: the records they accept are
 * exactly those a well-formed JSON value carries (round trips), undeclared keys play no
 * part, one bad element rejects a whole list, and the defaults of the create payload.
 */
module SchemaProperties {
  import opened Wrappers
  import opened JsonValues
  import opened JsString
  import opened Schemas

  /** The JSON object a well-formed expense arrives as; `createdAt` is its raw date value. */
  function ExpenseToJson(e: Expense, createdAt: Json): Json {
    JObject(map[
      "id" := JNumber(e.id),
      "amount" := JNumber(e.amount),
      "category" := JString(e.category),
      "description" := JString(e.description),
      "created_at" := createdAt,
      "currency" := JString(e.currency),
      "telegram_user_id" := JNumber(e.telegramUserId)])
  }

  /** An expense meeting the constraints survives the trip through JSON unchanged. */
  lemma ExpenseRoundTrip(e: Expense, createdAt: Json, coerce: DateCoercion)
    requires e.amount >= 0.0 && IsCurrencyCode(e.currency)
    requires coerce(createdAt) == Some(e.createdAt)
    ensures ParseExpense(ExpenseToJson(e, createdAt), coerce) == Some(e)
  {
    var m := ExpenseToJson(e, createdAt).fields;
    assert NumberAt(m, "id") == Some(e.id);
    assert AmountAt(m, "amount") == Some(e.amount);
    assert CurrencyAt(m, "currency") == Some(e.currency);
  }

  /** Keys the expense schema does not declare are ignored. */
  lemma ExpenseIgnoresUndeclaredKeys(m: map<string, Json>, extra: map<string, Json>, coerce: DateCoercion)
    requires forall k :: k in extra ==> k !in EXPENSE_KEYS
    ensures ParseExpense(JObject(m + extra), coerce) == ParseExpense(JObject(m), coerce)
  {
    var n := m + extra;
    forall k | k in EXPENSE_KEYS
      ensures (k in n <==> k in m) && (k in m ==> n[k] == m[k])
    {
    }
    assert NumberAt(n, "id") == NumberAt(m, "id");
    assert AmountAt(n, "amount") == AmountAt(m, "amount");
    assert StringAt(n, "category") == StringAt(m, "category");
    assert StringAt(n, "description") == StringAt(m, "description");
    assert DateAt(n, "created_at", coerce) == DateAt(m, "created_at", coerce);
    assert CurrencyAt(n, "currency") == CurrencyAt(m, "currency");
    assert NumberAt(n, "telegram_user_id") == NumberAt(m, "telegram_user_id");
  }

  /** An expense with a negative amount or a currency code not 3 units long is rejected. */
  lemma ExpenseConstraintViolationRejected(m: map<string, Json>, coerce: DateCoercion)
    requires ("amount" in m && m["amount"].JNumber? && m["amount"].n < 0.0)
          || ("currency" in m && m["currency"].JString? && !IsCurrencyCode(m["currency"].s))
    ensures ParseExpense(JObject(m), coerce) == None
  {
  }

  /** The JSON array a list of well-formed expenses arrives as. */
  function ExpenseListToJson(es: seq<Expense>, dates: seq<Json>): (items: seq<Json>)
    requires |dates| == |es|
    ensures |items| == |es|
    ensures forall i :: 0 <= i < |es| ==> items[i] == ExpenseToJson(es[i], dates[i])
  {
    seq(|es|, i requires 0 <= i < |es| => ExpenseToJson(es[i], dates[i]))
  }

  /** A page of well-formed expenses survives the trip through JSON unchanged. */
  lemma {:induction false} ExpenseListRoundTrip(es: seq<Expense>, dates: seq<Json>, coerce: DateCoercion)
    requires |dates| == |es|
    requires forall i :: 0 <= i < |es| ==> es[i].amount >= 0.0 && IsCurrencyCode(es[i].currency)
    requires forall i :: 0 <= i < |es| ==> coerce(dates[i]) == Some(es[i].createdAt)
    ensures ParseExpenseList(ExpenseListToJson(es, dates), coerce) == Some(es)
  {
    var items := ExpenseListToJson(es, dates);
    forall i | 0 <= i < |es|
      ensures ParseExpense(items[i], coerce) == Some(es[i])
    {
      ExpenseRoundTrip(es[i], dates[i], coerce);
    }
    var r := ParseExpenseList(items, coerce);
    assert r.Some?;
    assert r.value == es;
  }

  /** A single malformed element rejects the whole expenses response: there is no partial list. */
  lemma OneBadExpenseRejectsResponse(m: map<string, Json>, i: nat, coerce: DateCoercion)
    requires "expenses" in m && m["expenses"].JArray?
    requires i < |m["expenses"].items| && ParseExpense(m["expenses"].items[i], coerce) == None
    ensures ParseExpensesResponse(JObject(m), coerce) == None
  {
  }

  /** One malformed breakdown entry rejects the monthly statistics. */
  lemma OneBadBreakdownRejectsStats(m: map<string, Json>, i: nat)
    requires "category_breakdown" in m && m["category_breakdown"].JArray?
    requires i < |m["category_breakdown"].items| && ParseCategoryTotal(m["category_breakdown"].items[i]) == None
    ensures ParseMonthlyStats(JObject(m)) == None
  {
  }

  /** The JSON object a category total arrives as. */
  function CategoryTotalToJson(t: CategoryTotal): Json {
    JObject(map["category" := JString(t.category), "total" := JNumber(t.total), "count" := JNumber(t.count)])
  }

  /** The JSON array a breakdown arrives as. */
  function BreakdownToJson(ts: seq<CategoryTotal>): (items: seq<Json>)
    ensures |items| == |ts|
    ensures forall i :: 0 <= i < |ts| ==> items[i] == CategoryTotalToJson(ts[i])
  {
    seq(|ts|, i requires 0 <= i < |ts| => CategoryTotalToJson(ts[i]))
  }

  /** The JSON object monthly statistics arrive as, with exactly MonthlyStatsSchema's keys. */
  function MonthlyStatsToJson(s: MonthlyStats): Json {
    JObject(map[
      "total_spent" := JNumber(s.totalSpent),
      "total_income" := JNumber(s.totalIncome),
      "total_savings" := JNumber(s.totalSavings),
      "total_investment" := JNumber(s.totalInvestment),
      "transaction_count" := JNumber(s.transactionCount),
      "expense_count" := JNumber(s.expenseCount),
      "category_breakdown" := JArray(BreakdownToJson(s.categoryBreakdown)),
      "currency" := JString(s.currency)])
  }

  /** A breakdown survives the trip through JSON unchanged. */
  lemma {:induction false} BreakdownRoundTrip(ts: seq<CategoryTotal>)
    ensures ParseBreakdown(BreakdownToJson(ts)) == Some(ts)
  {
    var items := BreakdownToJson(ts);
    forall i | 0 <= i < |ts|
      ensures ParseCategoryTotal(items[i]) == Some(ts[i])
    {
      var m := CategoryTotalToJson(ts[i]).fields;
      assert StringAt(m, "category") == Some(ts[i].category);
      assert NumberAt(m, "total") == Some(ts[i].total);
      assert NumberAt(m, "count") == Some(ts[i].count);
    }
    var r := ParseBreakdown(items);
    assert r.Some?;
    assert r.value == ts;
  }

  /** Monthly statistics whose currency code is 3 units long survive the trip through JSON unchanged. */
  lemma MonthlyStatsRoundTrip(s: MonthlyStats)
    requires IsCurrencyCode(s.currency)
    ensures ParseMonthlyStats(MonthlyStatsToJson(s)) == Some(s)
  {
    var m := MonthlyStatsToJson(s).fields;
    assert StatsCounters(m) == Some((s.totalSpent, s.totalIncome, s.totalSavings,
                                     s.totalInvestment, s.transactionCount, s.expenseCount));
    BreakdownRoundTrip(s.categoryBreakdown);
    assert m["category_breakdown"].items == BreakdownToJson(s.categoryBreakdown);
    assert CurrencyAt(m, "currency") == Some(s.currency);
  }

  /** The JSON object Telegram login data arrives as; an absent optional field has no key. */
  function TelegramAuthDataToJson(d: TelegramAuthData): Json {
    JObject(TelegramRequired(d) + OptionalFields(d))
  }

  /** The four required fields of Telegram login data. */
  function TelegramRequired(d: TelegramAuthData): map<string, Json> {
    map["id" := JString(d.id), "first_name" := JString(d.firstName),
        "auth_date" := JNumber(d.authDate), "hash" := JString(d.hash)]
  }

  /** The optional fields that are present, each as a string. */
  function OptionalFields(d: TelegramAuthData): (m: map<string, Json>)
    ensures m.Keys <= {"last_name", "username", "photo_url"}
    ensures "last_name" in m <==> d.lastName.Some?
    ensures "username" in m <==> d.username.Some?
    ensures "photo_url" in m <==> d.photoUrl.Some?
    ensures d.lastName.Some? ==> m["last_name"] == JString(d.lastName.value)
    ensures d.username.Some? ==> m["username"] == JString(d.username.value)
    ensures d.photoUrl.Some? ==> m["photo_url"] == JString(d.photoUrl.value)
  {
    (if d.lastName.Some? then map["last_name" := JString(d.lastName.value)] else map[])
      + (if d.username.Some? then map["username" := JString(d.username.value)] else map[])
      + (if d.photoUrl.Some? then map["photo_url" := JString(d.photoUrl.value)] else map[])
  }

  /** Telegram login data survives the trip through JSON unchanged, optional fields included. */
  lemma TelegramAuthDataRoundTrip(d: TelegramAuthData)
    ensures ParseTelegramAuthData(TelegramAuthDataToJson(d)) == Some(d)
  {
    var m := TelegramAuthDataToJson(d).fields;
    var o := OptionalFields(d);
    assert m == TelegramRequired(d) + o;
    assert "id" in m && m["id"] == JString(d.id);
    assert "first_name" in m && m["first_name"] == JString(d.firstName);
    assert "auth_date" in m && m["auth_date"] == JNumber(d.authDate);
    assert "hash" in m && m["hash"] == JString(d.hash);
    assert Optional(m, "last_name", StringAt(m, "last_name")) == Some(d.lastName);
    assert Optional(m, "username", StringAt(m, "username")) == Some(d.username);
    assert Optional(m, "photo_url", StringAt(m, "photo_url")) == Some(d.photoUrl);
  }

  /** The smallest create payload: `description` becomes "" and `currency` "NZD". */
  lemma CreateDefaults(amount: real, category: string)
    requires amount >= 0.0
    ensures ParseExpenseCreate(JObject(map["amount" := JNumber(amount), "category" := JString(category)]), _ => None)
         == Some(ExpenseCreate(amount, category, "", DEFAULT_CURRENCY, None))
  {
    assert IsCurrencyCode(DEFAULT_CURRENCY);
  }

  /** The create payload `{amount: -5, category: "Groceries", currency: "NZD"}` is rejected. */
  lemma CreateRejectsNegativeAmount(coerce: DateCoercion)
    ensures ParseExpenseCreate(JObject(map[
      "amount" := JNumber(-5.0), "category" := JString("Groceries"), "currency" := JString("NZD")]), coerce) == None
  {
  }

  /** A create payload that supplies a currency must supply one of length 3; `null` is not absent. */
  lemma CreateChecksSuppliedCurrency(m: map<string, Json>, coerce: DateCoercion)
    requires "currency" in m && !(m["currency"].JString? && IsCurrencyCode(m["currency"].s))
    ensures ParseExpenseCreate(JObject(m), coerce) == None
  {
  }

  /** The update schema accepts the empty object, changing nothing. */
  lemma UpdateAcceptsEmptyObject(coerce: DateCoercion)
    ensures ParseExpenseUpdate(JObject(map[]), coerce) == Some(ExpenseUpdate(None, None, None, None, None))
  {
  }

  /** A field an update supplies is held to the create constraint. */
  lemma UpdateChecksSuppliedFields(m: map<string, Json>, coerce: DateCoercion)
    requires ("amount" in m && !(m["amount"].JNumber? && m["amount"].n >= 0.0))
          || ("currency" in m && !(m["currency"].JString? && IsCurrencyCode(m["currency"].s)))
    ensures ParseExpenseUpdate(JObject(m), coerce) == None
  {
  }

  /** Telegram login data needs only its four required fields; the optional ones may be absent. */
  lemma TelegramOptionalFieldsMayBeAbsent(id: string, first: string, date: real, hash: string)
    ensures ParseTelegramAuthData(JObject(map[
      "id" := JString(id), "first_name" := JString(first), "auth_date" := JNumber(date), "hash" := JString(hash)]))
      == Some(TelegramAuthData(id, first, None, None, None, date, hash))
  {
  }

  /** A token response survives the trip through JSON unchanged. */
  lemma TokenResponseRoundTrip(t: TokenResponse)
    ensures ParseTokenResponse(JObject(map[
      "access_token" := JString(t.accessToken), "token_type" := JString(t.tokenType)])) == Some(t)
  {
  }
}
