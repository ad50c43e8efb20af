/**
 * The response and request validators. Each schema is an all-or-nothing check of a JSON
 * value: it yields the typed record when every declared field is present with the declared
 * type and constraint, and nothing otherwise. Keys the schema does not declare are dropped.
 */
module Schemas {
  import opened Wrappers
  import opened JsonValues
  import opened JsString

  /**
   * `z.coerce.date()`: `new Date(input)` as milliseconds since the epoch, `None` for an
   * Invalid Date. Calendar parsing is foreign and left uninterpreted.
   */
  type DateCoercion = Json -> Option<int>

  datatype Expense = Expense(
    id: real, amount: real, category: string, description: string,
    createdAt: int, currency: string, telegramUserId: real)

  datatype ExpensesResponse = ExpensesResponse(
    expenses: seq<Expense>, totalCount: real, limit: real, offset: real)

  datatype CategoryTotal = CategoryTotal(category: string, total: real, count: real)

  datatype MonthlyStats = MonthlyStats(
    totalSpent: real, totalIncome: real, totalSavings: real, totalInvestment: real,
    transactionCount: real, expenseCount: real,
    categoryBreakdown: seq<CategoryTotal>, currency: string)

  datatype TokenResponse = TokenResponse(accessToken: string, tokenType: string)

  datatype TelegramAuthData = TelegramAuthData(
    id: string, firstName: string, lastName: Option<string>, username: Option<string>,
    photoUrl: Option<string>, authDate: real, hash: string)

  datatype ExpenseCreate = ExpenseCreate(
    amount: real, category: string, description: string, currency: string,
    createdAt: Option<int>)

  datatype ExpenseUpdate = ExpenseUpdate(
    amount: Option<real>, category: Option<string>, description: Option<string>,
    currency: Option<string>, createdAt: Option<int>)

  datatype ExpenseDeleteResponse = ExpenseDeleteResponse(success: bool, message: string)

  const EXPENSE_KEYS: seq<string> :=
    ["id", "amount", "category", "description", "created_at", "currency", "telegram_user_id"]
  const MONTHLY_STATS_KEYS: seq<string> :=
    ["total_spent", "total_income", "total_savings", "total_investment",
     "transaction_count", "expense_count", "category_breakdown", "currency"]
  const TELEGRAM_REQUIRED_KEYS: seq<string> := ["id", "first_name", "auth_date", "hash"]

  /** The default currency of a new expense. */
  const DEFAULT_CURRENCY: string := "NZD"

  /** `z.string().length(3)`: JavaScript measures the length in UTF-16 code units. */
  predicate IsCurrencyCode(s: string) { Utf16Length(s) == 3 }

  // ---- Field checks ------------------------------------------------------------
  // Each reads one key of an object: `None` means the schema rejects the value.

  /** `z.number()`. */
  function NumberAt(m: map<string, Json>, key: string): (r: Option<real>)
    ensures r.Some? <==> key in m && m[key].JNumber?
    ensures r.Some? ==> m[key] == JNumber(r.value)
  {
    if key in m && m[key].JNumber? then Some(m[key].n) else None
  }

  /** `z.number().min(0)`. */
  function AmountAt(m: map<string, Json>, key: string): (r: Option<real>)
    ensures r.Some? <==> key in m && m[key].JNumber? && m[key].n >= 0.0
    ensures r.Some? ==> m[key] == JNumber(r.value)
  {
    if key in m && m[key].JNumber? && m[key].n >= 0.0 then Some(m[key].n) else None
  }

  /** `z.string()`. */
  function StringAt(m: map<string, Json>, key: string): (r: Option<string>)
    ensures r.Some? <==> key in m && m[key].JString?
    ensures r.Some? ==> m[key] == JString(r.value)
  {
    if key in m && m[key].JString? then Some(m[key].s) else None
  }

  /** `z.boolean()`. */
  function BoolAt(m: map<string, Json>, key: string): (r: Option<bool>)
    ensures r.Some? <==> key in m && m[key].JBool?
    ensures r.Some? ==> m[key] == JBool(r.value)
  {
    if key in m && m[key].JBool? then Some(m[key].b) else None
  }

  /** `z.string().length(3)`. */
  function CurrencyAt(m: map<string, Json>, key: string): (r: Option<string>)
    ensures r.Some? <==> key in m && m[key].JString? && IsCurrencyCode(m[key].s)
    ensures r.Some? ==> m[key] == JString(r.value)
  {
    if key in m && m[key].JString? && IsCurrencyCode(m[key].s) then Some(m[key].s) else None
  }

  /** `z.coerce.date()`: a missing key coerces `undefined`, which is an Invalid Date. */
  function DateAt(m: map<string, Json>, key: string, coerce: DateCoercion): (r: Option<int>)
    ensures key !in m ==> r.None?
    ensures key in m ==> r == coerce(m[key])
  {
    if key in m then coerce(m[key]) else None
  }

  /**
   * `.optional()` around a check: an absent key is accepted as `Some(None)`; a present one
   * must pass the check (`null` is not absent and is rejected by the inner check).
   */
  function Optional<T>(m: map<string, Json>, key: string, check: Option<T>): (r: Option<Option<T>>)
    ensures key !in m ==> r == Some(None)
    ensures key in m ==> (r.Some? <==> check.Some?) && (r.Some? ==> r.value == Some(check.value))
  {
    if key !in m then Some(None)
    else if check.Some? then Some(Some(check.value))
    else None
  }

  /** `.default(d)` around a check: an absent key yields `d`; a present one must pass the check. */
  function WithDefault<T>(m: map<string, Json>, key: string, check: Option<T>, d: T): (r: Option<T>)
    ensures key !in m ==> r == Some(d)
    ensures key in m ==> r == check
  {
    if key !in m then Some(d) else check
  }

  // ---- Schemas -----------------------------------------------------------------

  /** `ExpenseSchema`. */
  function ParseExpense(j: Json, coerce: DateCoercion): (r: Option<Expense>)
    ensures r.Some? ==> j.JObject? && forall k :: k in EXPENSE_KEYS ==> k in j.fields
    ensures r.Some? ==> r.value.amount >= 0.0 && IsCurrencyCode(r.value.currency)
    ensures r.Some? ==>
      && j.fields["id"] == JNumber(r.value.id)
      && j.fields["amount"] == JNumber(r.value.amount)
      && j.fields["category"] == JString(r.value.category)
      && j.fields["description"] == JString(r.value.description)
      && coerce(j.fields["created_at"]) == Some(r.value.createdAt)
      && j.fields["currency"] == JString(r.value.currency)
      && j.fields["telegram_user_id"] == JNumber(r.value.telegramUserId)
  {
    if !j.JObject? then None
    else
      var m := j.fields;
      var id :- NumberAt(m, "id");
      var amount :- AmountAt(m, "amount");
      var category :- StringAt(m, "category");
      var description :- StringAt(m, "description");
      var createdAt :- DateAt(m, "created_at", coerce);
      var currency :- CurrencyAt(m, "currency");
      var owner :- NumberAt(m, "telegram_user_id");
      Some(Expense(id, amount, category, description, createdAt, currency, owner))
  }

  /** `z.array(ExpenseSchema)`: every element must pass, or the whole array is rejected. */
  function ParseExpenseList(items: seq<Json>, coerce: DateCoercion): (r: Option<seq<Expense>>)
    ensures r.Some? <==> forall i :: 0 <= i < |items| ==> ParseExpense(items[i], coerce).Some?
    ensures r.Some? ==>
      && |r.value| == |items|
      && forall i :: 0 <= i < |items| ==> Some(r.value[i]) == ParseExpense(items[i], coerce)
    decreases |items|
  {
    if |items| == 0 then Some([])
    else
      var first :- ParseExpense(items[0], coerce);
      var rest :- ParseExpenseList(items[1..], coerce);
      Some([first] + rest)
  }

  /** `ExpensesResponseSchema`. */
  function ParseExpensesResponse(j: Json, coerce: DateCoercion): (r: Option<ExpensesResponse>)
    ensures r.Some? ==> j.JObject? && "expenses" in j.fields && j.fields["expenses"].JArray?
    ensures r.Some? ==> "total_count" in j.fields && "limit" in j.fields && "offset" in j.fields
    ensures r.Some? ==>
      var items := j.fields["expenses"].items;
      && |r.value.expenses| == |items|
      && (forall i :: 0 <= i < |items| ==> Some(r.value.expenses[i]) == ParseExpense(items[i], coerce))
      && j.fields["total_count"] == JNumber(r.value.totalCount)
      && j.fields["limit"] == JNumber(r.value.limit)
      && j.fields["offset"] == JNumber(r.value.offset)
  {
    if !j.JObject? then None
    else
      var m := j.fields;
      if !("expenses" in m && m["expenses"].JArray?) then None
      else
        var expenses :- ParseExpenseList(m["expenses"].items, coerce);
        var total :- NumberAt(m, "total_count");
        var limit :- NumberAt(m, "limit");
        var offset :- NumberAt(m, "offset");
        Some(ExpensesResponse(expenses, total, limit, offset))
  }

  /** `CategoryTotalSchema`. */
  function ParseCategoryTotal(j: Json): (r: Option<CategoryTotal>)
    ensures r.Some? ==>
      && j.JObject?
      && "category" in j.fields && j.fields["category"] == JString(r.value.category)
      && "total" in j.fields && j.fields["total"] == JNumber(r.value.total)
      && "count" in j.fields && j.fields["count"] == JNumber(r.value.count)
  {
    if !j.JObject? then None
    else
      var m := j.fields;
      var category :- StringAt(m, "category");
      var total :- NumberAt(m, "total");
      var count :- NumberAt(m, "count");
      Some(CategoryTotal(category, total, count))
  }

  /** `z.array(CategoryTotalSchema)`. */
  function ParseBreakdown(items: seq<Json>): (r: Option<seq<CategoryTotal>>)
    ensures r.Some? <==> forall i :: 0 <= i < |items| ==> ParseCategoryTotal(items[i]).Some?
    ensures r.Some? ==>
      && |r.value| == |items|
      && forall i :: 0 <= i < |items| ==> Some(r.value[i]) == ParseCategoryTotal(items[i])
    decreases |items|
  {
    if |items| == 0 then Some([])
    else
      var first :- ParseCategoryTotal(items[0]);
      var rest :- ParseBreakdown(items[1..]);
      Some([first] + rest)
  }

  /** The six numeric counters of `MonthlyStatsSchema`, in declaration order. */
  function StatsCounters(m: map<string, Json>): (r: Option<(real, real, real, real, real, real)>)
    ensures r.Some? ==>
      && "total_spent" in m && m["total_spent"] == JNumber(r.value.0)
      && "total_income" in m && m["total_income"] == JNumber(r.value.1)
      && "total_savings" in m && m["total_savings"] == JNumber(r.value.2)
      && "total_investment" in m && m["total_investment"] == JNumber(r.value.3)
      && "transaction_count" in m && m["transaction_count"] == JNumber(r.value.4)
      && "expense_count" in m && m["expense_count"] == JNumber(r.value.5)
  {
    var spent :- NumberAt(m, "total_spent");
    var income :- NumberAt(m, "total_income");
    var savings :- NumberAt(m, "total_savings");
    var investment :- NumberAt(m, "total_investment");
    var transactions :- NumberAt(m, "transaction_count");
    var expenses :- NumberAt(m, "expense_count");
    Some((spent, income, savings, investment, transactions, expenses))
  }

  /** The breakdown and the currency of `MonthlyStatsSchema`. */
  function StatsBreakdown(m: map<string, Json>): (r: Option<(seq<CategoryTotal>, string)>)
    ensures r.Some? ==>
      && "category_breakdown" in m && m["category_breakdown"].JArray?
      && var items := m["category_breakdown"].items;
      && |r.value.0| == |items|
      && forall i :: 0 <= i < |items| ==> Some(r.value.0[i]) == ParseCategoryTotal(items[i])
    ensures r.Some? ==> "currency" in m && m["currency"] == JString(r.value.1) && IsCurrencyCode(r.value.1)
  {
    if !("category_breakdown" in m && m["category_breakdown"].JArray?) then None
    else
      var breakdown :- ParseBreakdown(m["category_breakdown"].items);
      var currency :- CurrencyAt(m, "currency");
      Some((breakdown, currency))
  }

  /** `MonthlyStatsSchema`. */
  function ParseMonthlyStats(j: Json): (r: Option<MonthlyStats>)
    ensures r.Some? ==> j.JObject? && forall k :: k in MONTHLY_STATS_KEYS ==> k in j.fields
    ensures r.Some? ==> IsCurrencyCode(r.value.currency)
    ensures r.Some? ==>
      && j.JObject?
      && "total_spent" in j.fields && j.fields["total_spent"] == JNumber(r.value.totalSpent)
      && "total_income" in j.fields && j.fields["total_income"] == JNumber(r.value.totalIncome)
      && "total_savings" in j.fields && j.fields["total_savings"] == JNumber(r.value.totalSavings)
      && "total_investment" in j.fields && j.fields["total_investment"] == JNumber(r.value.totalInvestment)
      && "transaction_count" in j.fields && j.fields["transaction_count"] == JNumber(r.value.transactionCount)
      && "expense_count" in j.fields && j.fields["expense_count"] == JNumber(r.value.expenseCount)
      && "currency" in j.fields && j.fields["currency"] == JString(r.value.currency)
    ensures r.Some? ==>
      && j.JObject? && "category_breakdown" in j.fields
      && j.fields["category_breakdown"].JArray?
      && var items := j.fields["category_breakdown"].items;
      && |r.value.categoryBreakdown| == |items|
      && forall i :: 0 <= i < |items| ==> Some(r.value.categoryBreakdown[i]) == ParseCategoryTotal(items[i])
  {
    if !j.JObject? then None
    else
      var c, b := StatsCounters(j.fields), StatsBreakdown(j.fields);
      if c.None? || b.None? then None
      else
        var (spent, income, savings, investment, transactions, expenses) := c.value;
        Some(MonthlyStats(spent, income, savings, investment, transactions, expenses, b.value.0, b.value.1))
  }

  /** `TokenResponseSchema`. */
  function ParseTokenResponse(j: Json): (r: Option<TokenResponse>)
    ensures r.Some? <==>
      && j.JObject?
      && "access_token" in j.fields && j.fields["access_token"].JString?
      && "token_type" in j.fields && j.fields["token_type"].JString?
    ensures r.Some? ==>
      && j.fields["access_token"] == JString(r.value.accessToken)
      && j.fields["token_type"] == JString(r.value.tokenType)
  {
    if !j.JObject? then None
    else
      var m := j.fields;
      var access :- StringAt(m, "access_token");
      var kind :- StringAt(m, "token_type");
      Some(TokenResponse(access, kind))
  }

  /** `TelegramAuthDataSchema`. */
  function ParseTelegramAuthData(j: Json): (r: Option<TelegramAuthData>)
    ensures r.Some? ==> j.JObject? && forall k :: k in TELEGRAM_REQUIRED_KEYS ==> k in j.fields
    ensures r.Some? ==>
      && j.fields["id"] == JString(r.value.id)
      && j.fields["first_name"] == JString(r.value.firstName)
      && j.fields["auth_date"] == JNumber(r.value.authDate)
      && j.fields["hash"] == JString(r.value.hash)
    ensures r.Some? ==>
      && (r.value.lastName.None? <==> "last_name" !in j.fields)
      && (r.value.username.None? <==> "username" !in j.fields)
      && (r.value.photoUrl.None? <==> "photo_url" !in j.fields)
    ensures r.Some? ==>
      && (r.value.lastName.Some? ==> j.fields["last_name"] == JString(r.value.lastName.value))
      && (r.value.username.Some? ==> j.fields["username"] == JString(r.value.username.value))
      && (r.value.photoUrl.Some? ==> j.fields["photo_url"] == JString(r.value.photoUrl.value))
  {
    if !j.JObject? then None
    else
      var m := j.fields;
      var id :- StringAt(m, "id");
      var first :- StringAt(m, "first_name");
      var last :- Optional(m, "last_name", StringAt(m, "last_name"));
      var user :- Optional(m, "username", StringAt(m, "username"));
      var photo :- Optional(m, "photo_url", StringAt(m, "photo_url"));
      var date :- NumberAt(m, "auth_date");
      var hash :- StringAt(m, "hash");
      Some(TelegramAuthData(id, first, last, user, photo, date, hash))
  }

  /** `ExpenseCreateSchema`: `description` defaults to "" and `currency` to "NZD". */
  function ParseExpenseCreate(j: Json, coerce: DateCoercion): (r: Option<ExpenseCreate>)
    ensures r.Some? ==> j.JObject? && "amount" in j.fields && "category" in j.fields
    ensures r.Some? ==> r.value.amount >= 0.0 && IsCurrencyCode(r.value.currency)
    ensures r.Some? ==>
      && j.fields["amount"] == JNumber(r.value.amount)
      && j.fields["category"] == JString(r.value.category)
      && (if "description" in j.fields then j.fields["description"] == JString(r.value.description)
          else r.value.description == "")
      && (if "currency" in j.fields then j.fields["currency"] == JString(r.value.currency)
          else r.value.currency == DEFAULT_CURRENCY)
      && (if "created_at" in j.fields then r.value.createdAt.Some? && coerce(j.fields["created_at"]) == r.value.createdAt
          else r.value.createdAt.None?)
  {
    if !j.JObject? then None
    else
      var m := j.fields;
      var amount :- AmountAt(m, "amount");
      var category :- StringAt(m, "category");
      var description :- WithDefault(m, "description", StringAt(m, "description"), "");
      var currency :- WithDefault(m, "currency", CurrencyAt(m, "currency"), DEFAULT_CURRENCY);
      var createdAt :- Optional(m, "created_at", DateAt(m, "created_at", coerce));
      Some(ExpenseCreate(amount, category, description, currency, createdAt))
  }

  /** `ExpenseUpdateSchema`: every field optional, each present one checked as on create. */
  function ParseExpenseUpdate(j: Json, coerce: DateCoercion): (r: Option<ExpenseUpdate>)
    ensures r.Some? ==> j.JObject?
    ensures r.Some? ==>
      && (r.value.amount.Some? <==> "amount" in j.fields)
      && (r.value.category.Some? <==> "category" in j.fields)
      && (r.value.description.Some? <==> "description" in j.fields)
      && (r.value.currency.Some? <==> "currency" in j.fields)
      && (r.value.createdAt.Some? <==> "created_at" in j.fields)
    ensures r.Some? && r.value.amount.Some? ==>
      r.value.amount.value >= 0.0 && j.fields["amount"] == JNumber(r.value.amount.value)
    ensures r.Some? && r.value.currency.Some? ==>
      IsCurrencyCode(r.value.currency.value) && j.fields["currency"] == JString(r.value.currency.value)
    ensures r.Some? && r.value.category.Some? ==> j.fields["category"] == JString(r.value.category.value)
    ensures r.Some? && r.value.description.Some? ==>
      j.fields["description"] == JString(r.value.description.value)
    ensures r.Some? && r.value.createdAt.Some? ==> coerce(j.fields["created_at"]) == r.value.createdAt
  {
    if !j.JObject? then None
    else
      var m := j.fields;
      var amount :- Optional(m, "amount", AmountAt(m, "amount"));
      var category :- Optional(m, "category", StringAt(m, "category"));
      var description :- Optional(m, "description", StringAt(m, "description"));
      var currency :- Optional(m, "currency", CurrencyAt(m, "currency"));
      var createdAt :- Optional(m, "created_at", DateAt(m, "created_at", coerce));
      Some(ExpenseUpdate(amount, category, description, currency, createdAt))
  }

  /** `ExpenseDeleteResponseSchema`. */
  function ParseExpenseDeleteResponse(j: Json): (r: Option<ExpenseDeleteResponse>)
    ensures r.Some? <==>
      && j.JObject?
      && "success" in j.fields && j.fields["success"].JBool?
      && "message" in j.fields && j.fields["message"].JString?
    ensures r.Some? ==>
      && j.fields["success"] == JBool(r.value.success)
      && j.fields["message"] == JString(r.value.message)
  {
    if !j.JObject? then None
    else
      var m := j.fields;
      var success :- BoolAt(m, "success");
      var message :- StringAt(m, "message");
      Some(ExpenseDeleteResponse(success, message))
  }
}
