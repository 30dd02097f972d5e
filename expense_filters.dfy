/**
 * `ExpenseFilter` of backend/api/expenses/filters.py: four declared query
 * parameters, each cleaned from the query string and turned into one lookup
 * on the expense list. `date` is an exact match, `date_from` an inclusive
 * lower bound, `date_to` an inclusive upper bound, all on `Expense.date`;
 * `category` is a case-insensitive match on the category's name.
 */
module ExpenseFilters {
  import opened Wrappers
  import opened Text
  import opened Dates

  datatype Category = Category(id: int, name: string)

  /** An expense row; the amount is kept in integer cents and plays no part in filtering. */
  datatype Expense = Expense(id: int, amountCents: int, date: Date, category: Category, description: string)

  /** The cleaned values of the four filters; `None` where the parameter was not supplied. */
  datatype ExpenseFilter = ExpenseFilter(date: Option<Date>, dateFrom: Option<Date>, dateTo: Option<Date>, category: Option<string>)

  const NoFilter := ExpenseFilter(None, None, None, None)

  /** `Meta.fields`: the only query parameters that filter. */
  const FilterFields: seq<string> := ["date", "date_from", "date_to", "category"]
  const DateParameters: seq<string> := ["date", "date_from", "date_to"]

  /**
   * The lookups the declared filters apply, all at once. An expense can only
   * match when the date bounds and the exact date agree with each other.
   */
  predicate Matches(e: Expense, f: ExpenseFilter)
    ensures Matches(e, f) && f.dateFrom.Some? && f.dateTo.Some? ==> OnOrBefore(f.dateFrom.value, f.dateTo.value)
    ensures Matches(e, f) && f.date.Some? && f.dateFrom.Some? ==> OnOrBefore(f.dateFrom.value, f.date.value)
    ensures Matches(e, f) && f.date.Some? && f.dateTo.Some? ==> OnOrBefore(f.date.value, f.dateTo.value)
  {
    && (f.date.Some? ==> e.date == f.date.value)
    && (f.dateFrom.Some? ==> OnOrBefore(f.dateFrom.value, e.date))
    && (f.dateTo.Some? ==> OnOrBefore(e.date, f.dateTo.value))
    && (f.category.Some? ==> EqualsIgnoringCase(e.category.name, f.category.value))
  }

  /** The filtered queryset: the matching expenses, in their original order. */
  function Select(qs: seq<Expense>, f: ExpenseFilter): (r: seq<Expense>)
    ensures |r| <= |qs|
    ensures forall e :: e in r <==> e in qs && Matches(e, f)
  {
    if qs == [] then []
    else if Matches(qs[0], f) then [qs[0]] + Select(qs[1..], f)
    else Select(qs[1..], f)
  }

  /**
   * A date parameter counts as supplied when present and non-empty; an empty
   * value applies no filter. A value of only whitespace is supplied, and
   * fails to parse once stripped.
   */
  predicate Supplied(q: map<string, string>, name: string) {
    name in q && q[name] != ""
  }

  /** The date parameters whose text no input format accepts. */
  function InvalidDates(q: map<string, string>): set<string> {
    set name | name in DateParameters && Supplied(q, name) && ParseDate(q[name]).None?
  }

  /**
   * `CharField`'s null-character validator: a cleaned, non-empty text that
   * contains U+0000 is rejected.
   */
  predicate NullRejected(text: Option<string>) {
    text.Some? && '\0' in text.value
  }

  /** Every parameter the form rejects: the unparsable dates, and a category holding U+0000. */
  function InvalidParameters(q: map<string, string>): set<string> {
    InvalidDates(q) + (if NullRejected(CleanedText(q, "category")) then {"category"} else {})
  }

  function CleanedDate(q: map<string, string>, name: string): Option<Date> {
    if Supplied(q, name) then ParseDate(q[name]) else None
  }

  /** A text parameter is stripped first; a value that strips to nothing applies no filter. */
  function CleanedText(q: map<string, string>, name: string): Option<string> {
    if name in q && Strip(q[name]) != "" then Some(Strip(q[name])) else None
  }

  /**
   * Cleaning a query string into a filter: the names of the parameters the
   * form rejects, or one optional value per declared filter. Parameters that
   * are not declared are ignored.
   */
  function FromQuery(q: map<string, string>): (r: Result<ExpenseFilter, set<string>>)
    ensures r.Failure? <==>
              || (exists name :: name in DateParameters && Supplied(q, name) && ParseDate(q[name]).None?)
              || ("category" in q && '\0' in Strip(q["category"]))
    ensures r.Failure? ==> r.error == InvalidParameters(q) && r.error <= set name | name in FilterFields
    ensures r.Failure? ==> ("category" in r.error <==> "category" in q && '\0' in Strip(q["category"]))
    ensures r.Success? ==> r.value.date.Some? == Supplied(q, "date")
    ensures r.Success? ==> r.value.dateFrom.Some? == Supplied(q, "date_from")
    ensures r.Success? ==> r.value.dateTo.Some? == Supplied(q, "date_to")
    ensures r.Success? && Supplied(q, "date") ==> r.value.date == ParseDate(q["date"])
    ensures r.Success? && Supplied(q, "date_from") ==> r.value.dateFrom == ParseDate(q["date_from"])
    ensures r.Success? && Supplied(q, "date_to") ==> r.value.dateTo == ParseDate(q["date_to"])
    ensures r.Success? ==> (r.value.category.Some? <==> "category" in q && Strip(q["category"]) != "")
    ensures r.Success? && r.value.category.Some? ==> r.value.category.value == Strip(q["category"])
  {
    InvalidParametersMeaning(q);
    var invalid := InvalidParameters(q);
    Cleaned(invalid, CleanedDate(q, "date"), CleanedDate(q, "date_from"), CleanedDate(q, "date_to"), CleanedText(q, "category"))
  }

  /** The unparsable date parameters are exactly the supplied ones no format accepts. */
  lemma InvalidDatesMeaning(q: map<string, string>)
    ensures InvalidDates(q) == {} <==> !exists name :: name in DateParameters && Supplied(q, name) && ParseDate(q[name]).None?
    ensures InvalidDates(q) <= set name | name in DateParameters
  {
    var dates := InvalidDates(q);
    assert forall name :: name in DateParameters && Supplied(q, name) && ParseDate(q[name]).None? ==> name in dates;
  }

  /** The validator rejects the category exactly when its value still holds U+0000 once stripped. */
  lemma CategoryRejectedMeaning(q: map<string, string>)
    ensures NullRejected(CleanedText(q, "category")) <==> "category" in q && '\0' in Strip(q["category"])
  {
  }

  /** The rejected parameters: the unparsable dates, and the category exactly when it holds U+0000 once stripped. */
  lemma InvalidParametersMeaning(q: map<string, string>)
    ensures InvalidParameters(q) == {} <==>
              && !(exists name :: name in DateParameters && Supplied(q, name) && ParseDate(q[name]).None?)
              && !("category" in q && '\0' in Strip(q["category"]))
    ensures InvalidParameters(q) <= set name | name in FilterFields
    ensures "category" in InvalidParameters(q) <==> "category" in q && '\0' in Strip(q["category"])
  {
    InvalidDatesMeaning(q);
    CategoryRejectedMeaning(q);
    var dates, rejected := InvalidDates(q), NullRejected(CleanedText(q, "category"));
    assert InvalidParameters(q) == dates + (if rejected then {"category"} else {});
    assert "category" !in dates;
  }

  /** The form's outcome: its errors if there are any, otherwise the cleaned values. */
  function Cleaned(invalid: set<string>, date: Option<Date>, dateFrom: Option<Date>, dateTo: Option<Date>,
                   category: Option<string>): Result<ExpenseFilter, set<string>> {
    if invalid != {} then Failure(invalid) else Success(ExpenseFilter(date, dateFrom, dateTo, category))
  }

  /** The date parameters clean alike in `q1` and `q2`: each is supplied in both or neither, and reads the same. */
  predicate DatesCleanAlike(q1: map<string, string>, q2: map<string, string>) {
    forall n :: n in DateParameters ==>
      Supplied(q1, n) == Supplied(q2, n) && (Supplied(q1, n) ==> ParseDate(q1[n]) == ParseDate(q2[n]))
  }

  lemma InvalidAlike(q1: map<string, string>, q2: map<string, string>)
    requires DatesCleanAlike(q1, q2)
    requires CleanedText(q1, "category") == CleanedText(q2, "category")
    ensures InvalidParameters(q1) == InvalidParameters(q2)
  {
    var i1, i2 := InvalidDates(q1), InvalidDates(q2);
    forall n | n in DateParameters
      ensures (n in i1) == (n in i2)
    {
    }
  }

  lemma CleanedDateAlike(q1: map<string, string>, q2: map<string, string>, n: string)
    requires DatesCleanAlike(q1, q2) && n in DateParameters
    ensures CleanedDate(q1, n) == CleanedDate(q2, n)
  {
  }

  lemma FromQueryIsCleaned(q: map<string, string>)
    ensures FromQuery(q) == Cleaned(InvalidParameters(q), CleanedDate(q, "date"), CleanedDate(q, "date_from"),
                                    CleanedDate(q, "date_to"), CleanedText(q, "category"))
  {
  }

  /** Two query strings whose parameters clean alike clean into the same filter or error. */
  lemma CleanAlike(q1: map<string, string>, q2: map<string, string>)
    requires DatesCleanAlike(q1, q2)
    requires CleanedText(q1, "category") == CleanedText(q2, "category")
    ensures FromQuery(q1) == FromQuery(q2)
  {
    InvalidAlike(q1, q2);
    FromQueryIsCleaned(q1);
    FromQueryIsCleaned(q2);
    CleanedDateAlike(q1, q2, "date");
    CleanedDateAlike(q1, q2, "date_from");
    CleanedDateAlike(q1, q2, "date_to");
  }

  /** Parameters other than the four declared ones change nothing. */
  lemma UndeclaredParametersIgnored(q: map<string, string>, name: string, value: string)
    requires name !in FilterFields
    ensures FromQuery(q[name := value]) == FromQuery(q)
  {
    CleanAlike(q[name := value], q);
  }

  /** Both spellings of one calendar date, given to any date parameter, yield the same filter. */
  lemma SpellingsFilterAlike(q: map<string, string>, name: string, d: Date)
    requires name in DateParameters && Valid(d)
    ensures FromQuery(q[name := Render(d, YearMonthDay)]) == FromQuery(q[name := Render(d, DayMonthYear)])
    ensures var r := FromQuery(q[name := Render(d, YearMonthDay)]);
            r.Success? ==> && (name == "date" ==> r.value.date == Some(d))
                           && (name == "date_from" ==> r.value.dateFrom == Some(d))
                           && (name == "date_to" ==> r.value.dateTo == Some(d))
  {
    var t1, t2 := Render(d, YearMonthDay), Render(d, DayMonthYear);
    ParseRender(d, YearMonthDay);
    ParseRender(d, DayMonthYear);
    SameReadingCleansAlike(q, name, t1, t2);
    CleanAlike(q[name := t1], q[name := t2]);
    FromQueryIsCleaned(q[name := t1]);
  }

  /** Two non-empty texts that read as the same date clean alike in any date parameter. */
  lemma SameReadingCleansAlike(q: map<string, string>, name: string, t1: string, t2: string)
    requires name in DateParameters && t1 != "" && t2 != "" && ParseDate(t1) == ParseDate(t2)
    ensures DatesCleanAlike(q[name := t1], q[name := t2])
    ensures CleanedText(q[name := t1], "category") == CleanedText(q[name := t2], "category")
    ensures CleanedDate(q[name := t1], name) == ParseDate(t1)
  {
    var q1, q2 := q[name := t1], q[name := t2];
    forall n | n in DateParameters
      ensures Supplied(q1, n) == Supplied(q2, n) && (Supplied(q1, n) ==> ParseDate(q1[n]) == ParseDate(q2[n]))
    {
      SameReadingAt(q, name, t1, t2, n);
    }
    DateUpdateKeepsCategory(q, name, t1, t2);
  }

  lemma SameReadingAt(q: map<string, string>, name: string, t1: string, t2: string, n: string)
    requires t1 != "" && t2 != "" && ParseDate(t1) == ParseDate(t2)
    ensures var q1, q2 := q[name := t1], q[name := t2];
            Supplied(q1, n) == Supplied(q2, n) && (Supplied(q1, n) ==> ParseDate(q1[n]) == ParseDate(q2[n]))
  {
  }

  lemma DateUpdateKeepsCategory(q: map<string, string>, name: string, t1: string, t2: string)
    requires name in DateParameters
    ensures CleanedText(q[name := t1], "category") == CleanedText(q[name := t2], "category")
  {
    var q1, q2 := q[name := t1], q[name := t2];
    assert ("category" in q1) == ("category" in q2);
    assert "category" in q1 ==> q1["category"] == q2["category"];
  }

  /** Whitespace around the category value changes nothing. */
  lemma CategoryPaddingIgnored(q: map<string, string>, a: string, c: string, b: string)
    requires AllWhitespace(a) && AllWhitespace(b)
    ensures FromQuery(q["category" := a + c + b]) == FromQuery(q["category" := c])
  {
    var q1, q2 := q["category" := a + c + b], q["category" := c];
    CategoryKeepsDates(q, a + c + b, c);
    StripIgnoresPadding(a, c, b);
    CleanAlike(q1, q2);
  }

  lemma CategoryKeepsDates(q: map<string, string>, v1: string, v2: string)
    ensures DatesCleanAlike(q["category" := v1], q["category" := v2])
  {
    var q1, q2 := q["category" := v1], q["category" := v2];
    forall n | n in DateParameters
      ensures Supplied(q1, n) == Supplied(q2, n) && (Supplied(q1, n) ==> ParseDate(q1[n]) == ParseDate(q2[n]))
    {
    }
  }

  /** A category value holding U+0000 is rejected, whatever the other parameters. */
  lemma NullCharacterRejected(q: map<string, string>, c: string, i: nat)
    requires i < |c| && c[i] == '\0'
    ensures FromQuery(q["category" := c]).Failure?
    ensures "category" in FromQuery(q["category" := c]).error
  {
    StripKeepsNonWhitespace(c, i);
  }

  /**
   * Each filter alone: its meaning as a condition on one expense. The
   * category filter reads the category's name only, never its id.
   */
  lemma SingleFilterMeaning(e: Expense, f: ExpenseFilter, d: Date, c: string, otherId: int)
    ensures Matches(e, NoFilter)
    ensures Matches(e, NoFilter.(date := Some(d))) <==> e.date == d
    ensures Matches(e, NoFilter.(dateFrom := Some(d))) <==> OnOrBefore(d, e.date)
    ensures Matches(e, NoFilter.(dateTo := Some(d))) <==> OnOrBefore(e.date, d)
    ensures Matches(e, NoFilter.(category := Some(c))) <==> Lower(e.category.name) == Lower(c)
    ensures Matches(e.(category := e.category.(id := otherId)), f) <==> Matches(e, f)
  {
  }

  /** A range from `d` to `d` selects the same expenses as the exact date `d`. */
  lemma {:induction false} SameDayRangeIsExactDate(qs: seq<Expense>, f: ExpenseFilter, d: Date)
    requires f.date.None? && f.dateFrom.None? && f.dateTo.None?
    ensures Select(qs, f.(dateFrom := Some(d), dateTo := Some(d))) == Select(qs, f.(date := Some(d)))
  {
    if qs != [] {
      SameDayRangeIsExactDate(qs[1..], f, d);
    }
  }

  /** A range whose start lies after its end selects nothing. */
  lemma {:induction false} InvertedRangeSelectsNothing(qs: seq<Expense>, f: ExpenseFilter, a: Date, b: Date)
    requires !OnOrBefore(a, b)
    ensures Select(qs, f.(dateFrom := Some(a), dateTo := Some(b))) == []
  {
    if qs != [] {
      InvertedRangeSelectsNothing(qs[1..], f, a, b);
    }
  }

  /**
   * The category filter compares names, ignoring case and the category's id:
   * two values that differ only in case select the same expenses.
   */
  lemma {:induction false} CategoryIgnoresCase(qs: seq<Expense>, f: ExpenseFilter, c: string, c': string)
    requires EqualsIgnoringCase(c, c')
    ensures Select(qs, f.(category := Some(c))) == Select(qs, f.(category := Some(c')))
  {
    if qs != [] {
      CategoryIgnoresCase(qs[1..], f, c, c');
    }
  }
}
