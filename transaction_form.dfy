/** The transaction form: the validation schema, the income/expense switch
    that fixes the sign of the submitted amount, and the amount field's
    character filter. */
module TransactionForm {
  import opened Wrappers
  import opened Types
  import opened Calendar
  import MockData

  /** The form's values once the amount has been read as a number (in minor
      units): the date may be missing and the category is the selected string. */
  datatype FormValues = FormValues(amount: int, date: Option<Date>, description: string, category: string)

  /** One failed rule of the schema, in the schema's field order. */
  datatype FieldError = AmountZero | DateRequired | DescriptionTooShort | DescriptionTooLong | CategoryNotListed

  /** The schema's category enum: the names of the category table's rows. */
  predicate InCategoryEnum(s: string) {
    exists i :: 0 <= i < |MockData.Categories| && CategoryName(MockData.Categories[i].name) == s
  }

  /** The enum built from the table accepts exactly the nine category names. */
  lemma CategoryEnumIsUnion(s: string)
    ensures InCategoryEnum(s) <==> ParseCategory(s).Some?
  {
    MockData.CategoriesTable();
    if ParseCategory(s).Some? {
      var c := ParseCategory(s).value;
      CategoryUnionClosed(c);
      assert c in MockData.Names(MockData.Categories);
      var i :| 0 <= i < |MockData.Categories| && MockData.Names(MockData.Categories)[i] == c;
      assert CategoryName(MockData.Categories[i].name) == s;
    }
    if InCategoryEnum(s) {
      var i :| 0 <= i < |MockData.Categories| && CategoryName(MockData.Categories[i].name) == s;
      CategoryUnionClosed(MockData.Categories[i].name);
    }
  }

  /** The length of a string as the platform counts it: UTF-16 code units, so
      a character outside the Basic Multilingual Plane counts twice. */
  function Utf16Length(s: string): (n: nat)
    ensures |s| <= n <= 2 * |s|
  {
    if s == [] then 0
    else (if s[0] > '\U{FFFF}' then 2 else 1) + Utf16Length(s[1..])
  }

  /** The platform's length equals the number of characters exactly when
      every character lies in the Basic Multilingual Plane. */
  lemma {:induction false} Utf16LengthBmp(s: string)
    ensures Utf16Length(s) == |s| <==> forall i :: 0 <= i < |s| ==> s[i] <= '\U{FFFF}'
  {
    if s != [] {
      assert forall i :: 0 <= i < |s[1..]| ==> s[1..][i] == s[i + 1];
      Utf16LengthBmp(s[1..]);
    }
  }

  /** The errors of every failed rule, in field order. */
  function Errors(v: FormValues): seq<FieldError> {
    (if v.amount == 0 then [AmountZero] else [])
    + (if v.date.None? then [DateRequired] else [])
    + (if Utf16Length(v.description) < 3 then [DescriptionTooShort] else [])
    + (if Utf16Length(v.description) > 50 then [DescriptionTooLong] else [])
    + (if !InCategoryEnum(v.category) then [CategoryNotListed] else [])
  }

  /** `transactionSchema`: the validated input, or every rule that failed. */
  function Validate(v: FormValues): (r: Result<TransactionInput, seq<FieldError>>)
    ensures r.Success? <==>
      v.amount != 0 && v.date.Some? && 3 <= Utf16Length(v.description) <= 50 && ParseCategory(v.category).Some?
    ensures r.Success? ==>
      r.value == TransactionInput(v.amount, v.date.value, v.description, ParseCategory(v.category).value)
      && CategoryName(r.value.category) == v.category
    ensures r.Failure? ==>
      && r.error != []
      && (AmountZero in r.error <==> v.amount == 0)
      && (DateRequired in r.error <==> v.date.None?)
      && (DescriptionTooShort in r.error <==> Utf16Length(v.description) < 3)
      && (DescriptionTooLong in r.error <==> Utf16Length(v.description) > 50)
      && (CategoryNotListed in r.error <==> ParseCategory(v.category).None?)
  {
    CategoryEnumIsUnion(v.category);
    var errs := Errors(v);
    if errs == [] then
      Success(TransactionInput(v.amount, v.date.value, v.description, ParseCategory(v.category).value))
    else
      Failure(errs)
  }

  /** The form's two tabs. */
  datatype Kind = IncomeKind | ExpenseKind

  /** `expense ? -Math.abs(amount) : Math.abs(amount)` */
  function Normalize(kind: Kind, amount: int): int {
    if kind == ExpenseKind then (if amount < 0 then amount else -amount)
    else (if amount < 0 then -amount else amount)
  }

  /** The tab decides the sign and the size is kept: a nonzero expense is
      negative, a nonzero income positive; applying it twice changes nothing. */
  lemma NormalizeSpec(kind: Kind, amount: int)
    ensures Normalize(kind, amount) == amount || Normalize(kind, amount) == -amount
    ensures kind == ExpenseKind ==> Normalize(kind, amount) <= 0
    ensures kind == IncomeKind ==> Normalize(kind, amount) >= 0
    ensures amount != 0 ==> Normalize(kind, amount) != 0
    ensures Normalize(kind, Normalize(kind, amount)) == Normalize(kind, amount)
  {
  }

  /** The tab first shown: income exactly when a positive default amount is given. */
  function InitialType(defaultAmount: Option<int>): Kind {
    if defaultAmount.Some? && defaultAmount.value > 0 then IncomeKind else ExpenseKind
  }

  /** Opening a stored transaction and submitting it untouched gives back its
      amount: the initial tab matches the amount's sign. */
  lemma EditKeepsAmount(t: Transaction)
    requires t.amount != 0
    ensures Normalize(InitialType(Some(t.amount)), t.amount) == t.amount
  {
  }

  /** The form's own state: which tab is selected. */
  class Form {
    var transactionType: Kind

    constructor (defaultAmount: Option<int>)
      ensures transactionType == InitialType(defaultAmount)
    {
      transactionType := InitialType(defaultAmount);
    }

    /** Switching tabs. */
    method SetTransactionType(kind: Kind)
      modifies this
      ensures transactionType == kind
    {
      transactionType := kind;
    }

    /** Submitting: the schema runs first, and only valid values reach
        `handleFormSubmit`, which passes every field on and replaces the
        amount by its tab-signed size. */
    method Submit(v: FormValues) returns (r: Result<TransactionInput, seq<FieldError>>)
      ensures r.Failure? <==> Validate(v).Failure?
      ensures r.Failure? ==> r == Validate(v)
      ensures r.Success? ==>
        r.value == Validate(v).value.(amount := Normalize(transactionType, v.amount))
      ensures r.Success? && transactionType == ExpenseKind ==> r.value.amount < 0
      ensures r.Success? && transactionType == IncomeKind ==> r.value.amount > 0
    {
      var checked := Validate(v);
      if checked.Failure? {
        return checked;
      }
      NormalizeSpec(transactionType, v.amount);
      r := Success(checked.value.(amount := Normalize(transactionType, checked.value.amount)));
    }
  }

  /** The seed transactions, entered through the form, pass the schema. */
  lemma SeedsPassSchema(ids: seq<string>, today: Date)
    requires |ids| == 8 && ValidDate(today)
    ensures forall t :: t in MockData.InitialTransactions(ids, today) ==>
      Validate(FormValues(t.amount, Some(t.date), t.description, CategoryName(t.category))).Success?
  {
    var ts := MockData.InitialTransactions(ids, today);
    MockData.SeedTransactions(ids, today);
    forall i | 0 <= i < 8
      ensures Validate(FormValues(ts[i].amount, Some(ts[i].date), ts[i].description, CategoryName(ts[i].category))).Success?
    {
      assert ts[i] in ts;
      assert 3 <= |ts[i].description| <= 25;
      StoredPassesSchema(ts[i]);
    }
  }

  /** Two emoji make a four-unit description, which passes the length rules,
      while 26 of them make 52 units, which is too long. */
  lemma EmojiDescriptions(d: Date)
    ensures Validate(FormValues(-100, Some(d), "\U{1F600}\U{1F600}", "Food")).Success?
    ensures Validate(FormValues(-100, Some(d), seq(26, i => '\U{1F600}'), "Food")).Failure?
    ensures DescriptionTooLong in Validate(FormValues(-100, Some(d), seq(26, i => '\U{1F600}'), "Food")).error
  {
    assert Utf16Length("\U{1F600}\U{1F600}") == 4;
    var long := seq(26, i => '\U{1F600}');
    AllAstral(long);
    CategoryUnionClosed(Food);
  }

  /** A string of characters outside the Basic Multilingual Plane counts two units each. */
  lemma {:induction false} AllAstral(s: string)
    requires forall i :: 0 <= i < |s| ==> s[i] > '\U{FFFF}'
    ensures Utf16Length(s) == 2 * |s|
  {
    if s != [] {
      assert forall i :: 0 <= i < |s[1..]| ==> s[1..][i] == s[i + 1];
      AllAstral(s[1..]);
    }
  }

  lemma StoredPassesSchema(t: Transaction)
    requires t.amount != 0 && 3 <= Utf16Length(t.description) <= 50
    ensures Validate(FormValues(t.amount, Some(t.date), t.description, CategoryName(t.category))).Success?
  {
    CategoryUnionClosed(t.category);
  }

  // ---- the amount field's filter ----

  predicate IsAmountChar(ch: char) {
    '0' <= ch <= '9' || ch == '.'
  }

  /** `value.replace(/[^0-9.]/g, '')`: drop every character that is not a
      digit or a point. */
  function KeepAmountChars(s: string): (r: string)
    ensures |r| <= |s|
    ensures forall i :: 0 <= i < |r| ==> IsAmountChar(r[i])
    ensures forall ch :: ch in r <==> ch in s && IsAmountChar(ch)
  {
    if s == [] then []
    else (if IsAmountChar(s[0]) then [s[0]] else []) + KeepAmountChars(s[1..])
  }

  /** The filter works character by character, so it keeps the order of what
      it keeps; it leaves an already clean string alone, hence filtering
      twice is filtering once. */
  lemma KeepAmountCharsSpec(a: string, b: string, ch: char)
    ensures KeepAmountChars([ch]) == if IsAmountChar(ch) then [ch] else []
    ensures KeepAmountChars(a + b) == KeepAmountChars(a) + KeepAmountChars(b)
    ensures (forall i :: 0 <= i < |a| ==> IsAmountChar(a[i])) ==> KeepAmountChars(a) == a
    ensures KeepAmountChars(KeepAmountChars(a)) == KeepAmountChars(a)
  {
    assert [ch][1..] == [];
    KeepAmountCharsAppend(a, b);
    if forall i :: 0 <= i < |a| ==> IsAmountChar(a[i]) {
      CleanIsKept(a);
    }
    CleanIsKept(KeepAmountChars(a));
  }

  lemma {:induction false} KeepAmountCharsAppend(a: string, b: string)
    ensures KeepAmountChars(a + b) == KeepAmountChars(a) + KeepAmountChars(b)
  {
    if a == [] {
      assert a + b == b;
    } else {
      var h := if IsAmountChar(a[0]) then [a[0]] else [];
      var x, y := KeepAmountChars(a[1..]), KeepAmountChars(b);
      calc {
        KeepAmountChars(a + b);
      == { assert (a + b)[0] == a[0]; assert (a + b)[1..] == a[1..] + b; }
        h + KeepAmountChars(a[1..] + b);
      == { KeepAmountCharsAppend(a[1..], b); }
        h + (x + y);
      ==
        (h + x) + y;
      }
    }
  }

  lemma {:induction false} CleanIsKept(s: string)
    requires forall i :: 0 <= i < |s| ==> IsAmountChar(s[i])
    ensures KeepAmountChars(s) == s
  {
    if s != [] {
      assert forall i :: 0 <= i < |s[1..]| ==> IsAmountChar(s[1..][i]) by {
        forall i | 0 <= i < |s[1..]| ensures IsAmountChar(s[1..][i]) {
          assert s[1..][i] == s[i + 1];
        }
      }
      CleanIsKept(s[1..]);
      assert s == [s[0]] + s[1..];
    }
  }
}
