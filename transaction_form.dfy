/** The add/edit transaction form (app/components/transaction/TransactionForm.tsx):
    the initial form data, the field updates, the validation that rebuilds
    the error map, and the submit guard. The form data is the
    `Partial<Transaction>` object the component keeps, as a map from
    property names to dynamic values; rendering is not modelled. */
module TransactionForm {
  import opened JsValue
  import opened Transactions

  const AmountError: string := "Amount must be greater than 0"
  const CategoryError: string := "Category is required"
  const DescriptionError: string := "Description is required"
  const DateError: string := "Date is required"

  /** The defaults, dated `today` (the date part of the current time). */
  function Defaults(today: string): map<string, Json> {
    map["type" := JStr("expense"), "amount" := JNum(0.0), "category" := JStr(""),
        "description" := JStr(""), "date" := JStr(today)]
  }

  /** `{ ...defaults, ...initialData }`: every property of the initial data
      (an absent `initialData` is the empty map) overrides its default. */
  function InitialForm(today: string, initialData: map<string, Json>): (r: map<string, Json>)
    ensures r.Keys == Defaults(today).Keys + initialData.Keys
    ensures forall k :: k in initialData ==> r[k] == initialData[k]
    ensures forall k :: k in Defaults(today) && k !in initialData ==> r[k] == Defaults(today)[k]
  {
    Defaults(today) + initialData
  }

  /** A property of the form data; a missing one reads as `undefined`. */
  function Field(form: map<string, Json>, key: string): Json {
    if key in form then form[key] else JUndefined
  }

  /** The number `a <= 0` compares: `Number(a)` for the values the amount
      can hold, with `numberOf` standing for `Number` on a string (`None`
      is NaN, for which every comparison is false). */
  function NumericValue(a: Json, numberOf: string -> Option<real>): Option<real> {
    match a
    case JUndefined => None
    case JNull => Some(0.0)
    case JBool(b) => Some(if b then 1.0 else 0.0)
    case JNum(n) => Some(n)
    case JNaN => None
    case JStr(s) => numberOf(s)
    case JArr(_) => numberOf(JsString(a))
    case JObj(_) => numberOf(JsString(a))
  }

  /** `!amount || amount <= 0`. */
  predicate AmountInvalid(a: Json, numberOf: string -> Option<real>) {
    !Truthy(a) || (NumericValue(a, numberOf).Some? && NumericValue(a, numberOf).value <= 0.0)
  }

  /** The error map `validateForm` builds from nothing, one check after
      the other. */
  function FormErrors(form: map<string, Json>, numberOf: string -> Option<real>): (r: map<string, string>)
    ensures r.Keys <= {"amount", "category", "description", "date"}
    ensures "amount" in r <==> AmountInvalid(Field(form, "amount"), numberOf)
    ensures "category" in r <==> !Truthy(Field(form, "category"))
    ensures "description" in r <==> !Truthy(Field(form, "description"))
    ensures "date" in r <==> !Truthy(Field(form, "date"))
    ensures "amount" in r ==> r["amount"] == AmountError
    ensures "category" in r ==> r["category"] == CategoryError
    ensures "description" in r ==> r["description"] == DescriptionError
    ensures "date" in r ==> r["date"] == DateError
  {
    var e0: map<string, string> := map[];
    var e1 := if AmountInvalid(Field(form, "amount"), numberOf) then e0["amount" := AmountError] else e0;
    var e2 := if !Truthy(Field(form, "category")) then e1["category" := CategoryError] else e1;
    var e3 := if !Truthy(Field(form, "description")) then e2["description" := DescriptionError] else e2;
    if !Truthy(Field(form, "date")) then e3["date" := DateError] else e3
  }

  /** The form is valid exactly when the amount is positive and the
      category, description and date are all present and non-empty. */
  lemma ValidIff(form: map<string, Json>, numberOf: string -> Option<real>)
    ensures FormErrors(form, numberOf) == map[] <==>
      !AmountInvalid(Field(form, "amount"), numberOf) && Truthy(Field(form, "category")) &&
      Truthy(Field(form, "description")) && Truthy(Field(form, "date"))
  {
    var r := FormErrors(form, numberOf);
    if r != map[] {
      var k :| k in r;
    }
  }

  /** The defaults never validate: the amount 0 is rejected, and so are
      the empty category and description. */
  lemma DefaultsInvalid(today: string, numberOf: string -> Option<real>)
    ensures FormErrors(Defaults(today), numberOf).Keys >= {"amount", "category", "description"}
  {
  }

  /** `parseFloat(text) || 0`: text that does not parse (NaN) and a
      parsed zero both become 0. */
  function AmountFromText(text: string, parseFloat: string -> Option<real>): (r: real)
    ensures parseFloat(text).None? ==> r == 0.0
    ensures parseFloat(text).Some? ==> r == parseFloat(text).value
  {
    match parseFloat(text)
    case None => 0.0
    case Some(v) => if v != 0.0 then v else 0.0
  }

  /** Amount text that does not parse is stored as 0 and then fails
      validation with the amount message. */
  lemma UnparseableAmountFails(form: map<string, Json>, text: string, parseFloat: string -> Option<real>,
                               numberOf: string -> Option<real>)
    requires parseFloat(text).None?
    ensures var f := form["amount" := JNum(AmountFromText(text, parseFloat))];
            "amount" in FormErrors(f, numberOf) && FormErrors(f, numberOf)["amount"] == AmountError
  {
    var f := form["amount" := JNum(AmountFromText(text, parseFloat))];
    assert Field(f, "amount") == JNum(0.0);
  }

  /** The component's state. `submitted` records the form data handed to
      `onSubmit`, one entry per call. */
  class Form {
    var formData: map<string, Json>
    var errors: map<string, string>
    var showDatePicker: bool
    var submitted: seq<map<string, Json>>

    constructor(today: string, initialData: map<string, Json>)
      ensures formData == InitialForm(today, initialData)
      ensures errors == map[] && !showDatePicker && submitted == []
    {
      formData := Defaults(today) + initialData;
      errors := map[];
      showDatePicker := false;
      submitted := [];
    }

    /** `handleChange`: sets the one property, and blanks that property's
        error only if it had a (non-empty) one. */
    method HandleChange(field: string, value: Json)
      modifies this
      ensures formData == old(formData)[field := value]
      ensures field in old(errors) && old(errors)[field] != "" ==> errors == old(errors)[field := ""]
      ensures !(field in old(errors) && old(errors)[field] != "") ==> errors == old(errors)
      ensures showDatePicker == old(showDatePicker) && submitted == old(submitted)
    {
      formData := formData[field := value];
      if field in errors && errors[field] != "" {
        errors := errors[field := ""];
      }
    }

    /** `onChangeText` of the amount input. */
    method HandleAmountText(text: string, parseFloat: string -> Option<real>)
      modifies this
      ensures formData == old(formData)["amount" := JNum(AmountFromText(text, parseFloat))]
      ensures "amount" in old(errors) && old(errors)["amount"] != "" ==> errors == old(errors)["amount" := ""]
      ensures !("amount" in old(errors) && old(errors)["amount"] != "") ==> errors == old(errors)
      ensures showDatePicker == old(showDatePicker) && submitted == old(submitted)
    {
      var amount := parseFloat(text);
      var value := if amount.Some? && amount.value != 0.0 then amount.value else 0.0;
      HandleChange("amount", JNum(value));
    }

    /** `handleDateChange`: the picker closes; a chosen date is stored as
        its ISO date text. */
    method HandleDateChange(selected: Option<CivilDate>)
      modifies this
      ensures !showDatePicker
      ensures selected.None? ==> formData == old(formData) && errors == old(errors)
      ensures selected.Some? ==> formData == old(formData)["date" := JStr(IsoDate(selected.value))]
      ensures selected.Some? && "date" in old(errors) && old(errors)["date"] != "" ==> errors == old(errors)["date" := ""]
      ensures selected.Some? && !("date" in old(errors) && old(errors)["date"] != "") ==> errors == old(errors)
      ensures submitted == old(submitted)
    {
      showDatePicker := false;
      if selected.Some? {
        HandleChange("date", JStr(IsoDate(selected.value)));
      }
    }

    /** `validateForm`: the error map is rebuilt from nothing and replaces
        the previous one; the form is valid when it is empty. */
    method ValidateForm(numberOf: string -> Option<real>) returns (valid: bool)
      modifies this
      ensures errors == FormErrors(formData, numberOf)
      ensures valid <==> errors == map[]
      ensures formData == old(formData) && showDatePicker == old(showDatePicker) && submitted == old(submitted)
    {
      var newErrors: map<string, string> := map[];
      if AmountInvalid(Field(formData, "amount"), numberOf) {
        newErrors := newErrors["amount" := AmountError];
      }
      if !Truthy(Field(formData, "category")) {
        newErrors := newErrors["category" := CategoryError];
      }
      if !Truthy(Field(formData, "description")) {
        newErrors := newErrors["description" := DescriptionError];
      }
      if !Truthy(Field(formData, "date")) {
        newErrors := newErrors["date" := DateError];
      }
      errors := newErrors;
      valid := |errors.Keys| == 0;
      assert valid <==> errors == map[] by {
        if !valid {
          var k :| k in errors;
        }
      }
    }

    /** `handleSubmit`: `onSubmit` receives the form data exactly when it
        validates. */
    method HandleSubmit(numberOf: string -> Option<real>)
      modifies this
      ensures errors == FormErrors(formData, numberOf)
      ensures errors == map[] ==> submitted == old(submitted) + [old(formData)]
      ensures errors != map[] ==> submitted == old(submitted)
      ensures formData == old(formData) && showDatePicker == old(showDatePicker)
    {
      var valid := ValidateForm(numberOf);
      if valid {
        submitted := submitted + [formData];
      }
    }
  }
}
