/** The expense form: its field values and error messages, the initial
    values, the per-field change handler, the validator, and the submit
    handler that hands a typed payload to the page. */
module ExpenseForm {
  import opened Text
  import opened Records

  /** Form fields by input name, as the text the inputs hold. */
  type Fields = map<string, string>

  /** A field's text, absent read as the empty string (both are falsy). */
  function Get(fields: Fields, name: string): (r: string)
    ensures name in fields ==> r == fields[name]
    ensures name !in fields ==> r == ""
  {
    if name in fields then fields[name] else ""
  }

  /** The longest prefix of decimal digits. */
  function DigitPrefix(s: string): (r: string)
    ensures |r| <= |s| && r == s[..|r|]
    ensures forall i :: 0 <= i < |r| ==> IsDigit(r[i])
    ensures |r| < |s| ==> !IsDigit(s[|r|])
  {
    if s == [] || !IsDigit(s[0]) then "" else [s[0]] + DigitPrefix(s[1..])
  }

  /** `parseFloat(s)` for decimal notation: leading white space is skipped,
      then an optional sign, digits, and optionally a point and more
      digits; whatever follows is ignored.  At least one digit is needed,
      otherwise the result is NaN, here `None`.  The value is exact. */
  function ParseFloat(s: string): (r: Option<real>)
    ensures r.Some? && r.value < 0.0 ==> |TrimStart(s)| > 0 && TrimStart(s)[0] == '-'
  {
    ParseNumber(TrimStart(s))
  }

  /** The number at the start of `t`, which has no leading white space. */
  function ParseNumber(t: string): (r: Option<real>)
    ensures r.Some? && r.value < 0.0 ==> |t| > 0 && t[0] == '-'
  {
    var neg := |t| > 0 && t[0] == '-';
    var u := if |t| > 0 && (t[0] == '-' || t[0] == '+') then t[1..] else t;
    var ip := DigitPrefix(u);
    var rest := u[|ip|..];
    var fp := if |rest| > 0 && rest[0] == '.' then DigitPrefix(rest[1..]) else "";
    if ip == "" && fp == "" then None
    else
      var mag := Magnitude(ip, fp);
      Some(if neg then -mag else mag)
  }

  /** The value of `ip.fp`. */
  function Magnitude(ip: string, fp: string): (r: real)
    requires forall i :: 0 <= i < |ip| ==> IsDigit(ip[i])
    requires forall i :: 0 <= i < |fp| ==> IsDigit(fp[i])
    ensures r >= ParseDigits(ip) as real >= 0.0
  {
    var frac := ParseDigits(fp) as real / Pow10(|fp|) as real;
    assert frac >= 0.0;
    ParseDigits(ip) as real + frac
  }

  /** A string that starts with something other than white space trims to
      itself at the start. */
  lemma TrimStartNoSpace(s: string)
    requires |s| > 0 && !IsSpace(s[0])
    ensures TrimStart(s) == s
  {
  }

  /** The digits of a number followed by anything that does not continue a
      number parse back to that number. */
  lemma ParseFloatOfNat(n: nat, tail: string)
    requires tail == "" || (!IsDigit(tail[0]) && tail[0] != '.' && tail[0] != 'e' && tail[0] != 'E')
    ensures ParseFloat(NatToString(n) + tail) == Some(n as real)
  {
    var d := NatToString(n);
    var s := d + tail;
    assert s[0] == d[0];
    TrimStartNoSpace(s);
    assert !(s[0] == '-' || s[0] == '+');
    DigitPrefixOfDigits(d, tail);
    assert s[|d|..] == tail;
    ParseNatToString(n);
    assert Magnitude(d, "") == n as real;
    assert ParseNumber(s) == Some(Magnitude(d, ""));
  }

  lemma {:induction false} DigitPrefixOfDigits(d: string, tail: string)
    requires forall i :: 0 <= i < |d| ==> IsDigit(d[i])
    requires tail == "" || !IsDigit(tail[0])
    ensures DigitPrefix(d + tail) == d
    decreases |d|
  {
    if d == [] {
      assert d + tail == tail;
    } else {
      assert (d + tail)[1..] == d[1..] + tail;
      DigitPrefixOfDigits(d[1..], tail);
    }
  }

  /** `ParseNumber` on text whose integer digits are `ip`, followed by a
      point and the fraction digits `fp`. */
  lemma ParseNumberOfParts(t: string, ip: string, fp: string)
    requires |t| > 0 && t[0] != '-' && t[0] != '+'
    requires DigitPrefix(t) == ip && ip != ""
    requires |t| > |ip| && t[|ip|] == '.' && DigitPrefix(t[|ip| + 1..]) == fp
    ensures ParseNumber(t) == Some(Magnitude(ip, fp))
  {
    assert t[|ip|..][1..] == t[|ip| + 1..];
  }

  /** The text `ip.fp` followed by anything that does not continue a
      number parses to the magnitude of its two digit strings. */
  lemma ParseFloatOfParts(ip: string, fp: string, tail: string)
    requires |ip| > 0 && forall i :: 0 <= i < |ip| ==> IsDigit(ip[i])
    requires forall i :: 0 <= i < |fp| ==> IsDigit(fp[i])
    requires tail == "" || (!IsDigit(tail[0]) && tail[0] != 'e' && tail[0] != 'E')
    ensures ParseFloat(ip + ['.'] + fp + tail) == Some(Magnitude(ip, fp))
  {
    var rest := ['.'] + fp + tail;
    var s := ip + rest;
    assert ip + ['.'] + fp + tail == s;
    assert TrimStart(s) == s by {
      assert s[0] == ip[0];
      TrimStartNoSpace(s);
    }
    assert s[0] == ip[0];
    assert s[|ip|] == '.';
    assert s[|ip| + 1..] == fp + tail;
    DigitPrefixOfDigits(ip, rest);
    DigitPrefixOfDigits(fp, tail);
    ParseNumberOfParts(s, ip, fp);
  }

  /** The magnitude of `ip.fp` is the integer part plus the fraction. */
  lemma MagnitudeValue(ip: string, fp: string)
    requires forall i :: 0 <= i < |ip| ==> IsDigit(ip[i])
    requires forall i :: 0 <= i < |fp| ==> IsDigit(fp[i])
    ensures Magnitude(ip, fp) == ParseDigits(ip) as real + ParseDigits(fp) as real / Pow10(|fp|) as real
  {
  }

  /** Leading white space does not change the number. */
  lemma ParseFloatSkipsSpace(pre: string, s: string)
    requires forall i :: 0 <= i < |pre| ==> IsSpace(pre[i])
    ensures ParseFloat(pre + s) == ParseFloat(s)
  {
    TrimStartPadding(pre, s);
  }

  /** A minus sign never gives a positive amount. */
  lemma ParseFloatMinus(s: string)
    requires !(|s| > 0 && IsSpace(s[0]))
    ensures ParseFloat("-" + s).None? || ParseFloat("-" + s).value <= 0.0
  {
    var t := "-" + s;
    TrimStartNoSpace(t);
    assert t[1..] == s;
  }

  /** An amount the validator accepts: it parses and is greater than 0. */
  predicate PositiveAmount(text: string) {
    var v := ParseFloat(text);
    v.Some? && v.value > 0.0
  }

  /** Every field the validator asks for is acceptable. */
  predicate FormValid(fields: Fields) {
    && Trim(Get(fields, "title")) != ""
    && Get(fields, "amount") != "" && PositiveAmount(Get(fields, "amount"))
    && Get(fields, "category") != ""
    && Get(fields, "date") != ""
  }

  /** The form's starting values before `initialData` is spread over them;
      `today` is the current date as `YYYY-MM-DD`. */
  function Defaults(today: string): (r: Fields)
    ensures r.Keys == {"title", "amount", "category", "date", "description"}
    ensures r["date"] == today
    ensures forall k :: k in r && k != "date" ==> r[k] == ""
  {
    map["title" := "", "amount" := "", "category" := "", "date" := today, "description" := ""]
  }

  /** `errors` shows `text` for field `name` exactly when the field fails. */
  predicate Message(errors: map<string, string>, name: string, fails: bool, text: string) {
    (name in errors <==> fails) && (name in errors ==> errors[name] == text)
  }

  /** `errors` holds exactly the messages `validate` gives for `fields`:
      one for each field that fails, with that field's text, and none at
      all exactly when the form is valid. */
  predicate Reports(fields: Fields, errors: map<string, string>) {
    var amount := Get(fields, "amount");
    && errors.Keys <= {"title", "amount", "category", "date"}
    && Message(errors, "title", Trim(Get(fields, "title")) == "", "Title is required")
    && Message(errors, "amount", !PositiveAmount(amount),
               if amount == "" then "Amount is required" else "Amount must be a positive number")
    && Message(errors, "category", Get(fields, "category") == "", "Category is required")
    && Message(errors, "date", Get(fields, "date") == "", "Date is required")
    && (|errors| == 0 <==> FormValid(fields))
  }

  /** The four names that can carry a message differ, as their lengths do. */
  lemma FieldNamesDistinct()
    ensures "title" != "amount" && "title" != "category" && "title" != "date"
    ensures "amount" != "category" && "amount" != "date" && "category" != "date"
  {
    assert |"title"| == 5 && |"amount"| == 6 && |"category"| == 8 && |"date"| == 4;
  }

  /** The four field messages together make a report: there is none
      exactly when every field passes.  The tests come in as the values
      `validate` computes for them. */
  lemma ReportsIntro(fields: Fields, errors: map<string, string>,
                     noTitle: bool, noAmount: bool, badAmount: bool, noCategory: bool, noDate: bool)
    requires noTitle == (Trim(Get(fields, "title")) == "")
    requires noAmount == (Get(fields, "amount") == "")
    requires badAmount == !PositiveAmount(Get(fields, "amount"))
    requires noCategory == (Get(fields, "category") == "")
    requires noDate == (Get(fields, "date") == "")
    requires errors.Keys <= {"title", "amount", "category", "date"}
    requires Message(errors, "title", noTitle, "Title is required")
    requires Message(errors, "amount", noAmount || badAmount,
                     if noAmount then "Amount is required" else "Amount must be a positive number")
    requires Message(errors, "category", noCategory, "Category is required")
    requires Message(errors, "date", noDate, "Date is required")
    ensures Reports(fields, errors)
  {
    assert !PositiveAmount("");
    if FormValid(fields) {
      NoFieldNoMessage(errors);
    } else {
      assert "title" in errors || "amount" in errors || "category" in errors || "date" in errors;
    }
  }

  lemma NoFieldNoMessage(errors: map<string, string>)
    requires errors.Keys <= {"title", "amount", "category", "date"}
    requires "title" !in errors && "amount" !in errors && "category" !in errors && "date" !in errors
    ensures |errors| == 0
  {
    assert errors.Keys == {};
  }

  /** The object `validate` builds, before it is stored: one message per
      field that fails.  `None` stands for the exception `trim` raises when
      there is no title at all. */
  method ValidationErrors(fields: Fields) returns (r: Option<map<string, string>>)
    ensures r.None? <==> "title" !in fields
    ensures r.Some? ==> Reports(fields, r.value)
  {
    if "title" !in fields {
      return None;
    }
    FieldNamesDistinct();
    var errors: map<string, string> := map[];
    var noTitle := Trim(fields["title"]) == "";
    if noTitle {
      errors := errors["title" := "Title is required"];
    }
    assert Message(errors, "title", noTitle, "Title is required") && errors.Keys <= {"title"};
    var amount := Get(fields, "amount");
    var noAmount := amount == "";
    var badAmount := !PositiveAmount(amount);
    if noAmount {
      errors := errors["amount" := "Amount is required"];
    } else if badAmount {
      errors := errors["amount" := "Amount must be a positive number"];
    }
    assert Message(errors, "title", noTitle, "Title is required");
    assert Message(errors, "amount", noAmount || badAmount,
                   if noAmount then "Amount is required" else "Amount must be a positive number");
    assert errors.Keys <= {"title", "amount"};
    var noCategory := Get(fields, "category") == "";
    if noCategory {
      errors := errors["category" := "Category is required"];
    }
    assert errors.Keys <= {"title", "amount", "category"};
    var noDate := Get(fields, "date") == "";
    if noDate {
      errors := errors["date" := "Date is required"];
    }
    ReportsIntro(fields, errors, noTitle, noAmount, badAmount, noCategory, noDate);
    r := Some(errors);
  }

  /** The starting values never pass validation, and neither do they with
      initial data that supplies no amount: a new expense needs an amount. */
  lemma DefaultsNotValid(today: string, initialData: Fields)
    requires "amount" !in initialData
    ensures !FormValid(Defaults(today))
    ensures !FormValid(Defaults(today) + initialData)
  {
    assert Get(Defaults(today) + initialData, "amount") == "";
  }

  /** What the form hands to `onSubmit`: every field as entered, with the
      amount replaced by its number. */
  datatype Payload = Payload(fields: Fields, amount: real)

  class ExpenseFormState {
    var formData: Fields
    var errors: map<string, string>

    /** The defaults with the supplied initial values spread over them. */
    constructor (initialData: Fields, today: string)
      ensures formData == Defaults(today) + initialData
      ensures forall k :: k in initialData ==> formData[k] == initialData[k]
      ensures forall k :: k in Defaults(today) && k !in initialData ==> formData[k] == Defaults(today)[k]
      ensures errors == map[]
    {
      formData := Defaults(today) + initialData;
      errors := map[];
    }

    /** The effect on a new `initialData`: a non-empty one replaces the
        form's values, with the amount as text or empty. */
    method SyncInitialData(initialData: Fields)
      modifies this`formData
      ensures |initialData| == 0 ==> formData == old(formData)
      ensures |initialData| > 0 ==> formData == initialData["amount" := Get(initialData, "amount")]
    {
      if |initialData| > 0 {
        formData := initialData["amount" := Get(initialData, "amount")];
      }
    }

    /** `handleChange`: sets the one field, and clears that field's message
        if it shows one.  Nothing else changes. */
    method HandleChange(name: string, value: string)
      modifies this
      ensures formData == old(formData)[name := value]
      ensures Get(old(errors), name) != "" ==> errors == old(errors)[name := ""]
      ensures Get(old(errors), name) == "" ==> errors == old(errors)
    {
      formData := formData[name := value];
      if name in errors && errors[name] != "" {
        errors := errors[name := ""];
      }
    }

    /** `validate`: stores the messages and reports whether there are none. */
    method Validate() returns (ok: Outcome)
      modifies this`errors
      ensures "title" !in formData ==> ok == Threw && errors == old(errors)
      ensures "title" in formData ==> (ok == Passed <==> FormValid(formData))
      ensures "title" in formData ==> ok != Threw && (|errors| == 0 <==> ok == Passed)
      ensures "title" in formData ==> Reports(formData, errors)
    {
      var r := ValidationErrors(formData);
      if r.None? {
        return Threw;
      }
      errors := r.value;
      ok := if |errors| == 0 then Passed else Failed;
    }

    /** `handleSubmit`: hands the payload on only when validation passes. */
    method HandleSubmit() returns (sent: Option<Payload>)
      modifies this`errors
      ensures sent.Some? <==> "title" in formData && FormValid(formData)
      ensures sent.Some? ==> sent.value.fields == formData - {"amount"}
      ensures sent.Some? ==> sent.value.amount == ParseFloat(formData["amount"]).value
      ensures sent.Some? ==> sent.value.amount > 0.0
      ensures "title" !in formData ==> errors == old(errors)
      ensures "title" in formData ==> Reports(formData, errors)
    {
      var ok := Validate();
      if ok != Passed {
        return None;
      }
      sent := Some(Payload(formData - {"amount"}, ParseFloat(formData["amount"]).value));
    }
  }

  /** Whether `validate` passed, failed, or threw before finishing. */
  datatype Outcome = Passed | Failed | Threw

  /** A change to one field clears its message and leaves every other
      field and message as it was. */
  method ChangeKeepsOthers(form: ExpenseFormState, name: string, value: string, other: string)
    requires other != name
    modifies form
    ensures Get(form.formData, other) == Get(old(form.formData), other)
    ensures Get(form.errors, other) == Get(old(form.errors), other)
    ensures Get(form.formData, name) == value
    ensures Get(form.errors, name) == ""
  {
    form.HandleChange(name, value);
  }

  /** A fresh form for a new expense never submits: its amount is empty. */
  method FreshFormRejects(today: string) returns (sent: Option<Payload>)
    ensures sent.None?
  {
    var form := new ExpenseFormState(map[], today);
    sent := form.HandleSubmit();
    assert Get(form.formData, "amount") == "";
  }
}
