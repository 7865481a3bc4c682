/** The campaign administration page: the campaign list with its load error,
    and the dialog that creates a campaign from a name and a total stock. The
    form is checked before anything is sent; a rejected creation shows a
    message chosen from the error's code. Each backend call's outcome is an
    input. */
module CampaignManagement {
  import opened JsValues
  import opened ApiErrors
  import opened CampaignRules

  const LoadFallback: string := "캠페인 목록을 불러오는데 실패했습니다."
  const NameRequired: string := "캠페인 이름은 필수입니다."
  const StockTooSmall: string := "재고는 최소 1개 이상이어야 합니다."
  const CreateFallback: string := "캠페인 생성에 실패했습니다."
  const ValidationPrefix: string := "입력값을 확인해주세요: "

  /** The error code the backend gives a request that fails its validation. */
  const ValidationFailedCode: string := "COMMON_002"

  /** The creation request the dialog edits. */
  datatype Form = Form(name: string, totalStock: int)

  /** The dialog's two inputs, by their `name` attribute. */
  datatype Field = NameField | TotalStockField

  /** The form a fresh dialog shows. */
  const EmptyForm: Form := Form("", 0)

  /** `parseInt(value) || 0`: the stock typed, with `NaN` (no digits) and zero
      both giving 0. With the radix omitted, a `0x` prefix reads hexadecimal. */
  function StockInputValue(value: string): (n: int)
    ensures ParseInt(value, Omitted).NaN? ==> n == 0
    ensures ParseInt(value, Omitted).Int? ==> n == ParseInt(value, Omitted).value
  {
    match ParseInt(value, Omitted)
    case NaN => 0
    case Int(v) => if v == 0 then 0 else v
  }

  /** The decimal text of a number, possibly followed by text that cannot
      continue it, is read as that number. */
  lemma StockInputOfNumber(n: int, rest: string)
    requires rest == [] || !IsDigit(rest[0], 10)
    requires n == 0 ==> rest == [] || (rest[0] != 'x' && rest[0] != 'X')
    ensures StockInputValue(IntToString(n) + rest) == n
  {
    ParseIntOfIntToString(n, rest, Omitted);
  }

  /** Text without a single decimal digit gives a stock of 0, which the form
      check then rejects. */
  lemma StockInputWithoutDigits(value: string)
    requires forall i :: 0 <= i < |value| ==> !IsDigit(value[i], 10)
    ensures StockInputValue(value) == 0
  {
    NoDigitParsesToNaN(value, Omitted);
  }

  /** `handleInputChange`: the named field takes the input, the stock read as
      a number and the name as typed; the other field is kept. */
  function UpdateForm(form: Form, field: Field, value: string): (f: Form)
    ensures field == NameField ==> f.name == value && f.totalStock == form.totalStock
    ensures field == TotalStockField ==> f.totalStock == StockInputValue(value) && f.name == form.name
  {
    match field
    case NameField => form.(name := value)
    case TotalStockField => form.(totalStock := StockInputValue(value))
  }

  /** `handleCreateCampaign`'s checks: the trimmed name must not be empty,
      and only then is the stock checked to be at least 1. The result is the
      message that rejects the form, if any. */
  function ValidateForm(form: Form): (error: Option<string>)
    ensures error.Some? ==> error.value == NameRequired || error.value == StockTooSmall
  {
    if Trim(form.name) == "" then Some(NameRequired)
    else if form.totalStock < 1 then Some(StockTooSmall)
    else None
  }

  /** The form is rejected for its name exactly when the name is empty or all
      whitespace; otherwise it is rejected for its stock exactly when the
      stock is below 1; it passes exactly when neither holds. */
  lemma ValidateFormMeaning(form: Form)
    ensures ValidateForm(form) == Some(NameRequired) <==> IsBlank(form.name)
    ensures ValidateForm(form) == Some(StockTooSmall) <==> !IsBlank(form.name) && form.totalStock < 1
    ensures ValidateForm(form) == None <==> !IsBlank(form.name) && form.totalStock >= 1
  {
    TrimEmptyIffBlank(form.name);
    assert NameRequired != StockTooSmall by { assert |NameRequired| != |StockTooSmall|; }
  }

  /** The message shown when creating fails: a validation failure names the
      server's message after a fixed prefix, another `ApiError` shows its
      message as it is, and anything else the fixed fallback. */
  function CreateErrorText(t: Thrown): (m: string)
    ensures IsApiError(t) && t.api.errorCode == Some(ValidationFailedCode) ==> m == ValidationPrefix + t.api.message
    ensures IsApiError(t) && t.api.errorCode != Some(ValidationFailedCode) ==> m == t.api.message
    ensures !IsApiError(t) ==> m == CreateFallback
  {
    match t
    case ApiErr(e) => if e.errorCode == Some(ValidationFailedCode) then ValidationPrefix + e.message else e.message
    case _ => CreateFallback
  }

  /** A validation failure's message always keeps the server's own text at
      its end, so the user still sees what the server objected to. */
  lemma ValidationMessageKeepsServerText(e: ApiError)
    requires e.errorCode == Some(ValidationFailedCode)
    ensures var m := CreateErrorText(ApiErr(e));
      |m| == |ValidationPrefix| + |e.message| && m[|ValidationPrefix|..] == e.message
  {
  }

  /** The message shown when the list cannot be loaded: an `ApiError`'s own
      message, and the fixed fallback for anything else. */
  function LoadErrorText(t: Thrown): (m: string)
    ensures IsApiError(t) ==> m == t.api.message
    ensures !IsApiError(t) ==> m == LoadFallback
  {
    if t.ApiErr? then t.api.message else LoadFallback
  }

  /** The page's state. */
  class CampaignAdmin {
    var campaigns: seq<Campaign>
    var loading: bool
    var error: Option<string>
    var openDialog: bool
    var formData: Form
    var formError: Option<string>
    var creating: bool

    /** The page opens loading, with an empty list and a closed dialog. */
    constructor ()
      ensures campaigns == [] && loading && error == None
      ensures !openDialog && formData == EmptyForm && formError == None && !creating
    {
      campaigns := [];
      loading := true;
      error := None;
      openDialog := false;
      formData := EmptyForm;
      formError := None;
      creating := false;
    }

    /** `loadCampaigns`, with `fetched` what the list call gives: a success
        replaces the list and clears the error, a failure keeps the list and
        shows the error's message; loading ends either way. */
    method Load(fetched: Fetched<seq<Campaign>>)
      modifies this`campaigns, this`error, this`loading
      ensures !loading
      ensures fetched.Done? ==> campaigns == fetched.value && error == None
      ensures fetched.Threw? ==> campaigns == old(campaigns) && error == Some(LoadErrorText(fetched.error))
    {
      loading := true;
      if fetched.Done? {
        campaigns := fetched.value;
        error := None;
      } else {
        error := Some(LoadErrorText(fetched.error));
      }
      loading := false;
    }

    /** `handleOpenDialog`: an empty form, no error, the dialog open. */
    method OpenDialog()
      modifies this`formData, this`formError, this`openDialog
      ensures formData == EmptyForm && formError == None && openDialog
    {
      formData := EmptyForm;
      formError := None;
      openDialog := true;
    }

    /** `handleCloseDialog`: the dialog closes and the form is kept. */
    method CloseDialog()
      modifies this`openDialog
      ensures !openDialog
    {
      openDialog := false;
    }

    /** `handleInputChange` for the input named `field`. */
    method InputChange(field: Field, value: string)
      modifies this`formData
      ensures formData == UpdateForm(old(formData), field, value)
    {
      formData := UpdateForm(formData, field, value);
    }

    /** `handleCreateCampaign` (its button is disabled while creating), with
        `outcome` what the creation call gives. A rejected form shows its
        message and sends nothing. A valid form is sent (and returned as
        `sent`) with the error cleared; success closes the dialog and asks for
        the list to be reloaded, failure keeps the dialog open with the
        error's message; creating is off again after every attempt. */
    method Create(outcome: Fetched<Campaign>) returns (sent: Option<Form>, reload: bool)
      requires !creating
      modifies this`formError, this`openDialog, this`creating
      ensures !creating
      ensures var check := ValidateForm(old(formData));
        && (check.Some? ==> sent == None && !reload && formError == check && openDialog == old(openDialog))
        && (check.None? ==> sent == Some(old(formData)))
        && (check.None? && outcome.Done? ==> !openDialog && reload && formError == None)
        && (check.None? && outcome.Threw? ==>
              openDialog == old(openDialog) && !reload && formError == Some(CreateErrorText(outcome.error)))
    {
      var check := ValidateForm(formData);
      if check.Some? {
        formError := check;
        sent, reload := None, false;
        return;
      }
      creating := true;
      formError := None;
      sent := Some(formData);
      if outcome.Done? {
        openDialog := false;
        reload := true;
      } else {
        formError := Some(CreateErrorText(outcome.error));
        reload := false;
      }
      creating := false;
    }
  }
}
