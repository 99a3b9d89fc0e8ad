/** The consultation dialog: the form with its text fields and platform
    checkboxes, the close guard while a submission is under way, and the
    submission cycle that shows a confirmation and then resets the form and
    closes. The two delays of the cycle are the steps between the methods. */
module Consultation {
  import opened Flags

  /** The keys of the platform checkboxes, in display order. */
  const PlatformKeys: seq<string> := ["general", "facebookAds", "instagramAds", "whatsappBusiness", "oculusVR", "other"]

  /** The sizes the business-size select offers; the first is the initial one. */
  const BusinessSizes: seq<string> := ["Not specified", "Small (1-10 employees)", "Medium (11-50 employees)", "Large (51-200 employees)", "Enterprise (201+ employees)"]

  /** The `name` attributes of the form's inputs. */
  datatype Field = FullName | Email | CompanyName | BusinessSize | Message

  datatype Form = Form(fullName: string, email: string, companyName: string, businessSize: string, platforms: FlagMap, message: string)

  /** The text value of an input. */
  function Value(form: Form, field: Field): string
  {
    match field
    case FullName => form.fullName
    case Email => form.email
    case CompanyName => form.companyName
    case BusinessSize => form.businessSize
    case Message => form.message
  }

  /** The form the dialog opens with and is reset to. */
  const InitialForm: Form := Form("", "", "", "Not specified",
    map["general" := true, "facebookAds" := false, "instagramAds" := false,
        "whatsappBusiness" := false, "oculusVR" := false, "other" := false], "")

  /** The initial form: empty texts, no business size given, and only the
      general partnership platform checked. */
  lemma InitialFormSpec()
    ensures forall f: Field :: f != BusinessSize ==> Value(InitialForm, f) == ""
    ensures Value(InitialForm, BusinessSize) == BusinessSizes[0]
    ensures InitialForm.platforms.Keys == set k | k in PlatformKeys
    ensures forall k :: k in PlatformKeys ==> (Checked(InitialForm.platforms, k) <==> k == "general")
  {
  }

  /** `{ ...form, [name]: value }` for one of the inputs. */
  function WithValue(form: Form, field: Field, value: string): (r: Form)
    ensures Value(r, field) == value
    ensures forall other: Field :: other != field ==> Value(r, other) == Value(form, other)
    ensures r.platforms == form.platforms
  {
    match field
    case FullName => form.(fullName := value)
    case Email => form.(email := value)
    case CompanyName => form.(companyName := value)
    case BusinessSize => form.(businessSize := value)
    case Message => form.(message := value)
  }

  class Dialog {
    var form: Form
    var isSubmitting: bool
    var isSubmitted: bool

    constructor ()
      ensures form == InitialForm && !isSubmitting && !isSubmitted
    {
      form, isSubmitting, isSubmitted := InitialForm, false, false;
    }

    /** `handleInputChange`: only the named input changes. */
    method HandleInputChange(field: Field, value: string)
      modifies this
      ensures form == WithValue(old(form), field, value)
      ensures isSubmitting == old(isSubmitting) && isSubmitted == old(isSubmitted)
    {
      form := WithValue(form, field, value);
    }

    /** `handlePlatformChange`: only the named checkbox flips. */
    method HandlePlatformChange(platform: string)
      modifies this
      ensures form == old(form).(platforms := Flipped(old(form).platforms, platform))
      ensures Checked(form.platforms, platform) == !Checked(old(form).platforms, platform)
      ensures forall other :: other != platform ==> Checked(form.platforms, other) == Checked(old(form).platforms, other)
      ensures isSubmitting == old(isSubmitting) && isSubmitted == old(isSubmitted)
    {
      FlippedChangesOnlyName(form.platforms, platform);
      form := form.(platforms := Flipped(form.platforms, platform));
    }

    /** `handleClose`: the dialog asks to be closed unless a submission is
        under way. `closes` says whether `onClose` is called. */
    method HandleClose() returns (closes: bool)
      ensures closes <==> !isSubmitting
    {
      closes := !isSubmitting;
    }

    /** The start of `handleSubmit`. */
    method BeginSubmit()
      modifies this
      ensures isSubmitting && isSubmitted == old(isSubmitted) && form == old(form)
    {
      isSubmitting := true;
    }

    /** The end of the simulated submission: the confirmation is shown. */
    method FinishSubmit()
      modifies this
      ensures !isSubmitting && isSubmitted && form == old(form)
    {
      isSubmitting := false;
      isSubmitted := true;
    }

    /** Three seconds later: the confirmation goes, the form is reset and the
        dialog asks to be closed. `closes` says whether `onClose` is called. */
    method ResetAfterSubmit() returns (closes: bool)
      modifies this
      ensures !isSubmitted && form == InitialForm && closes
      ensures isSubmitting == old(isSubmitting)
    {
      isSubmitted := false;
      form := InitialForm;
      closes := true;
    }
  }

  /** A whole submission from any filled-in form: closing is refused while it
      is under way, the confirmation follows, and the reset restores exactly
      the initial form and closes the dialog. */
  method SubmitCycle(d: Dialog) returns (closedEarly: bool, closedAtEnd: bool)
    modifies d
    ensures !closedEarly && closedAtEnd
    ensures d.form == InitialForm && !d.isSubmitting && !d.isSubmitted
  {
    d.BeginSubmit();
    closedEarly := d.HandleClose();
    d.FinishSubmit();
    closedAtEnd := d.ResetAfterSubmit();
  }

  /** Editing a field and then a checkbox keeps both edits. */
  method EditsCompose(d: Dialog, name: string, platform: string)
    modifies d
    ensures Value(d.form, FullName) == name
    ensures Checked(d.form.platforms, platform) == !old(Checked(d.form.platforms, platform))
    ensures Value(d.form, Email) == old(Value(d.form, Email))
  {
    d.HandleInputChange(FullName, name);
    d.HandlePlatformChange(platform);
  }
}
