/** The contact page's form: per-field validation rules, the error map they
    produce, and the state transitions of submitting and editing the form. */
module Contact {
  import opened Wrappers
  import opened JsText

  datatype Field = Name | Email | Message

  const AllFields: set<Field> := {Name, Email, Message}

  /** The three text inputs of the form. */
  datatype FormData = FormData(name: string, email: string, message: string)
  {
    function Get(f: Field): string
    {
      match f
      case Name => name
      case Email => email
      case Message => message
    }

    /** The form with field f replaced by v: the `{ ...formData, f: v }` update. */
    function With(f: Field, v: string): (d: FormData)
      ensures d.Get(f) == v
      ensures forall g | g != f :: d.Get(g) == Get(g)
    {
      match f
      case Name => this.(name := v)
      case Email => this.(email := v)
      case Message => this.(message := v)
    }
  }

  const EmptyForm := FormData("", "", "")

  /** The six error messages of the rules. */
  datatype ErrorMessage =
    | NameRequired | NameTooShort
    | EmailRequired | EmailInvalid
    | MessageRequired | MessageTooShort
  {
    /** The text shown under the input. */
    function Text(): string
    {
      match this
      case NameRequired => "Name is required"
      case NameTooShort => "Name must be at least 2 characters"
      case EmailRequired => "Email is required"
      case EmailInvalid => "Please enter a valid email address"
      case MessageRequired => "Message is required"
      case MessageTooShort => "Message must be at least 10 characters"
    }

    /** The field whose rule produces this message. */
    function FieldOf(): Field
    {
      match this
      case NameRequired | NameTooShort => Name
      case EmailRequired | EmailInvalid => Email
      case MessageRequired | MessageTooShort => Message
    }
  }

  /** The error object `{ name?, email?, message? }`: one optional message per
      field, so a field can never hold two errors at once. */
  datatype Errors = Errors(name: Option<ErrorMessage>, email: Option<ErrorMessage>, message: Option<ErrorMessage>)
  {
    function Get(f: Field): Option<ErrorMessage>
    {
      match f
      case Name => name
      case Email => email
      case Message => message
    }

    /** The fields that carry an error, in declaration order: `Object.keys`
        of an object whose keys were only ever given messages. */
    function Keys(): (ks: seq<Field>)
      ensures forall f :: f in ks <==> Get(f).Some?
      ensures |ks| == 0 <==> this == NoErrors
    {
      (if name.Some? then [Name] else []) + (if email.Some? then [Email] else [])
      + (if message.Some? then [Message] else [])
    }

    /** `{ ...errors, f: undefined }`: field f loses its error, the others keep theirs. */
    function Without(f: Field): (e: Errors)
      ensures e.Get(f) == None
      ensures forall g | g != f :: e.Get(g) == Get(g)
    {
      match f
      case Name => this.(name := None)
      case Email => this.(email := None)
      case Message => this.(message := None)
    }
  }

  const NoErrors := Errors(None, None, None)

  /** The name rule: required, and at least two characters once trimmed. */
  function NameError(name: string): Option<ErrorMessage>
  {
    var trimmed := Trim(name);
    if |trimmed| == 0 then Some(NameRequired)
    else if |trimmed| < 2 then Some(NameTooShort)
    else None
  }

  /** The e-mail rule: required once trimmed, and then the untrimmed text must
      match the e-mail pattern. */
  function EmailError(email: string): Option<ErrorMessage>
  {
    if |Trim(email)| == 0 then Some(EmailRequired)
    else if !IsValidEmail(email) then Some(EmailInvalid)
    else None
  }

  /** The message rule: required, and at least ten characters once trimmed. */
  function MessageError(message: string): Option<ErrorMessage>
  {
    var trimmed := Trim(message);
    if |trimmed| == 0 then Some(MessageRequired)
    else if |trimmed| < 10 then Some(MessageTooShort)
    else None
  }

  /** Since trimming only removes whitespace, the name rule is a rule on the
      number of visible characters of the name as typed. */
  lemma NameRule(name: string)
    ensures NameError(name) == Some(NameRequired) <==> AllSpace(name)
    ensures NameError(name) == Some(NameTooShort) <==> NonSpaceCount(name) == 1
    ensures NameError(name) == None <==> NonSpaceCount(name) >= 2
  {
    TrimKeepsVisible(name);
    NoVisibleIffAllSpace(name);
  }

  /** The e-mail rule rejects blank input as missing and accepts exactly the
      strings of the pattern; surrounding whitespace makes an address invalid. */
  lemma EmailRule(email: string)
    ensures EmailError(email) == Some(EmailRequired) <==> AllSpace(email)
    ensures EmailError(email) == Some(EmailInvalid) <==> !AllSpace(email) && !MatchesEmailPattern(email)
    ensures EmailError(email) == None <==> MatchesEmailPattern(email)
    ensures |email| > 0 && (IsSpace(email[0]) || IsSpace(email[|email| - 1])) ==> EmailError(email).Some?
  {
    TrimKeepsVisible(email);
    NoVisibleIffAllSpace(email);
    EmailCheckMatchesPattern(email);
    if MatchesEmailPattern(email) {
      var at, dot :| 0 < at && at + 1 < dot && dot + 1 < |email|
        && email[at] == '@' && email[dot] == '.'
        && NoSpaceOrAtIn(email, 0, at) && NoSpaceOrAtIn(email, at + 1, dot)
        && NoSpaceOrAtIn(email, dot + 1, |email|);
      assert !IsSpace(email[at]);
      assert !IsSpace(email[0]) && !IsSpace(email[|email| - 1]);
    }
  }

  /** The message rule: blank is missing; otherwise the trim must reach ten
      characters, which ten visible characters always do. */
  lemma MessageRule(message: string)
    ensures MessageError(message) == Some(MessageRequired) <==> AllSpace(message)
    ensures MessageError(message) == Some(MessageTooShort) <==> !AllSpace(message) && |Trim(message)| < 10
    ensures NonSpaceCount(message) >= 10 ==> MessageError(message) == None
  {
    TrimKeepsVisible(message);
    NoVisibleIffAllSpace(message);
  }

  /** The rule for field f, applied to that field alone. */
  function FieldError(data: FormData, f: Field): (e: Option<ErrorMessage>)
    ensures e.Some? ==> e.value.FieldOf() == f
  {
    match f
    case Name => NameError(data.name)
    case Email => EmailError(data.email)
    case Message => MessageError(data.message)
  }

  /** The error object validation computes. */
  function Validate(data: FormData): Errors
  {
    Errors(NameError(data.name), EmailError(data.email), MessageError(data.message))
  }

  /** The form is accepted exactly when the name has two visible characters,
      the e-mail matches the pattern and the trimmed message has ten characters. */
  lemma ValidateAcceptsExactly(data: FormData)
    ensures Validate(data).Keys() == [] <==>
      NonSpaceCount(data.name) >= 2 && MatchesEmailPattern(data.email) && |Trim(data.message)| >= 10
  {
    NameRule(data.name);
    EmailRule(data.email);
    MessageRule(data.message);
    var errs := Validate(data);
    if errs.Keys() != [] {
      var f :| f in errs.Keys();
    } else {
      assert Name !in errs.Keys() && Email !in errs.Keys() && Message !in errs.Keys();
    }
  }

  /** Each field's error depends on that field alone. */
  lemma ErrorDependsOnlyOnField(d1: FormData, d2: FormData, f: Field)
    requires d1.Get(f) == d2.Get(f)
    ensures Validate(d1).Get(f) == Validate(d2).Get(f)
    ensures FieldError(d1, f) == FieldError(d2, f)
  {
  }

  /** Validation applies each field's rule to that field. */
  lemma ValidateIsFieldwise(data: FormData)
    ensures forall f :: Validate(data).Get(f) == FieldError(data, f)
  {
  }

  /** The body of validateForm: a fresh error object filled field by field
      through each rule's if/else chain. */
  method CollectErrors(data: FormData) returns (newErrors: Errors)
    ensures newErrors == Validate(data)
  {
    newErrors := NoErrors;

    var name := Trim(data.name);
    if |name| == 0 {
      newErrors := newErrors.(name := Some(NameRequired));
    } else if |name| < 2 {
      newErrors := newErrors.(name := Some(NameTooShort));
    }

    if |Trim(data.email)| == 0 {
      newErrors := newErrors.(email := Some(EmailRequired));
    } else if !IsValidEmail(data.email) {
      newErrors := newErrors.(email := Some(EmailInvalid));
    }

    var message := Trim(data.message);
    if |message| == 0 {
      newErrors := newErrors.(message := Some(MessageRequired));
    } else if |message| < 10 {
      newErrors := newErrors.(message := Some(MessageTooShort));
    }
  }

  /** The contact form's state. */
  class ContactForm {
    var formData: FormData
    var isSubmitting: bool
    var errors: Errors

    /** Every displayed error is what its field's rule says about that
        field's current text. */
    ghost predicate Valid()
      reads this
    {
      forall f | errors.Get(f).Some? :: errors.Get(f) == FieldError(formData, f)
    }

    constructor ()
      ensures Valid()
      ensures formData == EmptyForm && !isSubmitting && errors == NoErrors
    {
      formData := EmptyForm;
      isSubmitting := false;
      errors := NoErrors;
    }

    /** validateForm: computes a fresh error object, stores it, and reports
        whether it has no keys. */
    method ValidateForm() returns (ok: bool)
      requires Valid()
      modifies this`errors
      ensures Valid()
      ensures errors == Validate(formData)
      ensures ok <==> errors.Keys() == []
    {
      var newErrors := CollectErrors(formData);
      errors := newErrors;
      ValidateIsFieldwise(formData);
      ok := |newErrors.Keys()| == 0;
    }

    /** handleSubmit up to its delay: an invalid form only gets its errors
        shown; a valid one enters the sending state. */
    method HandleSubmit() returns (sending: bool)
      requires Valid()
      modifies this`errors, this`isSubmitting
      ensures Valid()
      ensures errors == Validate(formData)
      ensures sending <==> Validate(formData).Keys() == []
      ensures isSubmitting == (sending || old(isSubmitting))
    {
      var ok := ValidateForm();
      if !ok {
        return false;
      }
      isSubmitting := true;
      sending := true;
    }

    /** The rest of handleSubmit, run once the simulated delay has elapsed:
        the form and its errors are cleared, including anything typed while
        the message was being sent, and the form can be submitted again. */
    method CompleteSubmit()
      modifies this`formData, this`errors, this`isSubmitting
      ensures Valid()
      ensures formData == EmptyForm && errors == NoErrors && !isSubmitting
    {
      formData := EmptyForm;
      errors := NoErrors;
      isSubmitting := false;
    }

    /** The onChange handler of field f: stores the new text and, if the field
        shows an error, clears that error alone. */
    method Edit(f: Field, value: string)
      requires Valid()
      modifies this`formData, this`errors
      ensures Valid()
      ensures formData == old(formData).With(f, value)
      ensures errors == old(errors).Without(f)
    {
      ghost var before := formData;
      formData := formData.With(f, value);
      if errors.Get(f).Some? {
        errors := errors.Without(f);
      }
      forall g | g != f
        ensures FieldError(formData, g) == FieldError(before, g)
      {
        ErrorDependsOnlyOnField(formData, before, g);
      }
    }
  }
}
