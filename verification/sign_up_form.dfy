/** The sign-up form's validation schema. The schema is kept as data (a
    list of fields, each with its rules in declaration order) and read by a
    small interpreter, so that it can be checked against a direct statement
    of the four field rules. Email format is the parameter `isEmail`: its
    pattern belongs to the validation library. */
module SignUpForm {
  import opened Wrappers

  /** The four inputs of the form. A field the user never touched is `""`:
      a required string rejects an absent value and an empty one alike. */
  datatype FormData = FormData(name: string, email: string, password: string, passwordConfirm: string)

  datatype Field = Name | Email | Password | PasswordConfirm

  function Value(form: FormData, field: Field): string
  {
    match field
    case Name => form.name
    case Email => form.email
    case Password => form.password
    case PasswordConfirm => form.passwordConfirm
  }

  /** The length of a string as JavaScript counts it, in UTF-16 code units:
      a character above U+FFFF takes a surrogate pair. */
  function Utf16Length(s: string): (n: nat)
    ensures |s| <= n <= 2 * |s|
    ensures n == 0 <==> s == ""
    ensures (forall i :: 0 <= i < |s| ==> s[i] as int <= 0xFFFF) ==> n == |s|
  {
    if s == [] then 0
    else
      var rest := Utf16Length(s[1..]);
      assert forall i :: 1 <= i < |s| ==> s[i] == s[1..][i - 1];
      (if s[0] as int > 0xFFFF then 2 else 1) + rest
  }

  /** The string rules the schema uses, each with its message. */
  datatype Rule =
    | Required(message: string)
    | EmailFormat(message: string)
    | MinLength(min: nat, message: string)
    | OneOfRef(other: Field, message: string)

  datatype FieldSchema = FieldSchema(field: Field, rules: seq<Rule>)

  /** A message shown under one input. */
  datatype FieldError = FieldError(field: Field, message: string)

  const NameRequired := "Informe o nome."
  const EmailRequired := "Informe o e-mail."
  const EmailInvalid := "E-mail inválido."
  const PasswordRequired := "Informe a senha."
  const PasswordTooShort := "A senha deve ter pelo menos 6 caracteres."
  const ConfirmRequired := "Confirme a senha."
  const ConfirmMismatch := "A confirmação da senha não confere."

  /** `signUpFormSchema`, field by field and rule by rule. */
  const SignUpFormSchema: seq<FieldSchema> := [
    FieldSchema(Name, [Required(NameRequired)]),
    FieldSchema(Email, [Required(EmailRequired), EmailFormat(EmailInvalid)]),
    FieldSchema(Password, [Required(PasswordRequired), MinLength(6, PasswordTooShort)]),
    FieldSchema(PasswordConfirm, [Required(ConfirmRequired), OneOfRef(Password, ConfirmMismatch)])
  ]

  /** Whether `value`, the content of one field of `form`, passes `rule`. The
      email test lets the empty string through (leaving it to `Required`);
      the length test does not. */
  predicate Holds(rule: Rule, form: FormData, value: string, isEmail: string -> bool)
  {
    match rule
    case Required(_) => value != ""
    case EmailFormat(_) => value == "" || isEmail(value)
    case MinLength(min, _) => Utf16Length(value) >= min
    case OneOfRef(other, _) => value == Value(form, other)
  }

  /** The message of the first rule in `rules` that `value` breaks. */
  function FirstBroken(rules: seq<Rule>, form: FormData, value: string, isEmail: string -> bool): (r: Option<string>)
    ensures r.None? <==> forall i :: 0 <= i < |rules| ==> Holds(rules[i], form, value, isEmail)
  {
    if rules == [] then None
    else if !Holds(rules[0], form, value, isEmail) then Some(rules[0].message)
    else
      var rest := FirstBroken(rules[1..], form, value, isEmail);
      assert forall i :: 1 <= i < |rules| ==> rules[i] == rules[1..][i - 1];
      rest
  }

  /** A reported message is that of a broken rule all of whose
      predecessors hold. */
  lemma {:induction false} FirstBrokenNamesFirstBrokenRule(rules: seq<Rule>, form: FormData, value: string, isEmail: string -> bool)
    requires FirstBroken(rules, form, value, isEmail).Some?
    ensures exists i :: && 0 <= i < |rules|
                        && !Holds(rules[i], form, value, isEmail)
                        && FirstBroken(rules, form, value, isEmail) == Some(rules[i].message)
                        && (forall j :: 0 <= j < i ==> Holds(rules[j], form, value, isEmail))
    decreases |rules|
  {
    if Holds(rules[0], form, value, isEmail) {
      FirstBrokenNamesFirstBrokenRule(rules[1..], form, value, isEmail);
      var i :| && 0 <= i < |rules[1..]|
               && !Holds(rules[1..][i], form, value, isEmail)
               && FirstBroken(rules[1..], form, value, isEmail) == Some(rules[1..][i].message)
               && (forall j :: 0 <= j < i ==> Holds(rules[1..][j], form, value, isEmail));
      assert forall j :: 1 <= j < i + 1 ==> rules[j] == rules[1..][j - 1];
      assert !Holds(rules[i + 1], form, value, isEmail);
    } else {
      assert !Holds(rules[0], form, value, isEmail);
    }
  }

  function FieldMessage(fs: FieldSchema, form: FormData, isEmail: string -> bool): Option<string>
  {
    FirstBroken(fs.rules, form, Value(form, fs.field), isEmail)
  }

  /** The errors a schema reports for a form: one per schema entry whose
      field breaks a rule, in schema order, with the message of the field's
      first broken rule. */
  function Validate(schema: seq<FieldSchema>, form: FormData, isEmail: string -> bool): (errors: seq<FieldError>)
    ensures |errors| <= |schema|
    ensures errors == [] <==> forall k :: 0 <= k < |schema| ==> FieldMessage(schema[k], form, isEmail).None?
  {
    if schema == [] then []
    else
      var rest := Validate(schema[1..], form, isEmail);
      assert forall k :: 1 <= k < |schema| ==> schema[k] == schema[1..][k - 1];
      match FieldMessage(schema[0], form, isEmail)
      case None => rest
      case Some(m) => [FieldError(schema[0].field, m)] + rest
  }

  /** The message shown under `field`, if any. */
  function MessageFor(errors: seq<FieldError>, field: Field): Option<string>
  {
    if errors == [] then None
    else if errors[0].field == field then Some(errors[0].message)
    else MessageFor(errors[1..], field)
  }

  // The four field rules, stated directly.

  function NameMessage(form: FormData): Option<string>
  {
    if form.name == "" then Some(NameRequired) else None
  }

  function EmailMessage(form: FormData, isEmail: string -> bool): Option<string>
  {
    if form.email == "" then Some(EmailRequired)
    else if !isEmail(form.email) then Some(EmailInvalid)
    else None
  }

  function PasswordMessage(form: FormData): Option<string>
  {
    if form.password == "" then Some(PasswordRequired)
    else if Utf16Length(form.password) < 6 then Some(PasswordTooShort)
    else None
  }

  function ConfirmMessage(form: FormData): Option<string>
  {
    if form.passwordConfirm == "" then Some(ConfirmRequired)
    else if form.passwordConfirm != form.password then Some(ConfirmMismatch)
    else None
  }

  /** A form the sign-up screen accepts. */
  predicate SignUpFormValid(form: FormData, isEmail: string -> bool)
  {
    && form.name != ""
    && form.email != "" && isEmail(form.email)
    && form.password != "" && Utf16Length(form.password) >= 6
    && form.passwordConfirm != "" && form.passwordConfirm == form.password
  }

  /** The first broken rule of a two-rule field. */
  lemma FirstBrokenOfTwo(a: Rule, b: Rule, form: FormData, value: string, isEmail: string -> bool)
    ensures FirstBroken([a, b], form, value, isEmail)
            == if !Holds(a, form, value, isEmail) then Some(a.message)
               else if !Holds(b, form, value, isEmail) then Some(b.message)
               else None
  {
    assert [a, b][1..] == [b];
    assert [b][1..] == [];
  }

  /** Each field of the schema, read by the interpreter, gives the message
      of the direct statement of its rules. */
  lemma SchemaFieldMessages(form: FormData, isEmail: string -> bool)
    ensures FieldMessage(SignUpFormSchema[0], form, isEmail) == NameMessage(form)
    ensures FieldMessage(SignUpFormSchema[1], form, isEmail) == EmailMessage(form, isEmail)
    ensures FieldMessage(SignUpFormSchema[2], form, isEmail) == PasswordMessage(form)
    ensures FieldMessage(SignUpFormSchema[3], form, isEmail) == ConfirmMessage(form)
  {
    assert [Required(NameRequired)][1..] == [];
    FirstBrokenOfTwo(Required(EmailRequired), EmailFormat(EmailInvalid), form, form.email, isEmail);
    FirstBrokenOfTwo(Required(PasswordRequired), MinLength(6, PasswordTooShort), form, form.password, isEmail);
    FirstBrokenOfTwo(Required(ConfirmRequired), OneOfRef(Password, ConfirmMismatch), form, form.passwordConfirm, isEmail);
  }

  /** The form passes validation exactly when all four field rules hold. */
  lemma ValidateAcceptsExactlyValidForms(form: FormData, isEmail: string -> bool)
    ensures Validate(SignUpFormSchema, form, isEmail) == [] <==> SignUpFormValid(form, isEmail)
  {
    SchemaFieldMessages(form, isEmail);
    var s := SignUpFormSchema;
    assert (forall k :: 0 <= k < |s| ==> FieldMessage(s[k], form, isEmail).None?)
           <==> (&& FieldMessage(s[0], form, isEmail).None?
                 && FieldMessage(s[1], form, isEmail).None?
                 && FieldMessage(s[2], form, isEmail).None?
                 && FieldMessage(s[3], form, isEmail).None?);
  }

  /** No two entries of the schema describe the same field. */
  predicate FieldsDistinct(schema: seq<FieldSchema>)
  {
    forall i, j :: 0 <= i < j < |schema| ==> schema[i].field != schema[j].field
  }

  /** A field the schema does not mention gets no message. */
  lemma {:induction false} UnlistedFieldHasNoMessage(schema: seq<FieldSchema>, form: FormData, isEmail: string -> bool, f: Field)
    requires forall i :: 0 <= i < |schema| ==> schema[i].field != f
    ensures MessageFor(Validate(schema, form, isEmail), f) == None
    decreases |schema|
  {
    if schema != [] {
      var rest := Validate(schema[1..], form, isEmail);
      UnlistedFieldHasNoMessage(schema[1..], form, isEmail, f);
      match FieldMessage(schema[0], form, isEmail)
      case None =>
      case Some(m) =>
        var errors := [FieldError(schema[0].field, m)] + rest;
        assert errors[0].field != f && errors[1..] == rest;
    }
  }

  /** A field the schema does not mention is never reported. */
  lemma {:induction false} UnlistedFieldNeverReported(schema: seq<FieldSchema>, form: FormData, isEmail: string -> bool, f: Field)
    requires forall i :: 0 <= i < |schema| ==> schema[i].field != f
    ensures forall i :: 0 <= i < |Validate(schema, form, isEmail)| ==> Validate(schema, form, isEmail)[i].field != f
    decreases |schema|
  {
    if schema != [] {
      var rest := Validate(schema[1..], form, isEmail);
      UnlistedFieldNeverReported(schema[1..], form, isEmail, f);
    }
  }

  /** No two errors are about the same field. */
  predicate OneErrorPerField(errors: seq<FieldError>)
  {
    forall i, j :: 0 <= i < j < |errors| ==> errors[i].field != errors[j].field
  }

  lemma PrependKeepsOneErrorPerField(e: FieldError, rest: seq<FieldError>)
    requires OneErrorPerField(rest)
    requires forall i :: 0 <= i < |rest| ==> rest[i].field != e.field
    ensures OneErrorPerField([e] + rest)
  {
    var errors := [e] + rest;
    assert forall i :: 1 <= i < |errors| ==> errors[i] == rest[i - 1];
  }

  /** With distinct fields, the schema reports at most one error per field. */
  lemma {:induction false} AtMostOneErrorPerField(schema: seq<FieldSchema>, form: FormData, isEmail: string -> bool)
    requires FieldsDistinct(schema)
    ensures OneErrorPerField(Validate(schema, form, isEmail))
    decreases |schema|
  {
    if schema != [] {
      var rest := Validate(schema[1..], form, isEmail);
      assert FieldsDistinct(schema[1..]) by {
        assert forall i :: 0 <= i < |schema[1..]| ==> schema[1..][i] == schema[i + 1];
      }
      AtMostOneErrorPerField(schema[1..], form, isEmail);
      match FieldMessage(schema[0], form, isEmail)
      case None =>
        assert Validate(schema, form, isEmail) == rest;
      case Some(m) =>
        assert forall i :: 0 <= i < |schema[1..]| ==> schema[1..][i].field != schema[0].field by {
          assert forall i :: 0 <= i < |schema[1..]| ==> schema[1..][i] == schema[i + 1];
        }
        UnlistedFieldNeverReported(schema[1..], form, isEmail, schema[0].field);
        PrependKeepsOneErrorPerField(FieldError(schema[0].field, m), rest);
        assert Validate(schema, form, isEmail) == [FieldError(schema[0].field, m)] + rest;
    }
  }

  /** The sign-up schema reports at most one error per input. */
  lemma SignUpSchemaAtMostOneErrorPerField(form: FormData, isEmail: string -> bool)
    ensures OneErrorPerField(Validate(SignUpFormSchema, form, isEmail))
  {
    assert FieldsDistinct(SignUpFormSchema);
    AtMostOneErrorPerField(SignUpFormSchema, form, isEmail);
  }

  /** With distinct fields, the message shown under a field is that field's
      first broken rule. */
  lemma {:induction false} MessageForValidate(schema: seq<FieldSchema>, form: FormData, isEmail: string -> bool, k: nat)
    requires k < |schema| && FieldsDistinct(schema)
    ensures MessageFor(Validate(schema, form, isEmail), schema[k].field) == FieldMessage(schema[k], form, isEmail)
    decreases |schema|
  {
    var f := schema[k].field;
    var rest := Validate(schema[1..], form, isEmail);
    assert FieldsDistinct(schema[1..]) by {
      assert forall i :: 0 <= i < |schema[1..]| ==> schema[1..][i] == schema[i + 1];
    }
    if k == 0 {
      assert forall i :: 0 <= i < |schema[1..]| ==> schema[1..][i].field != f by {
        assert forall i :: 0 <= i < |schema[1..]| ==> schema[1..][i] == schema[i + 1];
      }
      UnlistedFieldHasNoMessage(schema[1..], form, isEmail, f);
      match FieldMessage(schema[0], form, isEmail)
      case None =>
      case Some(m) =>
        var errors := [FieldError(f, m)] + rest;
        assert errors[0] == FieldError(f, m);
    } else {
      assert schema[0].field != f;
      assert schema[1..][k - 1] == schema[k];
      MessageForValidate(schema[1..], form, isEmail, k - 1);
      match FieldMessage(schema[0], form, isEmail)
      case None =>
      case Some(m) =>
        var errors := [FieldError(schema[0].field, m)] + rest;
        assert errors[0].field != f && errors[1..] == rest;
    }
  }

  /** The message under each input is the one its own rules give. */
  lemma MessagesPerField(form: FormData, isEmail: string -> bool, g: Field)
    ensures MessageFor(Validate(SignUpFormSchema, form, isEmail), g)
            == match g
               case Name => NameMessage(form)
               case Email => EmailMessage(form, isEmail)
               case Password => PasswordMessage(form)
               case PasswordConfirm => ConfirmMessage(form)
  {
    var s := SignUpFormSchema;
    assert FieldsDistinct(s);
    SchemaFieldMessages(form, isEmail);
    var k := match g case Name => 0 case Email => 1 case Password => 2 case PasswordConfirm => 3;
    assert s[k].field == g;
    MessageForValidate(s, form, isEmail, k);
  }

  /** An empty name is rejected with 'Informe o nome.'. */
  lemma EmptyNameRejected(form: FormData, isEmail: string -> bool)
    requires form.name == ""
    ensures MessageFor(Validate(SignUpFormSchema, form, isEmail), Name) == Some("Informe o nome.")
  {
    MessagesPerField(form, isEmail, Name);
  }

  /** An empty email, or one that is not an email address, is rejected. */
  lemma BadEmailRejected(form: FormData, isEmail: string -> bool)
    requires form.email == "" || !isEmail(form.email)
    ensures MessageFor(Validate(SignUpFormSchema, form, isEmail), Email)
            == Some(if form.email == "" then "Informe o e-mail." else "E-mail inválido.")
  {
    MessagesPerField(form, isEmail, Email);
  }

  /** An empty password, or one shorter than six UTF-16 code units, is
      rejected. */
  lemma ShortPasswordRejected(form: FormData, isEmail: string -> bool)
    requires Utf16Length(form.password) < 6
    ensures MessageFor(Validate(SignUpFormSchema, form, isEmail), Password)
            == Some(if form.password == "" then "Informe a senha." else "A senha deve ter pelo menos 6 caracteres.")
  {
    MessagesPerField(form, isEmail, Password);
  }

  /** An empty confirmation, or one that differs from the password, is
      rejected. */
  lemma BadConfirmationRejected(form: FormData, isEmail: string -> bool)
    requires form.passwordConfirm == "" || form.passwordConfirm != form.password
    ensures MessageFor(Validate(SignUpFormSchema, form, isEmail), PasswordConfirm)
            == Some(if form.passwordConfirm == "" then "Confirme a senha." else "A confirmação da senha não confere.")
  {
    MessagesPerField(form, isEmail, PasswordConfirm);
  }
}
