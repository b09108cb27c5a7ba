/** components/register-form.tsx: the CPF and phone input masks, the CPF check-digit
    validator, the field rule table `validate`, and the submit handler. */
module RegisterForm {
  import opened FinanceTypes
  import opened Text
  import Auth

  /** `s.slice(0, k)`. */
  function Capped(s: string, k: nat): (r: string)
    ensures |r| == if |s| <= k then |s| else k
    ensures r == s[..|r|]
  {
    if |s| <= k then s else s[..k]
  }

  /** The at most eleven digits a mask keeps from what was typed. */
  function MaskDigits(value: string): (d: string)
    ensures AllDigits(d) && |d| <= 11
  {
    Capped(Digits(value), 11)
  }

  /** Number of separators the CPF mask inserts for `n` digits. */
  function CpfSeparatorCount(n: nat): nat {
    if n <= 3 then 0 else if n <= 6 then 1 else if n <= 9 then 2 else 3
  }

  /** `formatCpf`: the 3-3-3-2 grouping "ddd.ddd.ddd-dd", as far as the digits go. */
  function FormatCpf(value: string): (r: string)
    ensures var n := |MaskDigits(value)|;
      && |r| == n + CpfSeparatorCount(n)
      && (n > 3 ==> r[3] == '.')
      && (n > 6 ==> r[7] == '.')
      && (n > 9 ==> r[11] == '-')
  {
    var d := MaskDigits(value);
    if |d| <= 3 then d
    else if |d| <= 6 then d[..3] + "." + d[3..]
    else if |d| <= 9 then d[..3] + "." + d[3..6] + "." + d[6..]
    else d[..3] + "." + d[3..6] + "." + d[6..9] + "-" + d[9..]
  }

  /** Number of characters the phone mask adds for `n` digits. */
  function PhoneExtraCount(n: nat): nat {
    if n <= 2 then 0 else if n <= 7 then 3 else 4
  }

  /** `formatPhone`: "(dd) ddddd-dddd", as far as the digits go. */
  function FormatPhone(value: string): (r: string)
    ensures var n := |MaskDigits(value)|;
      && |r| == n + PhoneExtraCount(n)
      && (n > 2 ==> r[0] == '(' && r[3] == ')' && r[4] == ' ')
      && (n > 7 ==> r[10] == '-')
  {
    var d := MaskDigits(value);
    if |d| <= 2 then d
    else if |d| <= 7 then "(" + d[..2] + ") " + d[2..]
    else "(" + d[..2] + ") " + d[2..7] + "-" + d[7..]
  }

  predicate NoDigits(s: string) {
    forall i :: 0 <= i < |s| ==> !IsDigit(s[i])
  }

  /** A separator between two runs of digits disappears when non-digits are stripped. */
  lemma DigitsAroundSeparator(x: string, sep: string, y: string)
    requires NoDigits(sep)
    ensures Digits(x + sep + y) == Digits(x) + Digits(y)
  {
    DigitsOfNonDigits(sep);
    DigitsAppend(x, sep);
    assert Digits(x + sep) == Digits(x);
    DigitsAppend(x + sep, y);
  }

  /** Two runs of digits around a separator strip to the two runs joined. */
  lemma StripTwo(a: string, sep: string, b: string)
    requires AllDigits(a) && AllDigits(b) && NoDigits(sep)
    ensures Digits(a + sep + b) == a + b
  {
    DigitsAroundSeparator(a, sep, b);
    DigitsOfDigits(a);
    DigitsOfDigits(b);
  }

  /** Likewise for three runs and two separators. */
  lemma StripThree(a: string, sep1: string, b: string, sep2: string, c: string)
    requires AllDigits(a) && AllDigits(b) && AllDigits(c) && NoDigits(sep1) && NoDigits(sep2)
    ensures Digits(a + sep1 + b + sep2 + c) == a + b + c
  {
    DigitsAroundSeparator(a + sep1 + b, sep2, c);
    StripTwo(a, sep1, b);
    DigitsOfDigits(c);
  }

  /** Likewise for four runs and three separators. */
  lemma StripFour(a: string, sep1: string, b: string, sep2: string, c: string, sep3: string, e: string)
    requires AllDigits(a) && AllDigits(b) && AllDigits(c) && AllDigits(e)
    requires NoDigits(sep1) && NoDigits(sep2) && NoDigits(sep3)
    ensures Digits(a + sep1 + b + sep2 + c + sep3 + e) == a + b + c + e
  {
    DigitsAroundSeparator(a + sep1 + b + sep2 + c, sep3, e);
    StripThree(a, sep1, b, sep2, c);
    DigitsOfDigits(e);
  }

  /** Stripping the CPF mask gives back exactly the first (at most eleven) typed digits. */
  lemma FormatCpfDigits(value: string)
    ensures Digits(FormatCpf(value)) == MaskDigits(value)
  {
    var d := MaskDigits(value);
    if |d| <= 3 {
      DigitsOfDigits(d);
    } else if |d| <= 6 {
      StripTwo(d[..3], ".", d[3..]);
      assert d[..3] + d[3..] == d;
    } else if |d| <= 9 {
      StripThree(d[..3], ".", d[3..6], ".", d[6..]);
      assert d[..3] + d[3..6] + d[6..] == d;
    } else {
      StripFour(d[..3], ".", d[3..6], ".", d[6..9], "-", d[9..]);
      assert d[..3] + d[3..6] + d[6..9] + d[9..] == d;
    }
  }

  /** A leading separator disappears when non-digits are stripped. */
  lemma StripLeading(sep: string, rest: string)
    requires NoDigits(sep)
    ensures Digits(sep + rest) == Digits(rest)
  {
    DigitsOfNonDigits(sep);
    DigitsAppend(sep, rest);
  }

  /** Stripping the phone mask gives back exactly the first (at most eleven) typed digits. */
  lemma FormatPhoneDigits(value: string)
    ensures Digits(FormatPhone(value)) == MaskDigits(value)
  {
    var d := MaskDigits(value);
    if |d| <= 2 {
      DigitsOfDigits(d);
    } else {
      var area := "(" + d[..2];
      StripLeading("(", d[..2]);
      DigitsOfDigits(d[..2]);
      if |d| <= 7 {
        DigitsAroundSeparator(area, ") ", d[2..]);
        DigitsOfDigits(d[2..]);
        assert d[..2] + d[2..] == d;
      } else {
        var front := area + ") " + d[2..7];
        DigitsAroundSeparator(area, ") ", d[2..7]);
        DigitsOfDigits(d[2..7]);
        DigitsAroundSeparator(front, "-", d[7..]);
        DigitsOfDigits(d[7..]);
        assert d[..2] + d[2..7] + d[7..] == d;
      }
    }
  }

  /** Masking an already masked CPF changes nothing. */
  lemma FormatCpfIdempotent(value: string)
    ensures FormatCpf(FormatCpf(value)) == FormatCpf(value)
  {
    FormatCpfDigits(value);
    assert MaskDigits(FormatCpf(value)) == MaskDigits(value);
  }

  /** Masking an already masked phone number changes nothing. */
  lemma FormatPhoneIdempotent(value: string)
    ensures FormatPhone(FormatPhone(value)) == FormatPhone(value)
  {
    FormatPhoneDigits(value);
    assert MaskDigits(FormatPhone(value)) == MaskDigits(value);
  }

  /** Σ d[i]·(top − i) over the first `k` digits of `d`. */
  function WeightedSum(d: string, k: nat, top: int): int
    requires AllDigits(d) && k <= |d|
  {
    if k == 0 then 0 else WeightedSum(d, k - 1, top) + DigitValue(d[k - 1]) * (top - (k - 1))
  }

  /** The check digit the modulo-11 rule gives for the first `k` digits (weights k+1 down to 2),
      with a remainder of 10 mapped to 0. */
  function CheckDigit(d: string, k: nat): (c: nat)
    requires AllDigits(d) && k <= |d|
    ensures c <= 9
  {
    var r := (WeightedSum(d, k, k + 1) * 10) % 11;
    if r == 10 then 0 else r
  }

  /** All characters equal the first: `/^(\d)\1{10}$/` on eleven digits. */
  predicate AllSame(d: string) {
    forall i | 0 <= i < |d| :: d[i] == d[0]
  }

  /** The Receita Federal rule for the eleven digits of a CPF number. */
  predicate ValidCpfDigits(d: string)
    requires AllDigits(d)
  {
    && |d| == 11
    && !AllSame(d)
    && CheckDigit(d, 9) == DigitValue(d[9])
    && CheckDigit(d, 10) == DigitValue(d[10])
  }

  /** The rule applied to the digits of `cpf`, whatever else it contains. */
  predicate ValidCpf(cpf: string) {
    ValidCpfDigits(Digits(cpf))
  }

  /** `isValidCpf`, with its two accumulating loops. */
  method IsValidCpf(cpf: string) returns (valid: bool)
    ensures valid <==> ValidCpf(cpf)
  {
    var digits := Digits(cpf);
    if |digits| != 11 {
      return false;
    }
    if AllSame(digits) {
      return false;
    }
    var sum := 0;
    for i := 0 to 9
      invariant sum == WeightedSum(digits, i, 10)
    {
      sum := sum + DigitValue(digits[i]) * (10 - i);
    }
    var remainder := (sum * 10) % 11;
    if remainder == 10 {
      remainder := 0;
    }
    if remainder != DigitValue(digits[9]) {
      return false;
    }
    sum := 0;
    for i := 0 to 10
      invariant sum == WeightedSum(digits, i, 11)
    {
      sum := sum + DigitValue(digits[i]) * (11 - i);
    }
    remainder := (sum * 10) % 11;
    if remainder == 10 {
      remainder := 0;
    }
    return remainder == DigitValue(digits[10]);
  }

  /** Eleven copies of one digit are never a valid CPF, although both check digits hold for them. */
  lemma RepeatedDigitRejected(c: char)
    requires IsDigit(c)
    ensures !ValidCpf(seq(11, _ => c))
  {
    DigitsOfDigits(seq(11, _ => c));
  }

  lemma {:induction false} WeightedSumPrefix(d: string, e: string, k: nat, top: int)
    requires AllDigits(d) && AllDigits(e) && k <= |d| && k <= |e|
    requires d[..k] == e[..k]
    ensures WeightedSum(d, k, top) == WeightedSum(e, k, top)
  {
    if k > 0 {
      assert d[k - 1] == d[..k][k - 1] == e[..k][k - 1] == e[k - 1];
      assert d[..k - 1] == d[..k][..k - 1];
      assert e[..k - 1] == e[..k][..k - 1];
      WeightedSumPrefix(d, e, k - 1, top);
    }
  }

  /** Any change to one of the two check digits of a valid CPF is detected. */
  lemma CheckDigitChangeRejected(cpf: string, p: nat, c: char)
    requires AllDigits(cpf) && ValidCpf(cpf)
    requires p == 9 || p == 10
    requires IsDigit(c) && c != cpf[p]
    ensures !ValidCpf(cpf[p := c])
  {
    var e := cpf[p := c];
    DigitsOfDigits(cpf);
    DigitsOfDigits(e);
    assert cpf[..9] == e[..9];
    WeightedSumPrefix(cpf, e, 9, 10);
    if p == 10 {
      assert cpf[..10] == e[..10];
      WeightedSumPrefix(cpf, e, 10, 11);
    }
  }

  /** Masking keeps a CPF's validity whenever at most eleven digits were typed. */
  lemma FormatCpfKeepsValidity(value: string)
    requires |Digits(value)| <= 11
    ensures ValidCpf(FormatCpf(value)) <==> ValidCpf(value)
  {
    FormatCpfDigits(value);
  }

  lemma ExampleDigitsValid()
    ensures ValidCpfDigits("52998224725")
  {
    var d := "52998224725";
    assert d[1] != d[0];
  }

  /** Eleven valid digits are accepted both as typed and as the mask displays them. */
  lemma MaskedCpfAccepted(d: string)
    requires AllDigits(d) && ValidCpfDigits(d)
    ensures ValidCpf(d) && ValidCpf(FormatCpf(d))
  {
    DigitsOfDigits(d);
    FormatCpfKeepsValidity(d);
  }

  lemma SixthDigitOneAccepted()
    ensures ValidCpf("00000100900")
  {
    var a := "00000100900";
    assert a[5] != a[0];
    assert ValidCpfDigits(a);
    DigitsOfDigits(a);
  }

  lemma SixthDigitThreeAccepted()
    ensures ValidCpf("00000300900")
  {
    var b := "00000300900";
    assert b[5] != b[0];
    assert ValidCpfDigits(b);
    DigitsOfDigits(b);
  }

  /** The rule does not catch every single-digit error: when a remainder of 10 is mapped to 0,
      raising the sixth digit of 00000100900 by two gives 00000300900, which keeps both check digits. */
  lemma SingleDigitChangeNotAlwaysDetected()
    ensures ValidCpf("00000100900") && ValidCpf("00000300900")
  {
    SixthDigitOneAccepted();
    SixthDigitThreeAccepted();
  }

  const NameMessage := "Nome deve ter pelo menos 3 caracteres"
  const EmailMessage := "Digite um email valido"
  const CpfMessage := "CPF invalido"
  const PhoneMessage := "Telefone incompleto"
  const PasswordMessage := "Senha deve ter pelo menos 6 caracteres"
  const ConfirmMessage := "As senhas nao coincidem"

  /** `FieldErrors`: one optional message per field. */
  datatype FieldErrors = FieldErrors(
    nome: Option<string>, email: Option<string>, cpf: Option<string>,
    telefone: Option<string>, senha: Option<string>, confirmarSenha: Option<string>)

  const NoErrors := FieldErrors(None, None, None, None, None, None)

  /** `Object.keys(errs).length > 0`. */
  predicate HasErrors(e: FieldErrors) {
    e.nome.Some? || e.email.Some? || e.cpf.Some? || e.telefone.Some? || e.senha.Some? || e.confirmarSenha.Some?
  }

  /** The messages `validate` reports for the six field values, one rule per field. */
  function ValidationErrors(nome: string, email: string, cpf: string, telefone: string,
                            senha: string, confirmarSenha: string): (e: FieldErrors)
    ensures e.nome.Some? <==> JsLength(Trim(nome)) < 3
    ensures e.email.Some? <==> '@' !in email || '.' !in email
    ensures e.cpf.Some? <==> cpf != "" && !ValidCpf(cpf)
    ensures e.telefone.Some? <==> telefone != "" && |Digits(telefone)| < 10
    ensures e.senha.Some? <==> JsLength(senha) < 6
    ensures e.confirmarSenha.Some? <==> senha != confirmarSenha
  {
    FieldErrors(
      if JsLength(Trim(nome)) < 3 then Some(NameMessage) else None,
      if '@' !in email || '.' !in email then Some(EmailMessage) else None,
      if cpf != "" && !ValidCpf(cpf) then Some(CpfMessage) else None,
      if telefone != "" && |Digits(telefone)| < 10 then Some(PhoneMessage) else None,
      if JsLength(senha) < 6 then Some(PasswordMessage) else None,
      if senha != confirmarSenha then Some(ConfirmMessage) else None)
  }

  /** Each field that fails its rule shows that rule's own message. */
  lemma ValidationMessages(nome: string, email: string, cpf: string, telefone: string,
                           senha: string, confirmarSenha: string)
    ensures var e := ValidationErrors(nome, email, cpf, telefone, senha, confirmarSenha);
      && (e.nome.Some? ==> e.nome.value == NameMessage)
      && (e.email.Some? ==> e.email.value == EmailMessage)
      && (e.cpf.Some? ==> e.cpf.value == CpfMessage)
      && (e.telefone.Some? ==> e.telefone.value == PhoneMessage)
      && (e.senha.Some? ==> e.senha.value == PasswordMessage)
      && (e.confirmarSenha.Some? ==> e.confirmarSenha.value == ConfirmMessage)
  {
  }

  /** A form whose every field passes its rule is accepted; in particular empty CPF and phone
      fields are never reported. */
  lemma {:induction false} OptionalFieldsMayBeEmpty(nome: string, email: string, senha: string)
    requires JsLength(Trim(nome)) >= 3 && '@' in email && '.' in email && JsLength(senha) >= 6
    ensures !HasErrors(ValidationErrors(nome, email, "", "", senha, senha))
  {
  }

  /** `length` counts UTF-16 code units: a name of two emoji, each a surrogate pair, has
      length 4 and passes the three-character rule. */
  lemma TwoEmojiNamePasses(email: string, cpf: string, telefone: string, senha: string, confirmarSenha: string)
    ensures ValidationErrors("\U{1F600}\U{1F600}", email, cpf, telefone, senha, confirmarSenha).nome.None?
  {
    var n := "\U{1F600}\U{1F600}";
    assert TrimStart(n) == n;
    assert TrimEnd(n) == n;
    assert JsLength(n[1..]) == 2;
  }

  /** The error `handleSubmit` shows once `register` has settled: none on success, else the
      message `register` threw. */
  function ShownMessage(outcome: Auth.FetchOutcome<()>): (m: string)
    ensures outcome.Ok? ==> m == ""
    ensures outcome.NetworkFailure? ==> m == Auth.ConnectionError
    ensures outcome.NotOk? ==> m == Auth.RegisterFailureMessage(outcome.status, outcome.body)
  {
    match outcome
    case Ok(_) => ""
    case NetworkFailure => Auth.ConnectionError
    case NotOk(status, body) => Auth.RegisterFailureMessage(status, body)
  }

  class RegisterFormState {
    var nome: string
    var email: string
    var cpf: string
    var telefone: string
    var senha: string
    var confirmarSenha: string
    var errors: FieldErrors
    var apiError: string
    var success: bool
    var loading: bool

    constructor()
      ensures nome == email == cpf == telefone == senha == confirmarSenha == apiError == ""
      ensures errors == NoErrors && !success && !loading
    {
      nome, email, cpf, telefone, senha, confirmarSenha := "", "", "", "", "", "";
      errors, apiError, success, loading := NoErrors, "", false, false;
    }

    /** The CPF field's change handler: the field always holds a masked value. */
    method TypeCpf(input: string)
      modifies this`cpf
      ensures cpf == FormatCpf(input) && Digits(cpf) == MaskDigits(input)
    {
      cpf := FormatCpf(input);
      FormatCpfDigits(input);
    }

    /** The phone field's change handler. */
    method TypePhone(input: string)
      modifies this`telefone
      ensures telefone == FormatPhone(input) && Digits(telefone) == MaskDigits(input)
    {
      telefone := FormatPhone(input);
      FormatPhoneDigits(input);
    }

    /** `validate()`: each rule that fails sets its field's message. */
    method Validate() returns (errs: FieldErrors)
      ensures errs == ValidationErrors(nome, email, cpf, telefone, senha, confirmarSenha)
    {
      errs := NoErrors;
      if JsLength(Trim(nome)) < 3 {
        errs := errs.(nome := Some(NameMessage));
      }
      if '@' !in email || '.' !in email {
        errs := errs.(email := Some(EmailMessage));
      }
      if cpf != "" {
        var ok := IsValidCpf(cpf);
        if !ok {
          errs := errs.(cpf := Some(CpfMessage));
        }
      }
      assert errs.telefone == errs.senha == errs.confirmarSenha == None;
      if telefone != "" && |Digits(telefone)| < 10 {
        errs := errs.(telefone := Some(PhoneMessage));
      }
      if JsLength(senha) < 6 {
        errs := errs.(senha := Some(PasswordMessage));
      }
      if senha != confirmarSenha {
        errs := errs.(confirmarSenha := Some(ConfirmMessage));
      }
    }

    /** `handleSubmit`: `register` is reached only when `validate` reports nothing, and then
        receives the trimmed name, the e-mail and the password, never the CPF or phone.
        `sent` is the payload passed to `register`, if it was called. The six input fields are
        outside the frame, so `old` around them only names the state they are read in. */
    method HandleSubmit(outcome: Auth.FetchOutcome<()>) returns (sent: Option<Auth.RegisterPayload>)
      modifies this`errors, this`apiError, this`success, this`loading
      ensures errors == old(ValidationErrors(nome, email, cpf, telefone, senha, confirmarSenha))
      ensures sent == if HasErrors(errors) then None else Some(old(Auth.RegisterPayload(Trim(nome), email, senha)))
      ensures sent.None? ==> apiError == "" && success == old(success) && loading == old(loading)
      ensures sent.Some? ==> apiError == ShownMessage(outcome) && success == (old(success) || outcome.Ok?) && !loading
    {
      var fieldErrors := Validate();
      if HasErrors(fieldErrors) {
        errors, apiError := fieldErrors, "";
        return None;
      }
      sent := Some(Auth.RegisterPayload(Trim(nome), email, senha));
      errors := fieldErrors;
      SendRegistration(sent.value, outcome);
    }

    /** The part of `handleSubmit` after validation: the call to `register` and what the form
        shows once it has settled. The `loading` flag raised while the request is pending is
        not observable in a model where the request settles immediately. */
    method SendRegistration(payload: Auth.RegisterPayload, outcome: Auth.FetchOutcome<()>)
      modifies this`apiError, this`success, this`loading
      ensures apiError == ShownMessage(outcome) && success == (old(success) || outcome.Ok?) && !loading
    {
      var r := Auth.Register(payload, outcome);
      apiError := if r.Failure? then r.message else "";
      success := success || r.Success?;
      loading := false;
    }
  }
}
