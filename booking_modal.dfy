/** The passenger form of the flight booking modal
    (`BookingModal.tsx`): the name and e-mail validators, the change
    handlers that set the field errors, and the `isFormValid` flag. */
module BookingModal {
  import opened Strings

  /** A character the e-mail pattern's `[^\s@]` admits. */
  predicate PlainChar(c: char)
  {
    !IsSpace(c) && c != '@'
  }

  predicate Plain(p: string)
  {
    forall i :: 0 <= i < |p| ==> PlainChar(p[i])
  }

  /** `/^[^\s@]+@[^\s@]+\.[^\s@]+$/` read directly: a non-empty local
      part, '@', a non-empty name, '.', a non-empty ending, none of them
      holding white space or '@'. */
  ghost predicate EmailShape(s: string)
  {
    exists a, b :: 0 < a && a + 1 < b < |s| - 1 && s[a] == '@' && s[b] == '.' &&
                   Plain(s[..a]) && Plain(s[a + 1..b]) && Plain(s[b + 1..])
  }

  /** A '.' that is neither the first nor the last character. */
  predicate DotInside(d: string)
  {
    exists b :: 0 < b < |d| - 1 && d[b] == '.'
  }

  /** `validateEmail(email)`: no white space, exactly one '@' with
      something before it, and a '.' strictly inside what follows it. */
  predicate ValidateEmail(email: string)
  {
    (forall i :: 0 <= i < |email| ==> !IsSpace(email[i])) &&
    var parts := Split(email, '@');
    |parts| == 2 && parts[0] != "" && DotInside(parts[1])
  }

  /** A text that splits into two pieces is the first, the separator and
      the second, and neither piece holds the separator. */
  lemma TwoPieces(s: string, c: char)
    requires |Split(s, c)| == 2
    ensures s == Split(s, c)[0] + [c] + Split(s, c)[1]
    ensures c !in Split(s, c)[0] && c !in Split(s, c)[1]
  {
    var parts := Split(s, c);
    SplitPieces(s, c);
    JoinSplit(s, c);
    assert parts[1..] == [parts[1]];
    assert Join(parts, [c]) == parts[0] + [c] + Join(parts[1..], [c]);
  }

  lemma PlainSlice(s: string, x: nat, y: nat)
    requires x <= y <= |s|
    requires forall i :: x <= i < y ==> PlainChar(s[i])
    ensures Plain(s[x..y])
  {
    forall j | 0 <= j < y - x
      ensures PlainChar(s[x..y][j])
    {
      assert s[x..y][j] == s[x + j];
    }
  }

  /** Gluing a plain local part to a plain domain with a dot inside gives
      the pattern's shape. */
  lemma JoinedEmailShape(s: string, l: string, d: string)
    requires s == l + "@" + d && l != [] && DotInside(d)
    requires forall i :: 0 <= i < |s| ==> !IsSpace(s[i])
    requires '@' !in l && '@' !in d
    ensures EmailShape(s)
  {
    var b' :| 0 < b' < |d| - 1 && d[b'] == '.';
    var a := |l|;
    var b := a + 1 + b';
    forall i | 0 <= i < |s| && i != a
      ensures PlainChar(s[i])
    {
      if i < a {
        assert s[i] == l[i];
      } else {
        assert s[i] == d[i - a - 1];
      }
    }
    PlainSlice(s, 0, a);
    PlainSlice(s, a + 1, b);
    PlainSlice(s, b + 1, |s|);
    assert s[a] == '@' && s[b] == d[b'];
  }

  /** A text the validator accepts has the shape of the pattern. */
  lemma ValidEmailHasShape(s: string)
    requires ValidateEmail(s)
    ensures EmailShape(s)
  {
    TwoPieces(s, '@');
    JoinedEmailShape(s, Split(s, '@')[0], Split(s, '@')[1]);
  }

  /** A text of the pattern's shape passes the validator. */
  lemma EmailShapeIsValid(s: string, a: nat, b: nat)
    requires 0 < a && a + 1 < b < |s| - 1 && s[a] == '@' && s[b] == '.'
    requires Plain(s[..a]) && Plain(s[a + 1..b]) && Plain(s[b + 1..])
    ensures ValidateEmail(s)
  {
    var l, d := s[..a], s[a + 1..];
    assert s == l + ['@'] + d;
    assert d == s[a + 1..b] + ['.'] + s[b + 1..];
    assert forall i :: 0 <= i < |l| ==> PlainChar(l[i]);
    assert forall i :: 0 <= i < |d| ==> PlainChar(d[i]);
    SplitAfterPiece(l, '@', d);
    SplitNoSeparator(d, '@');
    assert Split(s, '@') == [l, d];
    assert d[b - a - 1] == '.';
    forall i | 0 <= i < |s|
      ensures !IsSpace(s[i])
    {
      if i < a {
        assert s[i] == l[i];
      } else if i > a {
        assert s[i] == d[i - a - 1];
      }
    }
  }

  /** The validator accepts exactly the texts the pattern describes. */
  lemma ValidateEmailIff(s: string)
    ensures ValidateEmail(s) ==> EmailShape(s)
    ensures EmailShape(s) ==> ValidateEmail(s)
  {
    if ValidateEmail(s) {
      ValidEmailHasShape(s);
    }
    if EmailShape(s) {
      var a: nat, b: nat :| 0 < a && a + 1 < b < |s| - 1 && s[a] == '@' && s[b] == '.' &&
                  Plain(s[..a]) && Plain(s[a + 1..b]) && Plain(s[b + 1..]);
      EmailShapeIsValid(s, a, b);
    }
  }

  /** `validateName(name)`: the trimmed name has at least two characters
      and splits on ' ' into at least two pieces. */
  predicate ValidateName(name: string)
  {
    |Trim(name)| >= 2 && |Split(Trim(name), ' ')| >= 2
  }

  /** A name passes exactly when its trimmed text holds a space; the length
      test adds nothing, since a trimmed text that holds a space has
      something on each side of it. */
  lemma ValidateNameIff(name: string)
    ensures ValidateName(name) ==> ' ' in Trim(name)
    ensures ' ' in Trim(name) ==> ValidateName(name)
  {
    var t := Trim(name);
    SplitPieces(t, ' ');
    CountPositive(t, ' ');
    if ' ' in t {
      assert !IsSpace(t[0]) && IsSpace(' ');
      assert t[0] != ' ';
    }
  }

  /** The e-mail error text, fixed in Portuguese in the source. */
  const EmailErrorText := "Digite um email válido"

  /** The error a field shows for `value`: none for an empty or valid value,
      `text` otherwise. */
  function FieldError(value: string, valid: bool, text: string): (e: string)
    ensures value != "" && !valid ==> e == text
    ensures value == "" || valid ==> e == ""
  {
    if value != "" && !valid then text else ""
  }

  /** The modal's form state: the passenger data its parent holds and the
      two error strings of its own state. */
  class PassengerForm {
    /** `t("flight.list.enterFullNameError")`, fixed for the modal's locale. */
    const nameErrorText: string
    var name: string
    var email: string
    var nameError: string
    var emailError: string

    /** The modal opens with the parent's passenger data and no errors. */
    constructor(nameErrorText: string, name: string, email: string)
      ensures this.nameErrorText == nameErrorText && this.name == name && this.email == email
      ensures nameError == "" && emailError == ""
    {
      this.nameErrorText := nameErrorText;
      this.name := name;
      this.email := email;
      nameError := "";
      emailError := "";
    }

    /** Each error is the one its field's current value calls for. */
    ghost predicate Consistent()
      reads this
    {
      nameError == FieldError(name, ValidateName(name), nameErrorText) &&
      emailError == FieldError(email, ValidateEmail(email), EmailErrorText)
    }

    /** `handleNameChange(value)`. */
    method HandleNameChange(value: string)
      modifies this
      ensures name == value && email == old(email) && emailError == old(emailError)
      ensures nameError == FieldError(value, ValidateName(value), nameErrorText)
      ensures old(Consistent()) || old(emailError) == FieldError(email, ValidateEmail(email), EmailErrorText) ==>
                Consistent()
    {
      name := value;
      if value != "" && !ValidateName(value) {
        nameError := nameErrorText;
      } else {
        nameError := "";
      }
    }

    /** `handleEmailChange(value)`. */
    method HandleEmailChange(value: string)
      modifies this
      ensures email == value && name == old(name) && nameError == old(nameError)
      ensures emailError == FieldError(value, ValidateEmail(value), EmailErrorText)
      ensures old(Consistent()) || old(nameError) == FieldError(name, ValidateName(name), nameErrorText) ==>
                Consistent()
    {
      email := value;
      if value != "" && !ValidateEmail(value) {
        emailError := EmailErrorText;
      } else {
        emailError := "";
      }
    }

    /** `isFormValid`. */
    predicate IsFormValid()
      reads this
    {
      name != "" && email != "" && ValidateName(name) && ValidateEmail(email) &&
      nameError == "" && emailError == ""
    }
  }

  /** A valid form has a valid name and e-mail, whatever its errors say;
      once the errors match the fields, that is also enough. The two
      non-empty tests add nothing to the validators. */
  lemma FormValidIff(f: PassengerForm)
    ensures f.IsFormValid() ==> ValidateName(f.name) && ValidateEmail(f.email)
    ensures f.Consistent() && ValidateName(f.name) && ValidateEmail(f.email) ==> f.IsFormValid()
  {
    if ValidateName(f.name) {
      assert f.name != "" by {
        assert |Trim(f.name)| >= 2;
        TrimOfEmpty();
      }
    }
    if ValidateEmail(f.email) {
      assert f.email != "" by {
        assert Split("", '@') == [""];
      }
    }
  }

  lemma TrimOfEmpty()
    ensures Trim("") == ""
  {
  }

  /** After the user has typed into both fields the errors match them, and
      the form is valid exactly when both values pass their validators. */
  method EditBoth(nameErrorText: string, name: string, email: string) returns (valid: bool)
    ensures valid <==> ValidateName(name) && ValidateEmail(email)
  {
    var f := new PassengerForm(nameErrorText, "", "");
    f.HandleNameChange(name);
    f.HandleEmailChange(email);
    FormValidIff(f);
    valid := f.IsFormValid();
  }
}
