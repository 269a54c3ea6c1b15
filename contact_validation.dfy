/**
 * The constraint set of the contact-form data object (src/DTO/ContactMailDTO.php):
 *   email:   NotBlank, Email
 *   message: NotBlank, Length(min: 10, max: 2000)
 * Symfony's validator walks the properties in declaration order and, per
 * property, the constraints in declaration order, so the violations come out
 * as a sequence: the email's, then the message's.
 */
module ContactValidation {

  /** The two public properties of the data object. */
  datatype ContactMailDto = ContactMailDto(email: string, message: string)

  /** One constraint violation: the property it is about and its message. */
  datatype Violation = Violation(propertyPath: string, message: string)

  const EmailPath := "email"
  const MessagePath := "message"

  const MinLength := 10
  const MaxLength := 2000

  // Symfony's default (English) messages for the four constraints.
  const NotBlankMessage := "This value should not be blank."
  const InvalidEmailMessage := "This value is not a valid email address."
  const TooShortMessage := "This value is too short. It should have 10 characters or more."
  const TooLongMessage := "This value is too long. It should have 2000 characters or less."

  /** NotBlank on a string property: only the empty string is blank ("0" and white space are not). */
  predicate IsBlank(s: string) {
    s == ""
  }

  /** Violations of the email property. The Email constraint skips the empty string. */
  function EmailViolations(email: string, isEmail: string -> bool): seq<Violation> {
    (if IsBlank(email) then [Violation(EmailPath, NotBlankMessage)] else [])
    + (if email != "" && !isEmail(email) then [Violation(EmailPath, InvalidEmailMessage)] else [])
  }

  /**
   * Violations of the message property. Length does not skip the empty
   * string, so a blank message is reported twice: blank, then too short.
   * Length counts characters (code points), one per element of a Dafny string.
   */
  function MessageViolations(message: string): seq<Violation> {
    (if IsBlank(message) then [Violation(MessagePath, NotBlankMessage)] else [])
    + (if |message| < MinLength then [Violation(MessagePath, TooShortMessage)]
       else if |message| > MaxLength then [Violation(MessagePath, TooLongMessage)]
       else [])
  }

  /** Some violation in `vs` is about property `path`. */
  predicate HasViolation(vs: seq<Violation>, path: string) {
    exists i :: 0 <= i < |vs| && vs[i].propertyPath == path
  }

  /** A well-formed submission: what the constraint set admits. */
  predicate IsValidSubmission(dto: ContactMailDto, isEmail: string -> bool) {
    && !IsBlank(dto.email) && isEmail(dto.email)
    && !IsBlank(dto.message) && MinLength <= |dto.message| <= MaxLength
  }

  /**
   * The validator applied to one data object. `isEmail` is the address
   * syntax check of Symfony's Email constraint, which is not part of this model.
   */
  function Validate(dto: ContactMailDto, isEmail: string -> bool): (vs: seq<Violation>)
    ensures forall v | v in vs :: v.propertyPath == EmailPath || v.propertyPath == MessagePath
    ensures HasViolation(vs, EmailPath) <==> IsBlank(dto.email) || !isEmail(dto.email)
    ensures HasViolation(vs, MessagePath) <==>
              IsBlank(dto.message) || |dto.message| < MinLength || |dto.message| > MaxLength
    ensures vs == [] <==> IsValidSubmission(dto, isEmail)
    ensures |vs| <= 4
  {
    var e := EmailViolations(dto.email, isEmail);
    var m := MessageViolations(dto.message);
    assert HasViolation(e + m, EmailPath) <==> e != [] by {
      if e != [] { assert (e + m)[0].propertyPath == EmailPath; }
    }
    assert HasViolation(e + m, MessagePath) <==> m != [] by {
      if m != [] { assert (e + m)[|e|].propertyPath == MessagePath; }
    }
    e + m
  }

  /** A blank email is reported once, as blank; the format check does not run on it. */
  lemma BlankEmailReportedOnce(dto: ContactMailDto, isEmail: string -> bool)
    requires IsBlank(dto.email)
    ensures Validate(dto, isEmail)[0] == Violation(EmailPath, NotBlankMessage)
    ensures forall i | 1 <= i < |Validate(dto, isEmail)| :: Validate(dto, isEmail)[i].propertyPath == MessagePath
  {
  }

  /** A blank message is reported twice: as blank, then as too short, in that order. */
  lemma BlankMessageReportedTwice(dto: ContactMailDto, isEmail: string -> bool)
    requires IsBlank(dto.message)
    ensures var vs := Validate(dto, isEmail);
      |vs| >= 2 && vs[|vs| - 2] == Violation(MessagePath, NotBlankMessage)
      && vs[|vs| - 1] == Violation(MessagePath, TooShortMessage)
  {
  }
}
